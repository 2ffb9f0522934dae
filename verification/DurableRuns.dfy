/** Leases of the local queue over whole runs, whatever clocks its callers bring. */
module DurableRuns {
  import opened Common
  import opened ClaimOrder
  import opened DurableQueue

  /** Owner strings ever issued are a history kept for the statements below. */
  datatype World = World(rows: Rows, used: set<string>)

  predicate Holds(r: Row, token: string) {
    r.status.Leased? && r.owner == Some(token)
  }

  /** Every claim draws new, distinct owner strings, one for each row it may take. */
  predicate Fresh(w: World, op: Op) {
    op.Claim? ==>
      && 1 <= op.limit <= 100 && op.limit <= |op.owners|
      && (forall i, k :: 0 <= i < k < |op.owners| ==> op.owners[i] != op.owners[k])
      && (forall t :: t in op.owners ==> t !in w.used)
  }

  function Next(cfg: Config, w: World, op: Op): World {
    World(Apply(cfg, w.rows, op), w.used + if op.Claim? then set t | t in op.owners else {})
  }

  predicate WorldInv(cfg: Config, w: World) {
    && ValidConfig(cfg) && QueueInv(cfg, w.rows)
    && forall id :: id in w.rows && w.rows[id].owner.Some? ==> w.rows[id].owner.value in w.used
  }

  ghost predicate History(cfg: Config, states: seq<World>, ops: seq<Op>) {
    && |states| == |ops| + 1 && WorldInv(cfg, states[0])
    && forall i :: 0 <= i < |ops| ==> Fresh(states[i], ops[i]) && states[i + 1] == Next(cfg, states[i], ops[i])
  }

  // ---------------------------------------------------------------- one step, one lease

  /** The holder gave the job up, or recovery ran at or past the expiry. */
  predicate GaveUp(r: Row, op: Op, token: string) {
    || ((op.Ack? || op.Fail?) && op.id == r.id && op.token == token && r.until.Some? && op.now < r.until.value)
    || (op.Cancel? && op.id == r.id && op.presented == Some(token))
    || ((op.Enqueue? || op.Claim? || op.Recover?) && r.until.Some? && r.until.value <= op.now)
  }

  lemma RecoveredHolds(cfg: Config, rows: Rows, now: real, id: string, token: string)
    requires TableOk(cfg, rows) && id in rows
    ensures var r := RecoverRows(cfg, rows, now);
            && (Holds(r[id], token) ==> Holds(rows[id], token) && r[id] == rows[id])
            && (Holds(rows[id], token) ==> Holds(r[id], token) || (rows[id].until.Some? && rows[id].until.value <= now))
  {
    hide Delay, KeysUnique;
  }

  lemma PrunedHolds(cfg: Config, rows: Rows, preserve: Option<string>, id: string, token: string)
    requires ValidConfig(cfg) && TableOk(cfg, rows)
    ensures var p := Prune(cfg, rows, preserve);
            && (id in p ==> id in rows && p[id] == rows[id])
            && (id in rows && Holds(rows[id], token) ==> id in p)
  {
    hide Prune, TableOk;
    PruneKeeps(cfg, rows, preserve);
  }

  /** After recovery and pruning a lease is as before, or had expired. */
  lemma SweptHolds(cfg: Config, rows: Rows, now: real, preserve: Option<string>, id: string, token: string)
    requires ValidConfig(cfg) && TableOk(cfg, rows)
    ensures var p := Prune(cfg, RecoverRows(cfg, rows, now), preserve);
            && (id in p && Holds(p[id], token) ==> id in rows && Holds(rows[id], token))
            && (id in rows && Holds(rows[id], token) ==>
                  (id in p && Holds(p[id], token)) || (rows[id].until.Some? && rows[id].until.value <= now))
  {
    hide Prune, TableOk, RecoverRow;
    RecoverKeeps(cfg, rows, now);
    PrunedHolds(cfg, RecoverRows(cfg, rows, now), preserve, id, token);
    if id in rows {
      RecoveredHolds(cfg, rows, now, id, token);
    }
  }

  /** A lease appears only where it was, or where a claim has just issued it. */
  lemma HeldFrom(cfg: Config, rows: Rows, op: Op, id: string, token: string)
    requires ValidConfig(cfg) && QueueInv(cfg, rows)
    ensures id in Apply(cfg, rows, op) && Holds(Apply(cfg, rows, op)[id], token) ==>
              (id in rows && Holds(rows[id], token)) || (op.Claim? && token in op.owners)
  {
    hide Prune, TableOk, RecoverRows, GrantRows, GrantedOr, FailRow, First, Active, Terminals;
    match op
    case Enqueue(_, _, _, _, now) => EnqueueHolds(cfg, rows, op, id, token);
    case Claim(owners, limit, now) =>
      SweptHolds(cfg, rows, now, None, id, token);
      ClaimHolds(cfg, rows, op, id, token);
    case Heartbeat(_, _, _) =>
    case Ack(_, _, _) => CloseHolds(cfg, rows, op, id, token);
    case Fail(_, _, _, _) => CloseHolds(cfg, rows, op, id, token);
    case Cancel(_, _, _) => CloseHolds(cfg, rows, op, id, token);
    case Recover(now) => SweptHolds(cfg, rows, now, None, id, token);
  }

  /** A lease disappears only when its holder gives it up or recovery finds it expired. */
  lemma HeldUntil(cfg: Config, rows: Rows, op: Op, id: string, token: string)
    requires ValidConfig(cfg) && QueueInv(cfg, rows) && id in rows && Holds(rows[id], token)
    ensures (id in Apply(cfg, rows, op) && Holds(Apply(cfg, rows, op)[id], token)) || GaveUp(rows[id], op, token)
  {
    IdOf(cfg, rows, id);
    hide Prune, TableOk, RecoverRows, GrantRows, GrantedOr, FailRow, First, Active, Terminals;
    match op
    case Enqueue(_, _, _, _, now) => EnqueueHolds(cfg, rows, op, id, token);
    case Claim(owners, limit, now) =>
      SweptHolds(cfg, rows, now, None, id, token);
      ClaimHolds(cfg, rows, op, id, token);
    case Heartbeat(_, _, _) =>
    case Ack(_, _, _) => CloseHolds(cfg, rows, op, id, token);
    case Fail(_, _, _, _) => CloseHolds(cfg, rows, op, id, token);
    case Cancel(_, _, _) => CloseHolds(cfg, rows, op, id, token);
    case Recover(now) => SweptHolds(cfg, rows, now, None, id, token);
  }

  lemma IdOf(cfg: Config, rows: Rows, id: string)
    requires QueueInv(cfg, rows) && id in rows
    ensures rows[id].id == id && RowOk(cfg, rows[id])
  {
    hide RowOk, KeysUnique;
  }

  lemma EnqueueHolds(cfg: Config, rows: Rows, op: Op, id: string, token: string)
    requires ValidConfig(cfg) && QueueInv(cfg, rows) && op.Enqueue?
    ensures var a := Apply(cfg, rows, op);
            && (id in a && Holds(a[id], token) ==> id in rows && Holds(rows[id], token))
            && (id in rows && Holds(rows[id], token) ==>
                  (id in a && Holds(a[id], token)) || (rows[id].until.Some? && rows[id].until.value <= op.now))
  {
    hide Prune, RowsOk, KeysUnique, RecoverRow, Active, Terminals;
    SweptHolds(cfg, rows, op.now, Some(op.id), id, token);
    var recovered := RecoverRows(cfg, rows, op.now);
    RecoverKeeps(cfg, rows, op.now);
    if Commit(cfg, rows, op).Ok? && op.id !in recovered {
      var row := Row(op.id, op.key, op.payload, op.scope, Queued, 0, op.now, None, None, op.now, op.now, None);
      NewRowOk(cfg, row);
      InsertKeeps(cfg, recovered, row);
      PrunedHolds(cfg, recovered[op.id := row], Some(op.id), id, token);
      if id in rows {
        RecoveredHolds(cfg, rows, op.now, id, token);
      }
    }
  }

  lemma ClaimHolds(cfg: Config, rows: Rows, op: Op, id: string, token: string)
    requires ValidConfig(cfg) && QueueInv(cfg, rows) && op.Claim?
    ensures var kept, a := Prune(cfg, RecoverRows(cfg, rows, op.now), None), Apply(cfg, rows, op);
            && (id in a && Holds(a[id], token) ==> (id in kept && Holds(kept[id], token)) || token in op.owners)
            && (id in kept && Holds(kept[id], token) ==> id in a && a[id] == kept[id])
            && (id in a ==> id in kept && GrantedOr(cfg, kept[id], a[id], op.owners))
  {
    hide Prune, RecoverRows, GrantRows, First, RowsOk, KeysUnique;
    RecoverKeeps(cfg, rows, op.now);
    PruneKeeps(cfg, RecoverRows(cfg, rows, op.now), None);
    var kept := Prune(cfg, RecoverRows(cfg, rows, op.now), None);
    GrantKeeps(cfg, kept, First(ClaimKeys(kept, op.now), op.limit), op.owners, op.now);
  }

  lemma CloseHolds(cfg: Config, rows: Rows, op: Op, id: string, token: string)
    requires ValidConfig(cfg) && QueueInv(cfg, rows) && (op.Ack? || op.Fail? || op.Cancel?)
    ensures var a := Apply(cfg, rows, op);
            && (id in a && Holds(a[id], token) ==> id in rows && Holds(rows[id], token))
            && (id in rows && Holds(rows[id], token) ==> (id in a && Holds(a[id], token)) || GaveUp(rows[id], op, token))
  {
    hide Prune, TableOk, Delay;
    if Commit(cfg, rows, op).Ok? {
      IdOf(cfg, rows, op.id);
      var r := rows[op.id];
      var closed := if op.Ack? then Close(r, Acked, op.now)
                    else if op.Fail? then FailRow(cfg, r, op.error, op.now)
                    else if r.status.Terminal() then r else Close(r, Cancelled, op.now);
      UpdateKeeps(cfg, rows, op.id, closed);
      var next := rows[op.id := closed];
      assert closed == r ==> next == rows;
      PrunedHolds(cfg, next, if op.Fail? && !closed.status.Dead? then None else Some(op.id), id, token);
    }
  }

  // ---------------------------------------------------------------- runs

  lemma NextKeeps(cfg: Config, w: World, op: Op)
    requires WorldInv(cfg, w)
    ensures WorldInv(cfg, Next(cfg, w, op)) && w.used <= Next(cfg, w, op).used
  {
    hide QueueInv, Apply, Holds;
    ApplyKeeps(cfg, w.rows, op);
    var a := Apply(cfg, w.rows, op);
    forall id | id in a && a[id].owner.Some? ensures a[id].owner.value in Next(cfg, w, op).used {
      HeldFrom(cfg, w.rows, op, id, a[id].owner.value);
      IdOf(cfg, a, id);
      OwnedHolds(cfg, a[id], a[id].owner.value);
      if id in w.rows {
        HolderOf(w.rows[id], a[id].owner.value);
      }
    }
  }

  lemma OwnedHolds(cfg: Config, r: Row, token: string)
    requires RowOk(cfg, r) && r.owner == Some(token)
    ensures Holds(r, token)
  {
  }

  lemma HolderOf(r: Row, token: string)
    ensures Holds(r, token) ==> r.owner == Some(token)
  {
  }

  lemma {:induction false} HistoryKeeps(cfg: Config, states: seq<World>, ops: seq<Op>, n: nat)
    requires History(cfg, states, ops) && n <= |ops|
    ensures WorldInv(cfg, states[n])
  {
    hide WorldInv, Fresh, Next;
    if n > 0 {
      HistoryKeeps(cfg, states, ops, n - 1);
      NextKeeps(cfg, states[n - 1], ops[n - 1]);
    }
  }

  ghost predicate HeldAt(w: World, id: string, token: string) {
    id in w.rows && Holds(w.rows[id], token)
  }

  /** An owner string that does not hold a job never holds it again. */
  lemma {:induction false} SupersededStaysOut(
      cfg: Config, states: seq<World>, ops: seq<Op>, n: nat, m: nat, id: string, token: string)
    requires History(cfg, states, ops) && n <= m <= |ops|
    requires token in states[n].used && !HeldAt(states[n], id, token)
    ensures token in states[m].used && !HeldAt(states[m], id, token)
    decreases m - n
  {
    hide WorldInv, Apply, Holds;
    if n < m {
      HistoryKeeps(cfg, states, ops, n);
      NextKeeps(cfg, states[n], ops[n]);
      WorldGives(cfg, states[n]);
      HeldFrom(cfg, states[n].rows, ops[n], id, token);
      SupersededStaysOut(cfg, states, ops, n + 1, m, id, token);
    }
  }

  lemma WorldGives(cfg: Config, w: World)
    requires WorldInv(cfg, w)
    ensures ValidConfig(cfg) && QueueInv(cfg, w.rows)
  {
    hide QueueInv;
  }

  /** A heartbeat, acknowledgement or failure without the lease is refused and changes nothing. */
  lemma StrangerRefused(cfg: Config, rows: Rows, op: Op)
    requires op.Heartbeat? || op.Ack? || op.Fail?
    requires op.id in rows ==> !Holds(rows[op.id], op.token)
    ensures Commit(cfg, rows, op).Err? && Apply(cfg, rows, op) == rows
  {
  }

  /** A leased job is cancelled only by its holder. */
  lemma StrangerCannotCancel(cfg: Config, rows: Rows, op: Op)
    requires op.Cancel? && op.id in rows && rows[op.id].status.Leased?
    requires op.presented.None? || !Holds(rows[op.id], op.presented.value)
    ensures Commit(cfg, rows, op) == Err(LeaseError) && Apply(cfg, rows, op) == rows
  {
  }

  /** An operation on this job that presents this owner string. */
  predicate Presents(op: Op, id: string, token: string) {
    || ((op.Heartbeat? || op.Ack? || op.Fail?) && op.id == id && op.token == token)
    || (op.Cancel? && op.id == id && op.presented == Some(token))
  }

  /**
   Fencing of the local queue: once an owner string has lost its job, no later heartbeat,
   acknowledgement or failure presenting it changes the table, and no cancellation does
   while another owner has the job leased.
   */
  lemma SupersededNeverActs(
      cfg: Config, states: seq<World>, ops: seq<Op>, n: nat, m: nat, id: string, token: string)
    requires History(cfg, states, ops) && n <= m < |ops|
    requires token in states[n].used && !HeldAt(states[n], id, token)
    requires Presents(ops[m], id, token)
    requires ops[m].Cancel? ==> id in states[m].rows && states[m].rows[id].status.Leased?
    ensures Commit(cfg, states[m].rows, ops[m]).Err? && states[m + 1].rows == states[m].rows
  {
    hide WorldInv, Apply, Holds, Commit;
    SupersededStaysOut(cfg, states, ops, n, m, id, token);
    if ops[m].Cancel? {
      StrangerCannotCancel(cfg, states[m].rows, ops[m]);
    } else {
      StrangerRefused(cfg, states[m].rows, ops[m]);
    }
  }

  // ---------------------------------------------------------------- cancellation asks for the owner, not for the lease

  /** A cancellation commits exactly when the job is there and, if leased, its owner asks, whatever the clock says. */
  lemma CancelExact(cfg: Config, rows: Rows, op: Op)
    requires ValidConfig(cfg) && QueueInv(cfg, rows) && op.Cancel?
    ensures Commit(cfg, rows, op).Ok? <==>
            && op.id in rows
            && (rows[op.id].status.Leased? ==> op.presented.Some? && Holds(rows[op.id], op.presented.value))
    ensures Commit(cfg, rows, op).Ok? ==>
              && op.id in Apply(cfg, rows, op)
              && Apply(cfg, rows, op)[op.id] == if rows[op.id].status.Terminal() then rows[op.id]
                                                else Close(rows[op.id], Cancelled, op.now)
  {
    hide Prune, TableOk;
    if Commit(cfg, rows, op).Ok? {
      IdOf(cfg, rows, op.id);
      var r := rows[op.id];
      var closed := if r.status.Terminal() then r else Close(r, Cancelled, op.now);
      UpdateKeeps(cfg, rows, op.id, closed);
      assert closed == r ==> rows[op.id := closed] == rows;
      PruneKeeps(cfg, rows[op.id := closed], Some(op.id));
    }
  }

  /** Of all that the holder of an expired lease may try before recovery runs, the cancellation commits and nothing else does. */
  lemma ExpiredHolderActsIff(cfg: Config, rows: Rows, op: Op, id: string, token: string)
    requires ValidConfig(cfg) && QueueInv(cfg, rows) && id in rows && Holds(rows[id], token)
    requires Presents(op, id, token) && rows[id].until.Some? && rows[id].until.value <= op.now
    ensures !Owned(rows, id, token, op.now)
    ensures Commit(cfg, rows, op).Ok? <==> op.Cancel?
    ensures op.Cancel? ==> id in Apply(cfg, rows, op) && Apply(cfg, rows, op)[id].status.Cancelled?
    ensures !op.Cancel? ==> Apply(cfg, rows, op) == rows
  {
    hide Prune, QueueInv;
    if op.Cancel? {
      CancelExact(cfg, rows, op);
    }
  }

  /** A lease that ended at 1.0 cannot be renewed, acknowledged or failed at 2.0, and its holder still cancels the job. */
  lemma ExpiredHolderCancels()
    ensures var cfg := Config(4, 4, 3, 1.0, 1.0);
            var row := Row("j", "k", map[], ("", "", ""), Leased, 1, 0.0, Some(1.0), Some("w"), 0.0, 0.0, None);
            var rows := map["j" := row];
            && ValidConfig(cfg) && QueueInv(cfg, rows) && Expired(row, 2.0) && !Owned(rows, "j", "w", 2.0)
            && Commit(cfg, rows, Heartbeat("j", "w", 2.0)).Err? && Commit(cfg, rows, Ack("j", "w", 2.0)).Err?
            && Commit(cfg, rows, Fail("j", "w", "", 2.0)).Err?
            && Commit(cfg, rows, Op.Cancel("j", Some("w"), 2.0)).Ok?
            && Apply(cfg, rows, Op.Cancel("j", Some("w"), 2.0)) == map["j" := Close(row, Cancelled, 2.0)]
  {
    hide Prune;
    var cfg := Config(4, 4, 3, 1.0, 1.0);
    var row := Row("j", "k", map[], ("", "", ""), Leased, 1, 0.0, Some(1.0), Some("w"), 0.0, 0.0, None);
    var rows := map["j" := row];
    assert Active(rows) == {"j"} && Terminals(rows) == {};
    var cancel := Op.Cancel("j", Some("w"), 2.0);
    CancelExact(cfg, rows, cancel);
    UpdateKeeps(cfg, rows, "j", Close(row, Cancelled, 2.0));
    PruneKeeps(cfg, rows["j" := Close(row, Cancelled, 2.0)], Some("j"));
  }

  /**
   A job passes to a second owner only after the first gave it up or recovery ran
   at or past the first lease's last expiry.
   */
  lemma {:induction false} SecondGrant(
      cfg: Config, states: seq<World>, ops: seq<Op>, n: nat, m: nat, id: string, first: string)
    requires History(cfg, states, ops) && n <= m <= |ops|
    requires HeldAt(states[n], id, first) && !HeldAt(states[m], id, first)
    ensures exists k :: n <= k < m && HeldAt(states[k], id, first) && GaveUp(states[k].rows[id], ops[k], first)
    decreases m - n
  {
    hide WorldInv, Apply, Holds, GaveUp;
    HistoryKeeps(cfg, states, ops, n);
    WorldGives(cfg, states[n]);
    HeldUntil(cfg, states[n].rows, ops[n], id, first);
    if !HeldAt(states[n + 1], id, first) {
      assert HeldAt(states[n], id, first) && GaveUp(states[n].rows[id], ops[n], first);
    } else {
      SecondGrant(cfg, states, ops, n + 1, m, id, first);
    }
  }

  // ---------------------------------------------------------------- durations

  /** A granted or renewed lease may act exactly until its term ends. */
  lemma LeaseLasts(cfg: Config, rows: Rows, op: Op, id: string, token: string, t: real)
    requires ValidConfig(cfg) && QueueInv(cfg, rows)
    requires (op.Claim? && token in op.owners && (id in rows ==> !Holds(rows[id], token))) || (op.Heartbeat? && op.id == id && op.token == token)
    requires op.Heartbeat? ==> Commit(cfg, rows, op).Ok?
    requires id in Apply(cfg, rows, op) && Holds(Apply(cfg, rows, op)[id], token)
    ensures Owned(Apply(cfg, rows, op), id, token, t) <==> t < op.now + cfg.leaseSeconds
  {
    hide Prune, RecoverRows, First, RowsOk, KeysUnique, GrantRows;
    if op.Claim? {
      var kept := Prune(cfg, RecoverRows(cfg, rows, op.now), None);
      SweptHolds(cfg, rows, op.now, None, id, token);
      RecoverKeeps(cfg, rows, op.now);
      PruneKeeps(cfg, RecoverRows(cfg, rows, op.now), None);
      GrantTerm(cfg, kept, First(ClaimKeys(kept, op.now), op.limit), op.owners, op.now, id);
    }
  }

  lemma {:induction false} GrantTerm(cfg: Config, rows: Rows, ks: seq<Key>, owners: seq<string>, now: real, id: string)
    ensures var g := GrantRows(cfg, rows, ks, owners, now);
            id in g ==> id in rows && (g[id] == rows[id] || g[id].until == Some(now + cfg.leaseSeconds))
  {
    if ks != [] && owners != [] {
      var x := ks[0].id;
      var next := if x in rows && rows[x].status.Queued? then rows[x := GrantRow(cfg, rows[x], owners[0], now)] else rows;
      GrantTerm(cfg, next, ks[1..], owners[1..], now, id);
    }
  }

  /** A failed job is requeued exactly while budget remains, and no claim sees it before its delay is over. */
  lemma BackoffHolds(cfg: Config, rows: Rows, op: Op, t: real)
    requires ValidConfig(cfg) && QueueInv(cfg, rows) && op.Fail? && Commit(cfg, rows, op).Ok?
    ensures var a := Apply(cfg, rows, op);
            && op.id in a && op.id in rows
            && (a[op.id].status.Queued? <==> rows[op.id].attempts < cfg.maxAttempts)
            && (a[op.id].status.Queued? || a[op.id].status.Dead?)
            && ((exists k :: k in ClaimKeys(a, t) && k.id == op.id) <==>
                  a[op.id].status.Queued? && op.now + Delay(cfg, rows[op.id].attempts) <= t)
  {
    hide Prune, RowsOk, KeysUnique, Delay;
    IdOf(cfg, rows, op.id);
    var failed := FailRow(cfg, rows[op.id], op.error, op.now);
    UpdateKeeps(cfg, rows, op.id, failed);
    PruneKeeps(cfg, rows[op.id := failed], if failed.status.Dead? then Some(op.id) else None);
    var a := Apply(cfg, rows, op);
    KeysById(cfg, a, op.id, t);
  }

  lemma KeysById(cfg: Config, rows: Rows, id: string, t: real)
    requires TableOk(cfg, rows) && id in rows
    ensures (exists k :: k in ClaimKeys(rows, t) && k.id == id) <==> rows[id].status.Queued? && rows[id].availableAt <= t
  {
    hide RowOk, KeysUnique;
    if rows[id].status.Queued? && rows[id].availableAt <= t {
      var k := Key(false, rows[id].createdAt, rows[id].createdAt, rows[id].id);
      assert k in ClaimKeys(rows, t) && k.id == id;
    }
  }

  // ---------------------------------------------------------------- retry budget

  /** A claim that took the job. */
  predicate Taken(cfg: Config, w: World, op: Op, id: string) {
    op.Claim? && id in Apply(cfg, w.rows, op) && Apply(cfg, w.rows, op)[id].owner.Some?
    && Apply(cfg, w.rows, op)[id].owner.value in op.owners
  }

  ghost function Claims(cfg: Config, states: seq<World>, ops: seq<Op>, id: string, n: nat, m: nat): nat
    requires |states| == |ops| + 1 && n <= m <= |ops|
  {
    if n == m then 0
    else Claims(cfg, states, ops, id, n, m - 1) + if Taken(cfg, states[m - 1], ops[m - 1], id) then 1 else 0
  }

  /** Attempts never fall while a row survives, and each claim that takes it spends one. */
  lemma AttemptsSpent(cfg: Config, w: World, op: Op, id: string)
    requires WorldInv(cfg, w) && Fresh(w, op) && id in w.rows && id in Apply(cfg, w.rows, op)
    ensures w.rows[id].attempts + (if Taken(cfg, w, op, id) then 1 else 0) <= Apply(cfg, w.rows, op)[id].attempts
  {
    hide QueueInv, Apply, Rank;
    ApplyKeeps(cfg, w.rows, op);
    if op.Heartbeat? {
      hide ValidConfig;
      HeartbeatAttempts(cfg, w.rows, op, id);
    } else if op.Claim? {
      TakenSpends(cfg, w, op, id);
    }
  }

  lemma HeartbeatAttempts(cfg: Config, rows: Rows, op: Op, id: string)
    requires op.Heartbeat? && id in rows
    ensures id in Apply(cfg, rows, op) && Apply(cfg, rows, op)[id].attempts == rows[id].attempts
  {
  }

  lemma TakenSpends(cfg: Config, w: World, op: Op, id: string)
    requires WorldInv(cfg, w) && Fresh(w, op) && op.Claim? && id in w.rows && id in Apply(cfg, w.rows, op)
    ensures w.rows[id].attempts + (if Taken(cfg, w, op, id) then 1 else 0) <= Apply(cfg, w.rows, op)[id].attempts
  {
    var kept := Prune(cfg, RecoverRows(cfg, w.rows, op.now), None);
    var token := if Apply(cfg, w.rows, op)[id].owner.Some? then Apply(cfg, w.rows, op)[id].owner.value else "";
    hide Prune, Apply, QueueInv, Rank, RowOk;
    ClaimHolds(cfg, w.rows, op, id, token);
    KeptRow(cfg, w.rows, op.now, id);
    assert w.rows[id].owner.Some? ==> w.rows[id].owner.value !in op.owners;
  }

  /** Recovery and pruning leave the attempts and any remaining owner as they were. */
  lemma KeptRow(cfg: Config, rows: Rows, now: real, id: string)
    requires ValidConfig(cfg) && QueueInv(cfg, rows) && id in rows
    ensures var kept := Prune(cfg, RecoverRows(cfg, rows, now), None);
            id in kept ==> kept[id].attempts == rows[id].attempts && (kept[id].owner.Some? ==> kept[id].owner == rows[id].owner)
  {
    hide Prune, RowsOk, KeysUnique, Delay;
    RecoverKeeps(cfg, rows, now);
    PruneKeeps(cfg, RecoverRows(cfg, rows, now), None);
  }

  /** As long as a job is retained it is claimed at most max_attempts times. */
  lemma {:induction false} ClaimedWithinBudget(
      cfg: Config, states: seq<World>, ops: seq<Op>, id: string, n: nat, m: nat)
    requires History(cfg, states, ops) && n <= m <= |ops|
    requires forall k :: n <= k <= m ==> id in states[k].rows
    ensures states[n].rows[id].attempts + Claims(cfg, states, ops, id, n, m) <= states[m].rows[id].attempts <= cfg.maxAttempts
    decreases m - n
  {
    hide WorldInv, Apply, Fresh, Taken;
    HistoryKeeps(cfg, states, ops, m);
    WorldGives(cfg, states[m]);
    IdOf(cfg, states[m].rows, id);
    if n < m {
      HistoryKeeps(cfg, states, ops, m - 1);
      ClaimedWithinBudget(cfg, states, ops, id, n, m - 1);
      AttemptsSpent(cfg, states[m - 1], ops[m - 1], id);
    }
  }

  /** Every reachable table satisfies the bounds. */
  lemma ReachableInv(cfg: Config, states: seq<World>, ops: seq<Op>, n: nat)
    requires ValidConfig(cfg) && |states| == |ops| + 1 && states[0] == World(map[], {}) && n <= |ops|
    requires forall i :: 0 <= i < |ops| ==> Fresh(states[i], ops[i]) && states[i + 1] == Next(cfg, states[i], ops[i])
    ensures QueueInv(cfg, states[n].rows)
  {
    assert WorldInv(cfg, World(map[], {})) by {
      assert Active(map[]) == {} && Terminals(map[]) == {};
    }
    hide WorldInv, Next, Fresh;
    HistoryKeeps(cfg, states, ops, n);
    WorldGives(cfg, states[n]);
  }
}
