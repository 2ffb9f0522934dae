/**
 The local durable queue: one table changed in place inside transactions, with a
 bounded set of active rows, a bounded window of terminal rows and a retry budget.
 */
module DurableQueue {
  import opened Common
  import opened ClaimOrder

  datatype Status = Queued | Leased | Acked | Dead | Cancelled {
    predicate Terminal() {
      Acked? || Dead? || Cancelled?
    }
  }

  datatype Row = Row(
    id: string, key: string, payload: map<string, string>, scope: (string, string, string),
    status: Status, attempts: nat, availableAt: real, until: Option<real>, owner: Option<string>,
    createdAt: real, updatedAt: real, lastError: Option<string>)

  type Rows = map<string, Row>

  datatype Config = Config(maxPending: nat, maxTerminal: nat, maxAttempts: nat, leaseSeconds: Time, backoffSeconds: Time)

  datatype Error = IdempotencyError | CapacityError | NotFoundError | LeaseError

  predicate ValidConfig(cfg: Config) {
    0 < cfg.maxPending && 0 < cfg.maxTerminal && 0 < cfg.maxAttempts <= 64
  }

  // ---------------------------------------------------------------- single rows

  function Delay(cfg: Config, attempts: nat): real {
    Capped(cfg.backoffSeconds, if attempts == 0 then 0 else attempts - 1, 86_400.0)
  }

  function Close(r: Row, status: Status, now: real): Row {
    r.(status := status, until := None, owner := None, updatedAt := now)
  }

  predicate Expired(r: Row, now: real) {
    r.status.Leased? && r.until.Some? && r.until.value <= now
  }

  function RecoverRow(cfg: Config, r: Row, now: real): Row {
    if !Expired(r, now) then r
    else if cfg.maxAttempts <= r.attempts then Close(r, Dead, now).(lastError := Some("lease_expired"))
    else Close(r, Queued, now).(availableAt := now + Delay(cfg, r.attempts), lastError := Some("lease_expired"))
  }

  function FailRow(cfg: Config, r: Row, error: string, now: real): Row {
    if cfg.maxAttempts <= r.attempts then Close(r, Dead, now).(availableAt := now, lastError := Some(error))
    else Close(r, Queued, now).(availableAt := now + Delay(cfg, r.attempts), lastError := Some(error))
  }

  function GrantRow(cfg: Config, r: Row, owner: string, now: real): Row {
    r.(status := Leased, attempts := r.attempts + 1, until := Some(now + cfg.leaseSeconds), owner := Some(owner), updatedAt := now)
  }

  predicate Owned(rows: Rows, id: string, token: string, now: real) {
    && id in rows && rows[id].status.Leased? && rows[id].owner == Some(token)
    && rows[id].until.Some? && now < rows[id].until.value
  }

  // ---------------------------------------------------------------- whole table

  function RecoverRows(cfg: Config, rows: Rows, now: real): Rows {
    map id | id in rows :: RecoverRow(cfg, rows[id], now)
  }

  function Active(rows: Rows): set<string> {
    set id | id in rows && !rows[id].status.Terminal()
  }

  function Terminals(rows: Rows): set<string> {
    set id | id in rows && rows[id].status.Terminal()
  }

  function AgeKey(r: Row): Key {
    Key(false, r.updatedAt, r.createdAt, r.id)
  }

  function Prunable(rows: Rows, preserve: Option<string>): set<Key> {
    set id | id in rows && rows[id].status.Terminal() && preserve != Some(id) :: AgeKey(rows[id])
  }

  function Excess(cfg: Config, rows: Rows): nat {
    if |Terminals(rows)| <= cfg.maxTerminal then 0 else |Terminals(rows)| - cfg.maxTerminal
  }

  /** The oldest terminal rows beyond the window, the preserved one excepted. */
  function Victims(cfg: Config, rows: Rows, preserve: Option<string>): set<string> {
    IdsOf(First(Prunable(rows, preserve), Excess(cfg, rows)))
  }

  function Prune(cfg: Config, rows: Rows, preserve: Option<string>): Rows {
    rows - Victims(cfg, rows, preserve)
  }

  function ClaimKeys(rows: Rows, now: real): set<Key> {
    set id | id in rows && rows[id].status.Queued? && rows[id].availableAt <= now ::
      Key(false, rows[id].createdAt, rows[id].createdAt, rows[id].id)
  }

  function GrantRows(cfg: Config, rows: Rows, ks: seq<Key>, owners: seq<string>, now: real): Rows {
    if ks == [] || owners == [] then rows
    else
      var id := ks[0].id;
      GrantRows(cfg, if id in rows && rows[id].status.Queued? then rows[id := GrantRow(cfg, rows[id], owners[0], now)] else rows,
                ks[1..], owners[1..], now)
  }

  // ---------------------------------------------------------------- transactions

  datatype Op =
    | Enqueue(id: string, key: string, payload: map<string, string>, scope: (string, string, string), now: real)
    | Claim(owners: seq<string>, limit: nat, now: real)
    | Heartbeat(id: string, token: string, now: real)
    | Ack(id: string, token: string, now: real)
    | Fail(id: string, token: string, error: string, now: real)
    | Cancel(id: string, presented: Option<string>, now: real)
    | Recover(now: real)

  /** The table a committed transaction leaves; None when it raises and rolls back. */
  function Commit(cfg: Config, rows: Rows, op: Op): Result<Rows, Error> {
    match op
    case Enqueue(id, key, payload, scope, now) =>
      var recovered := RecoverRows(cfg, rows, now);
      if exists k :: k in recovered && recovered[k].key == key then
        if id in recovered && recovered[id].key == key && recovered[id].payload == payload
        then Ok(Prune(cfg, recovered, Some(id))) else Err(IdempotencyError)
      else if cfg.maxPending <= |Active(recovered)| then Err(CapacityError)
      else if id in recovered then Err(IdempotencyError)
      else
        var row := Row(id, key, payload, scope, Queued, 0, now, None, None, now, now, None);
        Ok(Prune(cfg, recovered[id := row], Some(id)))
    case Claim(owners, limit, now) =>
      var kept := Prune(cfg, RecoverRows(cfg, rows, now), None);
      Ok(GrantRows(cfg, kept, First(ClaimKeys(kept, now), limit), owners, now))
    case Heartbeat(id, token, now) =>
      if Owned(rows, id, token, now) then Ok(rows[id := rows[id].(until := Some(now + cfg.leaseSeconds), updatedAt := now)])
      else if id !in rows then Err(NotFoundError)
      else Err(LeaseError)
    case Ack(id, token, now) =>
      if Owned(rows, id, token, now) then Ok(Prune(cfg, rows[id := Close(rows[id], Acked, now)], Some(id)))
      else Err(LeaseError)
    case Fail(id, token, error, now) =>
      if Owned(rows, id, token, now) then
        var failed := FailRow(cfg, rows[id], error, now);
        Ok(Prune(cfg, rows[id := failed], if failed.status.Dead? then Some(id) else None))
      else Err(LeaseError)
    case Cancel(id, presented, now) =>
      if id !in rows then Err(NotFoundError)
      else if rows[id].status.Leased? && (presented.None? || rows[id].owner != presented) then Err(LeaseError)
      else Ok(Prune(cfg, if rows[id].status.Terminal() then rows else rows[id := Close(rows[id], Cancelled, now)], Some(id)))
    case Recover(now) => Ok(Prune(cfg, RecoverRows(cfg, rows, now), None))
  }

  function Apply(cfg: Config, rows: Rows, op: Op): Rows {
    var r := Commit(cfg, rows, op);
    if r.Ok? then r.value else rows
  }

  // ---------------------------------------------------------------- invariant

  predicate RowOk(cfg: Config, r: Row) {
    && (r.status.Leased? <==> r.owner.Some?) && (r.status.Leased? <==> r.until.Some?)
    && r.attempts <= cfg.maxAttempts
    && (r.status.Queued? ==> r.attempts < cfg.maxAttempts)
    && (r.status.Leased? ==> 1 <= r.attempts)
  }

  predicate RowsOk(cfg: Config, rows: Rows) {
    forall id :: id in rows ==> rows[id].id == id && RowOk(cfg, rows[id])
  }

  predicate KeysUnique(rows: Rows) {
    forall a, b :: a in rows && b in rows && rows[a].key == rows[b].key ==> a == b
  }

  predicate TableOk(cfg: Config, rows: Rows) {
    RowsOk(cfg, rows) && KeysUnique(rows)
  }

  predicate QueueInv(cfg: Config, rows: Rows) {
    && TableOk(cfg, rows)
    && |Active(rows)| <= cfg.maxPending
    && |Terminals(rows)| <= cfg.maxTerminal
  }

  /** How far a job is from its end: it falls with every step but a heartbeat. */
  function Rank(cfg: Config, r: Row): int {
    if r.status.Terminal() then 0
    else 2 * (cfg.maxAttempts - r.attempts) + if r.status.Leased? then 1 else 0
  }

  predicate SameJob(a: Row, b: Row) {
    a.id == b.id && a.key == b.key && a.payload == b.payload && a.scope == b.scope && a.createdAt == b.createdAt
  }

  /** One transaction on one surviving row: untouched, or the same job further down. */
  predicate Descends(cfg: Config, a: Row, b: Row) {
    a == b || (SameJob(a, b) && Rank(cfg, b) < Rank(cfg, a) && a.attempts <= b.attempts)
  }

  /** Every surviving row descends, and identities are kept. */
  predicate TableDescends(cfg: Config, a: Rows, b: Rows) {
    forall id :: id in a && id in b ==> Descends(cfg, a[id], b[id])
  }

  lemma RecoverRowKeeps(cfg: Config, r: Row, now: real)
    requires RowOk(cfg, r)
    ensures var r' := RecoverRow(cfg, r, now);
            && RowOk(cfg, r') && SameJob(r, r') && Descends(cfg, r, r') && (r.status.Terminal() ==> r' == r)
  {
    hide Delay;
  }

  lemma RecoverKeeps(cfg: Config, rows: Rows, now: real)
    requires TableOk(cfg, rows)
    ensures var r := RecoverRows(cfg, rows, now);
            TableOk(cfg, r) && r.Keys == rows.Keys && TableDescends(cfg, rows, r) && Active(r) <= Active(rows)
  {
    hide RecoverRow, RowOk, Descends;
    var r := RecoverRows(cfg, rows, now);
    forall id | id in rows
      ensures RowOk(cfg, r[id]) && SameJob(rows[id], r[id]) && Descends(cfg, rows[id], r[id])
      ensures rows[id].status.Terminal() ==> r[id] == rows[id]
    {
      RecoverRowKeeps(cfg, rows[id], now);
    }
  }

  /** A row offers one key, so keys and rows are equally many. */
  lemma {:induction false} KeysPerRow(rows: Rows, ids: set<string>)
    requires forall id :: id in ids ==> id in rows && rows[id].id == id
    ensures |set id | id in ids :: AgeKey(rows[id])| == |ids|
    decreases ids
  {
    var keys := set id | id in ids :: AgeKey(rows[id]);
    if ids != {} {
      var x :| x in ids;
      KeysPerRow(rows, ids - {x});
      assert keys == (set id | id in ids - {x} :: AgeKey(rows[id])) + {AgeKey(rows[x])};
    } else {
      assert keys == {};
    }
  }

  /** Distinct keys of distinct rows, counted by id. */
  lemma {:induction false} IdsPerKey(ks: seq<Key>)
    requires forall i, k :: 0 <= i < k < |ks| ==> ks[i].id != ks[k].id
    ensures |IdsOf(ks)| == |ks|
  {
    if ks != [] {
      var n := |ks| - 1;
      IdsPerKey(ks[..n]);
      IdsPush(ks[..n], ks[n]);
      assert ks == ks[..n] + [ks[n]];
      hide IdsOf;
      assert forall i :: 0 <= i < n ==> ks[..n][i].id != ks[n].id;
    }
  }

  lemma IdsPush(ks: seq<Key>, k: Key)
    ensures IdsOf(ks + [k]) == IdsOf(ks) + {k.id}
    ensures k.id in IdsOf(ks) ==> exists i :: 0 <= i < |ks| && ks[i].id == k.id
  {
    forall id | id in IdsOf(ks) + {k.id} ensures id in IdsOf(ks + [k]) {
      if id in IdsOf(ks) {
        var x :| x in ks && x.id == id;
        assert x in ks + [k];
      } else {
        assert k in ks + [k];
      }
    }
  }

  function Unpreserved(rows: Rows, preserve: Option<string>): set<string> {
    Terminals(rows) - (if preserve.Some? then {preserve.value} else {})
  }

  /** There are always enough prunable rows: the window leaves room for the preserved one. */
  lemma PrunableSize(cfg: Config, rows: Rows, preserve: Option<string>)
    requires ValidConfig(cfg) && RowsOk(cfg, rows)
    ensures Excess(cfg, rows) <= |Prunable(rows, preserve)|
  {
    hide RowOk;
    var ids := Unpreserved(rows, preserve);
    KeysPerRow(rows, ids);
    assert Prunable(rows, preserve) == set id | id in ids :: AgeKey(rows[id]);
    AllButOne(Terminals(rows), if preserve.Some? then {preserve.value} else {});
  }

  lemma AllButOne(all: set<string>, out: set<string>)
    requires |out| <= 1
    ensures |all| - 1 <= |all - out| && (all - out == all || out != {})
  {
    assert all == (all - out) + (all * out);
    SubsetSize(all * out, out);
  }

  lemma PrunableKey(cfg: Config, rows: Rows, preserve: Option<string>, n: nat, k: Key)
    requires RowsOk(cfg, rows) && k in First(Prunable(rows, preserve), n)
    ensures k.id in Terminals(rows) && preserve != Some(k.id) && k == AgeKey(rows[k.id])
  {
    hide RowOk, First;
    FirstElems(Prunable(rows, preserve), n);
    assert k in Elems(First(Prunable(rows, preserve), n));
  }

  /** Victims are terminal, never the preserved row, and exactly as many as the excess. */
  lemma VictimsFit(cfg: Config, rows: Rows, preserve: Option<string>)
    requires ValidConfig(cfg) && RowsOk(cfg, rows)
    ensures var v := Victims(cfg, rows, preserve);
            v <= Terminals(rows) && (preserve.Some? ==> preserve.value !in v) && |v| == Excess(cfg, rows)
  {
    hide RowsOk, First, Prunable, Terminals, Excess;
    var all, n := Prunable(rows, preserve), Excess(cfg, rows);
    var ks := First(all, n);
    PrunableSize(cfg, rows, preserve);
    FirstElems(all, n);
    FirstDistinct(all, n);
    forall k | k in ks ensures k.id in Terminals(rows) && preserve != Some(k.id) {
      PrunableKey(cfg, rows, preserve, n, k);
    }
    forall i, k | 0 <= i < k < |ks| ensures ks[i].id != ks[k].id {
      PrunableKey(cfg, rows, preserve, n, ks[i]);
      PrunableKey(cfg, rows, preserve, n, ks[k]);
      TerminalIn(rows, ks[i].id);
    }
    IdsPerKey(ks);
  }

  lemma TerminalIn(rows: Rows, id: string)
    requires id in Terminals(rows)
    ensures id in rows
  {
  }

  /** Pruning restores the terminal window and touches nothing active or preserved. */
  lemma PruneKeeps(cfg: Config, rows: Rows, preserve: Option<string>)
    requires ValidConfig(cfg) && TableOk(cfg, rows)
    ensures var p := Prune(cfg, rows, preserve);
            && TableOk(cfg, p) && Active(p) == Active(rows) && |Terminals(p)| <= cfg.maxTerminal
            && (forall id :: id in p ==> id in rows && p[id] == rows[id])
            && (preserve.Some? && preserve.value in rows ==> preserve.value in p)
            && (forall id :: id in rows && id !in p ==> rows[id].status.Terminal())
  {
    hide RowOk, Victims;
    VictimsFit(cfg, rows, preserve);
    var v := Victims(cfg, rows, preserve);
    RemoveTerminals(rows, v);
  }

  lemma RemoveTerminals(rows: Rows, v: set<string>)
    requires v <= Terminals(rows)
    ensures Active(rows - v) == Active(rows) && Terminals(rows - v) == Terminals(rows) - v
    ensures |Terminals(rows - v)| == |Terminals(rows)| - |v|
  {
    assert Terminals(rows - v) == Terminals(rows) - v;
    assert Terminals(rows) == Terminals(rows - v) + v;
  }

  /** Among prunable rows the survivors are never older than the deleted. */
  lemma PruneTakesOldest(cfg: Config, rows: Rows, preserve: Option<string>, gone: string, kept: string)
    requires ValidConfig(cfg) && TableOk(cfg, rows)
    requires gone in rows && gone !in Prune(cfg, rows, preserve)
    requires kept in Prune(cfg, rows, preserve) && rows[kept].status.Terminal() && preserve != Some(kept)
    ensures Less(AgeKey(rows[gone]), AgeKey(rows[kept]))
  {
    hide RowOk, First, Less;
    var all, n := Prunable(rows, preserve), Excess(cfg, rows);
    FirstElems(all, n);
    var k :| k in First(all, n) && k.id == gone;
    assert k in Elems(First(all, n));
    assert AgeKey(rows[kept]) in all && AgeKey(rows[kept]).id == kept;
    FirstIsPrefix(all, n, k, AgeKey(rows[kept]));
  }

  /** What granting does to one row: nothing, or a queued job leased under one of the new owners. */
  predicate GrantedOr(cfg: Config, a: Row, b: Row, owners: seq<string>) {
    a == b
    || (&& a.status.Queued? && b.status.Leased? && Descends(cfg, a, b) && SameJob(a, b) && RowOk(cfg, b)
        && b.attempts == a.attempts + 1 && b.owner.Some? && b.owner.value in owners)
  }

  lemma GrantRowFits(cfg: Config, r: Row, owners: seq<string>, i: nat, now: real)
    requires RowOk(cfg, r) && r.status.Queued? && i < |owners|
    ensures GrantedOr(cfg, r, GrantRow(cfg, r, owners[i], now), owners)
  {
  }

  lemma {:induction false} GrantKeeps(cfg: Config, rows: Rows, ks: seq<Key>, owners: seq<string>, now: real)
    requires RowsOk(cfg, rows)
    ensures var g := GrantRows(cfg, rows, ks, owners, now);
            g.Keys == rows.Keys && forall id :: id in rows ==> GrantedOr(cfg, rows[id], g[id], owners)
  {
    if ks != [] && owners != [] {
      hide RowOk, GrantRow;
      var id := ks[0].id;
      if id in rows && rows[id].status.Queued? {
        GrantRowFits(cfg, rows[id], owners, 0, now);
        var next := rows[id := GrantRow(cfg, rows[id], owners[0], now)];
        GrantedRow(cfg, rows[id], next[id], owners);
        GrantKeeps(cfg, next, ks[1..], owners[1..], now);
        var g := GrantRows(cfg, rows, ks, owners, now);
        forall x | x in rows ensures GrantedOr(cfg, rows[x], g[x], owners) {
          GrantedMore(cfg, next[x], g[x], owners);
          if x == id {
            GrantedRow(cfg, rows[x], next[x], owners);
          }
        }
      } else {
        GrantKeeps(cfg, rows, ks[1..], owners[1..], now);
        forall x | x in rows ensures GrantedOr(cfg, rows[x], GrantRows(cfg, rows, ks, owners, now)[x], owners) {
          GrantedMore(cfg, rows[x], GrantRows(cfg, rows, ks, owners, now)[x], owners);
        }
      }
    }
  }

  lemma GrantedRow(cfg: Config, a: Row, b: Row, owners: seq<string>)
    requires GrantedOr(cfg, a, b, owners) && a != b
    ensures b.status.Leased? && RowOk(cfg, b) && b.id == a.id
    ensures forall c, more :: GrantedOr(cfg, b, c, more) ==> c == b
  {
  }

  lemma GrantedMore(cfg: Config, a: Row, b: Row, owners: seq<string>)
    requires owners != []
    ensures GrantedOr(cfg, a, b, owners[1..]) ==> GrantedOr(cfg, a, b, owners)
  {
  }

  /** Granting keeps the table, its active and its terminal rows. */
  lemma GrantTable(cfg: Config, rows: Rows, g: Rows, owners: seq<string>)
    requires TableOk(cfg, rows) && g.Keys == rows.Keys
    requires forall id :: id in rows ==> GrantedOr(cfg, rows[id], g[id], owners)
    ensures TableOk(cfg, g) && TableDescends(cfg, rows, g)
    ensures Active(g) == Active(rows) && Terminals(g) == Terminals(rows)
  {
    forall id | id in rows
      ensures RowOk(cfg, g[id]) && SameJob(rows[id], g[id]) && Descends(cfg, rows[id], g[id])
      ensures g[id].status.Terminal() == rows[id].status.Terminal()
    {
      assert RowOk(cfg, rows[id]) && GrantedOr(cfg, rows[id], g[id], owners);
    }
    hide RowOk, Descends, GrantedOr;
  }

  lemma UpdateKeeps(cfg: Config, rows: Rows, id: string, r: Row)
    requires TableOk(cfg, rows) && id in rows && RowOk(cfg, r) && SameJob(rows[id], r)
    requires Descends(cfg, rows[id], r) || !rows[id].status.Terminal()
    ensures TableOk(cfg, rows[id := r])
    ensures !rows[id].status.Terminal() ==> Active(rows[id := r]) <= Active(rows)
  {
    hide RowOk;
  }

  lemma DescendsTrans(cfg: Config, a: Rows, b: Rows, c: Rows)
    requires TableDescends(cfg, a, b) && TableDescends(cfg, b, c) && (c.Keys <= b.Keys)
    ensures TableDescends(cfg, a, c)
  {
    hide Rank;
    assert forall id :: id in c ==> id in b;
  }

  /**
   Every transaction keeps the bounds, the key uniqueness and the row shapes; a
   surviving row is untouched or moves strictly down, a terminal row only vanishes.
   */
  lemma ApplyKeeps(cfg: Config, rows: Rows, op: Op)
    requires ValidConfig(cfg) && QueueInv(cfg, rows)
    ensures QueueInv(cfg, Apply(cfg, rows, op))
    ensures !op.Heartbeat? ==> TableDescends(cfg, rows, Apply(cfg, rows, op))
    ensures forall id :: id in rows && id !in Apply(cfg, rows, op) ==>
              rows[id].status.Terminal() || RecoverRow(cfg, rows[id], op.now).status.Terminal()
  {
    hide Victims, GrantRows, RowsOk, KeysUnique, GrantedOr;
    var result := Apply(cfg, rows, op);
    match op
    case Enqueue(id, key, payload, scope, now) => EnqueueKeeps(cfg, rows, op);
    case Claim(owners, limit, now) =>
      RecoverKeeps(cfg, rows, now);
      var recovered := RecoverRows(cfg, rows, now);
      PruneKeeps(cfg, recovered, None);
      var kept := Prune(cfg, recovered, None);
      GrantKeeps(cfg, kept, First(ClaimKeys(kept, now), limit), owners, now);
      GrantTable(cfg, kept, result, owners);
      SubsetSize(Active(kept), Active(rows));
      DescendsTrans(cfg, rows, recovered, kept);
      DescendsTrans(cfg, rows, kept, result);
    case Heartbeat(id, token, now) => HeartbeatKeeps(cfg, rows, op);
    case Ack(id, token, now) => CloseKeeps(cfg, rows, op);
    case Fail(id, token, error, now) => CloseKeeps(cfg, rows, op);
    case Cancel(id, presented, now) => CloseKeeps(cfg, rows, op);
    case Recover(now) =>
      RecoverKeeps(cfg, rows, now);
      var recovered := RecoverRows(cfg, rows, now);
      PruneKeeps(cfg, recovered, None);
      SubsetSize(Active(result), Active(rows));
      DescendsTrans(cfg, rows, recovered, result);
  }

  lemma EnqueueKeeps(cfg: Config, rows: Rows, op: Op)
    requires ValidConfig(cfg) && QueueInv(cfg, rows) && op.Enqueue?
    ensures QueueInv(cfg, Apply(cfg, rows, op)) && TableDescends(cfg, rows, Apply(cfg, rows, op))
    ensures forall id :: id in rows && id !in Apply(cfg, rows, op) ==>
              rows[id].status.Terminal() || RecoverRow(cfg, rows[id], op.now).status.Terminal()
  {
    hide Victims, Prune, Rank, RowOk, RowsOk, KeysUnique, RecoverRow;
    var recovered := RecoverRows(cfg, rows, op.now);
    RecoverKeeps(cfg, rows, op.now);
    SubsetSize(Active(recovered), Active(rows));
    PruneKeeps(cfg, recovered, Some(op.id));
    var row := Row(op.id, op.key, op.payload, op.scope, Queued, 0, op.now, None, None, op.now, op.now, None);
    if Commit(cfg, rows, op).Ok? && op.id !in recovered {
      NewRowOk(cfg, row);
      InsertKeeps(cfg, recovered, row);
      PruneKeeps(cfg, recovered[op.id := row], Some(op.id));
    }
  }

  lemma NewRowOk(cfg: Config, row: Row)
    requires ValidConfig(cfg) && row.status.Queued? && row.attempts == 0 && row.until.None? && row.owner.None?
    ensures RowOk(cfg, row)
  {
  }

  lemma InsertKeeps(cfg: Config, rows: Rows, row: Row)
    requires TableOk(cfg, rows) && row.id !in rows && row.status.Queued? && RowOk(cfg, row)
    requires forall id :: id in rows ==> rows[id].key != row.key
    ensures var next := rows[row.id := row];
            TableOk(cfg, next) && |Active(next)| == |Active(rows)| + 1 && Terminals(next) == Terminals(rows)
  {
    hide RowOk, RowsOk, KeysUnique, Active, Terminals;
    InsertUnique(rows, row);
    InsertRow(cfg, rows, row);
    InsertSets(rows, row);
  }

  lemma InsertUnique(rows: Rows, row: Row)
    requires KeysUnique(rows) && forall id :: id in rows ==> rows[id].key != row.key
    ensures KeysUnique(rows[row.id := row])
  {
  }

  lemma InsertRow(cfg: Config, rows: Rows, row: Row)
    requires RowsOk(cfg, rows) && RowOk(cfg, row)
    ensures RowsOk(cfg, rows[row.id := row])
  {
    hide RowOk;
  }

  lemma InsertSets(rows: Rows, row: Row)
    requires row.id !in rows && row.status.Queued?
    ensures |Active(rows[row.id := row])| == |Active(rows)| + 1 && Terminals(rows[row.id := row]) == Terminals(rows)
  {
    assert Active(rows[row.id := row]) == Active(rows) + {row.id};
  }

  lemma HeartbeatKeeps(cfg: Config, rows: Rows, op: Op)
    requires QueueInv(cfg, rows) && op.Heartbeat?
    ensures QueueInv(cfg, Apply(cfg, rows, op)) && Apply(cfg, rows, op).Keys == rows.Keys
  {
    var result := Apply(cfg, rows, op);
    assert Active(result) == Active(rows) && Terminals(result) == Terminals(rows);
  }

  lemma CloseKeeps(cfg: Config, rows: Rows, op: Op)
    requires ValidConfig(cfg) && QueueInv(cfg, rows) && (op.Ack? || op.Fail? || op.Cancel?)
    ensures QueueInv(cfg, Apply(cfg, rows, op)) && TableDescends(cfg, rows, Apply(cfg, rows, op))
    ensures forall id :: id in rows && id !in Apply(cfg, rows, op) ==> rows[id].status.Terminal()
  {
    hide Victims, Delay, TableOk;
    if Commit(cfg, rows, op).Ok? {
      var r := rows[op.id];
      RowIsOk(cfg, rows, op.id);
      var closed := if op.Ack? then Close(r, Acked, op.now)
                    else if op.Fail? then FailRow(cfg, r, op.error, op.now)
                    else if r.status.Terminal() then r else Close(r, Cancelled, op.now);
      UpdateKeeps(cfg, rows, op.id, closed);
      var next := rows[op.id := closed];
      assert closed == r ==> next == rows;
      PruneKeeps(cfg, next, if op.Fail? && !closed.status.Dead? then None else Some(op.id));
      SubsetSize(Active(next), Active(rows));
    }
  }

  lemma RowIsOk(cfg: Config, rows: Rows, id: string)
    requires TableOk(cfg, rows) && id in rows
    ensures RowOk(cfg, rows[id])
  {
  }
}
