/**
 The projection of administrative outbox rows into the audit table: batches are
 transactions, failures are recorded afterwards, and a commit may be ambiguous.
 */
module Outbox {
  import opened Common
  import opened ClaimOrder

  /** The immutable part of an outbox row. */
  datatype Source = Source(tenant: string, payload: string, createdAt: real)

  datatype Row = Row(source: Source, attempts: int, availableAt: real, published: bool, dead: bool)

  type Rows = map<string, Row>

  /** The two tables; the audit table is keyed by its unique event id. */
  datatype Db = Db(rows: Rows, audit: map<string, string>)

  /** Text clean-up and event preparation are given; preparation may refuse. */
  datatype Rules = Rules(strip: string -> string, prepare: Source -> Option<string>, maxAttempts: nat, batchSize: nat)

  const BASE_BACKOFF: Time := 1.0
  const MAX_BACKOFF: Time := 300.0

  predicate Pending(r: Row) {
    !r.published && !r.dead
  }

  function Backoff(attempts: int): real {
    Capped(BASE_BACKOFF, if attempts <= 1 then 0 else if attempts - 1 < 16 then attempts - 1 else 16, MAX_BACKOFF)
  }

  // ---------------------------------------------------------------- one batch

  /** Insert the prepared event under its cleaned id, then publish the row of that id. */
  function Project(rules: Rules, db: Db, id: string): Option<Db> {
    if id !in db.rows then None
    else
      var content := rules.prepare(db.rows[id].source);
      var key := rules.strip(id);
      if content.None? || (key in db.audit && db.audit[key] != content.value) then None
      else if key !in db.rows || !Pending(db.rows[key]) then None
      else Some(Db(db.rows[key := db.rows[key].(published := true)], db.audit[key := content.value]))
  }

  datatype Batch = Projected(db: Db) | Stuck(id: string)

  /** Project the selected rows in order; the driver may break at one of them. */
  function ProjectAll(rules: Rules, db: Db, ids: seq<string>, breaks: Option<nat>): Batch
    decreases |ids|
  {
    if ids == [] then Projected(db)
    else if breaks == Some(0) then Stuck(ids[0])
    else
      var next := Project(rules, db, ids[0]);
      if next.None? then Stuck(ids[0])
      else ProjectAll(rules, next.value, ids[1..], if breaks.Some? then Some(breaks.value - 1) else None)
  }

  function DueKeys(rows: Rows, now: real, locked: set<string>): set<Key> {
    set id | id in rows && id !in locked && Pending(rows[id]) && rows[id].availableAt <= now ::
      Key(false, rows[id].source.createdAt, rows[id].source.createdAt, id)
  }

  function Ids(ks: seq<Key>): seq<string> {
    seq(|ks|, i requires 0 <= i < |ks| => ks[i].id)
  }

  function Selected(rules: Rules, rows: Rows, now: real, locked: set<string>): seq<string> {
    Ids(First(DueKeys(rows, now, locked), rules.batchSize))
  }

  /** One failed attempt of a row that is still pending. */
  function FailRow(rules: Rules, r: Row, now: real): Row {
    if !Pending(r) then r
    else
      var attempts := (if r.attempts < 0 then 0 else r.attempts) + 1;
      var dead := rules.maxAttempts <= attempts;
      r.(attempts := attempts, dead := dead, availableAt := if dead then r.availableAt else now + Backoff(attempts))
  }

  function RecordAll(rules: Rules, rows: Rows, ids: seq<string>, now: real): Rows {
    if ids == [] then rows
    else
      RecordAll(rules, if ids[0] in rows then rows[ids[0] := FailRow(rules, rows[ids[0]], now)] else rows, ids[1..], now)
  }

  /** How a batch ends: it commits, or the commit raises and may or may not have been applied. */
  datatype Ending = Commits | CommitRaises(applied: bool)

  datatype Cycle = Cycle(now: real, locked: set<string>, breaks: Option<nat>, ending: Ending, recorded: bool)

  /** Tables after one call, and the rows whose failure it goes on to record. */
  function AfterBatch(rules: Rules, db: Db, c: Cycle): (Db, seq<string>) {
    var ids := Selected(rules, db.rows, c.now, c.locked);
    match ProjectAll(rules, db, ids, c.breaks)
    case Stuck(id) => (db, [id])
    case Projected(next) =>
      if c.ending.Commits? then (next, []) else (if c.ending.applied then next else db, ids)
  }

  /** The follow-up transaction; it may fail as a whole. */
  function AfterCycle(rules: Rules, db: Db, c: Cycle): Db {
    var (next, failed) := AfterBatch(rules, db, c);
    if c.recorded then next.(rows := RecordAll(rules, next.rows, failed, c.now)) else next
  }

  // ---------------------------------------------------------------- the reconciler

  class PostgresAdminAuditReconciler {
    const rules: Rules
    var rows: Rows
    var audit: map<string, string>

    constructor (rules: Rules, rows: Rows)
      ensures this.rules == rules && this.rows == rows && audit == map[]
    {
      this.rules, this.rows, audit := rules, rows, map[];
    }

    function Tables(): Db
      reads this
    {
      Db(rows, audit)
    }

    /** Project the rows in order until one is refused or the driver breaks; None means all went through. */
    method ProjectRows(ids: seq<string>, breaks: Option<nat>) returns (stuck: Option<string>)
      modifies this
      ensures match ProjectAll(rules, old(Tables()), ids, breaks)
              case Projected(db) => stuck.None? && Tables() == db
              case Stuck(id) => stuck == Some(id)
    {
      for i := 0 to |ids|
        invariant NotYet(breaks, i)
        invariant ProjectAll(rules, old(Tables()), ids, breaks) == ProjectAll(rules, Tables(), ids[i..], Ahead(breaks, i))
      {
        hide Project;
        assert ids[i..][1..] == ids[i + 1..];
        if breaks == Some(i) {
          return Some(ids[i]);
        }
        var next := Project(rules, Tables(), ids[i]);
        if next.None? {
          return Some(ids[i]);
        }
        rows, audit := next.value.rows, next.value.audit;
      }
      assert ids[|ids|..] == [];
      return None;
    }

    /** Project one due batch in a transaction, then record what failed in another. */
    method ProcessOnce(c: Cycle) returns (published: nat)
      modifies this
      ensures Tables() == AfterCycle(rules, old(Tables()), c)
      ensures published == if AfterBatch(rules, old(Tables()), c).1 == [] then |Selected(rules, old(rows), c.now, c.locked)| else 0
    {
      hide ProjectAll, RecordAll, Selected;
      var ids := Selected(rules, rows, c.now, c.locked);
      var savedRows, savedAudit := rows, audit;
      var failed: seq<string> := [];
      var stuck := ProjectRows(ids, c.breaks);
      if stuck.Some? {
        rows, audit, failed := savedRows, savedAudit, [stuck.value];
      } else if c.ending.CommitRaises? {
        if !c.ending.applied {
          rows, audit := savedRows, savedAudit;
        }
        failed := ids;
      }
      published := if failed == [] then |ids| else 0;
      if c.recorded {
        RecordFailures(failed, c.now);
      }
    }

    method RecordFailures(ids: seq<string>, now: real)
      modifies this`rows
      ensures rows == RecordAll(rules, old(rows), ids, now)
    {
      for i := 0 to |ids|
        invariant RecordAll(rules, rows, ids[i..], now) == RecordAll(rules, old(rows), ids, now)
      {
        assert ids[i..][1..] == ids[i + 1..];
        if ids[i] in rows {
          rows := rows[ids[i] := FailRow(rules, rows[ids[i]], now)];
        }
      }
      assert ids[|ids|..] == [];
    }
  }

  function Ahead(breaks: Option<nat>, i: nat): Option<nat> {
    if breaks.Some? && i <= breaks.value then Some(breaks.value - i) else None
  }

  /** The break, if any, is still ahead. */
  predicate NotYet(breaks: Option<nat>, i: nat) {
    breaks.Some? ==> i <= breaks.value
  }

  // ---------------------------------------------------------------- exactly once

  /** A row whose cleaned id is another row's, with a different event to tell. */
  predicate Aliases(rules: Rules, rows: Rows, a: string, b: string) {
    && a in rows && b in rows && a != b && rules.strip(a) == b
    && rules.prepare(rows[a].source).Some? && rules.prepare(rows[a].source) != rules.prepare(rows[b].source)
  }

  predicate NoAlias(rules: Rules, rows: Rows) {
    forall a, b :: a in rows && b in rows ==> !Aliases(rules, rows, a, b)
  }

  /** Published rows have their own event in the audit table, and no row is both published and dead. */
  predicate ExactlyOnce(rules: Rules, db: Db) {
    forall id :: id in db.rows && db.rows[id].published ==>
      && !db.rows[id].dead
      && id in db.audit && rules.prepare(db.rows[id].source) == Some(db.audit[id])
  }

  /** What one row may become: published rows stay, audit rows never change, sources are fixed. */
  predicate Kept(a: Db, b: Db) {
    && a.rows.Keys == b.rows.Keys
    && (forall id :: id in a.audit ==> id in b.audit && b.audit[id] == a.audit[id])
    && (forall id :: id in a.rows ==>
          && b.rows[id].source == a.rows[id].source
          && (a.rows[id].published ==> b.rows[id] == a.rows[id])
          && (a.rows[id].dead ==> b.rows[id] == a.rows[id]))
  }

  lemma ProjectKeeps(rules: Rules, db: Db, id: string)
    requires NoAlias(rules, db.rows) && ExactlyOnce(rules, db)
    ensures var next := Project(rules, db, id);
            next.Some? ==> Kept(db, next.value) && NoAlias(rules, next.value.rows) && ExactlyOnce(rules, next.value)
  {
    var key := rules.strip(id);
    if id in db.rows && key in db.rows {
      assert !Aliases(rules, db.rows, id, key);
    }
    var next := Project(rules, db, id);
    if next.Some? {
      SameSources(rules, db.rows, next.value.rows);
    }
  }

  lemma SameSources(rules: Rules, a: Rows, b: Rows)
    requires NoAlias(rules, a) && a.Keys == b.Keys && forall id :: id in a ==> b[id].source == a[id].source
    ensures NoAlias(rules, b)
  {
    forall x, y | x in b && y in b ensures !Aliases(rules, b, x, y) {
      assert !Aliases(rules, a, x, y);
    }
  }

  lemma {:induction false} ProjectAllKeeps(rules: Rules, db: Db, ids: seq<string>, breaks: Option<nat>)
    requires NoAlias(rules, db.rows) && ExactlyOnce(rules, db)
    ensures var b := ProjectAll(rules, db, ids, breaks);
            b.Projected? ==> Kept(db, b.db) && NoAlias(rules, b.db.rows) && ExactlyOnce(rules, b.db)
    decreases |ids|
  {
    hide NoAlias, ExactlyOnce, Project;
    if ids != [] && breaks != Some(0) {
      ProjectKeeps(rules, db, ids[0]);
      var next := Project(rules, db, ids[0]);
      if next.Some? {
        ProjectAllKeeps(rules, next.value, ids[1..], if breaks.Some? then Some(breaks.value - 1) else None);
      }
    }
  }

  lemma {:induction false} RecordKeeps(rules: Rules, db: Db, ids: seq<string>, now: real)
    requires NoAlias(rules, db.rows) && ExactlyOnce(rules, db)
    ensures var next := db.(rows := RecordAll(rules, db.rows, ids, now));
            Kept(db, next) && NoAlias(rules, next.rows) && ExactlyOnce(rules, next)
    decreases |ids|
  {
    hide Backoff, NoAlias;
    if ids != [] && ids[0] in db.rows {
      var rows := db.rows[ids[0] := FailRow(rules, db.rows[ids[0]], now)];
      SameSources(rules, db.rows, rows);
      RecordKeeps(rules, db.(rows := rows), ids[1..], now);
    } else if ids != [] {
      RecordKeeps(rules, db, ids[1..], now);
    }
  }

  /**
   What any worker may do at any moment: one batch transaction, or one follow-up
   transaction for rows some earlier batch of some worker failed on.
   */
  datatype Act = RunBatch(c: Cycle) | Record(ids: seq<string>, now: real)

  function Perform(rules: Rules, db: Db, act: Act): Db {
    match act
    case RunBatch(c) => AfterBatch(rules, db, c).0
    case Record(ids, now) => db.(rows := RecordAll(rules, db.rows, ids, now))
  }

  /** One transaction keeps exactly-once, whatever fails and however ambiguous the commit. */
  lemma ActKeeps(rules: Rules, db: Db, act: Act)
    requires NoAlias(rules, db.rows) && ExactlyOnce(rules, db)
    ensures var next := Perform(rules, db, act);
            Kept(db, next) && NoAlias(rules, next.rows) && ExactlyOnce(rules, next)
  {
    hide NoAlias, ExactlyOnce, RecordAll, Selected;
    match act
    case RunBatch(c) => ProjectAllKeeps(rules, db, Selected(rules, db.rows, c.now, c.locked), c.breaks);
    case Record(ids, now) => RecordKeeps(rules, db, ids, now);
  }

  function RunAll(rules: Rules, db: Db, acts: seq<Act>): Db {
    if acts == [] then db else Perform(rules, RunAll(rules, db, acts[..|acts| - 1]), acts[|acts| - 1])
  }

  lemma {:induction false} RunKeeps(rules: Rules, db: Db, acts: seq<Act>)
    requires NoAlias(rules, db.rows) && ExactlyOnce(rules, db)
    ensures var next := RunAll(rules, db, acts);
            Kept(db, next) && NoAlias(rules, next.rows) && ExactlyOnce(rules, next)
  {
    hide NoAlias, ExactlyOnce, Perform;
    if acts != [] {
      RunKeeps(rules, db, acts[..|acts| - 1]);
      ActKeeps(rules, RunAll(rules, db, acts[..|acts| - 1]), acts[|acts| - 1]);
    }
  }

  /** One call of the reconciler is a batch and, if it is recorded, its follow-up. */
  lemma CycleIsActs(rules: Rules, db: Db, c: Cycle)
    ensures var failed := AfterBatch(rules, db, c).1;
            AfterCycle(rules, db, c)
            == RunAll(rules, db, if c.recorded then [RunBatch(c), Record(failed, c.now)] else [RunBatch(c)])
  {
    hide AfterBatch, RecordAll;
    OneAct(rules, db, RunBatch(c));
    var failed := AfterBatch(rules, db, c).1;
    var both := [RunBatch(c), Record(failed, c.now)];
    assert both[..1] == [RunBatch(c)];
  }

  /** A table of fresh rows with nothing audited yet. */
  predicate Untouched(db: Db) {
    db.audit == map[] && forall id :: id in db.rows ==> Pending(db.rows[id])
  }

  /**
   When a row aliases another, one batch that selects it alone publishes the wrong event.
   The rows it passes over are locked by another worker's batch, which then rolls back:
   the update of the aliased row waits for that, and finds the row as it was.
   */
  lemma AliasBreaks(rules: Rules, db: Db, a: string, b: string) returns (c: Cycle)
    requires Untouched(db) && Aliases(rules, db.rows, a, b) && 0 < rules.batchSize
    ensures !ExactlyOnce(rules, Perform(rules, db, RunBatch(c)))
  {
    c := Cycle(db.rows[a].availableAt, db.rows.Keys - {a}, None, Commits, false);
    var k := Key(false, db.rows[a].source.createdAt, db.rows[a].source.createdAt, a);
    var due := DueKeys(db.rows, c.now, c.locked);
    assert due == {k};
    assert IsLeast(k, due);
    FirstStep(due, rules.batchSize, k);
    assert due - {k} == {};
    assert First({}, rules.batchSize - 1) == [];
    var ids := Selected(rules, db.rows, c.now, c.locked);
    assert ids == [a];
    assert ids[1..] == [];
    var next := Perform(rules, db, RunBatch(c));
    assert Project(rules, db, a).Some?;
    assert ProjectAll(rules, db, [a], None) == Projected(Project(rules, db, a).value);
    assert next == Project(rules, db, a).value;
    assert next.rows[b].published && next.audit[b] == rules.prepare(db.rows[a].source).value;
  }

  /**
   Exactly once, on every run of any workers: from a table of fresh rows, each
   published row ends with exactly its own audit event if and only if no row's id,
   once cleaned, is that of another row with a different event.
   */
  lemma ExactlyOnceIff(rules: Rules, db: Db)
    requires Untouched(db) && 0 < rules.batchSize
    ensures (forall acts :: ExactlyOnce(rules, RunAll(rules, db, acts))) <==> NoAlias(rules, db.rows)
  {
    hide Aliases, RunAll, Perform;
    if NoAlias(rules, db.rows) {
      forall acts ensures ExactlyOnce(rules, RunAll(rules, db, acts)) {
        RunKeeps(rules, db, acts);
      }
    } else {
      var a, b :| a in db.rows && b in db.rows && Aliases(rules, db.rows, a, b);
      var c := AliasBreaks(rules, db, a, b);
      OneAct(rules, db, RunBatch(c));
    }
  }

  lemma OneAct(rules: Rules, db: Db, act: Act)
    ensures RunAll(rules, db, [act]) == Perform(rules, db, act)
  {
    hide Perform;
    assert [act][..0] == [];
    assert RunAll(rules, db, []) == db;
  }

  // ---------------------------------------------------------------- progress

  /** Attempts a row may still fail. */
  function Left(rules: Rules, r: Row): int {
    if Pending(r) then rules.maxAttempts - (if r.attempts < 0 then 0 else r.attempts) else 0
  }

  /** Pending rows have attempts left. */
  predicate Budgeted(rules: Rules, rows: Rows) {
    0 < rules.maxAttempts && forall id :: id in rows && Pending(rows[id]) ==> rows[id].attempts < rules.maxAttempts
  }

  ghost function Budget(rules: Rules, rows: Rows, ids: set<string>): int
    requires ids <= rows.Keys
    decreases |ids|
  {
    if ids == {} then 0
    else
      var id :| id in ids;
      Left(rules, rows[id]) + Budget(rules, rows, ids - {id})
  }

  lemma {:induction false} BudgetExtract(rules: Rules, rows: Rows, ids: set<string>, x: string)
    requires ids <= rows.Keys && x in ids
    ensures Budget(rules, rows, ids) == Left(rules, rows[x]) + Budget(rules, rows, ids - {x})
    decreases |ids|
  {
    hide Left;
    var id :| id in ids && Budget(rules, rows, ids) == Left(rules, rows[id]) + Budget(rules, rows, ids - {id});
    if id != x {
      BudgetExtract(rules, rows, ids - {id}, x);
      BudgetExtract(rules, rows, ids - {x}, id);
      assert ids - {id} - {x} == ids - {x} - {id};
    }
  }

  /** Each row no better off than before, and one of them worse off, lowers the sum. */
  lemma {:induction false} BudgetFalls(rules: Rules, a: Rows, b: Rows, ids: set<string>, x: string)
    requires ids <= a.Keys && a.Keys == b.Keys
    requires forall id :: id in ids ==> Left(rules, b[id]) <= Left(rules, a[id])
    ensures Budget(rules, b, ids) <= Budget(rules, a, ids)
    ensures x in ids && Left(rules, b[x]) < Left(rules, a[x]) ==> Budget(rules, b, ids) < Budget(rules, a, ids)
    decreases |ids|
  {
    hide Left;
    if ids != {} {
      var y := if x in ids then x else var z :| z in ids; z;
      BudgetExtract(rules, a, ids, y);
      BudgetExtract(rules, b, ids, y);
      BudgetFalls(rules, a, b, ids - {y}, x);
    }
  }

  /** No row gains attempts to spend, and pending rows keep some. */
  predicate Spends(rules: Rules, a: Rows, b: Rows) {
    && a.Keys == b.Keys && Budgeted(rules, b)
    && forall id :: id in a ==> Left(rules, b[id]) <= Left(rules, a[id])
  }

  lemma {:induction false} ProjectSpends(rules: Rules, db: Db, ids: seq<string>, breaks: Option<nat>)
    requires Budgeted(rules, db.rows)
    ensures var b := ProjectAll(rules, db, ids, breaks);
            b.Projected? ==>
              && Spends(rules, db.rows, b.db.rows)
              && (ids != [] ==> exists id :: id in db.rows && Left(rules, b.db.rows[id]) < Left(rules, db.rows[id]))
    decreases |ids|
  {
    if ids != [] && breaks != Some(0) {
      var next := Project(rules, db, ids[0]);
      if next.Some? {
        ProjectSpends(rules, next.value, ids[1..], if breaks.Some? then Some(breaks.value - 1) else None);
        var key := rules.strip(ids[0]);
        assert Left(rules, next.value.rows[key]) < Left(rules, db.rows[key]);
      }
    }
  }

  lemma {:induction false} RecordSpends(rules: Rules, rows: Rows, ids: seq<string>, now: real)
    requires Budgeted(rules, rows)
    ensures var r := RecordAll(rules, rows, ids, now);
            && Spends(rules, rows, r)
            && (ids != [] && ids[0] in rows && Pending(rows[ids[0]]) ==> Left(rules, r[ids[0]]) < Left(rules, rows[ids[0]]))
    decreases |ids|
  {
    if ids != [] {
      hide Backoff;
      var next := if ids[0] in rows then rows[ids[0] := FailRow(rules, rows[ids[0]], now)] else rows;
      RecordSpends(rules, next, ids[1..], now);
    }
  }

  /** Selected rows are pending. */
  lemma SelectedPending(rules: Rules, rows: Rows, now: real, locked: set<string>)
    ensures forall id :: id in Selected(rules, rows, now, locked) ==> id in rows && Pending(rows[id])
  {
    hide First;
    var due := DueKeys(rows, now, locked);
    FirstElems(due, rules.batchSize);
    var ks := First(due, rules.batchSize);
    forall id | id in Selected(rules, rows, now, locked) ensures id in rows && Pending(rows[id]) {
      var i :| 0 <= i < |ks| && Ids(ks)[i] == id;
      assert ks[i] in Elems(ks);
    }
  }

  lemma {:induction false} StuckIn(rules: Rules, db: Db, ids: seq<string>, breaks: Option<nat>)
    ensures var b := ProjectAll(rules, db, ids, breaks); b.Stuck? ==> b.id in ids
    decreases |ids|
  {
    hide Project;
    if ids != [] && breaks != Some(0) && Project(rules, db, ids[0]).Some? {
      StuckIn(rules, Project(rules, db, ids[0]).value, ids[1..], if breaks.Some? then Some(breaks.value - 1) else None);
    }
  }

  /** No call ever raises the sum of remaining attempts. */
  lemma CycleSpends(rules: Rules, db: Db, c: Cycle)
    requires Budgeted(rules, db.rows)
    ensures Spends(rules, db.rows, AfterCycle(rules, db, c).rows)
  {
    hide Left, Budgeted, RecordAll, Selected;
    Unspent(rules, db.rows);
    ProjectSpends(rules, db, Selected(rules, db.rows, c.now, c.locked), c.breaks);
    var (next, failed) := AfterBatch(rules, db, c);
    RecordSpends(rules, next.rows, failed, c.now);
  }

  lemma Unspent(rules: Rules, rows: Rows)
    requires Budgeted(rules, rows)
    ensures Spends(rules, rows, rows)
  {
  }

  /**
   Progress: when the follow-up failure transaction commits, every non-empty batch
   strictly lowers the attempts left over all pending rows.
   */
  lemma CycleProgresses(rules: Rules, db: Db, c: Cycle)
    requires Budgeted(rules, db.rows) && c.recorded && Selected(rules, db.rows, c.now, c.locked) != []
    ensures var next := AfterCycle(rules, db, c);
            && Budgeted(rules, next.rows) && next.rows.Keys == db.rows.Keys
            && Budget(rules, next.rows, db.rows.Keys) < Budget(rules, db.rows, db.rows.Keys)
  {
    var ids := Selected(rules, db.rows, c.now, c.locked);
    SelectedPending(rules, db.rows, c.now, c.locked);
    StuckIn(rules, db, ids, c.breaks);
    hide Left, Budgeted, RecordAll, Selected, Pending, Budget;
    Unspent(rules, db.rows);
    CycleSpends(rules, db, c);
    ProjectSpends(rules, db, ids, c.breaks);
    var (next, failed) := AfterBatch(rules, db, c);
    RecordSpends(rules, next.rows, failed, c.now);
    var end := AfterCycle(rules, db, c);
    var x: string;
    if ProjectAll(rules, db, ids, c.breaks).Projected? && (c.ending.Commits? || c.ending.applied) {
      x :| x in db.rows && Left(rules, next.rows[x]) < Left(rules, db.rows[x]);
    } else {
      x := failed[0];
    }
    BudgetFalls(rules, db.rows, end.rows, db.rows.Keys, x);
  }
}
