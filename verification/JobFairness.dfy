/**
 Durable-age fairness: resumable work competes with ready work at its last
 recovery marker, and resuming moves that marker to the present, so a waiting
 job is overtaken by any one continuation at most once.
 */
module JobFairness {
  import opened Common
  import opened Jobs
  import opened JobStore
  import opened JobInvariant
  import opened JobTransactions
  import opened ClaimOrder
  import opened JobQueue
  import opened JobRuns
  import opened JobFencing

  // ---------------------------------------------------------------- one claim

  /** The lane a key of one claim comes from. */
  predicate LaneOf(s: Sweep, q: ClaimRequest, k: Key)
    requires s.Swept?
  {
    && k.id in s.rows
    && (if k.id in s.offered then k == OfferKey(s.rows[k.id]) && s.rows[k.id].row.cols.state.Running?
        else k == ReadyKey(s.rows[k.id]) && Ready(s.rows[k.id], q.scope, q.at))
  }

  /** The keys a claim orders name distinct rows of the swept table, each with the key of its lane. */
  lemma ChosenFits(cfg: Config, rows: Rows, q: ClaimRequest)
    requires RowsInv(rows)
    ensures SweepExpired(cfg, rows, q).Swept?
    ensures var s := SweepExpired(cfg, rows, q);
            var ks := Chosen(s.rows, s.offered, q);
            DistinctIds(ks) && |ks| <= q.limit && (forall k :: k in ks ==> LaneOf(s, q, k))
  {
    hide Inv, Follows, RecoverAll, Selected, First, LaneOf, OfferKeys, ReadyKeys, RowsFollow;
    SelectionFits(rows, q);
    RecoverAllKeeps(cfg, rows, Selected(rows, q), q.now, q.answers, q.at, [], q.at);
    var s := SweepExpired(cfg, rows, q);
    var offers, ready := OfferKeys(s.rows, s.offered), ReadyKeys(s.rows, q.scope, q.at, q.locked);
    FirstElems(ready, q.limit);
    var union := offers + Elems(First(ready, q.limit));
    FirstElems(union, q.limit);
    FirstDistinct(union, q.limit);
    forall k | k in First(union, q.limit) ensures LaneOf(s, q, k) {
      assert k in Elems(First(union, q.limit));
      KeyOrigin(cfg, rows, q, s, k);
    }
    SameLaneSameKey(s, q, First(union, q.limit));
  }

  /** A row offers one key only, so distinct keys name distinct rows. */
  lemma SameLaneSameKey(s: Sweep, q: ClaimRequest, ks: seq<Key>)
    requires s.Swept? && forall k :: k in ks ==> LaneOf(s, q, k)
    requires forall i, k :: 0 <= i < k < |ks| ==> ks[i] != ks[k]
    ensures DistinctIds(ks)
  {
    hide Ready, OfferKey, ReadyKey;
    forall i, k | 0 <= i < k < |ks| ensures ks[i].id != ks[k].id {
      assert LaneOf(s, q, ks[i]) && LaneOf(s, q, ks[k]);
    }
  }

  lemma KeyOrigin(cfg: Config, rows: Rows, q: ClaimRequest, s: Sweep, k: Key)
    requires RowsInv(rows) && s == SweepExpired(cfg, rows, q) && s.Swept? && RowsInv(s.rows) && s.rows.Keys == rows.Keys
    requires k in OfferKeys(s.rows, s.offered) || k in ReadyKeys(s.rows, q.scope, q.at, q.locked)
    ensures LaneOf(s, q, k)
  {
    hide Inv, RecoverAll, Selected;
    SelectionFits(rows, q);
    if k.id in s.offered && k.id in rows {
      RecoverAllOffers(cfg, rows, Selected(rows, q), q.now, q.answers, q.at, [], k.id);
    }
  }

  /** Granting the chosen keys resumes each running one exactly once and touches no other row. */
  lemma {:induction false} GrantResumes(
      cfg: Config, rows: Rows, ks: seq<Key>, worker: string, tokens: seq<string>, hints: map<string, int>,
      now: Time, clock: Time, grants: seq<Handout>, id: string)
    requires RowsInv(rows) && DistinctIds(ks) && id in rows
    ensures var b := ClaimAll(cfg, rows, ks, worker, tokens, hints, now, clock, grants);
            b.Granted? && id in b.rows ==>
              if id in IdsOf(ks) then
                && b.rows[id].row.cols.version == rows[id].row.cols.version + 1
                && Resumptions(b.rows[id]) == Resumptions(rows[id]) + (if rows[id].row.cols.state.Running? then 1 else 0)
                && (rows[id].row.cols.state.Running? ==> b.rows[id].row.recoveryAt == Some(clock))
              else b.rows[id] == rows[id]
  {
    hide Inv, Follows, ClaimOne, Resumptions, JobOf;
    if ks != [] && ks[0].id in rows && tokens != [] {
      var k := ks[0].id;
      var hint := if k in hints then Some(hints[k]) else None;
      var t := ClaimOne(cfg, rows[k], worker, tokens[0], hint, now, clock);
      if t.Commit? && t.rec.row.hold.Some? {
        ClaimFollows(cfg, rows[k], worker, tokens[0], hint, now, clock, clock);
        UpdateFollows(rows, k, t.rec, clock, clock, {tokens[0]});
        var handed := grants + [Handout(t.job, LeaseOf(t.rec))];
        GrantResumes(cfg, rows[k := t.rec], ks[1..], worker, tokens[1..], hints, now, clock, handed, id);
        IdsSplit(ks);
        hide RowsInv, RowsFollow;
        if k == id {
          GrantedOnce(cfg, rows[k], worker, tokens[0], hint, now, clock);
        }
      }
    }
  }

  lemma IdsSplit(ks: seq<Key>)
    requires ks != [] && DistinctIds(ks)
    ensures IdsOf(ks) == {ks[0].id} + IdsOf(ks[1..]) && ks[0].id !in IdsOf(ks[1..])
  {
    assert ks == [ks[0]] + ks[1..];
    forall k | k in ks[1..] ensures k.id != ks[0].id {
      var i :| 0 <= i < |ks[1..]| && ks[1..][i] == k;
      assert k == ks[i + 1];
    }
    forall x | x in {ks[0].id} + IdsOf(ks[1..]) ensures x in IdsOf(ks) {
      if x in IdsOf(ks[1..]) {
        var k :| k in ks[1..] && k.id == x;
        assert k in ks;
      } else {
        assert ks[0] in ks;
      }
    }
  }

  lemma GrantedOnce(cfg: Config, r: Record, worker: string, token: string, hint: Option<int>, now: Time, clock: Time)
    requires Inv(r)
    ensures var t := ClaimOne(cfg, r, worker, token, hint, now, clock);
            t.Commit? ==>
              && t.rec.row.cols.version == r.row.cols.version + 1
              && Resumptions(t.rec) == Resumptions(r) + (if r.row.cols.state.Running? then 1 else 0)
              && (r.row.cols.state.Running? ==> t.rec.row.recoveryAt == Some(clock))
  {
    hide Inv, Follows, ClaimOne, Resumptions, JobOf;
    ClaimOneKeeps(cfg, r, worker, token, hint, now, clock, clock);
    InvGives(r);
    var t := ClaimOne(cfg, r, worker, token, hint, now, clock);
    if t.Commit? {
      FollowsGives(r, clock, t.rec, clock, {token});
      InvGives(t.rec);
    }
  }

  /** A claim that leaves a ready row waiting resumes only rows whose age precedes it. */
  lemma ResumedPrecedesWaiting(cfg: Config, rows: Rows, q: ClaimRequest, waiting: string, other: string)
    requires RowsInv(rows) && q.at <= q.late && waiting in rows && other in rows && waiting !in q.locked
    requires Ready(rows[waiting], q.scope, q.at) && Claim(cfg, rows, q).Granted?
    requires waiting in Claim(cfg, rows, q).rows && other in Claim(cfg, rows, q).rows
    requires Claim(cfg, rows, q).rows[waiting].row.cols.version == rows[waiting].row.cols.version
    ensures var b := Claim(cfg, rows, q);
            || Resumptions(b.rows[other]) == Resumptions(rows[other])
            || (&& Resumptions(b.rows[other]) == Resumptions(rows[other]) + 1
                && b.rows[other].row.recoveryAt == Some(q.late)
                && Less(OfferKey(rows[other]), ReadyKey(rows[waiting])))
  {
    hide Inv, Follows, RecoverAll, ClaimAll, Selected, First, Resumptions, Less, Chosen;
    SelectionFits(rows, q);
    RecoverAllKeeps(cfg, rows, Selected(rows, q), q.now, q.answers, q.at, [], q.at);
    ChosenFits(cfg, rows, q);
    var s := SweepExpired(cfg, rows, q);
    var ks := Chosen(s.rows, s.offered, q);
    SweepResumes(rows[other], q.at, s.rows[other]);
    GrantResumes(cfg, s.rows, ks, q.worker, q.tokens, q.hints, q.now, q.late, [], other);
    GrantResumes(cfg, s.rows, ks, q.worker, q.tokens, q.hints, q.now, q.late, [], waiting);
    assert s.rows[waiting] == rows[waiting];
    assert waiting !in IdsOf(ks);
    if other in IdsOf(ks) && s.rows[other].row.cols.state.Running? {
      var k :| k in ks && k.id == other;
      RecoverAllOffers(cfg, rows, Selected(rows, q), q.now, q.answers, q.at, [], other);
      WaitingIsLater(s.rows, s.offered, q, k, waiting);
    }
  }

  lemma SweepResumes(r: Record, c: Time, r': Record)
    requires Follows(r, c, r', c, {})
    ensures Resumptions(r') == Resumptions(r)
  {
    hide Inv, JobOf, Live, Resumptions;
  }

  lemma WaitingIsLater(rows: Rows, offered: seq<string>, q: ClaimRequest, k: Key, waiting: string)
    requires k in Chosen(rows, offered, q) && waiting in rows && waiting !in q.locked && waiting !in IdsOf(Chosen(rows, offered, q))
    requires Ready(rows[waiting], q.scope, q.at) && rows[waiting].row.cols.id == waiting
    ensures Less(k, ReadyKey(rows[waiting]))
  {
    hide First, Less;
    var offers, ready := OfferKeys(rows, offered), ReadyKeys(rows, q.scope, q.at, q.locked);
    TruncationIsExact(offers, ready, q.limit, q.limit);
    assert ReadyKey(rows[waiting]) in ready;
    FirstIsPrefix(offers + ready, q.limit, k, ReadyKey(rows[waiting]));
  }

  /** The handouts serve the keys in order, each under its own token. */
  predicate InOrder(grants: seq<Handout>, ks: seq<Key>, worker: string, tokens: seq<string>) {
    && |grants| == |ks| <= |tokens|
    && (forall i :: 0 <= i < |ks| ==>
          && grants[i].job.id == ks[i].id && grants[i].lease.token == tokens[i]
          && grants[i].lease.worker == worker)
  }

  lemma InOrderCons(h: Handout, grants: seq<Handout>, ks: seq<Key>, worker: string, tokens: seq<string>)
    requires ks != [] && tokens != [] && InOrder(grants, ks[1..], worker, tokens[1..])
    requires h.job.id == ks[0].id && h.lease.token == tokens[0] && h.lease.worker == worker
    ensures InOrder([h] + grants, ks, worker, tokens)
  {
  }

  lemma {:induction false} GrantsInOrder(
      cfg: Config, rows: Rows, ks: seq<Key>, worker: string, tokens: seq<string>, hints: map<string, int>,
      now: Time, clock: Time, grants: seq<Handout>)
    requires RowsInv(rows)
    ensures var b := ClaimAll(cfg, rows, ks, worker, tokens, hints, now, clock, grants);
            b.Granted? ==> grants <= b.grants && InOrder(b.grants[|grants|..], ks, worker, tokens)
  {
    hide Inv, Follows, ClaimOne, JobOf, InOrder;
    if ks == [] {
      assert grants[|grants|..] == [];
      assert InOrder([], [], worker, tokens) by {
        EmptyInOrder(worker, tokens);
      }
    } else if ks[0].id in rows && tokens != [] {
      var id := ks[0].id;
      var hint := if id in hints then Some(hints[id]) else None;
      var t := ClaimOne(cfg, rows[id], worker, tokens[0], hint, now, clock);
      if t.Commit? && t.rec.row.hold.Some? {
        GrantIdentity(cfg, rows[id], worker, tokens[0], hint, now, clock);
        UpdateFollows(rows, id, t.rec, clock, clock, {tokens[0]});
        var h := Handout(t.job, LeaseOf(t.rec));
        var b := ClaimAll(cfg, rows[id := t.rec], ks[1..], worker, tokens[1..], hints, now, clock, grants + [h]);
        assert h.job.id == ks[0].id;
        hide RowsInv, RowsFollow;
        GrantsInOrder(cfg, rows[id := t.rec], ks[1..], worker, tokens[1..], hints, now, clock, grants + [h]);
        if b.Granted? {
          assert b.grants[|grants|..] == [h] + b.grants[|grants| + 1..];
          InOrderCons(h, b.grants[|grants| + 1..], ks, worker, tokens);
        }
      }
    }
  }

  lemma EmptyInOrder(worker: string, tokens: seq<string>)
    ensures InOrder([], [], worker, tokens)
  {
  }

  lemma GrantIdentity(cfg: Config, r: Record, worker: string, token: string, hint: Option<int>, now: Time, clock: Time)
    requires Inv(r)
    ensures var t := ClaimOne(cfg, r, worker, token, hint, now, clock);
            t.Commit? ==>
              && t.job.id == r.row.cols.id && Follows(r, clock, t.rec, clock, {token})
              && t.rec.row.hold.Some? && t.rec.row.hold.value.token == token && t.rec.row.hold.value.worker == worker
  {
    hide Inv, Follows, ClaimOne, LoadAttempts, Resumptions;
    ClaimOneKeeps(cfg, r, worker, token, hint, now, clock, clock);
    var t := ClaimOne(cfg, r, worker, token, hint, now, clock);
    if t.Commit? {
      FollowsIdentity(r, clock, t.rec, clock, {token});
    }
  }

  /**
   A successful claim hands out exactly the oldest rows of both lanes together,
   oldest first, although it looked at no more ready rows than its limit.
   */
  lemma ClaimServesOldest(cfg: Config, rows: Rows, q: ClaimRequest)
    requires RowsInv(rows) && Claim(cfg, rows, q).Granted?
    ensures SweepExpired(cfg, rows, q).Swept?
    ensures var s := SweepExpired(cfg, rows, q);
            var grants := Claim(cfg, rows, q).grants;
            var oldest := First(OfferKeys(s.rows, s.offered) + ReadyKeys(s.rows, q.scope, q.at, q.locked), q.limit);
            && |grants| == |oldest| <= |q.tokens|
            && (forall i :: 0 <= i < |grants| ==> grants[i].job.id == oldest[i].id && grants[i].lease.token == q.tokens[i])
            && (forall i, k :: 0 <= i < k < |grants| ==> grants[i].job.id != grants[k].job.id)
  {
    hide Inv, RecoverAll, ClaimAll, Selected, OfferKeys, ReadyKeys, First;
    SelectionFits(rows, q);
    RecoverAllKeeps(cfg, rows, Selected(rows, q), q.now, q.answers, q.at, [], q.at);
    var s := SweepExpired(cfg, rows, q);
    ChosenFits(cfg, rows, q);
    TruncationIsExact(OfferKeys(s.rows, s.offered), ReadyKeys(s.rows, q.scope, q.at, q.locked), q.limit, q.limit);
    GrantsInOrder(cfg, s.rows, Chosen(s.rows, s.offered, q), q.worker, q.tokens, q.hints, q.now, q.late, []);
  }

  // ---------------------------------------------------------------- runs

  /** The marker of a continuation has passed a waiting job. */
  predicate Passed(rec: Record, waiting: Record) {
    rec.row.recoveryAt.Some? && waiting.row.cols.createdAt < rec.row.recoveryAt.value
  }

  /** No claim of the run finds the waiting row locked by another transaction. */
  predicate NeverSkipped(ops: seq<Op>, id: string) {
    forall i :: 0 <= i < |ops| && ops[i].ClaimJobs? ==> id !in ops[i].request.locked
  }

  lemma MarkerMoves(r: Record, c: Time, r': Record, c': Time, granted: set<string>, waiting: Record)
    requires Follows(r, c, r', c', granted) && waiting.row.cols.createdAt < c && Passed(r, waiting)
    ensures Passed(r', waiting)
  {
    hide Inv, JobOf, Live, Resumptions;
  }

  /** One step: the other job is resumed at most once, and only if its marker has not yet passed. */
  lemma OvertakingStep(cfg: Config, w: World, op: Op, waiting: string, other: string)
    requires WorldInv(w) && Timely(w, op) && waiting in w.store.rows && other in w.store.rows
    requires w.store.rows[other].row.cols.scope == w.store.rows[waiting].row.cols.scope
    requires Ready(w.store.rows[waiting], w.store.rows[waiting].row.cols.scope, w.clock)
    requires w.store.rows[waiting].row.cols.createdAt < w.clock
    requires op.ClaimJobs? ==> waiting !in op.request.locked
    requires waiting in Next(cfg, w, op).store.rows && other in Next(cfg, w, op).store.rows
    requires Next(cfg, w, op).store.rows[waiting].row.cols.version == w.store.rows[waiting].row.cols.version
    ensures var r, r', x := w.store.rows[other], Next(cfg, w, op).store.rows[other], w.store.rows[waiting];
            || (Resumptions(r') == Resumptions(r) && (Passed(r, x) ==> Passed(r', x)))
            || (Resumptions(r') == Resumptions(r) + 1 && !Passed(r, x) && Passed(r', x))
  {
    hide Inv, Follows, Resumptions, Claim, Denials, JobOf, Enqueue, CreateOrReplay, RowTxn, ValidJob, Less;
    NextKeeps(cfg, w, op);
    var r, r', x := w.store.rows[other], Next(cfg, w, op).store.rows[other], w.store.rows[waiting];
    if Passed(r, x) {
      MarkerMoves(r, w.clock, r', EndOf(w, op), TokensOf(op), x);
    }
    if TokensOf(op) == {} {
      QuietResumes(r, w.clock, r', EndOf(w, op));
    } else if Claim(cfg, w.store.rows, op.request).Granted? {
      if op.request.scope == x.row.cols.scope {
        ResumedPrecedesWaiting(cfg, w.store.rows, op.request, waiting, other);
        if Less(OfferKey(r), ReadyKey(x)) {
          LessMeansUnpassed(r, x);
        }
      } else {
        ForeignClaim(cfg, w.store.rows, op.request, other);
      }
    }
  }

  lemma QuietResumes(r: Record, c: Time, r': Record, c': Time)
    requires Follows(r, c, r', c', {})
    ensures Resumptions(r') == Resumptions(r)
  {
    hide Inv, JobOf, Live, Resumptions;
  }

  lemma LessMeansUnpassed(r: Record, x: Record)
    requires Less(OfferKey(r), ReadyKey(x))
    ensures !Passed(r, x)
  {
  }

  /** A claim of another scope leaves the row alone. */
  lemma ForeignClaim(cfg: Config, rows: Rows, q: ClaimRequest, id: string)
    requires RowsInv(rows) && q.at <= q.late && id in rows && rows[id].row.cols.scope != q.scope
    requires Claim(cfg, rows, q).Granted?
    ensures id in Claim(cfg, rows, q).rows && Claim(cfg, rows, q).rows[id] == rows[id]
  {
    hide Inv, Follows, RecoverAll, ClaimAll, Selected, Chosen;
    SelectionFits(rows, q);
    RecoverAllKeeps(cfg, rows, Selected(rows, q), q.now, q.answers, q.at, [], q.at);
    ChosenFits(cfg, rows, q);
    var s := SweepExpired(cfg, rows, q);
    var ks := Chosen(s.rows, s.offered, q);
    RecoverAllOffers(cfg, rows, Selected(rows, q), q.now, q.answers, q.at, [], id);
    assert forall k :: k in Selected(rows, q) ==> k.id != id;
    assert id !in s.offered && s.rows[id] == rows[id];
    assert forall k :: k in ks ==> k.id != id;
    ClaimAllKeeps(cfg, s.rows, ks, q.worker, q.tokens, q.hints, q.now, q.late, [], q.at);
  }

  /** A job whose version has not moved is still the same job. */
  lemma StillWaiting(r: Record, c: Time, r': Record, c': Time, granted: set<string>)
    requires Follows(r, c, r', c', granted)
    ensures JobOf(r).version == r.row.cols.version && JobOf(r').version == r'.row.cols.version
    ensures r.row.cols.version <= r'.row.cols.version
    ensures r'.row.cols.scope == r.row.cols.scope
    ensures r.row.cols.version == r'.row.cols.version ==>
              && r'.row.cols.state == r.row.cols.state && r'.row.cols.availableAt == r.row.cols.availableAt
              && r'.row.cols.createdAt == r.row.cols.createdAt
  {
    hide Inv, Live, Resumptions, LoadAttempts, HistoryKept;
  }

  function Overtakings(rec: Record, waiting: Record): nat {
    Resumptions(rec) + if Passed(rec, waiting) then 0 else 1
  }

  lemma {:induction false} OvertakingsFall(cfg: Config, w: World, ops: seq<Op>, waiting: string, other: string)
    requires WorldInv(w) && TimelyRun(cfg, w, ops) && waiting in w.store.rows && other in w.store.rows
    requires w.store.rows[other].row.cols.scope == w.store.rows[waiting].row.cols.scope
    requires Ready(w.store.rows[waiting], w.store.rows[waiting].row.cols.scope, w.clock)
    requires w.store.rows[waiting].row.cols.createdAt < w.clock && NeverSkipped(ops, waiting)
    requires waiting in Run(cfg, w, ops).store.rows && other in Run(cfg, w, ops).store.rows
    requires Run(cfg, w, ops).store.rows[waiting].row.cols.version == w.store.rows[waiting].row.cols.version
    ensures Overtakings(Run(cfg, w, ops).store.rows[other], w.store.rows[waiting])
            <= Overtakings(w.store.rows[other], w.store.rows[waiting])
  {
    hide WorldInv, Follows, Resumptions, Next, Timely, JobOf, Passed;
    if ops != [] {
      var before, last := ops[..|ops| - 1], ops[|ops| - 1];
      RunKeeps(cfg, w, before);
      var m := Run(cfg, w, before);
      NextKeeps(cfg, m, last);
      var w' := Next(cfg, m, last);
      var x := w.store.rows[waiting];
      StillWaiting(x, w.clock, m.store.rows[waiting], m.clock, TokensOfRun(before));
      StillWaiting(m.store.rows[waiting], m.clock, w'.store.rows[waiting], w'.clock, TokensOf(last));
      StillWaiting(w.store.rows[other], w.clock, m.store.rows[other], m.clock, TokensOfRun(before));
      OvertakingsFall(cfg, w, before, waiting, other);
      OvertakingStep(cfg, m, last, waiting, other);
      SamePassed(m.store.rows[other], x, m.store.rows[waiting]);
      SamePassed(w'.store.rows[other], x, m.store.rows[waiting]);
    }
  }

  lemma SamePassed(r: Record, x: Record, y: Record)
    ensures x.row.cols.createdAt == y.row.cols.createdAt ==> Passed(r, x) == Passed(r, y)
  {
  }

  /**
   Fairness over whole runs: once the clock is past a ready job's creation, any
   other job overtakes it by checkpoint resume at most once for as long as it
   waits, and not at all if that job's marker has already passed it.
   */
  lemma OvertakenAtMostOnce(cfg: Config, w: World, ops: seq<Op>, waiting: string, other: string)
    requires WorldInv(w) && TimelyRun(cfg, w, ops) && waiting in w.store.rows && other in w.store.rows
    requires w.store.rows[other].row.cols.scope == w.store.rows[waiting].row.cols.scope
    requires Ready(w.store.rows[waiting], w.store.rows[waiting].row.cols.scope, w.clock)
    requires w.store.rows[waiting].row.cols.createdAt < w.clock && NeverSkipped(ops, waiting)
    ensures var w' := Run(cfg, w, ops);
            && waiting in w'.store.rows && other in w'.store.rows
            && (w'.store.rows[waiting].row.cols.version == w.store.rows[waiting].row.cols.version ==>
                  && Resumptions(w'.store.rows[other]) <= Resumptions(w.store.rows[other]) + 1
                  && (Passed(w.store.rows[other], w.store.rows[waiting]) ==>
                        Resumptions(w'.store.rows[other]) <= Resumptions(w.store.rows[other])))
  {
    hide WorldInv, Follows, Resumptions, Run, TimelyRun, JobOf, Passed, Ready, NeverSkipped;
    RunKeeps(cfg, w, ops);
    if Run(cfg, w, ops).store.rows[waiting].row.cols.version == w.store.rows[waiting].row.cols.version {
      OvertakingsFall(cfg, w, ops, waiting, other);
    }
  }
}
