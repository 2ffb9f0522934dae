/**
 Dependency walks of the workflow checker: job reachability through `needs`, and
 the commands a Make target runs. Both refuse cycles and missing targets.
 */
module WorkflowGraph {
  import opened Common

  type Name = string

  /** Well-formed nodes and what each depends on. */
  type Links = map<Name, seq<Name>>

  // ---------------------------------------------------------------- walks

  /** A chain of dependencies starting at a name; only its last name may be missing. */
  predicate IsWalk(links: Links, walk: seq<Name>, start: Name) {
    && walk != [] && walk[0] == start
    && (|walk| > 1 ==> start in links && walk[1] in links[start] && IsWalk(links, walk[1..], walk[1]))
  }

  predicate Repeats(walk: seq<Name>) {
    walk != [] && (walk[0] in walk[1..] || Repeats(walk[1..]))
  }

  /** The walk ends nowhere, ends in a name being visited, or goes round in a circle. */
  predicate Faulty(links: Links, walk: seq<Name>, visiting: set<Name>)
    requires walk != []
  {
    walk[|walk| - 1] !in links || walk[|walk| - 1] in visiting || Repeats(walk)
  }

  ghost predicate Fault(links: Links, start: Name, visiting: set<Name>) {
    exists walk :: IsWalk(links, walk, start) && walk != [] && Faulty(links, walk, visiting)
  }

  /** The recursive check both walks perform. */
  predicate Sound(links: Links, start: Name, visiting: set<Name>)
    decreases |links.Keys - visiting|
  {
    && start in links && start !in visiting
    && (Shrinks(links.Keys, visiting, start);
        forall n :: n in links[start] ==> Sound(links, n, visiting + {start}))
  }

  lemma {:induction false} UnsoundHasFault(links: Links, start: Name, visiting: set<Name>)
    requires !Sound(links, start, visiting)
    ensures Fault(links, start, visiting)
    decreases |links.Keys - visiting|
  {
    if start !in links || start in visiting {
      assert IsWalk(links, [start], start) && Faulty(links, [start], visiting);
    } else {
      Shrinks(links.Keys, visiting, start);
      var n :| n in links[start] && !Sound(links, n, visiting + {start});
      UnsoundHasFault(links, n, visiting + {start});
      var walk :| IsWalk(links, walk, n) && walk != [] && Faulty(links, walk, visiting + {start});
      Longer(links, start, n, walk);
      if !Repeats(walk) && walk[|walk| - 1] == start {
        assert start in walk;
      }
      assert Faulty(links, [start] + walk, visiting);
    }
  }

  lemma Longer(links: Links, start: Name, n: Name, walk: seq<Name>)
    requires start in links && n in links[start] && IsWalk(links, walk, n)
    ensures IsWalk(links, [start] + walk, start) && ([start] + walk)[1..] == walk
    ensures ([start] + walk)[|[start] + walk| - 1] == walk[|walk| - 1]
  {
    assert ([start] + walk)[1..] == walk;
  }

  lemma {:induction false} WalkPrefix(links: Links, walk: seq<Name>, start: Name, n: nat)
    requires IsWalk(links, walk, start) && 1 <= n <= |walk|
    ensures IsWalk(links, walk[..n], start)
  {
    if n > 1 {
      WalkPrefix(links, walk[1..], walk[1], n - 1);
      assert walk[..n][1..] == walk[1..][..n - 1];
    }
  }

  lemma {:induction false} FaultIsUnsound(links: Links, start: Name, visiting: set<Name>, walk: seq<Name>)
    requires IsWalk(links, walk, start) && Faulty(links, walk, visiting)
    ensures !Sound(links, start, visiting)
    decreases |links.Keys - visiting|
  {
    if start in links && start !in visiting {
      Shrinks(links.Keys, visiting, start);
      var rest := walk[1..];
      assert rest == [] ==> !Repeats(rest) && start !in rest;
      assert |walk| == 1 ==> rest == [];
      if start in rest {
        var k :| 0 <= k < |rest| && rest[k] == start;
        WalkPrefix(links, rest, walk[1], k + 1);
        FaultIsUnsound(links, walk[1], visiting + {start}, rest[..k + 1]);
      } else {
        FaultIsUnsound(links, walk[1], visiting + {start}, rest);
      }
    }
  }

  /** The check fails exactly when a missing name or a cycle can be reached. */
  lemma SoundExactly(links: Links, start: Name, visiting: set<Name>)
    ensures Sound(links, start, visiting) <==> !Fault(links, start, visiting)
  {
    hide Sound, IsWalk, Faulty;
    if !Sound(links, start, visiting) {
      UnsoundHasFault(links, start, visiting);
    }
    if Fault(links, start, visiting) {
      var walk :| IsWalk(links, walk, start) && walk != [] && Faulty(links, walk, visiting);
      FaultIsUnsound(links, start, visiting, walk);
    }
  }

  // ---------------------------------------------------------------- workflow jobs

  /** A job of the workflow; `needs` is None when it is malformed. */
  datatype Job = Job(mapping: bool, needs: Option<seq<Name>>, enabled: bool, always: bool)

  type Jobs = map<Name, Job>

  function JobLinks(jobs: Jobs): Links {
    map id | id in jobs && jobs[id].mapping && jobs[id].needs.Some? :: jobs[id].needs.value
  }

  /** None for an invalid graph; always() overrides a skipped need but not a broken one. */
  function Reachable(jobs: Jobs, id: Name, visiting: set<Name>): Option<bool>
    decreases |JobLinks(jobs).Keys - visiting|
  {
    var links := JobLinks(jobs);
    if id in visiting || id !in links then None
    else
      Shrinks(links.Keys, visiting, id);
      if exists n :: n in links[id] && Reachable(jobs, n, visiting + {id}).None? then None
      else if !jobs[id].enabled then Some(false)
      else Some(jobs[id].always || forall n :: n in links[id] ==> Reachable(jobs, n, visiting + {id}) == Some(true))
  }

  lemma {:induction false} ReachableSound(jobs: Jobs, id: Name, visiting: set<Name>)
    ensures Reachable(jobs, id, visiting).Some? <==> Sound(JobLinks(jobs), id, visiting)
    decreases |JobLinks(jobs).Keys - visiting|
  {
    var links := JobLinks(jobs);
    if id in links && id !in visiting {
      Shrinks(links.Keys, visiting, id);
      forall n | n in links[id]
        ensures Reachable(jobs, n, visiting + {id}).Some? <==> Sound(links, n, visiting + {id})
      {
        ReachableSound(jobs, n, visiting + {id});
      }
    }
  }

  /** A job's own rule: enabled, and either unconditional or all its needs hold. */
  predicate Rule(jobs: Jobs, ok: Name -> bool, id: Name) {
    id in JobLinks(jobs) ==>
      (ok(id) <==> jobs[id].enabled && (jobs[id].always || forall n :: n in JobLinks(jobs)[id] ==> ok(n)))
  }

  /** An assignment that obeys the rule at every job a walk from here can reach. */
  ghost predicate Solves(jobs: Jobs, ok: Name -> bool, start: Name) {
    forall walk :: IsWalk(JobLinks(jobs), walk, start) ==> Rule(jobs, ok, walk[|walk| - 1])
  }

  lemma SolvesNeed(jobs: Jobs, ok: Name -> bool, id: Name, n: Name)
    requires Solves(jobs, ok, id) && id in JobLinks(jobs) && n in JobLinks(jobs)[id]
    ensures Solves(jobs, ok, n) && Rule(jobs, ok, id)
  {
    hide Rule, JobLinks;
    var links := JobLinks(jobs);
    assert IsWalk(links, [id], id) && [id][|[id]| - 1] == id;
    forall walk | IsWalk(links, walk, n) ensures Rule(jobs, ok, walk[|walk| - 1]) {
      Longer(links, id, n, walk);
      assert Rule(jobs, ok, ([id] + walk)[|[id] + walk| - 1]);
    }
  }

  /** Whatever obeys the rules agrees with the walk: the solution is unique. */
  lemma {:induction false} ReachableUnique(jobs: Jobs, id: Name, visiting: set<Name>, ok: Name -> bool)
    requires Reachable(jobs, id, visiting).Some? && Solves(jobs, ok, id)
    ensures Reachable(jobs, id, visiting) == Some(ok(id))
    decreases |JobLinks(jobs).Keys - visiting|
  {
    hide Solves, IsWalk;
    var links := JobLinks(jobs);
    Shrinks(links.Keys, visiting, id);
    forall n | n in links[id] ensures Reachable(jobs, n, visiting + {id}) == Some(ok(n)) {
      SolvesNeed(jobs, ok, id, n);
      ReachableUnique(jobs, n, visiting + {id}, ok);
    }
    SolvesHere(jobs, ok, id);
  }

  lemma SolvesHere(jobs: Jobs, ok: Name -> bool, id: Name)
    requires Solves(jobs, ok, id)
    ensures Rule(jobs, ok, id)
  {
    hide Rule, JobLinks;
    assert IsWalk(JobLinks(jobs), [id], id) && [id][|[id]| - 1] == id;
  }

  /** The answer does not depend on the path by which a job was reached. */
  lemma {:induction false} VisitingIrrelevant(jobs: Jobs, id: Name, fewer: set<Name>, more: set<Name>)
    requires fewer <= more && Reachable(jobs, id, more).Some?
    ensures Reachable(jobs, id, fewer) == Reachable(jobs, id, more)
    decreases |JobLinks(jobs).Keys - more|
  {
    var links := JobLinks(jobs);
    Shrinks(links.Keys, more, id);
    forall n | n in links[id] ensures Reachable(jobs, n, fewer + {id}) == Reachable(jobs, n, more + {id}) {
      VisitingIrrelevant(jobs, n, fewer + {id}, more + {id});
    }
    assert Reachable(jobs, id, fewer).Some?;
  }

  /** What the top-level walk answers, as an assignment. */
  ghost function Verdict(jobs: Jobs): Name -> bool {
    (n: Name) => Reachable(jobs, n, {}) == Some(true)
  }

  /** The walk itself obeys the rules wherever the graph is sound. */
  lemma {:induction false} VerdictSolves(jobs: Jobs, start: Name, walk: seq<Name>)
    requires Reachable(jobs, start, {}).Some? && IsWalk(JobLinks(jobs), walk, start)
    ensures Reachable(jobs, walk[|walk| - 1], {}).Some? && Rule(jobs, Verdict(jobs), walk[|walk| - 1])
    decreases |walk|
  {
    var links := JobLinks(jobs);
    forall n | n in links[start] ensures Reachable(jobs, n, {}) == Reachable(jobs, n, {} + {start}) {
      VisitingIrrelevant(jobs, n, {}, {} + {start});
    }
    if |walk| > 1 {
      VerdictSolves(jobs, walk[1], walk[1..]);
    }
  }

  /**
   The job walk terminates on every graph; it answers None exactly when a missing
   or malformed job or a cycle is reachable, and otherwise the one value every
   solution of the dependency rules gives, of which it is one.
   */
  lemma ReachableExact(jobs: Jobs, id: Name)
    ensures Reachable(jobs, id, {}).None? <==> Fault(JobLinks(jobs), id, {})
    ensures Reachable(jobs, id, {}).Some? ==>
              && Solves(jobs, Verdict(jobs), id)
              && forall ok :: Solves(jobs, ok, id) ==> Reachable(jobs, id, {}) == Some(ok(id))
  {
    hide Reachable, Sound, Fault, IsWalk, Rule, JobLinks;
    ReachableSound(jobs, id, {});
    SoundExactly(JobLinks(jobs), id, {});
    if Reachable(jobs, id, {}).Some? {
      forall walk | IsWalk(JobLinks(jobs), walk, id)
        ensures walk != [] && Rule(jobs, Verdict(jobs), walk[|walk| - 1])
      {
        WalkNotEmpty(JobLinks(jobs), walk, id);
        VerdictSolves(jobs, id, walk);
      }
      forall ok | Solves(jobs, ok, id) ensures Reachable(jobs, id, {}) == Some(ok(id)) {
        ReachableUnique(jobs, id, {}, ok);
      }
    }
  }

  lemma WalkNotEmpty(links: Links, walk: seq<Name>, start: Name)
    requires IsWalk(links, walk, start)
    ensures walk != []
  {
  }

  // ---------------------------------------------------------------- make targets

  type Command = seq<string>

  /** A Make rule; `commands` is None when one of its recipes is refused. */
  datatype Target = Target(dependencies: seq<Name>, commands: Option<seq<Command>>)

  datatype Makefile = Makefile(rules: map<Name, Target>, phony: set<Name>)

  /** Targets the walk accepts on their own. */
  function TargetLinks(m: Makefile): Links {
    map n | n in m.rules && n in m.phony && m.rules[n].commands.Some? :: m.rules[n].dependencies
  }

  /** Commands of a target: those of its dependencies in order, then its own. */
  ghost function PostOrder(m: Makefile, name: Name, visiting: set<Name>): seq<Command>
    requires Sound(TargetLinks(m), name, visiting)
    decreases |TargetLinks(m).Keys - visiting|, 0, 0
  {
    Shrinks(TargetLinks(m).Keys, visiting, name);
    PostOrderAll(m, m.rules[name].dependencies, visiting + {name}) + m.rules[name].commands.value
  }

  ghost function PostOrderAll(m: Makefile, names: seq<Name>, visiting: set<Name>): seq<Command>
    requires forall n :: n in names ==> Sound(TargetLinks(m), n, visiting)
    decreases |TargetLinks(m).Keys - visiting|, 1, |names|
  {
    if names == [] then []
    else PostOrderAll(m, names[..|names| - 1], visiting) + PostOrder(m, names[|names| - 1], visiting)
  }

  /** The recursive collector: it fails exactly on a reachable fault, and else yields the post-order. */
  method Collect(m: Makefile, name: Name, visiting: set<Name>) returns (commands: Option<seq<Command>>)
    ensures commands.Some? <==> Sound(TargetLinks(m), name, visiting)
    ensures commands.Some? ==> commands.value == PostOrder(m, name, visiting)
    decreases |m.rules.Keys - visiting|
  {
    if name in visiting || name !in m.rules || name !in m.phony {
      return None;
    }
    var rule := m.rules[name];
    Shrinks(m.rules.Keys, visiting, name);
    var found := [];
    for i := 0 to |rule.dependencies|
      invariant forall n :: n in rule.dependencies[..i] ==> Sound(TargetLinks(m), n, visiting + {name})
      invariant found == PostOrderAll(m, rule.dependencies[..i], visiting + {name})
    {
      var below := Collect(m, rule.dependencies[i], visiting + {name});
      if below.None? {
        return None;
      }
      ghost var names := rule.dependencies[..i + 1];
      assert names[..i] == rule.dependencies[..i];
      found := found + below.value;
    }
    assert rule.dependencies[..|rule.dependencies|] == rule.dependencies;
    if rule.commands.None? {
      return None;
    }
    return Some(found + rule.commands.value);
  }

  /** The collection does not depend on how a target was reached. */
  lemma {:induction false} PostOrderStable(m: Makefile, name: Name, fewer: set<Name>, more: set<Name>)
    requires fewer <= more && Sound(TargetLinks(m), name, more)
    ensures Sound(TargetLinks(m), name, fewer) && PostOrder(m, name, fewer) == PostOrder(m, name, more)
    decreases |TargetLinks(m).Keys - more|, 0, 0
  {
    Shrinks(TargetLinks(m).Keys, more, name);
    PostOrderAllStable(m, m.rules[name].dependencies, fewer + {name}, more + {name});
  }

  lemma {:induction false} PostOrderAllStable(m: Makefile, names: seq<Name>, fewer: set<Name>, more: set<Name>)
    requires fewer <= more && forall n :: n in names ==> Sound(TargetLinks(m), n, more)
    ensures forall n :: n in names ==> Sound(TargetLinks(m), n, fewer)
    ensures PostOrderAll(m, names, fewer) == PostOrderAll(m, names, more)
    decreases |TargetLinks(m).Keys - more|, 1, |names|
  {
    if names != [] {
      var n := |names| - 1;
      PostOrderAllStable(m, names[..n], fewer, more);
      PostOrderStable(m, names[n], fewer, more);
      assert forall x :: x in names ==> x in names[..n] || x == names[n];
    }
  }
}
