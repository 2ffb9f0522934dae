/**
 The durable-age order in which one claim serves its two lanes: rows ready to
 start and running rows offered for resumption.
 */
module ClaimOrder {
  import opened Common

  /**
   A sort key: unmarked rows first where the query says NULLS FIRST, then the age,
   the creation time and the job id.
   */
  datatype Key = Key(marked: bool, age: real, created: real, id: string)

  predicate TextLess(a: string, b: string) {
    if b == "" then false
    else if a == "" then true
    else if a[0] != b[0] then a[0] < b[0]
    else TextLess(a[1..], b[1..])
  }

  predicate Less(a: Key, b: Key) {
    if a.marked != b.marked then b.marked
    else if a.age != b.age then a.age < b.age
    else if a.created != b.created then a.created < b.created
    else TextLess(a.id, b.id)
  }

  lemma {:induction false} TextTotal(a: string, b: string)
    ensures a != b ==> (TextLess(a, b) <==> !TextLess(b, a))
    ensures !TextLess(a, a)
  {
    if a != "" {
      TextTotal(a[1..], a[1..]);
      if b != "" && a[0] == b[0] {
        TextTotal(a[1..], b[1..]);
        assert a == [a[0]] + a[1..] && b == [b[0]] + b[1..];
      }
    }
  }

  lemma {:induction false} TextTransitive(a: string, b: string, c: string)
    requires TextLess(a, b) && TextLess(b, c)
    ensures TextLess(a, c)
  {
    if a != "" && a[0] == b[0] == c[0] {
      TextTransitive(a[1..], b[1..], c[1..]);
    }
  }

  lemma LessTotal(a: Key, b: Key)
    ensures a != b ==> (Less(a, b) <==> !Less(b, a))
    ensures !Less(a, a)
  {
    TextTotal(a.id, b.id);
    TextTotal(a.id, a.id);
  }

  lemma LessTransitive(a: Key, b: Key, c: Key)
    requires Less(a, b) && Less(b, c)
    ensures Less(a, c)
  {
    if TextLess(a.id, b.id) && TextLess(b.id, c.id) {
      TextTransitive(a.id, b.id, c.id);
    }
  }

  predicate IsLeast(k: Key, s: set<Key>) {
    k in s && forall x :: x in s ==> x == k || Less(k, x)
  }

  lemma {:induction false} LeastExists(s: set<Key>)
    requires s != {}
    ensures exists k :: IsLeast(k, s)
    decreases |s|
  {
    var x :| x in s;
    if s == {x} {
      assert IsLeast(x, s);
    } else {
      LeastExists(s - {x});
      var k :| IsLeast(k, s - {x});
      LessTotal(x, k);
      if Less(k, x) {
        assert IsLeast(k, s);
      } else {
        forall y | y in s ensures y == x || Less(x, y) {
          if y != x && y != k {
            LessTransitive(x, k, y);
          }
        }
        assert IsLeast(x, s);
      }
    }
  }

  lemma LeastUnique(a: Key, b: Key, s: set<Key>)
    requires IsLeast(a, s) && IsLeast(b, s)
    ensures a == b
  {
    LessTotal(a, b);
  }

  function Least(s: set<Key>): (k: Key)
    requires s != {}
    ensures IsLeast(k, s)
  {
    LeastExists(s);
    assert forall a, b | IsLeast(a, s) && IsLeast(b, s) :: a == b by {
      forall a, b | IsLeast(a, s) && IsLeast(b, s) ensures a == b {
        LeastUnique(a, b, s);
      }
    }
    var k :| k in s && IsLeast(k, s);
    k
  }

  /** ORDER BY ... LIMIT n: the n smallest keys, smallest first. */
  function First(s: set<Key>, n: nat): seq<Key>
    decreases |s|
  {
    if n == 0 || s == {} then []
    else [Least(s)] + First(s - {Least(s)}, n - 1)
  }

  function IdsOf(ks: seq<Key>): set<string> {
    set k | k in ks :: k.id
  }

  function Elems(ks: seq<Key>): set<Key> {
    set k | k in ks
  }

  lemma {:induction false} FirstElems(s: set<Key>, n: nat)
    ensures Elems(First(s, n)) <= s
    ensures |First(s, n)| == if n < |s| then n else |s|
    decreases |s|
  {
    if n > 0 && s != {} {
      FirstElems(s - {Least(s)}, n - 1);
      forall k | k in First(s, n) ensures k in s {
        assert k == Least(s) || k in Elems(First(s - {Least(s)}, n - 1));
      }
    }
  }

  lemma FirstStep(s: set<Key>, n: nat, least: Key)
    requires n > 0 && IsLeast(least, s)
    ensures First(s, n) == [least] + First(s - {least}, n - 1)
    ensures Elems(First(s, n)) == {least} + Elems(First(s - {least}, n - 1))
  {
    LeastUnique(least, Least(s), s);
    var rest := First(s - {least}, n - 1);
    assert forall k :: k in [least] + rest <==> k == least || k in rest;
  }

  /** A row left out by the limit is preceded by every row that was let in. */
  lemma {:induction false} FirstIsPrefix(s: set<Key>, n: nat, chosen: Key, waiting: Key)
    requires chosen in First(s, n) && waiting in s && waiting !in First(s, n)
    ensures Less(chosen, waiting)
    decreases |s|
  {
    var least := Least(s);
    if chosen != least {
      FirstIsPrefix(s - {least}, n - 1, chosen, waiting);
    }
  }

  /**
   Truncating the ready lane before the merge loses nothing: the first n keys of
   the merged lanes are the first n keys of the whole union.
   */
  lemma {:induction false} TruncationIsExact(offered: set<Key>, ready: set<Key>, k: nat, n: nat)
    requires n <= k
    ensures First(offered + Elems(First(ready, k)), n) == First(offered + ready, n)
    decreases n
  {
    hide First, Least, Elems, IsLeast;
    var front := Elems(First(ready, k));
    var all, kept := offered + ready, offered + front;
    FirstElems(ready, k);
    if n == 0 || all == {} {
      EmptyFirst(kept, n);
      EmptyFirst(all, n);
    } else {
      LeastExists(all);
      var least :| IsLeast(least, all);
      LeastIn(least, all);
      if least in ready {
        LeastOf(least, all, ready);
        FirstStep(ready, k, least);
        TruncationIsExact(offered - {least}, ready - {least}, k - 1, n - 1);
        FirstElems(ready - {least}, k - 1);
        Without(offered, front, Elems(First(ready - {least}, k - 1)), least);
        Without(offered, ready, ready - {least}, least);
      } else {
        TruncationIsExact(offered - {least}, ready, k, n - 1);
        Without(offered, front, front, least);
        Without(offered, ready, ready, least);
      }
      LeastOf(least, all, kept);
      FirstStep(kept, n, least);
      FirstStep(all, n, least);
    }
  }

  lemma Without(a: set<Key>, b: set<Key>, c: set<Key>, k: Key)
    requires k !in c && (b == c || b == {k} + c)
    ensures (a + b) - {k} == (a - {k}) + c
  {
  }

  lemma LeastIn(k: Key, s: set<Key>)
    requires IsLeast(k, s)
    ensures k in s
  {
  }

  lemma LeastOf(k: Key, s: set<Key>, t: set<Key>)
    requires IsLeast(k, s) && t <= s && k in t
    ensures IsLeast(k, t)
  {
  }

  lemma EmptyFirst(s: set<Key>, n: nat)
    requires n == 0 || s == {}
    ensures First(s, n) == []
  {
  }

  /** ORDER BY never returns a row twice. */
  lemma {:induction false} FirstDistinct(s: set<Key>, n: nat)
    ensures forall i, k :: 0 <= i < k < |First(s, n)| ==> First(s, n)[i] != First(s, n)[k]
    decreases |s|
  {
    if n > 0 && s != {} {
      var rest := s - {Least(s)};
      FirstDistinct(rest, n - 1);
      FirstElems(rest, n - 1);
      forall k | 0 < k < |First(s, n)| ensures First(s, n)[0] != First(s, n)[k] {
        assert First(s, n)[k] in Elems(First(rest, n - 1));
      }
    }
  }
}
