/**
 PAX extended header records: a decimal length that counts itself, a space, a
 keyword, an equals sign, a value and a newline (the pax utility, IEEE Std 1003.1).
 */
module Pax {
  import opened Common

  type byte = b: int | 0 <= b < 256

  const SPACE: byte := 32
  const NEWLINE: byte := 10
  const EQUALS: byte := 61
  const MAX_LAYER_EXTENSION_BYTES := 1_048_576
  /** The length numeral and its space must fit this window. */
  const WINDOW := 24

  function Bytes(s: string): seq<byte> {
    seq(|s|, i requires 0 <= i < |s| => (s[i] as int % 256) as byte)
  }

  function Find(p: seq<byte>, b: byte, limit: nat): (r: Option<nat>)
    requires limit <= |p|
    ensures r.Some? ==> r.value < limit && p[r.value] == b && forall i :: 0 <= i < r.value ==> p[i] != b
    ensures r.None? ==> forall i :: 0 <= i < limit ==> p[i] != b
  {
    if limit == 0 then None
    else
      var earlier := Find(p, b, limit - 1);
      if earlier.Some? then earlier else if p[limit - 1] == b then Some(limit - 1) else None
  }

  // ---------------------------------------------------------------- numerals

  predicate IsNumeral(s: seq<byte>) {
    s != [] && forall i :: 0 <= i < |s| ==> 48 <= s[i] <= 57
  }

  function Value(s: seq<byte>): int {
    if s == [] then 0 else 10 * Value(s[..|s| - 1]) + (s[|s| - 1] as int - 48)
  }

  function Digits(n: nat): seq<byte> {
    if n < 10 then [48 + n] else Digits(n / 10) + [48 + n % 10]
  }

  lemma {:induction false} DigitsRead(n: nat)
    ensures IsNumeral(Digits(n)) && Value(Digits(n)) == n
  {
    if n < 10 {
      assert Value([]) == 0 && [48 + n as int][..0] == [];
    } else {
      DigitsRead(n / 10);
      var front: seq<byte> := Digits(n / 10);
      assert Digits(n)[..|front|] == front;
    }
  }

  lemma {:induction false} DigitsGrow(n: nat)
    ensures |Digits(n + 1)| == |Digits(n)| || (|Digits(n + 1)| == |Digits(n)| + 1 && n % 10 == 9)
  {
    if n % 10 == 9 {
      assert (n + 1) / 10 == n / 10 + 1;
      if n >= 10 {
        DigitsGrow(n / 10);
      } else {
        assert |Digits(1)| == 1;
      }
    } else {
      assert (n + 1) / 10 == n / 10;
    }
  }

  /** A length that counts its own digits exists for every record body. */
  lemma {:induction false} LengthExists(body: nat)
    ensures exists n: nat :: n == |Digits(n)| + body
  {
    if body == 0 {
      assert 1 == |Digits(1)| + body;
    } else {
      LengthExists(body - 1);
      var n: nat :| n == |Digits(n)| + (body - 1);
      DigitsGrow(n);
      if |Digits(n + 1)| == |Digits(n)| {
        assert n + 1 == |Digits(n + 1)| + body;
      } else {
        DigitsGrow(n + 1);
        assert n + 2 == |Digits(n + 2)| + body;
      }
    }
  }

  function Pow10(k: nat): nat {
    if k == 0 then 1 else 10 * Pow10(k - 1)
  }

  lemma {:induction false} DigitsShort(n: nat, k: nat)
    requires 1 <= k && n < Pow10(k)
    ensures |Digits(n)| <= k
  {
    if n >= 10 && k > 1 {
      assert n / 10 < Pow10(k - 1);
      DigitsShort(n / 10, k - 1);
    }
  }

  // ---------------------------------------------------------------- records

  datatype Record = Record(numeral: seq<byte>, key: seq<byte>, value: seq<byte>)

  function Body(r: Record): seq<byte> {
    r.key + [EQUALS] + r.value + [NEWLINE]
  }

  function Text(r: Record): seq<byte> {
    r.numeral + [SPACE] + Body(r)
  }

  function Render(records: seq<Record>): seq<byte> {
    if records == [] then [] else Text(records[0]) + Render(records[1..])
  }

  predicate ValidKey(key: seq<byte>) {
    key != [] && EQUALS !in key
  }

  predicate WellFormed(r: Record) {
    && ValidKey(r.key)
    && IsNumeral(r.numeral) && |r.numeral| < WINDOW && Value(r.numeral) == |Text(r)|
  }

  function Lower(b: byte): byte {
    if 65 <= b <= 90 then b + 32 else b
  }

  predicate Contains(s: seq<byte>, sub: seq<byte>)
    requires sub != []
  {
    |sub| <= |s| && (sub <= s || Contains(s[1..], sub))
  }

  /** Keywords that would change what the following member's size means. */
  predicate RefusedKey(key: seq<byte>) {
    || key == Bytes("size")
    || Contains(seq(|key|, i requires 0 <= i < |key| => Lower(key[i])), Bytes("sparse"))
    || key == Bytes("SCHILY.realsize")
  }

  datatype Verdict = Accepted | Malformed | Unsupported

  /** One record at the front of the payload: its total length and its keyword. */
  function Front(p: seq<byte>): (r: Option<(nat, seq<byte>)>)
    ensures r.Some? ==> 0 < r.value.0 <= |p|
  {
    var space := Find(p, SPACE, if |p| < WINDOW then |p| else WINDOW);
    if space.None? || !IsNumeral(p[..space.value]) then None
    else
      var length := Value(p[..space.value]);
      if length <= space.value + 1 || |p| < length then None
      else
        var record := p[space.value + 1..length];
        var equals := Find(record, EQUALS, |record| - 1);
        if equals.None? || equals.value == 0 || record[|record| - 1] != NEWLINE then None
        else Some((length, record[..equals.value]))
  }

  function Check(p: seq<byte>): Verdict
    decreases |p|
  {
    if p == [] then Accepted
    else
      var front := Front(p);
      if front.None? then Malformed
      else if RefusedKey(front.value.1) then Unsupported
      else Check(p[front.value.0..])
  }

  /** The streaming check of one extension payload. */
  method CheckRecords(payload: seq<byte>) returns (v: Verdict)
    ensures v == Check(payload)
  {
    var offset := 0;
    while offset < |payload|
      invariant 0 <= offset <= |payload|
      invariant Check(payload[offset..]) == Check(payload)
    {
      hide RefusedKey, Front;
      var front := Front(payload[offset..]);
      if front.None? {
        return Malformed;
      }
      var (length, key) := front.value;
      if RefusedKey(key) {
        return Unsupported;
      }
      assert payload[offset..][length..] == payload[offset + length..];
      offset := offset + length;
    }
    return Accepted;
  }

  // ---------------------------------------------------------------- exactness

  /** A well-formed record is read back whole, whatever its value bytes and whatever follows. */
  lemma FrontReads(r: Record, rest: seq<byte>)
    requires WellFormed(r)
    ensures Front(Text(r) + rest) == Some((|Text(r)|, r.key))
  {
    hide Value;
    var p, n := Text(r) + rest, |r.numeral|;
    assert p[n] == SPACE && p[..n] == r.numeral;
    assert forall i :: 0 <= i < n ==> p[i] == r.numeral[i];
    var record := p[n + 1..|Text(r)|];
    assert record == Body(r);
    assert forall i :: 0 <= i < |r.key| ==> record[i] == r.key[i];
    assert record[|r.key|] == EQUALS && record[..|r.key|] == r.key;
  }

  /** Whatever the check takes off the front is a well-formed record. */
  lemma FrontIsRecord(p: seq<byte>) returns (r: Record)
    requires Front(p).Some?
    ensures WellFormed(r) && r.key == Front(p).value.1 && Text(r) == p[..Front(p).value.0]
  {
    hide Value;
    var space := Find(p, SPACE, if |p| < WINDOW then |p| else WINDOW).value;
    var length := Front(p).value.0;
    var record := p[space + 1..length];
    var equals := Find(record, EQUALS, |record| - 1).value;
    r := Record(p[..space], record[..equals], record[equals + 1..|record| - 1]);
    hide Find, Front;
    BodySplits(record, equals);
    assert p[..length] == p[..space] + [SPACE] + record;
  }

  lemma BodySplits(record: seq<byte>, equals: nat)
    requires equals < |record| - 1 && record[equals] == EQUALS && record[|record| - 1] == NEWLINE
    ensures record == record[..equals] + [EQUALS] + record[equals + 1..|record| - 1] + [NEWLINE]
  {
  }

  lemma {:induction false} RenderedIsAccepted(records: seq<Record>)
    requires forall r :: r in records ==> WellFormed(r)
    ensures Check(Render(records)) == Accepted <==> forall r :: r in records ==> !RefusedKey(r.key)
    ensures Check(Render(records)) != Malformed
  {
    hide RefusedKey, Front, WellFormed, Text;
    if records != [] {
      var rest := Render(records[1..]);
      FrontReads(records[0], rest);
      NotEmpty(records[0]);
      assert (Text(records[0]) + rest)[|Text(records[0])|..] == rest;
      RenderedIsAccepted(records[1..]);
      assert forall r :: r in records <==> r == records[0] || r in records[1..];
    }
  }

  lemma NotEmpty(r: Record)
    ensures Text(r) != []
  {
  }

  /** The payloads accepted are exactly the renderings of records that change no size. */
  lemma {:induction false} AcceptedIsRendered(p: seq<byte>) returns (records: seq<Record>)
    requires Check(p) == Accepted
    ensures Render(records) == p && forall r :: r in records ==> WellFormed(r) && !RefusedKey(r.key)
    decreases |p|
  {
    hide RefusedKey, Front, WellFormed, Text;
    if p == [] {
      records := [];
    } else {
      var r := FrontIsRecord(p);
      var n := Front(p).value.0;
      var rest := AcceptedIsRendered(p[n..]);
      records := [r] + rest;
      assert records[1..] == rest;
      assert p == p[..n] + p[n..];
    }
  }

  // ---------------------------------------------------------------- canonical records

  /** A record whose numeral is the decimal form of its own length. */
  ghost function Canonical(key: seq<byte>, value: seq<byte>): (r: Record)
    ensures r.key == key && r.value == value && Value(r.numeral) == |Text(r)| && r.numeral == Digits(|Text(r)|)
  {
    LengthExists(|key| + |value| + 3);
    var n: nat :| n == |Digits(n)| + (|key| + |value| + 3);
    DigitsRead(n);
    Record(Digits(n), key, value)
  }

  lemma CanonicalWellFormed(key: seq<byte>, value: seq<byte>)
    requires ValidKey(key) && |Text(Canonical(key, value))| <= MAX_LAYER_EXTENSION_BYTES
    ensures WellFormed(Canonical(key, value))
  {
    var r := Canonical(key, value);
    DigitsRead(|Text(r)|);
    assert Pow10(7) == 10_000_000 by {
      assert Pow10(3) == 1000;
      assert Pow10(5) == 100_000;
    }
    DigitsShort(|Text(r)|, 7);
  }

  ghost function CanonicalAll(pairs: seq<(seq<byte>, seq<byte>)>): (records: seq<Record>)
    ensures |records| == |pairs|
    ensures forall i :: 0 <= i < |pairs| ==> records[i] == Canonical(pairs[i].0, pairs[i].1)
  {
    if pairs == [] then [] else [Canonical(pairs[0].0, pairs[0].1)] + CanonicalAll(pairs[1..])
  }

  lemma {:induction false} RecordWithin(records: seq<Record>, i: nat)
    requires i < |records|
    ensures |Text(records[i])| <= |Render(records)|
  {
    if i > 0 {
      RecordWithin(records[1..], i - 1);
    }
  }

  /**
   Round trip: for every list of keywords and values within the size bound,
   self-inclusive lengths exist, and the check accepts the rendered payload
   exactly when no keyword carries size or sparse meaning.
   */
  lemma RoundTrip(pairs: seq<(seq<byte>, seq<byte>)>)
    requires forall i :: 0 <= i < |pairs| ==> ValidKey(pairs[i].0)
    requires |Render(CanonicalAll(pairs))| <= MAX_LAYER_EXTENSION_BYTES
    ensures Check(Render(CanonicalAll(pairs))) == Accepted
            <==> forall i :: 0 <= i < |pairs| ==> !RefusedKey(pairs[i].0)
    ensures Check(Render(CanonicalAll(pairs))) != Malformed
  {
    hide RefusedKey, Front, WellFormed, Text, Canonical, Render, Check;
    var records := CanonicalAll(pairs);
    forall i | 0 <= i < |records| ensures WellFormed(records[i]) && records[i].key == pairs[i].0 {
      RecordWithin(records, i);
      CanonicalWellFormed(pairs[i].0, pairs[i].1);
    }
    RenderedIsAccepted(records);
  }
}
