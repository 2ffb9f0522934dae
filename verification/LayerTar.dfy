/**
 The streaming tar checker for application layers: fed arbitrary chunks, it
 reaches the verdict a parse of the whole buffer would reach.
 */
module LayerTar {
  import opened Common
  import Pax
  type byte = Pax.byte

  const BLOCK := 512
  const MAX_LAYER_BYTES := 2_147_483_648
  const MAX_LAYER_MEMBERS := 100_000

  /** Member types by what the checker asks of them; anything it does not name is foreign. */
  datatype Kind = RegularFile | Special | PaxHeader | LongName | Foreign

  datatype Header = Header(kind: Kind, size: int)

  /** The header decoder is a library's; it maps a block to a member, or refuses it. */
  type Decoder = seq<byte> -> Option<Header>

  datatype Refusal =
    | Padding | AfterTerminator | BadHeader | TooMuchWork | UnsupportedKind | ExtensionBound
    | NonFilePayload | BadLongName | BadPax | PaxMeaning | Incomplete

  datatype Progress =
    | Reading(header: seq<byte>, remaining: nat, padding: nat, members: nat, zeros: nat,
              extension: Option<(Kind, seq<byte>)>, pending: bool)
    | Refused(error: Refusal)

  const START: Progress := Reading([], 0, 0, 0, 0, None, false)

  predicate IsExtension(kind: Kind) {
    kind.PaxHeader? || kind.LongName?
  }

  predicate AllZero(bs: seq<byte>) {
    forall i :: 0 <= i < |bs| ==> bs[i] == 0
  }

  function PadOf(size: nat): nat {
    (BLOCK - size % BLOCK) % BLOCK
  }

  /** Why a member may not be opened, if it may not. */
  function Objection(h: Header, members: nat): Option<Refusal> {
    if MAX_LAYER_MEMBERS < members + 1 || !(0 <= h.size <= MAX_LAYER_BYTES) then Some(TooMuchWork)
    else if h.kind.Foreign? then Some(UnsupportedKind)
    else if IsExtension(h.kind) && !(0 < h.size <= Pax.MAX_LAYER_EXTENSION_BYTES) then Some(ExtensionBound)
    else if h.kind.Special? && h.size != 0 then Some(NonFilePayload)
    else None
  }

  /** What is wrong with a complete extension payload, if anything. */
  function Metadata(kind: Kind, payload: seq<byte>): Option<Refusal> {
    if kind.PaxHeader? then
      match Pax.Check(payload)
      case Accepted => None
      case Malformed => Some(BadPax)
      case Unsupported => Some(PaxMeaning)
    else if payload == [] || payload[|payload| - 1] != 0 then Some(BadLongName)
    else None
  }

  // ---------------------------------------------------------------- byte by byte

  function OpenMember(decode: Decoder, s: Progress, block: seq<byte>): Progress
    requires s.Reading?
  {
    if AllZero(block) then s.(header := [], zeros := s.zeros + 1)
    else if s.zeros > 0 then Refused(AfterTerminator)
    else
      var h := decode(block);
      if h.None? then Refused(BadHeader)
      else
        var objection := Objection(h.value, s.members);
        if objection.Some? then Refused(objection.value)
        else s.(header := [], members := s.members + 1, remaining := h.value.size, padding := PadOf(h.value.size),
                pending := IsExtension(h.value.kind),
                extension := if IsExtension(h.value.kind) then Some((h.value.kind, [])) else s.extension)
  }

  function CloseData(s: Progress): Progress
    requires s.Reading?
  {
    if s.remaining == 0 && s.extension.Some? then
      var wrong := Metadata(s.extension.value.0, s.extension.value.1);
      if wrong.Some? then Refused(wrong.value) else s.(extension := None)
    else s
  }

  function Data(s: Progress, bs: seq<byte>): Progress
    requires s.Reading? && |bs| <= s.remaining
  {
    CloseData(s.(remaining := s.remaining - |bs|,
                 extension := if s.extension.Some? then Some((s.extension.value.0, s.extension.value.1 + bs)) else None))
  }

  function Pad(s: Progress, bs: seq<byte>): Progress
    requires s.Reading? && |bs| <= s.padding
  {
    if AllZero(bs) then s.(padding := s.padding - |bs|) else Refused(Padding)
  }

  function Head(decode: Decoder, s: Progress, bs: seq<byte>): Progress
    requires s.Reading? && |s.header| + |bs| <= BLOCK
  {
    if |s.header| + |bs| < BLOCK then s.(header := s.header + bs) else OpenMember(decode, s, s.header + bs)
  }

  predicate Sound(s: Progress) {
    s.Reading? ==> |s.header| < BLOCK && (s.extension.Some? ==> s.remaining > 0)
  }

  function Step(decode: Decoder, s: Progress, b: byte): (r: Progress)
    requires Sound(s)
    ensures Sound(r)
  {
    if s.Refused? then s
    else if s.remaining > 0 then Data(s, [b])
    else if s.padding > 0 then Pad(s, [b])
    else Head(decode, s, [b])
  }

  function Run(decode: Decoder, s: Progress, bs: seq<byte>): (r: Progress)
    requires Sound(s)
    ensures Sound(r)
  {
    if bs == [] then s else Step(decode, Run(decode, s, bs[..|bs| - 1]), bs[|bs| - 1])
  }

  lemma {:induction false} RunAppend(decode: Decoder, s: Progress, a: seq<byte>, b: seq<byte>)
    requires Sound(s)
    ensures Run(decode, s, a + b) == Run(decode, Run(decode, s, a), b)
  {
    if b == [] {
      assert a + b == a;
    } else {
      var n := |b| - 1;
      RunAppend(decode, s, a, b[..n]);
      assert (a + b)[..|a + b| - 1] == a + b[..n];
    }
  }

  lemma {:induction false} RunRefused(decode: Decoder, s: Progress, bs: seq<byte>)
    requires s.Refused?
    ensures Run(decode, s, bs) == s
  {
    if bs != [] {
      RunRefused(decode, s, bs[..|bs| - 1]);
    }
  }

  lemma {:induction false} RunData(decode: Decoder, s: Progress, bs: seq<byte>)
    requires Sound(s) && s.Reading? && 0 < |bs| <= s.remaining
    ensures Run(decode, s, bs) == Data(s, bs)
  {
    var n := |bs| - 1;
    assert bs[..n] + [bs[n]] == bs;
    if n > 0 {
      RunData(decode, s, bs[..n]);
      if s.extension.Some? {
        assert s.extension.value.1 + bs[..n] + [bs[n]] == s.extension.value.1 + bs;
      }
    }
  }

  lemma {:induction false} RunPad(decode: Decoder, s: Progress, bs: seq<byte>)
    requires Sound(s) && s.Reading? && s.remaining == 0 && |bs| <= s.padding
    ensures Run(decode, s, bs) == Pad(s, bs)
  {
    if bs != [] {
      var n := |bs| - 1;
      RunPad(decode, s, bs[..n]);
      assert AllZero(bs) <==> AllZero(bs[..n]) && bs[n] == 0;
      assert [bs[n]][0] == bs[n];
    }
  }

  lemma {:induction false} RunHead(decode: Decoder, s: Progress, bs: seq<byte>)
    requires Sound(s) && s.Reading? && s.remaining == 0 && s.padding == 0 && |s.header| + |bs| <= BLOCK
    ensures Run(decode, s, bs) == if bs == [] then s else Head(decode, s, bs)
  {
    if bs != [] {
      var n := |bs| - 1;
      RunHead(decode, s, bs[..n]);
      assert bs[..n] + [bs[n]] == bs;
      assert s.header + bs[..n] + [bs[n]] == s.header + bs;
      hide OpenMember;
      if n == 0 {
        assert [bs[n]] == bs;
      }
    }
  }

  // ---------------------------------------------------------------- chunk by chunk

  class LayerTarInventory {
    const decode: Decoder
    var header: seq<byte>
    var remaining: nat
    var padding: nat
    var members: nat
    var zeros: nat
    var extension: Option<(Kind, seq<byte>)>
    var pending: bool

    function Now(): Progress
      reads this
    {
      Reading(header, remaining, padding, members, zeros, extension, pending)
    }

    constructor (decode: Decoder)
      ensures this.decode == decode && Now() == START
    {
      this.decode := decode;
      header, remaining, padding, members, zeros, extension, pending := [], 0, 0, 0, 0, None, false;
    }

    /** Feeding a chunk is running its bytes one by one, refusals included. */
    method Feed(chunk: seq<byte>) returns (refusal: Option<Refusal>)
      requires Sound(Now())
      modifies this
      ensures match Run(decode, old(Now()), chunk)
              case Refused(error) => refusal == Some(error)
              case Reading(_, _, _, _, _, _, _) => refusal.None? && Now() == Run(decode, old(Now()), chunk) && Sound(Now())
    {
      var view := chunk;
      ghost var start := Now();
      while view != []
        invariant Sound(Now())
        invariant Run(decode, Now(), view) == Run(decode, start, chunk)
        decreases |view|
      {
        hide Run;
        if remaining > 0 {
          refusal, view := TakeData(view);
        } else if padding > 0 {
          refusal, view := TakePadding(view);
        } else {
          refusal, view := TakeHeader(view);
        }
        if refusal.Some? {
          return;
        }
      }
      return None;
    }

    /** Taking bytes off the front leaves what the rest will do unchanged. */
    static ghost predicate Took(
        decode: Decoder, before: Progress, view: seq<byte>, refusal: Option<Refusal>, after: Progress, rest: seq<byte>)
      requires Sound(before)
    {
      match refusal
      case Some(error) => Run(decode, before, view) == Refused(error)
      case None => Sound(after) && |rest| < |view| && Run(decode, after, rest) == Run(decode, before, view)
    }

    method TakeData(view: seq<byte>) returns (refusal: Option<Refusal>, rest: seq<byte>)
      requires Sound(Now()) && remaining > 0 && view != []
      modifies this
      ensures Took(decode, old(Now()), view, refusal, Now(), rest)
    {
      hide Run, Metadata;
      ghost var before := Now();
      var take := if remaining < |view| then remaining else |view|;
      rest := view[take..];
      Split(decode, before, view, take);
      RunData(decode, before, view[..take]);
      if extension.Some? {
        extension := Some((extension.value.0, extension.value.1 + view[..take]));
      }
      remaining := remaining - take;
      refusal := None;
      if remaining == 0 && extension.Some? {
        refusal := CheckExtension(extension.value.0, extension.value.1);
        extension := None;
        if refusal.Some? {
          RunRefused(decode, Refused(refusal.value), rest);
        }
      }
    }

    method TakePadding(view: seq<byte>) returns (refusal: Option<Refusal>, rest: seq<byte>)
      requires Sound(Now()) && remaining == 0 && padding > 0 && view != []
      modifies this
      ensures Took(decode, old(Now()), view, refusal, Now(), rest)
    {
      hide Run, AllZero;
      ghost var before := Now();
      var take := if padding < |view| then padding else |view|;
      rest := view[take..];
      Split(decode, before, view, take);
      RunPad(decode, before, view[..take]);
      if !AllZero(view[..take]) {
        RunRefused(decode, Refused(Padding), rest);
        return Some(Padding), rest;
      }
      padding := padding - take;
      refusal := None;
    }

    method TakeHeader(view: seq<byte>) returns (refusal: Option<Refusal>, rest: seq<byte>)
      requires Sound(Now()) && remaining == 0 && padding == 0 && view != []
      modifies this
      ensures Took(decode, old(Now()), view, refusal, Now(), rest)
    {
      hide Run, OpenMember;
      ghost var before := Now();
      var take := if BLOCK - |header| < |view| then BLOCK - |header| else |view|;
      rest := view[take..];
      Split(decode, before, view, take);
      RunHead(decode, before, view[..take]);
      header := header + view[..take];
      refusal := None;
      if |header| == BLOCK {
        refusal := Open(before);
        if refusal.Some? {
          RunRefused(decode, Refused(refusal.value), rest);
        }
      }
    }

    /** A complete header block: a terminator block, a member, or a refusal. */
    method Open(ghost before: Progress) returns (refusal: Option<Refusal>)
      requires |header| == BLOCK && before.Reading? && Now() == before.(header := header) && extension.None?
      modifies this
      ensures match OpenMember(decode, before, old(header))
              case Refused(error) => refusal == Some(error)
              case Reading(_, _, _, _, _, _, _) =>
                refusal.None? && Now() == OpenMember(decode, before, old(header)) && Sound(Now())
    {
      var block := header;
      header := [];
      if AllZero(block) {
        zeros := zeros + 1;
        return None;
      }
      if zeros > 0 {
        return Some(AfterTerminator);
      }
      var h := decode(block);
      if h.None? {
        return Some(BadHeader);
      }
      members := members + 1;
      if MAX_LAYER_MEMBERS < members || !(0 <= h.value.size <= MAX_LAYER_BYTES) {
        return Some(TooMuchWork);
      }
      if h.value.kind.Foreign? {
        return Some(UnsupportedKind);
      }
      if IsExtension(h.value.kind) {
        if !(0 < h.value.size <= Pax.MAX_LAYER_EXTENSION_BYTES) {
          return Some(ExtensionBound);
        }
        extension := Some((h.value.kind, []));
        pending := true;
      } else {
        pending := false;
        if h.value.kind.Special? && h.value.size != 0 {
          return Some(NonFilePayload);
        }
      }
      remaining, padding := h.value.size, PadOf(h.value.size);
      return None;
    }

    static method CheckExtension(kind: Kind, payload: seq<byte>) returns (refusal: Option<Refusal>)
      ensures refusal == Metadata(kind, payload)
    {
      if kind.PaxHeader? {
        var v := Pax.CheckRecords(payload);
        match v
        case Accepted => refusal := None;
        case Malformed => refusal := Some(BadPax);
        case Unsupported => refusal := Some(PaxMeaning);
      } else if payload == [] || payload[|payload| - 1] != 0 {
        refusal := Some(BadLongName);
      } else {
        refusal := None;
      }
    }

    method Finish() returns (refusal: Option<Refusal>)
      ensures refusal == if Done(Now()) then None else Some(Incomplete)
    {
      refusal := if header != [] || remaining > 0 || padding > 0 || zeros < 2 || pending then Some(Incomplete) else None;
    }
  }

  lemma Split(decode: Decoder, s: Progress, view: seq<byte>, take: nat)
    requires Sound(s) && take <= |view|
    ensures Run(decode, s, view) == Run(decode, Run(decode, s, view[..take]), view[take..])
  {
    assert view[..take] + view[take..] == view;
    RunAppend(decode, s, view[..take], view[take..]);
  }

  function Concat(chunks: seq<seq<byte>>): seq<byte> {
    if chunks == [] then [] else Concat(chunks[..|chunks| - 1]) + chunks[|chunks| - 1]
  }

  /** A whole stream, however it is cut: only its bytes decide. */
  method Inspect(decode: Decoder, chunks: seq<seq<byte>>) returns (refusal: Option<Refusal>)
    ensures refusal.None? <==> Done(Run(decode, START, Concat(chunks)))
    ensures refusal.Some? ==> Run(decode, START, Concat(chunks)) == Refused(refusal.value) || refusal == Some(Incomplete)
  {
    var inventory := new LayerTarInventory(decode);
    for i := 0 to |chunks|
      invariant inventory.decode == decode && Sound(inventory.Now())
      invariant inventory.Now() == Run(decode, START, Concat(chunks[..i]))
    {
      hide Run;
      assert chunks[..i + 1][..i] == chunks[..i];
      RunAppend(decode, START, Concat(chunks[..i]), chunks[i]);
      refusal := inventory.Feed(chunks[i]);
      if refusal.Some? {
        RefusedPrefix(decode, chunks, i + 1, refusal.value);
        return;
      }
    }
    assert chunks[..|chunks|] == chunks;
    refusal := inventory.Finish();
  }

  /** What a prefix refuses, the whole refuses for the same reason. */
  lemma {:induction false} RefusedPrefix(decode: Decoder, chunks: seq<seq<byte>>, n: nat, error: Refusal)
    requires n <= |chunks| && Run(decode, START, Concat(chunks[..n])) == Refused(error)
    ensures Run(decode, START, Concat(chunks)) == Refused(error)
    decreases |chunks| - n
  {
    if n < |chunks| {
      assert chunks[..n + 1][..n] == chunks[..n];
      RunAppend(decode, START, Concat(chunks[..n]), chunks[n]);
      RunRefused(decode, Refused(error), chunks[n]);
      RefusedPrefix(decode, chunks, n + 1, error);
    } else {
      assert chunks[..n] == chunks;
    }
  }

  // ---------------------------------------------------------------- the whole buffer

  /** The state in which an archive may end. */
  predicate Done(s: Progress) {
    s.Reading? && s.header == [] && s.remaining == 0 && s.padding == 0 && s.zeros >= 2 && !s.pending
  }

  /** One archive member as it lies in the buffer. */
  datatype Member = Member(block: seq<byte>, payload: seq<byte>)

  function Zeros(n: nat): (z: seq<byte>)
    ensures |z| == n && AllZero(z)
  {
    seq(n, _ => 0)
  }

  function MemberText(m: Member): seq<byte> {
    m.block + m.payload + Zeros(PadOf(|m.payload|))
  }

  function Archive(members: seq<Member>, blocks: nat): seq<byte> {
    if members == [] then Zeros(BLOCK * blocks) else MemberText(members[0]) + Archive(members[1..], blocks)
  }

  /** A complete, admissible member after `count` others. */
  predicate Complete(decode: Decoder, m: Member, count: nat) {
    && |m.block| == BLOCK && !AllZero(m.block)
    && decode(m.block).Some?
    && var h := decode(m.block).value;
       && Objection(h, count).None? && h.size == |m.payload|
       && (IsExtension(h.kind) ==> Metadata(h.kind, m.payload).None?)
  }

  predicate AllComplete(decode: Decoder, members: seq<Member>, count: nat) {
    members != [] ==> Complete(decode, members[0], count) && AllComplete(decode, members[1..], count + 1)
  }

  /** The last member describes another that never comes. */
  predicate Dangling(decode: Decoder, members: seq<Member>, pending: bool)
    requires forall m :: m in members ==> decode(m.block).Some?
  {
    if members == [] then pending else Dangling(decode, members[1..], IsExtension(decode(members[0].block).value.kind))
  }

  lemma {:induction false} CompleteDecodes(decode: Decoder, members: seq<Member>, count: nat)
    requires AllComplete(decode, members, count)
    ensures forall m :: m in members ==> decode(m.block).Some?
  {
    if members != [] {
      CompleteDecodes(decode, members[1..], count + 1);
      assert forall m :: m in members ==> m == members[0] || m in members[1..];
    }
  }

  predicate IsArchive(decode: Decoder, members: seq<Member>, blocks: nat, count: nat, pending: bool) {
    && blocks >= 2 && AllComplete(decode, members, count)
    && (forall m :: m in members ==> decode(m.block).Some?) && !Dangling(decode, members, pending)
  }

  /** Between members, before any terminator block. */
  function Between(count: nat, pending: bool): Progress {
    Reading([], 0, 0, count, 0, None, pending)
  }

  /** A complete member moves the checker from one boundary to the next. */
  lemma MemberRuns(decode: Decoder, m: Member, count: nat, pending: bool, rest: seq<byte>)
    requires Complete(decode, m, count)
    ensures Run(decode, Between(count, pending), MemberText(m) + rest)
            == Run(decode, Between(count + 1, IsExtension(decode(m.block).value.kind)), rest)
  {
    hide Run, AllZero, Metadata, Objection;
    var h := decode(m.block).value;
    var s := Between(count, pending);
    var s1 := OpenMember(decode, s, m.block);
    var pad := Zeros(PadOf(|m.payload|));
    assert MemberText(m) + rest == m.block + (m.payload + (pad + rest));
    RunAppend(decode, s, m.block, m.payload + (pad + rest));
    RunHead(decode, s, m.block);
    assert [] + m.block == m.block;
    RunAppend(decode, s1, m.payload, pad + rest);
    PayloadRuns(decode, s1, h, m.payload);
    var s2 := s1.(remaining := 0, extension := None);
    RunAppend(decode, s2, pad, rest);
    RunPad(decode, s2, pad);
  }

  lemma PayloadRuns(decode: Decoder, s: Progress, h: Header, payload: seq<byte>)
    requires s.Reading? && Sound(s) && s.remaining == |payload|
    requires s.extension == if IsExtension(h.kind) then Some((h.kind, [])) else None
    ensures var wrong := if IsExtension(h.kind) then Metadata(h.kind, payload) else None;
            Run(decode, s, payload) == if wrong.Some? then Refused(wrong.value) else s.(remaining := 0, extension := None)
  {
    hide Metadata;
    if payload != [] {
      RunData(decode, s, payload);
      assert [] + payload == payload;
    }
  }

  /** After a terminator block only zero blocks may follow. */
  lemma {:induction false} TailDone(decode: Decoder, s: Progress, bs: seq<byte>)
    requires s.Reading? && s == Reading([], 0, 0, s.members, s.zeros, None, s.pending) && s.zeros >= 1
    ensures Done(Run(decode, s, bs)) <==>
              !s.pending && AllZero(bs) && exists n: nat :: |bs| == BLOCK * n && s.zeros + n >= 2
    decreases |bs|
  {
    hide Run;
    if |bs| < BLOCK {
      RunHead(decode, s, bs);
      if bs == [] {
        assert |bs| == BLOCK * 0;
      } else {
        assert forall n: nat :: |bs| != BLOCK * n;
      }
    } else {
      var block, rest := bs[..BLOCK], bs[BLOCK..];
      Split(decode, s, bs, BLOCK);
      RunHead(decode, s, block);
      assert [] + block == block;
      assert AllZero(bs) <==> AllZero(block) && AllZero(rest) by {
        assert bs == block + rest;
      }
      if AllZero(block) {
        TailDone(decode, s.(zeros := s.zeros + 1), rest);
        assert forall n: nat :: |bs| == BLOCK * (n + 1) <==> |rest| == BLOCK * n;
        if exists n: nat :: |bs| == BLOCK * n && s.zeros + n >= 2 {
          var n: nat :| |bs| == BLOCK * n && s.zeros + n >= 2;
          assert |rest| == BLOCK * (n - 1);
        }
        if exists n: nat :: |rest| == BLOCK * n && s.zeros + 1 + n >= 2 {
          var n: nat :| |rest| == BLOCK * n && s.zeros + 1 + n >= 2;
          assert |bs| == BLOCK * (n + 1);
        }
      } else {
        RunRefused(decode, Refused(AfterTerminator), rest);
      }
    }
  }

  /** Every archive of complete members and enough terminator blocks is accepted. */
  lemma {:induction false} ArchiveAccepted(decode: Decoder, members: seq<Member>, blocks: nat, count: nat, pending: bool)
    requires IsArchive(decode, members, blocks, count, pending)
    ensures Done(Run(decode, Between(count, pending), Archive(members, blocks)))
  {
    hide Run, Complete, AllZero;
    if members == [] {
      var bs := Archive(members, blocks);
      var s := Between(count, pending);
      Split(decode, s, bs, BLOCK);
      RunHead(decode, s, bs[..BLOCK]);
      assert [] + bs[..BLOCK] == bs[..BLOCK];
      ZeroParts(bs, BLOCK);
      assert |bs[BLOCK..]| == BLOCK * (blocks - 1);
      TailDone(decode, s.(zeros := 1), bs[BLOCK..]);
    } else {
      MemberRuns(decode, members[0], count, pending, Archive(members[1..], blocks));
      ArchiveAccepted(decode, members[1..], blocks, count + 1, IsExtension(decode(members[0].block).value.kind));
    }
  }

  lemma ZeroParts(bs: seq<byte>, n: nat)
    requires n <= |bs|
    ensures AllZero(bs) <==> AllZero(bs[..n]) && AllZero(bs[n..])
  {
    assert bs == bs[..n] + bs[n..];
  }

  /** A string accepted from a boundary starts with a terminator or with a complete member. */
  lemma AcceptedFront(decode: Decoder, bs: seq<byte>, count: nat, pending: bool) returns (m: Member)
    requires Done(Run(decode, Between(count, pending), bs))
    ensures BLOCK <= |bs|
    ensures !AllZero(bs[..BLOCK]) ==>
              && Complete(decode, m, count) && |MemberText(m)| <= |bs| && bs[..|MemberText(m)|] == MemberText(m)
  {
    hide Run, Metadata, AllZero, Objection;
    var s := Between(count, pending);
    if |bs| < BLOCK {
      RunHead(decode, s, bs);
      assert false;
    }
    var block, body := bs[..BLOCK], bs[BLOCK..];
    m := Member(block, []);
    Split(decode, s, bs, BLOCK);
    RunHead(decode, s, block);
    assert [] + block == block;
    var s1 := OpenMember(decode, s, block);
    if s1.Refused? {
      RunRefused(decode, s1, body);
    } else if !AllZero(block) {
      var payload := BodyComplete(decode, s1, decode(block).value, body);
      m := Member(block, payload);
      assert bs[..|MemberText(m)|] == MemberText(m);
    }
  }

  /** An opened member must be there whole: payload, valid metadata, zero padding. */
  lemma BodyComplete(decode: Decoder, s: Progress, h: Header, body: seq<byte>) returns (payload: seq<byte>)
    requires s.Reading? && Sound(s) && s.remaining == h.size && s.padding == PadOf(h.size)
    requires s.extension == if IsExtension(h.kind) then Some((h.kind, [])) else None
    requires s.zeros == 0 && Done(Run(decode, s, body))
    ensures |payload| == h.size && (IsExtension(h.kind) ==> Metadata(h.kind, payload).None?)
    ensures payload + Zeros(PadOf(h.size)) <= body
  {
    hide Run, Metadata, AllZero;
    if |body| < h.size {
      if body != [] {
        RunData(decode, s, body);
      } else {
        RunHeadNothing(decode, s);
      }
      assert false;
    }
    payload := body[..h.size];
    var rest := body[h.size..];
    Split(decode, s, body, h.size);
    PayloadRuns(decode, s, h, payload);
    if Run(decode, s, payload).Refused? {
      RunRefused(decode, Run(decode, s, payload), rest);
      assert false;
    }
    var s2 := s.(remaining := 0, extension := None);
    var take := if |rest| < s.padding then |rest| else s.padding;
    assert |rest| < s.padding ==> rest[take..] == [];
    Split(decode, s2, rest, take);
    RunPad(decode, s2, rest[..take]);
    if !AllZero(rest[..take]) {
      RunRefused(decode, Refused(Padding), rest[take..]);
      assert false;
    }
    if |rest| < s.padding {
      RunHeadNothing(decode, s2.(padding := s.padding - take));
      assert false;
    }
    ZeroOnly(rest[..take]);
    assert body == payload + rest[..take] + rest[take..];
  }

  lemma RunHeadNothing(decode: Decoder, s: Progress)
    requires Sound(s)
    ensures Run(decode, s, []) == s
  {
  }

  lemma ZeroOnly(bs: seq<byte>)
    requires AllZero(bs)
    ensures bs == Zeros(|bs|)
  {
  }

  /** Every accepted string is an archive. */
  lemma {:induction false} AcceptedIsArchive(decode: Decoder, bs: seq<byte>, count: nat, pending: bool)
    returns (members: seq<Member>, blocks: nat)
    requires Done(Run(decode, Between(count, pending), bs))
    ensures IsArchive(decode, members, blocks, count, pending) && Archive(members, blocks) == bs
    decreases |bs|
  {
    hide Run, Complete, AllZero, MemberText;
    var m := AcceptedFront(decode, bs, count, pending);
    if AllZero(bs[..BLOCK]) {
      members := [];
      blocks := Terminator(decode, bs, count, pending);
    } else {
      var n := |MemberText(m)|;
      TextNotEmpty(decode, m, count);
      assert bs == MemberText(m) + bs[n..];
      MemberRuns(decode, m, count, pending, bs[n..]);
      var later;
      later, blocks := AcceptedIsArchive(decode, bs[n..], count + 1, IsExtension(decode(m.block).value.kind));
      members := [m] + later;
      assert members[1..] == later;
    }
  }

  lemma TextNotEmpty(decode: Decoder, m: Member, count: nat)
    requires Complete(decode, m, count)
    ensures MemberText(m) != [] && decode(m.block).Some?
  {
  }

  lemma Terminator(decode: Decoder, bs: seq<byte>, count: nat, pending: bool) returns (blocks: nat)
    requires Done(Run(decode, Between(count, pending), bs)) && BLOCK <= |bs| && AllZero(bs[..BLOCK])
    ensures blocks >= 2 && bs == Zeros(BLOCK * blocks) && !pending
  {
    hide Run, AllZero;
    var s := Between(count, pending);
    Split(decode, s, bs, BLOCK);
    RunHead(decode, s, bs[..BLOCK]);
    assert [] + bs[..BLOCK] == bs[..BLOCK];
    TailDone(decode, s.(zeros := 1), bs[BLOCK..]);
    var n: nat :| |bs[BLOCK..]| == BLOCK * n && 1 + n >= 2;
    blocks := n + 1;
    ZeroParts(bs, BLOCK);
    ZeroOnly(bs);
  }

  /**
   Feeding and finishing accepts exactly the strings made of complete, zero-padded
   members, none of them a dangling extension header, and two or more zero blocks.
   */
  lemma AcceptsExactly(decode: Decoder, bs: seq<byte>)
    ensures Done(Run(decode, START, bs)) <==>
              exists members, blocks: nat :: IsArchive(decode, members, blocks, 0, false) && Archive(members, blocks) == bs
  {
    hide Run, IsArchive, Archive;
    if Done(Run(decode, START, bs)) {
      var members, blocks := AcceptedIsArchive(decode, bs, 0, false);
    }
    if exists members, blocks: nat :: IsArchive(decode, members, blocks, 0, false) && Archive(members, blocks) == bs {
      var members, blocks: nat :| IsArchive(decode, members, blocks, 0, false) && Archive(members, blocks) == bs;
      ArchiveAccepted(decode, members, blocks, 0, false);
    }
  }
}
