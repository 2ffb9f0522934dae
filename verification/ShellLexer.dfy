/**
 The lexer behind the workflow checker: a bounded static subset of the POSIX shell
 grammar with quotes, operators and here-documents (sections 2.2, 2.3 and 2.7.4 of
 the Shell Command Language, IEEE Std 1003.1). Quotes and bodies are never code.
 */
module ShellLexer {
  import opened Common

  datatype Token = Token(text: string, operator: bool, dynamic: bool, assignment: bool)

  datatype LexError = TrailingEscape | OpenQuote | DelimiterMissing | UnverifiableDelimiter | OpenHeredoc

  /** A here-document still to be read: its delimiter, and whether leading tabs are stripped. */
  datatype Heredoc = Heredoc(delimiter: string, strip: bool)

  datatype State = State(
    tokens: seq<Token>, word: string, active: bool, quoted: bool, dynamic: bool, assignment: bool,
    bareName: bool, heredocs: seq<Heredoc>, waiting: Option<bool>)

  function Clean(tokens: seq<Token>, heredocs: seq<Heredoc>, waiting: Option<bool>): State {
    State(tokens, "", false, false, false, false, true, heredocs, waiting)
  }

  const START: State := Clean([], [], None)

  predicate Blank(c: char) {
    c == ' ' || c == '\t' || c == '\r'
  }

  predicate OperatorChar(c: char) {
    c in ";&|()<>\n"
  }

  predicate Digits(s: string) {
    s != "" && forall i :: 0 <= i < |s| ==> '0' <= s[i] <= '9'
  }

  predicate Letter(c: char) {
    'A' <= c <= 'Z' || 'a' <= c <= 'z' || c == '_'
  }

  predicate Identifier(s: string) {
    s != "" && Letter(s[0]) && forall i :: 0 <= i < |s| ==> Letter(s[i]) || '0' <= s[i] <= '9'
  }

  const LONG_OPERATORS := ["<<-", "&&", "||", ">>", "<<", ";;", "<&", ">&"]

  /** The first listed operator the text starts with, else its first character. */
  function OperatorAt(rest: string): (op: string)
    requires rest != ""
    ensures op <= rest && op != ""
  {
    FirstOf(LONG_OPERATORS, rest)
  }

  function FirstOf(ops: seq<string>, rest: string): (op: string)
    requires rest != ""
    ensures op <= rest && op != ""
  {
    if ops == [] then rest[..1]
    else if ops[0] != "" && ops[0] <= rest then ops[0]
    else FirstOf(ops[1..], rest)
  }

  /** End the current word, if there is one; it may be the delimiter a here-document waits for. */
  function Flush(s: State): Result<State, LexError> {
    if !s.active then Ok(s)
    else
      var token := Token(s.word, false, s.dynamic, s.assignment);
      if s.waiting.None? then Ok(Clean(s.tokens + [token], s.heredocs, None))
      else if s.dynamic || s.word == "" then Err(UnverifiableDelimiter)
      else Ok(Clean(s.tokens + [token], s.heredocs + [Heredoc(s.word, s.waiting.value)], None))
  }

  datatype Quoted = Quoted(rest: string, word: string, dynamic: bool)

  predicate Escapable(c: char) {
    c == '$' || c == '`' || c == '"' || c == '\\' || c == '\n'
  }

  /** Read up to the closing quote; only double quotes know escapes and expansions. */
  function ReadQuoted(rest: string, quote: char, word: string, dynamic: bool): (q: Option<Quoted>)
    ensures q.Some? ==> |q.value.rest| < |rest|
  {
    if rest == "" then None
    else if rest[0] == quote then Some(Quoted(rest[1..], word, dynamic))
    else if quote == '"' && rest[0] == '\\' && |rest| > 1 && Escapable(rest[1]) then
      ReadQuoted(rest[2..], quote, if rest[1] != '\n' then word + [rest[1]] else word, dynamic)
    else
      ReadQuoted(rest[1..], quote, word + [rest[0]], dynamic || (quote == '"' && (rest[0] == '$' || rest[0] == '`')))
  }

  function LineLength(rest: string): (n: nat)
    ensures n <= |rest|
  {
    if rest == "" || rest[0] == '\n' then 0 else 1 + LineLength(rest[1..])
  }

  function AfterLine(rest: string): (r: string)
    ensures rest != "" ==> |r| < |rest|
  {
    var n := LineLength(rest);
    if n < |rest| then rest[n + 1..] else ""
  }

  function StripTabs(line: string): string {
    if line != "" && line[0] == '\t' then StripTabs(line[1..]) else line
  }

  predicate Closes(line: string, h: Heredoc) {
    (if h.strip then StripTabs(line) else line) == h.delimiter
  }

  /** Skip one here-document body with its closing line. */
  function SkipBody(rest: string, h: Heredoc): (r: Option<string>)
    ensures r.Some? ==> |r.value| < |rest|
    decreases |rest|
  {
    if rest == "" then None
    else if Closes(rest[..LineLength(rest)], h) then Some(AfterLine(rest))
    else SkipBody(AfterLine(rest), h)
  }

  function SkipBodies(rest: string, heredocs: seq<Heredoc>): (r: Option<string>)
    ensures r.Some? ==> |r.value| <= |rest|
    decreases |heredocs|
  {
    if heredocs == [] then Some(rest)
    else
      var after := SkipBody(rest, heredocs[0]);
      if after.None? then None else SkipBodies(after.value, heredocs[1..])
  }

  datatype Progress = Progress(rest: string, state: State)

  /** An unquoted integer before a redirection is a descriptor, not a word. */
  function DropDescriptor(c: char, s: State): State {
    if (c == '<' || c == '>') && s.active && !s.quoted && Digits(s.word) then s.(word := "", active := false) else s
  }

  function LexOperator(rest: string, s: State): (p: Result<Progress, LexError>)
    requires rest != ""
    ensures p.Ok? ==> |p.value.rest| < |rest|
  {
    var flushed := Flush(DropDescriptor(rest[0], s));
    if flushed.Err? then Err(flushed.error)
    else if flushed.value.waiting.Some? then Err(DelimiterMissing)
    else
      var op, t := OperatorAt(rest), flushed.value;
      var after := rest[|op|..];
      var pushed := t.(
        tokens := t.tokens + [Token(op, true, false, false)],
        waiting := if op == "<<" then Some(false) else if op == "<<-" then Some(true) else None);
      if op != "\n" then Ok(Progress(after, pushed))
      else
        var bodies := SkipBodies(after, t.heredocs);
        if bodies.None? then Err(OpenHeredoc) else Ok(Progress(bodies.value, pushed.(heredocs := [])))
  }

  /** One turn of the lexer. */
  function Step(rest: string, s: State): (p: Result<Progress, LexError>)
    requires rest != ""
    ensures p.Ok? ==> |p.value.rest| < |rest|
  {
    var c := rest[0];
    if Blank(c) then
      var flushed := Flush(s);
      if flushed.Err? then Err(flushed.error) else Ok(Progress(rest[1..], flushed.value))
    else if c == '#' && !s.active then Ok(Progress(rest[LineLength(rest)..], s))
    else if c == '\\' then
      if |rest| == 1 then Err(TrailingEscape)
      else if rest[1] == '\n' then Ok(Progress(rest[2..], s))
      else Ok(Progress(rest[2..], s.(active := true, bareName := s.bareName && s.assignment, word := s.word + [rest[1]])))
    else if c == '\'' || c == '"' then
      var q := ReadQuoted(rest[1..], c, s.word, s.dynamic);
      if q.None? then Err(OpenQuote)
      else Ok(Progress(q.value.rest,
                       s.(active := true, quoted := true, bareName := s.bareName && s.assignment,
                          word := q.value.word, dynamic := q.value.dynamic)))
    else if OperatorChar(c) then LexOperator(rest, s)
    else
      Ok(Progress(rest[1..],
                  s.(active := true,
                     assignment := s.assignment || (c == '=' && s.bareName && Identifier(s.word)),
                     dynamic := s.dynamic || c in "$`*?[",
                     word := s.word + [c])))
  }

  /** The whole lexer from one point on. */
  function Lex(rest: string, s: State): Result<seq<Token>, LexError>
    decreases |rest|
  {
    if rest == "" then
      var flushed := Flush(s);
      if flushed.Err? then Err(flushed.error)
      else if flushed.value.waiting.Some? || flushed.value.heredocs != [] then Err(OpenHeredoc)
      else Ok(flushed.value.tokens)
    else
      var p := Step(rest, s);
      if p.Err? then Err(p.error) else Lex(p.value.rest, p.value.state)
  }

  // ---------------------------------------------------------------- the loop

  /** The lexer's own loop over one index and one state. */
  method ShellTokens(run: string) returns (r: Result<seq<Token>, LexError>)
    ensures r == Lex(run, START)
  {
    var s := START;
    var i := 0;
    while i < |run|
      invariant 0 <= i <= |run|
      invariant Lex(run[i..], s) == Lex(run, START)
    {
      hide Step, Flush;
      var turn;
      if OperatorChar(run[i]) {
        turn := TakeOperator(run, i, s);
      } else {
        turn := TakeOther(run, i, s);
      }
      if turn.Err? {
        return Err(turn.error);
      }
      i, s := turn.value.0, turn.value.1;
    }
    var flushed := Flush(s);
    if flushed.Err? {
      return Err(flushed.error);
    }
    if flushed.value.waiting.Some? || flushed.value.heredocs != [] {
      return Err(OpenHeredoc);
    }
    return Ok(flushed.value.tokens);
  }

  /** A turn in terms of the index: where it leaves off, and in what state. */
  ghost predicate Turned(run: string, i: nat, s: State, turn: Result<(nat, State), LexError>)
    requires i < |run|
  {
    match turn
    case Err(error) => Step(run[i..], s) == Err(error)
    case Ok(next) => i < next.0 <= |run| && Step(run[i..], s) == Ok(Progress(run[next.0..], next.1))
  }

  /** Blanks, comments, escapes, quotes and ordinary characters. */
  method TakeOther(run: string, i: nat, s: State) returns (turn: Result<(nat, State), LexError>)
    requires i < |run| && !OperatorChar(run[i])
    ensures Turned(run, i, s, turn)
  {
    hide Flush, LexOperator, ReadQuoted, Identifier, OperatorChar;
    var c := run[i];
    assert run[i..][1..] == run[i + 1..];
    if Blank(c) {
      var flushed := Flush(s);
      turn := if flushed.Err? then Err(flushed.error) else Ok((i + 1, flushed.value));
    } else if c == '#' && !s.active {
      CommentMoves(run[i..]);
      var end := EndOfLine(run, i);
      turn := Ok((end, s));
    } else if c == '\\' {
      if i + 1 >= |run| {
        return Err(TrailingEscape);
      }
      assert run[i..][2..] == run[i + 2..];
      turn := Ok((i + 2,
                  if run[i + 1] == '\n' then s
                  else s.(active := true, bareName := s.bareName && s.assignment, word := s.word + [run[i + 1]])));
    } else if c == '\'' || c == '"' {
      var word, dynamic, end := Quote(run, i + 1, c, s.word, s.dynamic);
      if end.None? {
        return Err(OpenQuote);
      }
      turn := Ok((end.value,
                  s.(active := true, quoted := true, bareName := s.bareName && s.assignment,
                     word := word, dynamic := dynamic)));
    } else {
      turn := Ok((i + 1,
                  s.(active := true,
                     assignment := s.assignment || (c == '=' && s.bareName && Identifier(s.word)),
                     dynamic := s.dynamic || c in "$`*?[",
                     word := s.word + [c])));
    }
  }

  lemma CommentMoves(rest: string)
    requires rest != "" && rest[0] == '#'
    ensures LineLength(rest) > 0
  {
  }

  /** An operator, with the here-document bodies a newline brings due. */
  method TakeOperator(run: string, i: nat, s: State) returns (turn: Result<(nat, State), LexError>)
    requires i < |run| && OperatorChar(run[i])
    ensures Turned(run, i, s, turn)
  {
    hide Flush, OperatorAt, SkipBodies;
    OperatorNotOther(run[i]);
    hide OperatorChar;
    var flushed := Flush(DropDescriptor(run[i], s));
    if flushed.Err? {
      return Err(flushed.error);
    }
    if flushed.value.waiting.Some? {
      return Err(DelimiterMissing);
    }
    var op, t := OperatorAt(run[i..]), flushed.value;
    var end := i + |op|;
    assert run[i..][|op|..] == run[end..];
    var heredocs := t.heredocs;
    t := t.(tokens := t.tokens + [Token(op, true, false, false)],
            waiting := if op == "<<" then Some(false) else if op == "<<-" then Some(true) else None);
    if op == "\n" {
      var after := Bodies(run, end, heredocs);
      if after.None? {
        return Err(OpenHeredoc);
      }
      end, t := after.value, t.(heredocs := []);
    }
    return Ok((end, t));
  }

  lemma OperatorNotOther(c: char)
    requires OperatorChar(c)
    ensures !Blank(c) && c != '#' && c != '\\' && c != '\'' && c != '"'
  {
  }

  method EndOfLine(run: string, start: nat) returns (end: nat)
    requires start <= |run|
    ensures start <= end <= |run| && end == start + LineLength(run[start..])
    ensures run[end..] == run[start..][LineLength(run[start..])..]
    ensures run[start..end] == run[start..][..LineLength(run[start..])]
  {
    end := start;
    while end < |run| && run[end] != '\n'
      invariant start <= end <= |run|
      invariant end - start + LineLength(run[end..]) == LineLength(run[start..])
    {
      assert run[end..][1..] == run[end + 1..];
      end := end + 1;
    }
  }

  method Quote(run: string, start: nat, quote: char, word0: string, dynamic0: bool)
    returns (word: string, dynamic: bool, end: Option<nat>)
    requires start <= |run|
    ensures var q := ReadQuoted(run[start..], quote, word0, dynamic0);
            && (end.None? <==> q.None?)
            && (end.Some? ==> start <= end.value <= |run| && q.value == Quoted(run[end.value..], word, dynamic))
  {
    hide Escapable;
    word, dynamic := word0, dynamic0;
    var i := start;
    while i < |run| && run[i] != quote
      invariant start <= i <= |run|
      invariant ReadQuoted(run[i..], quote, word, dynamic) == ReadQuoted(run[start..], quote, word0, dynamic0)
    {
      var c := run[i];
      if quote == '"' && c == '\\' && i + 1 < |run| && Escapable(run[i + 1]) {
        assert run[i..][2..] == run[i + 2..];
        if run[i + 1] != '\n' {
          word := word + [run[i + 1]];
        }
        i := i + 2;
      } else {
        assert run[i..][1..] == run[i + 1..];
        dynamic := dynamic || (quote == '"' && (c == '$' || c == '`'));
        word := word + [c];
        i := i + 1;
      }
    }
    if i >= |run| {
      return word, dynamic, None;
    }
    assert run[i..][1..] == run[i + 1..];
    return word, dynamic, Some(i + 1);
  }

  /** Read every pending body, line by line. */
  method Bodies(run: string, start: nat, heredocs: seq<Heredoc>) returns (end: Option<nat>)
    requires start <= |run|
    ensures var r := SkipBodies(run[start..], heredocs);
            (end.None? <==> r.None?) && (end.Some? ==> start <= end.value <= |run| && r.value == run[end.value..])
  {
    var i := start;
    for k := 0 to |heredocs|
      invariant start <= i <= |run|
      invariant SkipBodies(run[i..], heredocs[k..]) == SkipBodies(run[start..], heredocs)
    {
      ghost var body := i;
      var closed := false;
      while !closed
        invariant body <= i <= |run|
        invariant !closed ==> SkipBody(run[i..], heredocs[k]) == SkipBody(run[body..], heredocs[k])
        invariant closed ==> SkipBody(run[body..], heredocs[k]) == Some(run[i..])
        decreases !closed, |run| - i
      {
        if i >= |run| {
          return None;
        }
        var stop := EndOfLine(run, i);
        var line := run[i..stop];
        ghost var rest := run[i..];
        closed := Closes(line, heredocs[k]);
        i := if stop + 1 < |run| then stop + 1 else |run|;
        assert AfterLine(rest) == run[i..];
      }
      assert heredocs[k..][1..] == heredocs[k + 1..];
    }
    assert heredocs[|heredocs|..] == [];
    return Some(i);
  }

  // ---------------------------------------------------------------- round trip

  datatype Item = Word(text: string) | Op(text: string)

  const PLAIN_OPERATORS: set<string> :=
    {";", "&", "|", "(", ")", "<", ">", "\n", "&&", "||", ">>", ";;", "<&", ">&"}

  predicate ValidItem(item: Item) {
    item.Op? ==> item.text in PLAIN_OPERATORS
  }

  /** A word's characters as they stand inside double quotes. */
  function Escape(text: string): string {
    if text == "" then "" else EscapeChar(text[0]) + Escape(text[1..])
  }

  function EscapeChar(c: char): string {
    if c == '"' || c == '\\' || c == '$' || c == '`' then ['\\', c] else [c]
  }

  function PrintItem(item: Item): string {
    if item.Op? then item.text else "\"" + Escape(item.text) + "\""
  }

  /** Items separated by blanks. */
  function Print(items: seq<Item>): string {
    if items == [] then "" else PrintItem(items[0]) + " " + Print(items[1..])
  }

  function TokensOf(items: seq<Item>): seq<Token> {
    if items == [] then [] else [Token(items[0].text, items[0].Op?, false, false)] + TokensOf(items[1..])
  }

  lemma EscapedCharReads(c: char, more: string, word: string, dynamic: bool)
    ensures ReadQuoted(EscapeChar(c) + more, '"', word, dynamic) == ReadQuoted(more, '"', word + [c], dynamic)
  {
    var printed := EscapeChar(c) + more;
    assert printed[|EscapeChar(c)|..] == more;
    assert forall i :: 0 <= i < |EscapeChar(c)| ==> printed[i] == EscapeChar(c)[i];
  }

  lemma Assoc(a: string, b: string, c: string)
    ensures (a + b) + c == a + (b + c)
  {
  }

  lemma {:induction false} EscapedReads(text: string, tail: string, word: string, dynamic: bool)
    ensures ReadQuoted(Escape(text) + ("\"" + tail), '"', word, dynamic) == Some(Quoted(tail, word + text, dynamic))
  {
    var end := "\"" + tail;
    if text == "" {
      assert Escape(text) + end == end && end[1..] == tail && word + text == word;
    } else {
      hide ReadQuoted, EscapeChar;
      Assoc(EscapeChar(text[0]), Escape(text[1..]), end);
      EscapedCharReads(text[0], Escape(text[1..]) + end, word, dynamic);
      EscapedReads(text[1..], tail, word + [text[0]], dynamic);
      Assoc(word, [text[0]], text[1..]);
      assert [text[0]] + text[1..] == text;
    }
  }

  /** A printed word followed by a blank is one static token, or the delimiter a here-document waits for. */
  lemma WordLexes(text: string, tail: string, tokens: seq<Token>, heredocs: seq<Heredoc>, waiting: Option<bool>)
    requires waiting.Some? ==> text != ""
    ensures Lex(PrintItem(Word(text)) + " " + tail, Clean(tokens, heredocs, waiting))
            == Lex(tail, Clean(tokens + [Token(text, false, false, false)],
                               if waiting.Some? then heredocs + [Heredoc(text, waiting.value)] else heredocs, None))
  {
    var s := Clean(tokens, heredocs, waiting);
    var run := PrintItem(Word(text)) + " " + tail;
    assert run[1..] == Escape(text) + ("\"" + (" " + tail));
    EscapedReads(text, " " + tail, "", false);
    assert "" + text == text;
    var t := s.(active := true, quoted := true, bareName := false, word := text);
    assert Step(run, s) == Ok(Progress(" " + tail, t));
    assert (" " + tail)[1..] == tail;
  }

  /** A blank ends any plain operator, so the longest match is the operator itself. */
  lemma OperatorStands(op: string, tail: string)
    requires op in PLAIN_OPERATORS
    ensures OperatorAt(op + " " + tail) == op && OperatorChar((op + " " + tail)[0])
  {
    var run := op + " " + tail;
    assert run[|op|] == ' ';
    assert forall k :: 0 <= k < |op| ==> run[k] == op[k];
    assert op <= run;
    assert |op| == 1 ==> op == run[..1];
    FirstOfFinds(LONG_OPERATORS, run, op);
  }

  /** The search yields the only operator that fits, or the single character. */
  lemma {:induction false} FirstOfFinds(ops: seq<string>, run: string, op: string)
    requires op <= run && op != "" && (op in ops || |op| == 1)
    requires forall o :: o in ops && o <= run && o != "" ==> o == op
    ensures FirstOf(ops, run) == op
  {
    assert |op| == 1 ==> op == run[..1];
    if ops != [] && ops[0] != op {
      assert op in ops ==> op in ops[1..];
      assert ops[0] in ops && forall o :: o in ops[1..] ==> o in ops;
      FirstOfFinds(ops[1..], run, op);
    }
  }

  /** A plain operator leaves the pending here-documents alone, unless it is a newline. */
  lemma OperatorLexes(op: string, tail: string, tokens: seq<Token>, heredocs: seq<Heredoc>)
    requires op in PLAIN_OPERATORS && (op == "\n" ==> heredocs == [])
    ensures Lex(op + " " + tail, Clean(tokens, heredocs, None))
            == Lex(tail, Clean(tokens + [Token(op, true, false, false)], heredocs, None))
  {
    var s, run := Clean(tokens, heredocs, None), op + " " + tail;
    OperatorStands(op, tail);
    var t := Clean(tokens + [Token(op, true, false, false)], heredocs, None);
    assert run[|op|..] == " " + tail;
    assert Step(run, s) == Ok(Progress(" " + tail, t)) by {
      hide OperatorAt;
    }
    assert (" " + tail)[1..] == tail;
  }

  lemma ItemLexes(item: Item, tail: string, tokens: seq<Token>, heredocs: seq<Heredoc>)
    requires ValidItem(item) && (item == Op("\n") ==> heredocs == [])
    ensures Lex(PrintItem(item) + " " + tail, Clean(tokens, heredocs, None))
            == Lex(tail, Clean(tokens + [Token(item.text, item.Op?, false, false)], heredocs, None))
  {
    hide Lex;
    if item.Op? {
      PrintedOp(item);
      OperatorLexes(item.text, tail, tokens, heredocs);
    } else {
      WordLexes(item.text, tail, tokens, heredocs, None);
    }
  }

  lemma {:induction false} PrintedLexes(items: seq<Item>, tail: string, tokens: seq<Token>)
    requires forall item :: item in items ==> ValidItem(item)
    ensures Lex(Print(items) + tail, Clean(tokens, [], None)) == Lex(tail, Clean(tokens + TokensOf(items), [], None))
  {
    hide Lex, PrintItem, ValidItem;
    if items == [] {
      assert Print(items) + tail == tail && tokens + TokensOf(items) == tokens;
    } else {
      var item := items[0];
      var rest := Print(items[1..]) + tail;
      var token := Token(item.text, item.Op?, false, false);
      Assoc(PrintItem(item) + " ", Print(items[1..]), tail);
      ItemLexes(item, rest, tokens, []);
      PrintedLexes(items[1..], tail, tokens + [token]);
      assert (tokens + [token]) + TokensOf(items[1..]) == tokens + ([token] + TokensOf(items[1..]));
    }
  }

  lemma PrintedOp(item: Item)
    requires item.Op?
    ensures PrintItem(item) == item.text
  {
  }

  /**
   Round trip: any list of words, whatever their characters, and plain operators is
   recovered exactly from its quoted print, and no word is dynamic or an assignment.
   */
  lemma RoundTrip(items: seq<Item>)
    requires forall item :: item in items ==> ValidItem(item)
    ensures Lex(Print(items), START) == Ok(TokensOf(items))
  {
    PrintedLexes(items, "", []);
    assert Print(items) + "" == Print(items);
    assert [] + TokensOf(items) == TokensOf(items);
  }

  // ---------------------------------------------------------------- here-documents

  function Lines(lines: seq<string>): string {
    if lines == [] then "" else lines[0] + "\n" + Lines(lines[1..])
  }

  lemma {:induction false} LineEnds(line: string, tail: string)
    requires '\n' !in line
    ensures LineLength(line + "\n" + tail) == |line|
    ensures (line + "\n" + tail)[..|line|] == line && AfterLine(line + "\n" + tail) == tail
  {
    if line != "" {
      LineEnds(line[1..], tail);
      assert (line + "\n" + tail)[1..] == line[1..] + "\n" + tail;
    }
  }

  /** A body none of whose lines closes it is skipped whole, with its closing line. */
  lemma {:induction false} BodySkipped(lines: seq<string>, closing: string, h: Heredoc, tail: string)
    requires forall line :: line in lines ==> '\n' !in line && !Closes(line, h)
    requires '\n' !in closing && Closes(closing, h)
    ensures SkipBody(Lines(lines) + closing + "\n" + tail, h) == Some(tail)
  {
    hide Closes, LineLength, AfterLine;
    if lines == [] {
      assert Lines(lines) + closing + "\n" + tail == closing + "\n" + tail;
      LineEnds(closing, tail);
    } else {
      var rest := Lines(lines[1..]) + closing + "\n" + tail;
      assert Lines(lines) + closing + "\n" + tail == lines[0] + "\n" + rest;
      LineEnds(lines[0], rest);
      BodySkipped(lines[1..], closing, h, tail);
    }
  }

  /** One here-document as the text gives it: its body, and the line that closes it. */
  datatype Document = Document(lines: seq<string>, closing: string)

  function Text(d: Document): string {
    Lines(d.lines) + d.closing + "\n"
  }

  function Texts(docs: seq<Document>): string {
    if docs == [] then "" else Text(docs[0]) + Texts(docs[1..])
  }

  /** The body is any lines at all, none of which is taken for the closing line. */
  predicate Fits(d: Document, h: Heredoc) {
    && (forall line :: line in d.lines ==> '\n' !in line && !Closes(line, h))
    && '\n' !in d.closing && Closes(d.closing, h)
  }

  predicate AllFit(docs: seq<Document>, heredocs: seq<Heredoc>) {
    |docs| == |heredocs| && forall i :: 0 <= i < |docs| ==> Fits(docs[i], heredocs[i])
  }

  lemma {:induction false} BodiesSkipped(docs: seq<Document>, heredocs: seq<Heredoc>, tail: string)
    requires AllFit(docs, heredocs)
    ensures SkipBodies(Texts(docs) + tail, heredocs) == Some(tail)
  {
    if docs == [] {
      assert Texts(docs) + tail == tail;
    } else {
      hide SkipBody, Fits;
      assert Fits(docs[0], heredocs[0]);
      DocumentSkipped(docs[0], heredocs[0], Texts(docs[1..]) + tail);
      Assoc(Text(docs[0]), Texts(docs[1..]), tail);
      BodiesSkipped(docs[1..], heredocs[1..], tail);
    }
  }

  lemma DocumentSkipped(d: Document, h: Heredoc, tail: string)
    requires Fits(d, h)
    ensures SkipBody(Text(d) + tail, h) == Some(tail)
  {
    hide SkipBody, Closes, Lines;
    BodySkipped(d.lines, d.closing, h, tail);
  }

  /** What a newline makes of the lexer: its token, and no here-document pending. */
  function Newlined(t: State): State {
    t.(tokens := t.tokens + [Token("\n", true, false, false)], heredocs := [], waiting := None)
  }

  /** In any state at a newline: the delimiter is missing or unverifiable, or every pending body is skipped. */
  lemma NewlineReads(s: State, docs: seq<Document>, tail: string)
    ensures var r, flushed := Lex("\n" + (Texts(docs) + tail), s), Flush(s);
            && (flushed.Err? ==> r == Err(flushed.error))
            && (flushed.Ok? && flushed.value.waiting.Some? ==> r == Err(DelimiterMissing))
            && (flushed.Ok? && flushed.value.waiting.None? && AllFit(docs, flushed.value.heredocs) ==>
                  r == Lex(tail, Newlined(flushed.value)))
  {
    hide Step, SkipBodies, AllFit, Flush, Texts;
    var body := Texts(docs) + tail;
    NewlineSteps(body, s);
    var flushed := Flush(s);
    if flushed.Ok? && flushed.value.waiting.None? && AllFit(docs, flushed.value.heredocs) {
      BodiesSkipped(docs, flushed.value.heredocs, tail);
    }
  }

  lemma NewlineSteps(body: string, s: State)
    ensures var flushed := Flush(s);
            Step("\n" + body, s) ==
            if flushed.Err? then Err(flushed.error)
            else if flushed.value.waiting.Some? then Err(DelimiterMissing)
            else if SkipBodies(body, flushed.value.heredocs).None? then Err(OpenHeredoc)
            else Ok(Progress(SkipBodies(body, flushed.value.heredocs).value, Newlined(flushed.value)))
  {
    var run := "\n" + body;
    assert "\n" <= run && run[0] == '\n';
    FirstOfFinds(LONG_OPERATORS, run, "\n");
    assert OperatorAt(run) == "\n";
    hide OperatorAt, SkipBodies, Flush;
    assert run[1..] == body;
    assert Step(run, s) == LexOperator(run, s);
  }

  // ---------------------------------------------------------------- the line before the newline

  /** A text of whole lines. */
  predicate Whole(text: string) {
    text == "" || text[|text| - 1] == '\n'
  }

  lemma {:induction false} LineLocal(text: string, more: string)
    requires text != "" && Whole(text)
    ensures LineLength(text + more) == LineLength(text) < |text|
  {
    if text[0] != '\n' {
      assert (text + more)[1..] == text[1..] + more;
      LineLocal(text[1..], more);
    }
  }

  lemma AfterLineLocal(text: string, more: string)
    requires text != "" && Whole(text)
    ensures (text + more)[..LineLength(text + more)] == text[..LineLength(text)]
    ensures AfterLine(text + more) == AfterLine(text) + more && Whole(AfterLine(text))
  {
    LineLocal(text, more);
    var n := LineLength(text);
    assert (text + more)[n + 1..] == text[n + 1..] + more;
  }

  lemma {:induction false} SkipBodyLocal(text: string, h: Heredoc, more: string)
    requires Whole(text) && SkipBody(text, h).Some?
    ensures SkipBody(text + more, h) == Some(SkipBody(text, h).value + more) && Whole(SkipBody(text, h).value)
    decreases |text|
  {
    hide Closes, LineLength, AfterLine;
    AfterLineLocal(text, more);
    if !Closes(text[..LineLength(text)], h) {
      SkipBodyLocal(AfterLine(text), h, more);
    }
  }

  lemma {:induction false} SkipBodiesLocal(text: string, heredocs: seq<Heredoc>, more: string)
    requires Whole(text) && SkipBodies(text, heredocs).Some?
    ensures SkipBodies(text + more, heredocs) == Some(SkipBodies(text, heredocs).value + more)
    ensures Whole(SkipBodies(text, heredocs).value)
    decreases |heredocs|
  {
    hide SkipBody;
    if heredocs != [] {
      SkipBodyLocal(text, heredocs[0], more);
      SkipBodiesLocal(SkipBody(text, heredocs[0]).value, heredocs[1..], more);
    }
  }

  lemma {:induction false} ReadQuotedLocal(text: string, quote: char, word: string, dynamic: bool, more: string)
    requires Whole(text) && ReadQuoted(text, quote, word, dynamic).Some?
    ensures var q := ReadQuoted(text, quote, word, dynamic).value;
            && ReadQuoted(text + more, quote, word, dynamic) == Some(q.(rest := q.rest + more))
            && Whole(q.rest)
    decreases |text|
  {
    hide Escapable;
    assert (text + more)[1..] == text[1..] + more;
    if text[0] != quote {
      if quote == '"' && text[0] == '\\' && |text| > 1 && Escapable(text[1]) {
        assert (text + more)[2..] == text[2..] + more;
        ReadQuotedLocal(text[2..], quote, if text[1] != '\n' then word + [text[1]] else word, dynamic, more);
      } else {
        ReadQuotedLocal(
          text[1..], quote, word + [text[0]], dynamic || (quote == '"' && (text[0] == '$' || text[0] == '`')), more);
      }
    }
  }

  /** No operator reaches across a newline. */
  lemma {:induction false} FirstOfLocal(ops: seq<string>, text: string, more: string)
    requires text != "" && Whole(text) && forall op :: op in ops ==> '\n' !in op
    ensures FirstOf(ops, text + more) == FirstOf(ops, text)
  {
    if ops != [] {
      PrefixLocal(ops[0], text, more);
      FirstOfLocal(ops[1..], text, more);
    } else {
      assert (text + more)[..1] == text[..1];
    }
  }

  lemma PrefixEnds(op: string, text: string, more: string)
    requires text != "" && Whole(text) && op <= text + more && |op| >= |text|
    ensures '\n' in op
  {
    assert op[|text| - 1] == (text + more)[|text| - 1];
  }

  lemma PrefixLocal(op: string, text: string, more: string)
    requires text != "" && Whole(text) && '\n' !in op
    ensures op <= text + more <==> op <= text
  {
    if op <= text + more {
      if |op| >= |text| {
        PrefixEnds(op, text, more);
      }
      assert forall k :: 0 <= k < |op| ==> op[k] == (text + more)[k] == text[k];
    }
  }

  lemma OperatorLocal(text: string, s: State, more: string)
    requires text != "" && Whole(text) && LexOperator(text, s).Ok?
    ensures var p := LexOperator(text, s).value;
            LexOperator(text + more, s) == Ok(p.(rest := p.rest + more)) && Whole(p.rest)
  {
    FirstOfLocal(LONG_OPERATORS, text, more);
    assert OperatorAt(text + more) == OperatorAt(text);
    hide OperatorAt, SkipBodies, Flush;
    var op := OperatorAt(text);
    assert (text + more)[|op|..] == text[|op|..] + more;
    assert (text + more)[0] == text[0];
    if op == "\n" {
      SkipBodiesLocal(text[|op|..], Flush(DropDescriptor(text[0], s)).value.heredocs, more);
    }
  }

  /** A turn on whole lines does not look at what follows them. */
  lemma StepLocal(text: string, s: State, more: string)
    requires text != "" && Whole(text) && Step(text, s).Ok?
    ensures var p := Step(text, s).value;
            Step(text + more, s) == Ok(p.(rest := p.rest + more)) && Whole(p.rest)
  {
    hide Flush, LexOperator, ReadQuoted, Identifier, OperatorChar, LineLength;
    var c := text[0];
    assert (text + more)[0] == c && (text + more)[1..] == text[1..] + more;
    if Blank(c) {
    } else if c == '#' && !s.active {
      LineLocal(text, more);
      assert (text + more)[LineLength(text)..] == text[LineLength(text)..] + more;
    } else if c == '\\' {
      assert (text + more)[1] == text[1] && (text + more)[2..] == text[2..] + more;
    } else if c == '\'' || c == '"' {
      ReadQuotedLocal(text[1..], c, s.word, s.dynamic, more);
    } else if OperatorChar(c) {
      OperatorLocal(text, s, more);
    }
  }

  /** The state in which the lexer arrives at the newline after this text; None when that newline is quoted, escaped or part of a body. */
  function Arrives(text: string, s: State): Option<State>
    decreases |text|
  {
    if text == "" then Some(s)
    else
      var p := Step(text + "\n", s);
      if p.Err? || p.value.rest == "" then None
      else Arrives(p.value.rest[..|p.value.rest| - 1], p.value.state)
  }

  lemma {:induction false} ArrivesLexes(text: string, s: State, more: string)
    requires Arrives(text, s).Some?
    ensures Lex(text + ("\n" + more), s) == Lex("\n" + more, Arrives(text, s).value)
    decreases |text|
  {
    hide Step;
    if text == "" {
      assert text + ("\n" + more) == "\n" + more;
    } else {
      var run := text + "\n";
      Assoc(text, "\n", more);
      StepLocal(run, s, more);
      var p := Step(run, s).value;
      var left := p.rest[..|p.rest| - 1];
      assert p.rest == left + "\n";
      Assoc(left, "\n", more);
      ArrivesLexes(left, p.state, more);
    }
  }

  /**
   A here-document's body is never code: whatever text comes first and however many
   here-documents it leaves pending, the tokens are those of that text and of what
   follows the last closing line.
   */
  lemma HeredocBodyIgnored(text: string, s: State, docs: seq<Document>, tail: string)
    requires Arrives(text, s).Some? && Flush(Arrives(text, s).value).Ok?
    requires var t := Flush(Arrives(text, s).value).value; t.waiting.None? && AllFit(docs, t.heredocs)
    ensures Lex(text + ("\n" + (Texts(docs) + tail)), s)
            == Lex(tail, Newlined(Flush(Arrives(text, s).value).value))
  {
    hide Lex, Arrives, Flush, Newlined, Texts, AllFit;
    ArrivesLexes(text, s, Texts(docs) + tail);
    NewlineReads(Arrives(text, s).value, docs, tail);
  }

  // ---------------------------------------------------------------- lines with here-documents

  /** One piece of a command line: a word or operator, or a redirection with its delimiter, quoted or bare. */
  datatype Piece = Plain(item: Item) | Redirect(strip: bool, delimiter: string, bare: bool)

  predicate BareChar(c: char) {
    !Blank(c) && !OperatorChar(c) && c !in "#\\'\"=" && c !in "$`*?["
  }

  predicate ValidPiece(piece: Piece) {
    match piece
    case Plain(item) => ValidItem(item) && item != Op("\n")
    case Redirect(_, delimiter, bare) =>
      delimiter != "" && (bare ==> forall i :: 0 <= i < |delimiter| ==> BareChar(delimiter[i]))
  }

  function Redirection(strip: bool): string {
    if strip then "<<-" else "<<"
  }

  function PrintPiece(piece: Piece): string {
    match piece
    case Plain(item) => PrintItem(item) + " "
    case Redirect(strip, delimiter, bare) =>
      Redirection(strip) + " " + ((if bare then delimiter else PrintItem(Word(delimiter))) + " ")
  }

  function PrintLine(pieces: seq<Piece>): string {
    if pieces == [] then "" else PrintPiece(pieces[0]) + PrintLine(pieces[1..])
  }

  function PieceTokens(piece: Piece): seq<Token> {
    match piece
    case Plain(item) => [Token(item.text, item.Op?, false, false)]
    case Redirect(strip, delimiter, _) =>
      [Token(Redirection(strip), true, false, false), Token(delimiter, false, false, false)]
  }

  function PieceHeredocs(piece: Piece): seq<Heredoc> {
    match piece
    case Plain(_) => []
    case Redirect(strip, delimiter, _) => [Heredoc(delimiter, strip)]
  }

  function LineTokens(pieces: seq<Piece>): seq<Token> {
    if pieces == [] then [] else PieceTokens(pieces[0]) + LineTokens(pieces[1..])
  }

  function LineHeredocs(pieces: seq<Piece>): seq<Heredoc> {
    if pieces == [] then [] else PieceHeredocs(pieces[0]) + LineHeredocs(pieces[1..])
  }

  lemma RedirectionLexes(strip: bool, tail: string, tokens: seq<Token>, heredocs: seq<Heredoc>)
    ensures Lex(Redirection(strip) + " " + tail, Clean(tokens, heredocs, None))
            == Lex(tail, Clean(tokens + [Token(Redirection(strip), true, false, false)], heredocs, Some(strip)))
  {
    var op := Redirection(strip);
    var s, run := Clean(tokens, heredocs, None), op + " " + tail;
    assert run[|op|] == ' ' && run[0] == '<' && run[1] == '<';
    assert op <= run;
    RedirectionStands(strip, run);
    var t := Clean(tokens + [Token(op, true, false, false)], heredocs, Some(strip));
    assert run[|op|..] == " " + tail;
    assert Step(run, s) == Ok(Progress(" " + tail, t)) by {
      hide OperatorAt;
    }
    assert (" " + tail)[1..] == tail;
  }

  lemma RedirectionStands(strip: bool, run: string)
    requires Redirection(strip) <= run && |run| > |Redirection(strip)| && run[|Redirection(strip)|] == ' '
    ensures OperatorAt(run) == Redirection(strip)
  {
    var op := Redirection(strip);
    assert op[0] == '<' && op[1] == '<';
    assert run[0] == '<' && run[1] == '<';
    if strip {
      assert "<<-" <= run;
      assert LONG_OPERATORS[0] == "<<-";
    } else {
      assert run[2] == ' ';
      FirstOfFinds(LONG_OPERATORS, run, "<<");
    }
  }

  /** The rest of a bare word, up to the blank after it. */
  lemma {:induction false} BareReads(more: string, tail: string, s: State)
    requires s.active && !s.assignment && !s.dynamic && forall i :: 0 <= i < |more| ==> BareChar(more[i])
    ensures Lex(more + " " + tail, s) == Lex(" " + tail, s.(word := s.word + more))
  {
    if more == "" {
      assert more + " " + tail == " " + tail && s.word + more == s.word;
    } else {
      var run := more + " " + tail;
      assert run[0] == more[0] && run[1..] == more[1..] + " " + tail && BareChar(more[0]);
      var next := s.(word := s.word + [more[0]]);
      assert Step(run, s) == Ok(Progress(run[1..], next)) by {
        hide Identifier;
      }
      BareReads(more[1..], tail, next);
      Assoc(s.word, [more[0]], more[1..]);
      assert [more[0]] + more[1..] == more;
    }
  }

  lemma BareWordLexes(text: string, tail: string, tokens: seq<Token>, heredocs: seq<Heredoc>, strip: bool)
    requires text != "" && forall i :: 0 <= i < |text| ==> BareChar(text[i])
    ensures Lex(text + " " + tail, Clean(tokens, heredocs, Some(strip)))
            == Lex(tail, Clean(tokens + [Token(text, false, false, false)], heredocs + [Heredoc(text, strip)], None))
  {
    var s, run := Clean(tokens, heredocs, Some(strip)), text + " " + tail;
    var next := s.(active := true, word := [text[0]]);
    assert run[0] == text[0] && run[1..] == text[1..] + " " + tail && BareChar(text[0]);
    assert "" + [text[0]] == [text[0]];
    assert Step(run, s) == Ok(Progress(run[1..], next));
    BareReads(text[1..], tail, next);
    assert [text[0]] + text[1..] == text;
    var read := next.(word := text);
    assert Lex(run, s) == Lex(" " + tail, read);
    assert (" " + tail)[1..] == tail;
    assert Step(" " + tail, read)
           == Ok(Progress(tail, Clean(tokens + [Token(text, false, false, false)], heredocs + [Heredoc(text, strip)], None)));
  }

  lemma PieceLexes(piece: Piece, tail: string, tokens: seq<Token>, heredocs: seq<Heredoc>)
    requires ValidPiece(piece)
    ensures Lex(PrintPiece(piece) + tail, Clean(tokens, heredocs, None))
            == Lex(tail, Clean(tokens + PieceTokens(piece), heredocs + PieceHeredocs(piece), None))
  {
    hide Lex, ValidItem, PrintItem, Redirection, BareChar;
    match piece
    case Plain(item) =>
      ItemLexes(item, tail, tokens, heredocs);
      assert heredocs + [] == heredocs;
    case Redirect(strip, delimiter, bare) =>
      var word := if bare then delimiter else PrintItem(Word(delimiter));
      var after := tokens + [Token(Redirection(strip), true, false, false)];
      Assoc(Redirection(strip) + " ", word + " ", tail);
      RedirectionLexes(strip, word + " " + tail, tokens, heredocs);
      if bare {
        BareWordLexes(delimiter, tail, after, heredocs, strip);
      } else {
        WordLexes(delimiter, tail, after, heredocs, Some(strip));
      }
      assert after + [Token(delimiter, false, false, false)] == tokens + PieceTokens(piece);
  }

  lemma {:induction false} LineLexes(pieces: seq<Piece>, tail: string, tokens: seq<Token>, heredocs: seq<Heredoc>)
    requires forall piece :: piece in pieces ==> ValidPiece(piece)
    ensures Lex(PrintLine(pieces) + tail, Clean(tokens, heredocs, None))
            == Lex(tail, Clean(tokens + LineTokens(pieces), heredocs + LineHeredocs(pieces), None))
  {
    hide Lex, PrintPiece, PieceTokens, PieceHeredocs, ValidPiece;
    if pieces == [] {
      assert PrintLine(pieces) + tail == tail && tokens + [] == tokens && heredocs + [] == heredocs;
    } else {
      var piece, rest := pieces[0], pieces[1..];
      Assoc(PrintPiece(piece), PrintLine(rest), tail);
      PieceLexes(piece, PrintLine(rest) + tail, tokens, heredocs);
      LineLexes(rest, tail, tokens + PieceTokens(piece), heredocs + PieceHeredocs(piece));
      assert tokens + PieceTokens(piece) + LineTokens(rest) == tokens + (PieceTokens(piece) + LineTokens(rest));
      assert heredocs + PieceHeredocs(piece) + LineHeredocs(rest) == heredocs + (PieceHeredocs(piece) + LineHeredocs(rest));
    }
  }

  /**
   After any printed commands, a line of words, operators and here-documents in any number
   and order, with its bodies, reads as its own tokens, a newline, and what follows.
   */
  lemma HeredocLine(items: seq<Item>, pieces: seq<Piece>, docs: seq<Document>, tail: string)
    requires forall item :: item in items ==> ValidItem(item)
    requires forall piece :: piece in pieces ==> ValidPiece(piece)
    requires AllFit(docs, LineHeredocs(pieces))
    ensures Lex(Print(items) + (PrintLine(pieces) + ("\n" + (Texts(docs) + tail))), START)
            == Lex(tail, Clean(TokensOf(items) + LineTokens(pieces) + [Token("\n", true, false, false)], [], None))
  {
    hide Lex, Print, PrintLine, TokensOf, LineTokens, LineHeredocs, AllFit, Texts, ValidItem, ValidPiece;
    var after := "\n" + (Texts(docs) + tail);
    PrintedLexes(items, PrintLine(pieces) + after, []);
    assert [] + TokensOf(items) == TokensOf(items);
    LineLexes(pieces, after, TokensOf(items), []);
    assert [] + LineHeredocs(pieces) == LineHeredocs(pieces);
    NewlineReads(Clean(TokensOf(items) + LineTokens(pieces), LineHeredocs(pieces), None), docs, tail);
  }
}
