/** Splitting a migration into statements, and telling comment-only chunks from SQL. */
module MigrationText {
  import opened Prelude

  /** White space as the scan sees it, in the ASCII and Latin-1 range. */
  predicate Space(c: char) {
    c == ' ' || 9 as char <= c <= 13 as char || 28 as char <= c <= 31 as char || c == 133 as char || c == 160 as char
  }

  datatype State = Plain | LineComment | BlockComment | SingleQuote | DoubleQuote

  /** The character after position `i`, if there is one. */
  function At(s: string, i: nat): Option<char> {
    if i < |s| then Some(s[i]) else None
  }

  /** One move of the scanner: the next position and state, or nothing when SQL was found. */
  function Move(s: string, i: nat, state: State): (r: Option<(nat, State)>)
    requires i < |s|
    ensures r.Some? ==> i < r.value.0
  {
    var c, next := s[i], At(s, i + 1);
    match state
    case LineComment => Some((i + 1, if c == '\n' then Plain else LineComment))
    case BlockComment => if c == '*' && next == Some('/') then Some((i + 2, Plain)) else Some((i + 1, BlockComment))
    case SingleQuote =>
      if c != '\'' then Some((i + 1, SingleQuote))
      else if next == Some('\'') then Some((i + 2, SingleQuote)) else Some((i + 1, Plain))
    case DoubleQuote =>
      if c != '"' then Some((i + 1, DoubleQuote))
      else if next == Some('"') then Some((i + 2, DoubleQuote)) else Some((i + 1, Plain))
    case Plain =>
      if c == '-' && next == Some('-') then Some((i + 2, LineComment))
      else if c == '/' && next == Some('*') then Some((i + 2, BlockComment))
      else if c == '\'' then Some((i + 1, SingleQuote))
      else if c == '"' then Some((i + 1, DoubleQuote))
      else if !Space(c) && c != ';' then None
      else Some((i + 1, Plain))
  }

  /** The scanner finds SQL from position `i` on. */
  predicate Finds(s: string, i: nat, state: State)
    decreases |s| - i
  {
    i < |s| && (var m := Move(s, i, state); m.None? || Finds(s, m.value.0, m.value.1))
  }

  /** True when the text contains SQL outside comments, quoted text, white space and semicolons. */
  method ContainsSqlToken(s: string) returns (found: bool)
    ensures found == Finds(s, 0, Plain)
  {
    var i, state := 0, Plain;
    while i < |s|
      invariant Finds(s, 0, Plain) == Finds(s, i, state)
      decreases |s| - i
    {
      var m := Move(s, i, state);
      if m.None? {
        return true;
      }
      i, state := m.value.0, m.value.1;
    }
    return false;
  }

  /* ---- What the scan means ---- */

  datatype Kind = Comment | Quoted | Blank | Sql

  datatype Lexeme = Lexeme(kind: Kind, text: string)

  /** Where a lexeme that starts in `state` at `i` ends. */
  function EndOf(s: string, i: nat, state: State): (e: nat)
    requires i <= |s|
    ensures i <= e <= |s|
    decreases |s| - i
  {
    if i == |s| || state == Plain then i
    else
      var m := Move(s, i, state);
      if m.None? || m.value.0 > |s| then |s|
      else EndOf(s, m.value.0, m.value.1)
  }

  function StartOf(s: string, i: nat): (r: Option<(Kind, nat, State)>)
    requires i < |s|
    ensures r.Some? ==> i < r.value.1 <= |s|
  {
    var m := Move(s, i, Plain);
    if m.None? then None
    else
      var kind := match m.value.1 case LineComment => Comment case BlockComment => Comment case Plain => Blank
                  case SingleQuote => Quoted case DoubleQuote => Quoted;
      Some((kind, m.value.0, m.value.1))
  }

  /** The text as a sequence of comments, quoted texts, blanks and single characters of SQL. */
  function Lex(s: string, i: nat): (ls: seq<Lexeme>)
    requires i <= |s|
    decreases |s| - i
  {
    if i == |s| then [] else
    var start := StartOf(s, i);
    if start.None? then [Lexeme(Sql, s[i..i + 1])] + Lex(s, i + 1)
    else
      var e := EndOf(s, start.value.1, start.value.2);
      [Lexeme(start.value.0, s[i..e])] + Lex(s, e)
  }

  function Joined(ls: seq<Lexeme>): string {
    if ls == [] then "" else ls[0].text + Joined(ls[1..])
  }

  predicate HasSql(ls: seq<Lexeme>) {
    exists l :: l in ls && l.kind == Sql
  }

  /** Lexing loses nothing. */
  lemma {:induction false} LexConserves(s: string, i: nat)
    requires i <= |s|
    ensures Joined(Lex(s, i)) == s[i..]
    decreases |s| - i
  {
    if i < |s| {
      var start := StartOf(s, i);
      var e := if start.None? then i + 1 else EndOf(s, start.value.1, start.value.2);
      LexConserves(s, e);
      assert s[i..] == s[i..e] + s[e..];
    }
  }

  lemma {:induction false} FindsAfterLexeme(s: string, i: nat, state: State)
    requires i <= |s|
    ensures Finds(s, i, state) == Finds(s, EndOf(s, i, state), Plain)
    decreases |s| - i
  {
    if i < |s| && state != Plain {
      var m := Move(s, i, state);
      if m.Some? && m.value.0 <= |s| {
        FindsAfterLexeme(s, m.value.0, m.value.1);
      }
    }
  }

  /** The scanner finds SQL exactly when some lexeme of the text is SQL. */
  lemma {:induction false} FindsIffSqlLexeme(s: string, i: nat)
    requires i <= |s|
    ensures Finds(s, i, Plain) <==> HasSql(Lex(s, i))
    decreases |s| - i
  {
    if i < |s| {
      var start := StartOf(s, i);
      if start.None? {
        assert Lex(s, i)[0].kind == Sql;
        assert Lex(s, i)[0] in Lex(s, i);
      } else {
        var e := EndOf(s, start.value.1, start.value.2);
        FindsAfterLexeme(s, start.value.1, start.value.2);
        FindsIffSqlLexeme(s, e);
        assert Lex(s, i) == [Lexeme(start.value.0, s[i..e])] + Lex(s, e);
        assert Lex(s, i)[0].kind != Sql;
        if HasSql(Lex(s, i)) {
          var l :| l in Lex(s, i) && l.kind == Sql;
          assert l in Lex(s, e);
        }
        if HasSql(Lex(s, e)) {
          var l :| l in Lex(s, e) && l.kind == Sql;
          assert l in Lex(s, i);
        }
      }
    }
  }

  /* ---- Statements ---- */

  function StripLeft(s: string): string {
    if s != "" && Space(s[0]) then StripLeft(s[1..]) else s
  }

  function StripRight(s: string): string {
    if s != "" && Space(s[|s| - 1]) then StripRight(s[..|s| - 1]) else s
  }

  function Strip(s: string): string { StripRight(StripLeft(s)) }

  function Concat(parts: seq<string>): string {
    if parts == [] then "" else parts[0] + Concat(parts[1..])
  }

  /** SQLite's own judgement that a text ends at a statement boundary. */
  type Complete = string -> bool

  /** The lines gathered into complete chunks, and the tail that never completed. */
  function Chunks(lines: seq<string>, buffer: string, complete: Complete): (seq<string>, string)
    decreases |lines|
  {
    if lines == [] then ([], buffer)
    else if complete(buffer + lines[0]) then
      var (rest, tail) := Chunks(lines[1..], "", complete);
      ([buffer + lines[0]] + rest, tail)
    else Chunks(lines[1..], buffer + lines[0], complete)
  }

  predicate Yields(chunk: string) {
    Strip(chunk) != "" && Finds(Strip(chunk), 0, Plain)
  }

  function Yielded(chunks: seq<string>): seq<string> {
    if chunks == [] then []
    else (if Yields(chunks[0]) then [Strip(chunks[0])] else []) + Yielded(chunks[1..])
  }

  predicate TailIncomplete(tail: string) {
    Strip(tail) != "" && Finds(tail, 0, Plain)
  }

  /** The statements of a migration text, or nothing when it ends in unfinished SQL. */
  function Statements(lines: seq<string>, complete: Complete): Option<seq<string>> {
    var (chunks, tail) := Chunks(lines, "", complete);
    if TailIncomplete(tail) then None else Some(Yielded(chunks))
  }

  lemma {:induction false} YieldedAppend(a: seq<string>, b: seq<string>)
    ensures Yielded(a + b) == Yielded(a) + Yielded(b)
    decreases |a|
  {
    hide Yields, Strip;
    if a == [] {
      assert a + b == b;
    } else {
      assert (a + b)[0] == a[0] && (a + b)[1..] == a[1..] + b;
      YieldedAppend(a[1..], b);
    }
  }

  method IterMigrationStatements(lines: seq<string>, complete: Complete) returns (r: Option<seq<string>>)
    ensures r == Statements(lines, complete)
  {
    hide Yields, Strip;
    var buffer, statements := "", [];
    ghost var chunks: seq<string> := [];
    for i := 0 to |lines|
      invariant Chunks(lines, "", complete).0 == chunks + Chunks(lines[i..], buffer, complete).0
      invariant Chunks(lines, "", complete).1 == Chunks(lines[i..], buffer, complete).1
      invariant statements == Yielded(chunks)
    {
      assert lines[i..][0] == lines[i] && lines[i..][1..] == lines[i + 1..];
      ghost var before := buffer;
      buffer := buffer + lines[i];
      if complete(buffer) {
        var candidate := Strip(buffer);
        YieldedAppend(chunks, [buffer]);
        assert Yielded([buffer]) == if Yields(buffer) then [candidate] else [];
        var token := false;
        if candidate != "" {
          token := ContainsSqlToken(candidate);
        }
        assert token == Yields(buffer) by { CandidateYields(buffer); }
        if token {
          statements := statements + [candidate];
        }
        chunks := chunks + [buffer];
        buffer := "";
      }
    }
    assert lines[|lines|..] == [] && chunks + [] == chunks;
    assert Chunks(lines, "", complete) == (chunks, buffer);
    if Strip(buffer) != "" {
      var token := ContainsSqlToken(buffer);
      if token {
        return None;
      }
    }
    return Some(statements);
  }

  lemma CandidateYields(chunk: string)
    ensures Yields(chunk) <==> Strip(chunk) != "" && Finds(Strip(chunk), 0, Plain)
  {
  }

  lemma {:induction false} ConcatAppend(a: seq<string>, b: seq<string>)
    ensures Concat(a + b) == Concat(a) + Concat(b)
    decreases |a|
  {
    if a == [] {
      assert a + b == b;
    } else {
      assert (a + b)[0] == a[0] && (a + b)[1..] == a[1..] + b;
      ConcatAppend(a[1..], b);
    }
  }

  /** No character of the migration is lost: it is the complete chunks in order, then the tail. */
  lemma {:induction false} ChunksConserve(lines: seq<string>, buffer: string, complete: Complete)
    ensures var (chunks, tail) := Chunks(lines, buffer, complete);
            Concat(chunks) + tail == buffer + Concat(lines) && forall c :: c in chunks ==> complete(c)
    decreases |lines|
  {
    if lines != [] {
      var next := buffer + lines[0];
      assert buffer + Concat(lines) == next + Concat(lines[1..]);
      if complete(next) {
        ChunksConserve(lines[1..], "", complete);
        var (rest, tail) := Chunks(lines[1..], "", complete);
        assert Concat([next] + rest) == next + Concat(rest) by { assert ([next] + rest)[1..] == rest; }
        assert next + Concat(rest) + tail == next + (Concat(rest) + tail);
      } else {
        ChunksConserve(lines[1..], next, complete);
      }
    }
  }

  /** Every chunk that holds SQL is executed, exactly once and in order; only chunks without SQL are skipped. */
  lemma {:induction false} OnlyEmptyChunksSkipped(chunks: seq<string>, i: nat)
    requires i < |chunks|
    ensures Yields(chunks[i]) ==> |Yielded(chunks[..i])| < |Yielded(chunks)|
                                  && Yielded(chunks)[|Yielded(chunks[..i])|] == Strip(chunks[i])
    ensures Yielded(chunks) == Yielded(chunks[..i]) + Yielded(chunks[i..])
  {
    hide Yields, Strip;
    assert chunks == chunks[..i] + chunks[i..];
    YieldedAppend(chunks[..i], chunks[i..]);
    assert chunks[i..][0] == chunks[i];
  }
}
