/**
 What a migration text without SQL looks like, as a grammar: comments, quoted texts, blanks and semicolons, the last of
 them perhaps unfinished. The scan of `MigrationText` finds SQL exactly in the texts this grammar does not describe.
 */
module MigrationGrammar {
  import opened Prelude
  import opened MigrationText

  /** The inside of a quoted text: every quote is doubled. */
  predicate Doubled(u: string, q: char) {
    u == "" || (u[0] != q && Doubled(u[1..], q)) || (|u| >= 2 && u[0] == q && u[1] == q && Doubled(u[2..], q))
  }

  /** Two hyphens, and no line end before the last character. */
  predicate LineOpen(t: string) {
    |t| >= 2 && t[0] == '-' && t[1] == '-' && forall k :: 2 <= k < |t| - 1 ==> t[k] != '\n'
  }

  predicate Line(t: string) {
    LineOpen(t) && |t| >= 3 && t[|t| - 1] == '\n'
  }

  predicate Ends(t: string, k: nat) {
    k + 1 < |t| && t[k] == '*' && t[k + 1] == '/'
  }

  predicate BlockOpen(t: string, n: nat) {
    |t| >= 2 && t[0] == '/' && t[1] == '*' && forall k :: 2 <= k < n ==> !Ends(t, k)
  }

  predicate Block(t: string) {
    |t| >= 4 && BlockOpen(t, |t| - 2) && Ends(t, |t| - 2)
  }

  /** A quoted text ends at a quote that no further one follows. */
  predicate Quote(t: string, q: char, after: string) {
    |t| >= 2 && t[0] == q && t[|t| - 1] == q && Doubled(t[1..|t| - 1], q) && (after == "" || after[0] != q)
  }

  predicate Piece(t: string, after: string) {
    || (|t| == 1 && (Space(t[0]) || t[0] == ';'))
    || Line(t) || Block(t) || Quote(t, '\'', after) || Quote(t, '"', after)
  }

  predicate QuoteOpen(t: string, q: char) {
    |t| >= 1 && t[0] == q && Doubled(t[1..], q)
  }

  predicate Unfinished(t: string) {
    LineOpen(t) || BlockOpen(t, |t|) || QuoteOpen(t, '\'') || QuoteOpen(t, '"')
  }

  predicate NoSql(s: string)
    decreases |s|
  {
    s == "" || Unfinished(s) || exists n :: 1 <= n <= |s| && Piece(s[..n], s[n..]) && NoSql(s[n..])
  }

  /* ---- The scan of a suffix ---- */

  lemma {:induction false} FindsSuffix(s: string, i: nat, n: nat, state: State)
    requires i + n <= |s|
    ensures Finds(s, i + n, state) == Finds(s[i..], n, state)
    decreases |s| - n
  {
    if i + n < |s| {
      MoveSuffix(s, i, n, state);
      var m := Move(s[i..], n, state);
      if m.Some? {
        if m.value.0 <= |s| - i { FindsSuffix(s, i, m.value.0, m.value.1); }
      }
    }
  }

  lemma MoveSuffix(s: string, i: nat, n: nat, state: State)
    requires i + n < |s|
    ensures var m, k := Move(s, i + n, state), Move(s[i..], n, state);
            if k.None? then m.None? else m == Some((i + k.value.0, k.value.1))
  {
    assert At(s, i + n + 1) == At(s[i..], n + 1);
    assert s[i..][n] == s[i + n];
  }

  /** Within a line comment the scan moves on to position `e`. */
  lemma {:induction false} LineScan(s: string, i: nat, e: nat)
    requires i <= e <= |s| && forall k :: i <= k < e ==> s[k] != '\n'
    ensures Finds(s, i, LineComment) == Finds(s, e, LineComment)
    decreases e - i
  {
    if i < e { LineScan(s, i + 1, e); }
  }

  lemma {:induction false} BlockScan(s: string, i: nat, e: nat)
    requires i <= e <= |s| && forall k :: i <= k < e ==> !Ends(s, k)
    ensures Finds(s, i, BlockComment) == Finds(s, e, BlockComment)
    decreases e - i
  {
    if i < e { assert !Ends(s, i); BlockScan(s, i + 1, e); }
  }

  function InQuote(q: char): State {
    if q == '\'' then SingleQuote else DoubleQuote
  }

  lemma {:induction false} QuoteScan(s: string, i: nat, e: nat, q: char)
    requires i <= e <= |s| && Doubled(s[i..e], q) && (q == '\'' || q == '"')
    ensures Finds(s, i, InQuote(q)) == Finds(s, e, InQuote(q))
    decreases e - i
  {
    if i < e {
      var u := s[i..e];
      if s[i] != q {
        assert u[1..] == s[i + 1..e];
        QuoteScan(s, i + 1, e, q);
      } else {
        assert u[2..] == s[i + 2..e] && u[1] == s[i + 1];
        QuoteScan(s, i + 2, e, q);
      }
    }
  }

  /* ---- A text of the grammar is scanned to its end ---- */

  lemma PieceScan(s: string, n: nat)
    requires 1 <= n <= |s| && Piece(s[..n], s[n..])
    ensures Finds(s, 0, Plain) == Finds(s, n, Plain)
  {
    var t := s[..n];
    if |t| == 1 && (Space(t[0]) || t[0] == ';') {
    } else if Line(t) {
      LineScan(s, 2, n - 1);
    } else if Block(t) {
      forall k | 2 <= k < n - 2
        ensures !Ends(s, k)
      {
        assert !Ends(t, k);
      }
      BlockScan(s, 2, n - 2);
      assert Ends(t, n - 2);
    } else {
      var q := if Quote(t, '\'', s[n..]) then '\'' else '"';
      assert t[1..n - 1] == s[1..n - 1];
      QuoteScan(s, 1, n - 1, q);
      QuoteCloses(s, n, q);
    }
  }

  lemma QuoteCloses(s: string, n: nat, q: char)
    requires 2 <= n <= |s| && s[0] == q && s[n - 1] == q && (q == '\'' || q == '"') && (n == |s| || s[n] != q)
    ensures Finds(s, 0, Plain) == Finds(s, 1, InQuote(q)) && Finds(s, n - 1, InQuote(q)) == Finds(s, n, Plain)
  {
  }

  lemma UnfinishedScan(s: string)
    requires Unfinished(s)
    ensures !Finds(s, 0, Plain)
  {
    if LineOpen(s) {
      if |s| > 2 {
        LineScan(s, 2, |s| - 1);
        LineLast(s, |s| - 1);
      }
    } else if BlockOpen(s, |s|) {
      BlockScan(s, 2, |s|);
    } else {
      var q := if QuoteOpen(s, '\'') then '\'' else '"';
      assert s[1..|s|] == s[1..];
      QuoteScan(s, 1, |s|, q);
      QuoteStarts(s, q);
    }
  }

  lemma QuoteStarts(s: string, q: char)
    requires s != "" && s[0] == q && (q == '\'' || q == '"')
    ensures Finds(s, 0, Plain) == Finds(s, 1, InQuote(q))
  {
  }

  lemma LineLast(s: string, i: nat)
    requires i + 1 == |s|
    ensures !Finds(s, i, LineComment)
  {
    assert Move(s, i, LineComment).value.0 == |s|;
  }

  lemma {:induction false} NoSqlScans(s: string)
    requires NoSql(s)
    ensures !Finds(s, 0, Plain)
    decreases |s|
  {
    if s == "" {
    } else if Unfinished(s) {
      UnfinishedScan(s);
    } else {
      var n :| 1 <= n <= |s| && Piece(s[..n], s[n..]) && NoSql(s[n..]);
      PieceScan(s, n);
      FindsSuffix(s, n, 0, Plain);
      NoSqlScans(s[n..]);
    }
  }

  /* ---- A text scanned to its end is of the grammar ---- */

  /** The first line end from `i` on, or the end of the text. */
  function LineEnd(s: string, i: nat): (e: nat)
    requires i <= |s|
    ensures i <= e <= |s| && (forall k :: i <= k < e ==> s[k] != '\n') && (e < |s| ==> s[e] == '\n')
    decreases |s| - i
  {
    if i == |s| || s[i] == '\n' then i else LineEnd(s, i + 1)
  }

  function BlockEnd(s: string, i: nat): (e: nat)
    requires i <= |s|
    ensures i <= e <= |s| && (forall k :: i <= k < e ==> !Ends(s, k)) && (e < |s| ==> Ends(s, e))
    decreases |s| - i
  {
    if i == |s| || Ends(s, i) then i else BlockEnd(s, i + 1)
  }

  /** The closing quote, or the end of the text. */
  function QuoteEnd(s: string, i: nat, q: char): (e: nat)
    requires i <= |s|
    ensures i <= e <= |s| && Doubled(s[i..e], q)
    ensures e < |s| ==> s[e] == q && (e + 1 == |s| || s[e + 1] != q)
    decreases |s| - i
  {
    if i == |s| then i
    else if s[i] != q then
      var e := QuoteEnd(s, i + 1, q);
      assert s[i..e][1..] == s[i + 1..e];
      e
    else if i + 1 < |s| && s[i + 1] == q then
      var e := QuoteEnd(s, i + 2, q);
      assert s[i..e][2..] == s[i + 2..e];
      e
    else i
  }

  /** The first piece of a text, or a proof that the whole of it is unfinished. */
  lemma FirstPiece(s: string) returns (n: nat)
    requires s != "" && Move(s, 0, Plain).Some?
    ensures n == 0 ==> Unfinished(s)
    ensures n > 0 ==> n <= |s| && Piece(s[..n], s[n..])
  {
    var state := Move(s, 0, Plain).value.1;
    if state == LineComment {
      var e := LineEnd(s, 2);
      if e == |s| { n := 0; } else { n := e + 1; assert Line(s[..n]); }
    } else if state == BlockComment {
      var e := BlockEnd(s, 2);
      if e == |s| {
        n := 0;
      } else {
        n := e + 2;
        BlockFound(s, e);
      }
    } else if state == Plain {
      n := 1;
    } else {
      var q := s[0];
      var e := QuoteEnd(s, 1, q);
      if e == |s| {
        n := 0;
        assert s[1..e] == s[1..];
      } else {
        n := e + 1;
        assert s[..n][1..n - 1] == s[1..e];
        assert Quote(s[..n], q, s[n..]);
      }
    }
  }

  lemma BlockFound(s: string, e: nat)
    requires 2 <= e < |s| && Ends(s, e) && s[0] == '/' && s[1] == '*' && forall k :: 2 <= k < e ==> !Ends(s, k)
    ensures Block(s[..e + 2])
  {
    var t := s[..e + 2];
    forall k | 2 <= k < e
      ensures !Ends(t, k)
    {
      assert !Ends(s, k);
    }
    assert Ends(t, e);
  }

  lemma {:induction false} ScannedIsNoSql(s: string)
    requires !Finds(s, 0, Plain)
    ensures NoSql(s)
    decreases |s|
  {
    if s != "" {
      var n := FirstPiece(s);
      if n > 0 {
        PieceScan(s, n);
        FindsSuffix(s, n, 0, Plain);
        ScannedIsNoSql(s[n..]);
      }
    }
  }

  /** The scan reports SQL exactly in the texts that are not just comments, quoted texts, blanks and semicolons. */
  lemma FindsIffSql(s: string)
    ensures Finds(s, 0, Plain) <==> !NoSql(s)
  {
    if NoSql(s) {
      NoSqlScans(s);
    } else if !Finds(s, 0, Plain) {
      ScannedIsNoSql(s);
    }
  }
}
