/** Canonical texts and proper values correspond: what is dumped loads back, and only canonical texts are accepted. */
module StrictJsonRoundTrip {
  import opened Prelude
  import opened StrictJson

  /* ---- Parsing a printed value ---- */

  lemma {:induction false} PrintStarts(v: Json)
    ensures Print(v) != [] && !Print(v)[0].Gap? && Print(v)[0] != RBracket && Print(v)[0] != RBrace
  {
  }

  lemma {:induction false} ParsePrinted(v: Json, rest: seq<Token>)
    requires Proper(v)
    ensures ParseValue(Print(v) + rest) == Ok((v, rest))
    decreases v, 0
  {
    var ts := Print(v) + rest;
    match v
    case JArr(items) =>
      assert ts[1..] == PrintItems(items) + ([RBracket] + rest);
      ParsePrintedItems(items, rest);
    case JObj(fields) =>
      assert ts[1..] == PrintFields(fields) + ([RBrace] + rest);
      ParsePrintedFields(fields, rest);
    case _ => assert ts[1..] == rest;
  }

  lemma {:induction false} ParsePrintedItems(items: seq<Json>, rest: seq<Token>)
    requires forall x :: x in items ==> Proper(x)
    ensures ParseItems(PrintItems(items) + ([RBracket] + rest)) == Ok((items, rest))
    decreases items, 2
  {
    hide Print, ParseItem;
    var tail := [RBracket] + rest;
    if items == [] {
      assert PrintItems(items) + tail == tail && tail[1..] == rest;
    } else {
      ParsePrintedItem(items, rest);
      assert PrintItems(items) + tail == Print(items[0]) + (PrintMoreItems(items[1..]) + tail);
      PrintStarts(items[0]);
      assert (PrintItems(items) + tail)[0] == Print(items[0])[0];
    }
  }

  lemma {:induction false} ParsePrintedItem(items: seq<Json>, rest: seq<Token>)
    requires items != [] && forall x :: x in items ==> Proper(x)
    ensures ParseItem(Print(items[0]) + (PrintMoreItems(items[1..]) + ([RBracket] + rest))) == Ok((items, rest))
    decreases items, 1
  {
    hide Print, PrintMoreItems, ParseValue, ParseMoreItems;
    ParsePrinted(items[0], PrintMoreItems(items[1..]) + ([RBracket] + rest));
    ParsePrintedMoreItems(items[1..], rest);
    assert [items[0]] + items[1..] == items;
  }

  lemma {:induction false} ParsePrintedMoreItems(items: seq<Json>, rest: seq<Token>)
    requires forall x :: x in items ==> Proper(x)
    ensures ParseMoreItems(PrintMoreItems(items) + ([RBracket] + rest)) == Ok((items, rest))
    decreases items, 2
  {
    hide Print, ParseItem;
    var tail := [RBracket] + rest;
    if items == [] {
      assert PrintMoreItems(items) + tail == tail && tail[1..] == rest;
    } else {
      ParsePrintedItem(items, rest);
      PrintStarts(items[0]);
      var next := Print(items[0]) + (PrintMoreItems(items[1..]) + tail);
      assert PrintMoreItems(items) + tail == [Comma] + next;
      assert ([Comma] + next)[1..] == next && next[0] == Print(items[0])[0];
    }
  }

  lemma {:induction false} ParsePrintedFields(fs: seq<Field>, rest: seq<Token>)
    requires DistinctKeys(fs) && forall f :: f in fs ==> Proper(f.value)
    ensures ParseFields(PrintFields(fs) + ([RBrace] + rest)) == Ok((fs, rest))
    decreases fs, 2
  {
    hide Print, ParseField;
    var tail := [RBrace] + rest;
    if fs == [] {
      assert PrintFields(fs) + tail == tail && tail[1..] == rest;
    } else {
      ParsePrintedField(fs, {}, rest);
      assert PrintFields(fs) + tail == PrintField(fs[0]) + (PrintMoreFields(fs[1..]) + tail);
    }
  }

  lemma {:induction false} ParsePrintedField(fs: seq<Field>, seen: set<string>, rest: seq<Token>)
    requires fs != [] && DistinctKeys(fs) && forall f :: f in fs ==> Proper(f.value) && f.key !in seen
    ensures ParseField(PrintField(fs[0]) + (PrintMoreFields(fs[1..]) + ([RBrace] + rest)), seen) == Ok((fs, rest))
    decreases fs, 1
  {
    hide Print, PrintMoreFields, ParseValue, ParseMoreFields;
    var more := PrintMoreFields(fs[1..]) + ([RBrace] + rest);
    var ts := PrintField(fs[0]) + more;
    var value := Print(fs[0].value) + more;
    assert ts == [Text(fs[0].key, Plain)] + ([Colon] + value);
    assert ts[0] == Text(fs[0].key, Plain) && ts[1..] == [Colon] + value && ts[1..][1..] == value;
    PrintStarts(fs[0].value);
    assert value[0] == Print(fs[0].value)[0];
    ParsePrinted(fs[0].value, more);
    RestDistinct(fs, seen);
    ParsePrintedMoreFields(fs[1..], seen + {fs[0].key}, rest);
    assert [Field(fs[0].key, fs[0].value)] + fs[1..] == fs;
  }

  lemma RestDistinct(fs: seq<Field>, seen: set<string>)
    requires fs != [] && DistinctKeys(fs) && forall f :: f in fs ==> f.key !in seen
    ensures forall f :: f in fs[1..] ==> f.key !in seen + {fs[0].key}
  {
    forall f | f in fs[1..]
      ensures f.key !in seen + {fs[0].key}
    {
      var i :| 0 <= i < |fs[1..]| && fs[1..][i] == f;
      assert fs[i + 1] == f;
    }
  }

  lemma {:induction false} ParsePrintedMoreFields(fs: seq<Field>, seen: set<string>, rest: seq<Token>)
    requires DistinctKeys(fs) && forall f :: f in fs ==> Proper(f.value) && f.key !in seen
    ensures ParseMoreFields(PrintMoreFields(fs) + ([RBrace] + rest), seen) == Ok((fs, rest))
    decreases fs, 2
  {
    hide Print, ParseField;
    var tail := [RBrace] + rest;
    if fs == [] {
      assert PrintMoreFields(fs) + tail == tail && tail[1..] == rest;
    } else {
      ParsePrintedField(fs, seen, rest);
      var next := PrintField(fs[0]) + (PrintMoreFields(fs[1..]) + tail);
      assert PrintMoreFields(fs) + tail == [Comma] + next;
      assert ([Comma] + next)[1..] == next && next[0] == Text(fs[0].key, Plain);
    }
  }

  /* ---- What the parser returns is proper ---- */

  lemma {:induction false} ParsedProper(ts: seq<Token>)
    ensures ParseValue(ts).Ok? ==> Proper(ParseValue(ts).value.0)
    decreases |ts|, 0
  {
    if ts != [] && ts[0] == LBracket {
      var items := SkipGaps(ts[1..]);
      if items != [] && items[0] != RBracket { ParsedItemProper(items); }
    } else if ts != [] && ts[0] == LBrace {
      var fields := SkipGaps(ts[1..]);
      if fields != [] && fields[0] != RBrace { ParsedFieldProper(fields, {}); }
    }
  }

  lemma {:induction false} ParsedItemProper(ts: seq<Token>)
    ensures ParseItem(ts).Ok? ==> forall x :: x in ParseItem(ts).value.0 ==> Proper(x)
    decreases |ts|, 1
  {
    ParsedProper(ts);
    if ParseValue(ts).Ok? {
      var more := SkipGaps(ParseValue(ts).value.1);
      if more != [] && more[0] == Comma { ParsedItemProper(SkipGaps(more[1..])); }
    }
  }

  lemma {:induction false} ParsedFieldProper(ts: seq<Token>, seen: set<string>)
    ensures ParseField(ts, seen).Ok? ==>
              var fs := ParseField(ts, seen).value.0;
              DistinctKeys(fs) && forall f :: f in fs ==> Proper(f.value) && f.key !in seen
    decreases |ts|, 1
  {
    if ParseField(ts, seen).Ok? {
      var vs := SkipGaps(SkipGaps(ts[1..])[1..]);
      ParsedProper(vs);
      var more := SkipGaps(ParseValue(vs).value.1);
      if more != [] && more[0] == Comma { ParsedFieldProper(SkipGaps(more[1..]), seen + {ts[0].s}); }
    }
  }

  /* ---- Sorting keys ---- */

  predicate Ordered(fs: seq<Field>) {
    forall i, j :: 0 <= i < j < |fs| ==> Less(fs[i].key, fs[j].key)
  }

  lemma {:induction false} InsertMembers(f: Field, fs: seq<Field>)
    ensures multiset(InsertField(f, fs)) == multiset(fs) + multiset{f}
    decreases |fs|
  {
    if fs != [] && !Less(f.key, fs[0].key) {
      assert fs == [fs[0]] + fs[1..];
      InsertMembers(f, fs[1..]);
    }
  }

  lemma {:induction false} InsertOrdered(f: Field, fs: seq<Field>)
    requires Ordered(fs) && forall x :: x in fs ==> x.key != f.key
    ensures Ordered(InsertField(f, fs))
    decreases |fs|
  {
    if fs == [] || Less(f.key, fs[0].key) {
      PrependOrdered(f, fs);
    } else {
      LessTotal(f.key, fs[0].key);
      InsertOrdered(f, fs[1..]);
      var rest := InsertField(f, fs[1..]);
      InsertMembers(f, fs[1..]);
      forall j | 0 <= j < |rest|
        ensures Less(fs[0].key, rest[j].key)
      {
        assert rest[j] in multiset(rest);
        assert rest[j] == f || rest[j] in fs[1..];
      }
    }
  }

  lemma PrependOrdered(f: Field, fs: seq<Field>)
    requires Ordered(fs) && (fs == [] || Less(f.key, fs[0].key))
    ensures Ordered([f] + fs)
  {
    forall j | 0 <= j < |fs|
      ensures Less(f.key, fs[j].key)
    {
      if j > 0 { LessTransitive(f.key, fs[0].key, fs[j].key); }
    }
  }

  lemma {:induction false} SortOrdered(fs: seq<Field>)
    requires DistinctKeys(fs)
    ensures Ordered(SortFields(fs)) && multiset(SortFields(fs)) == multiset(fs)
    decreases |fs|
  {
    if fs != [] {
      SortOrdered(fs[1..]);
      assert fs == [fs[0]] + fs[1..];
      SameMembers(SortFields(fs[1..]), fs[1..]);
      InsertOrdered(fs[0], SortFields(fs[1..]));
      InsertMembers(fs[0], SortFields(fs[1..]));
    }
  }

  lemma SameMembers(a: seq<Field>, b: seq<Field>)
    requires multiset(a) == multiset(b)
    ensures |a| == |b| && forall f :: f in a <==> f in b
  {
    assert |a| == |multiset(a)| == |multiset(b)| == |b|;
    forall f
      ensures f in a <==> f in b
    {
      assert f in a <==> f in multiset(a);
      assert f in b <==> f in multiset(b);
    }
  }

  lemma OrderedDistinct(fs: seq<Field>)
    requires Ordered(fs)
    ensures DistinctKeys(fs)
  {
    forall i, j | 0 <= i < j < |fs|
      ensures fs[i].key != fs[j].key
    {
      LessTotal(fs[i].key, fs[j].key);
    }
  }

  lemma {:induction false} SortStable(fs: seq<Field>)
    requires Ordered(fs)
    ensures SortFields(fs) == fs
    decreases |fs|
  {
    if fs != [] {
      SortStable(fs[1..]);
      assert fs == [fs[0]] + fs[1..];
    }
  }

  /* ---- Canonical form ---- */

  lemma {:induction false} CanonicalFieldsKeys(fs: seq<Field>)
    ensures |CanonicalFields(fs)| == |fs|
    ensures forall i :: 0 <= i < |fs| ==> CanonicalFields(fs)[i] == Field(fs[i].key, Canonical(fs[i].value))
    decreases |fs|
  {
    if fs != [] { CanonicalFieldsKeys(fs[1..]); }
  }

  lemma {:induction false} CanonicalItemsEach(items: seq<Json>)
    ensures |CanonicalItems(items)| == |items|
    ensures forall i :: 0 <= i < |items| ==> CanonicalItems(items)[i] == Canonical(items[i])
    decreases |items|
  {
    if items != [] { CanonicalItemsEach(items[1..]); }
  }

  /** Sorted, proper and with the same bounds: what canonicalisation keeps and gives. */
  ghost predicate SameValue(v: Json, c: Json) {
    && Proper(c) && Canonical(c) == c
    && (forall level: nat :: Depth(c, level) == Depth(v, level)) && Items(c) == Items(v)
  }

  lemma {:induction false} CanonicalSound(v: Json)
    requires Proper(v)
    ensures SameValue(v, Canonical(v))
    decreases v, 0
  {
    hide SameValue;
    match v
    case JArr(items) =>
      CanonicalItemsSound(items);
      CanonicalItemsEach(items);
      ArrayValue(items, CanonicalItems(items));
    case JObj(fields) =>
      CanonicalFieldsSound(fields);
      CanonicalFieldsKeys(fields);
      var cs := CanonicalFields(fields);
      SortOrdered(cs);
      SameMembers(SortFields(cs), cs);
      OrderedDistinct(SortFields(cs));
      AllCanonical(SortFields(cs));
      SortStable(SortFields(cs));
      SortMeasures(cs);
      ObjectValue(fields, SortFields(cs));
    case _ => LeafValue(v);
  }

  lemma LeafValue(v: Json)
    requires !v.JArr? && !v.JObj?
    ensures SameValue(v, Canonical(v))
  {
  }

  lemma ArrayValue(items: seq<Json>, cs: seq<Json>)
    requires |cs| == |items| && (forall x :: x in cs ==> Proper(x)) && CanonicalItems(cs) == cs
    requires (forall level: nat :: DepthOfItems(cs, level) == DepthOfItems(items, level)) && ItemsOf(cs) == ItemsOf(items)
    ensures SameValue(JArr(items), JArr(cs))
  {
    hide CanonicalItems, DepthOfItems, ItemsOf;
    forall level: nat
      ensures Depth(JArr(cs), level) == Depth(JArr(items), level)
    {
      assert DepthOfItems(cs, level) == DepthOfItems(items, level);
    }
  }

  lemma ObjectValue(fields: seq<Field>, cs: seq<Field>)
    requires |cs| == |fields| && DistinctKeys(cs) && (forall f :: f in cs ==> Proper(f.value))
    requires CanonicalFields(cs) == cs && SortFields(cs) == cs
    requires (forall level: nat :: DepthOfFields(cs, level) == DepthOfFields(fields, level))
    requires ItemsOfFields(cs) == ItemsOfFields(fields)
    ensures SameValue(JObj(fields), JObj(cs))
  {
    hide CanonicalFields, SortFields, DepthOfFields, ItemsOfFields;
    forall level: nat
      ensures Depth(JObj(cs), level) == Depth(JObj(fields), level)
    {
      assert DepthOfFields(cs, level) == DepthOfFields(fields, level);
    }
  }

  ghost predicate EachSound(fs: seq<Field>) {
    forall f :: f in fs ==> Proper(f.value) && Canonical(f.value) == f.value
  }

  lemma {:induction false} AllCanonical(fs: seq<Field>)
    requires EachSound(fs)
    ensures CanonicalFields(fs) == fs
    decreases |fs|
  {
    if fs != [] {
      assert fs == [fs[0]] + fs[1..];
      AllCanonical(fs[1..]);
    }
  }

  lemma {:induction false} CanonicalItemsSound(items: seq<Json>)
    requires forall x :: x in items ==> Proper(x)
    ensures var cs := CanonicalItems(items);
            && (forall x :: x in cs ==> Proper(x)) && CanonicalItems(cs) == cs
            && (forall level: nat :: DepthOfItems(cs, level) == DepthOfItems(items, level)) && ItemsOf(cs) == ItemsOf(items)
    decreases items, 1
  {
    if items != [] {
      CanonicalSound(items[0]);
      CanonicalItemsSound(items[1..]);
      var cs := CanonicalItems(items);
      assert cs[1..] == CanonicalItems(items[1..]);
      forall level: nat
        ensures DepthOfItems(cs, level) == DepthOfItems(items, level)
      {
        assert Depth(cs[0], level + 1) == Depth(items[0], level + 1);
        assert DepthOfItems(cs[1..], level) == DepthOfItems(items[1..], level);
      }
    }
  }

  lemma {:induction false} CanonicalFieldsSound(fs: seq<Field>)
    requires DistinctKeys(fs) && forall f :: f in fs ==> Proper(f.value)
    ensures var cs := CanonicalFields(fs);
            && DistinctKeys(cs) && EachSound(cs)
            && (forall level: nat :: DepthOfFields(cs, level) == DepthOfFields(fs, level))
            && ItemsOfFields(cs) == ItemsOfFields(fs)
    decreases fs, 1
  {
    CanonicalFieldsKeys(fs);
    if fs != [] {
      CanonicalSound(fs[0].value);
      CanonicalFieldsSound(fs[1..]);
      var cs := CanonicalFields(fs);
      assert cs[1..] == CanonicalFields(fs[1..]);
      assert cs == [cs[0]] + cs[1..];
      forall level: nat
        ensures DepthOfFields(cs, level) == DepthOfFields(fs, level)
      {
        assert Depth(cs[0].value, level + 1) == Depth(fs[0].value, level + 1);
        assert DepthOfFields(cs[1..], level) == DepthOfFields(fs[1..], level);
      }
    }
  }

  lemma {:induction false} InsertMeasures(f: Field, fs: seq<Field>, level: nat)
    ensures var r := InsertField(f, fs);
            && DepthOfFields(r, level) == Max(Depth(f.value, level + 1), DepthOfFields(fs, level))
            && ItemsOfFields(r) == Items(f.value) + ItemsOfFields(fs) && |r| == |fs| + 1
    decreases |fs|
  {
    if fs != [] && !Less(f.key, fs[0].key) {
      InsertMeasures(f, fs[1..], level);
      assert InsertField(f, fs)[1..] == InsertField(f, fs[1..]);
    } else {
      assert ([f] + fs)[1..] == fs;
    }
  }

  lemma {:induction false} SortMeasures(fs: seq<Field>)
    ensures (forall level: nat :: DepthOfFields(SortFields(fs), level) == DepthOfFields(fs, level))
    ensures ItemsOfFields(SortFields(fs)) == ItemsOfFields(fs) && |SortFields(fs)| == |fs|
    decreases |fs|
  {
    if fs != [] {
      SortMeasures(fs[1..]);
      InsertMeasures(fs[0], SortFields(fs[1..]), 0);
      forall level: nat
        ensures DepthOfFields(SortFields(fs), level) == DepthOfFields(fs, level)
      {
        InsertMeasures(fs[0], SortFields(fs[1..]), level);
        assert DepthOfFields(SortFields(fs[1..]), level) == DepthOfFields(fs[1..], level);
      }
    }
  }

  /* ---- Round trips ---- */

  lemma LoadsDumped(v: Json)
    requires Proper(v)
    ensures Load(Dump(v)) == Ok(Canonical(v)) && Dump(Canonical(v)) == Dump(v)
  {
    CanonicalSound(v);
    ParsePrinted(Canonical(v), []);
    assert Dump(v) + [] == Dump(v);
    PrintStarts(Canonical(v));
  }

  /**
   The canonical loader accepts exactly the dumps of proper values within the bounds, and returns the value they
   stand for: every other text, however it is spaced, spelled or ordered, is refused.
   */
  lemma CanonicalTextsOnly(text: seq<Token>, b: Bounds)
    ensures LoadCanonical(text, b).Ok? ==>
              var v := LoadCanonical(text, b).value;
              && Proper(v) && Canonical(v) == v && text == Dump(v)
              && Bytes(text) <= b.bytes && Depth(v, 0) <= b.depth && Items(v) <= b.items
  {
    if LoadCanonical(text, b).Ok? {
      var v := LoadCanonical(text, b).value;
      ParsedProper(SkipGaps(text));
      LoadsDumped(v);
    }
  }

  lemma DumpLoads(v: Json, b: Bounds)
    requires Proper(v)
    ensures DumpBounded(v, b).Ok? <==> LoadCanonical(Dump(v), b).Ok?
    ensures DumpBounded(v, b).Ok? ==> LoadCanonical(Dump(v), b) == Ok(Canonical(v))
  {
    LoadsDumped(v);
    CanonicalSound(v);
    assert Depth(Canonical(v), 0) == Depth(v, 0);
  }

  /** Two values with one canonical text are the same value up to the order of members. */
  lemma DumpInjective(v: Json, w: Json)
    requires Proper(v) && Proper(w) && Dump(v) == Dump(w)
    ensures Canonical(v) == Canonical(w)
  {
    LoadsDumped(v);
    LoadsDumped(w);
  }
}
