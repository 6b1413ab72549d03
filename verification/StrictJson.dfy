/**
 Canonical JSON. A value is a tree whose objects keep their insertion order; a text is a sequence of lexical tokens,
 in which white space and the non-canonical spellings of strings and numbers are visible, each with its bytes. The
 lexical syntax inside a token is not modelled.
 */
module StrictJson {
  import opened Prelude

  datatype Json =
    | JNull
    | JBool(b: bool)
    | JInt(i: int)
    | JStr(s: string)
    | JArr(items: seq<Json>)
    | JObj(fields: seq<Field>)

  /** One member of an object. */
  datatype Field = Field(key: string, value: Json)

  /** How a number or a string is written: as the encoder writes it, or otherwise in so many bytes. */
  datatype Spelling = Plain | Other(width: nat)

  datatype Token =
    | LBracket | RBracket | LBrace | RBrace | Comma | Colon
    | Gap(width: nat)
    | NullWord | BoolWord(b: bool)
    | Number(i: int, spelling: Spelling)
    | Text(s: string, spelling: Spelling)

  datatype Error = Malformed | DuplicateKey | TooLong | TooDeep | TooMany | NotCanonical

  /* ---- Code-point order of keys ---- */

  predicate Less(a: string, b: string) {
    if b == "" then false
    else if a == "" then true
    else a[0] < b[0] || (a[0] == b[0] && Less(a[1..], b[1..]))
  }

  lemma {:induction false} LessTotal(a: string, b: string)
    ensures a == b || Less(a, b) || Less(b, a)
    ensures !(Less(a, b) && Less(b, a)) && !Less(a, a)
    decreases |a|
  {
    if a != "" && b != "" {
      LessTotal(a[1..], b[1..]);
      if a[0] == b[0] && a[1..] == b[1..] {
        assert a == [a[0]] + a[1..] && b == [b[0]] + b[1..];
      }
    }
    if a != "" { LessTotal(a[1..], a[1..]); }
  }

  lemma {:induction false} LessTransitive(a: string, b: string, c: string)
    requires Less(a, b) && Less(b, c)
    ensures Less(a, c)
    decreases |a|
  {
    if a != "" && a[0] == b[0] && b[0] == c[0] {
      LessTransitive(a[1..], b[1..], c[1..]);
    }
  }

  /* ---- Values ---- */

  predicate HasKey(fs: seq<Field>, key: string) {
    exists i :: 0 <= i < |fs| && fs[i].key == key
  }

  predicate DistinctKeys(fs: seq<Field>) {
    forall i, j :: 0 <= i < j < |fs| ==> fs[i].key != fs[j].key
  }

  /** A Python value: every object's keys are distinct. */
  predicate Proper(v: Json) {
    match v
    case JArr(items) => forall x :: x in items ==> Proper(x)
    case JObj(fields) => DistinctKeys(fields) && forall f :: f in fields ==> Proper(f.value)
    case _ => true
  }

  function InsertField(f: Field, fs: seq<Field>): seq<Field> {
    if fs == [] || Less(f.key, fs[0].key) then [f] + fs else [fs[0]] + InsertField(f, fs[1..])
  }

  function SortFields(fs: seq<Field>): seq<Field> {
    if fs == [] then [] else InsertField(fs[0], SortFields(fs[1..]))
  }

  /** The same value with every object's keys in code-point order. */
  function Canonical(v: Json): Json {
    match v
    case JArr(items) => JArr(CanonicalItems(items))
    case JObj(fields) => JObj(SortFields(CanonicalFields(fields)))
    case _ => v
  }

  function CanonicalItems(items: seq<Json>): seq<Json> {
    if items == [] then [] else [Canonical(items[0])] + CanonicalItems(items[1..])
  }

  function CanonicalFields(fs: seq<Field>): seq<Field> {
    if fs == [] then [] else [Field(fs[0].key, Canonical(fs[0].value))] + CanonicalFields(fs[1..])
  }

  /* ---- Printer ---- */

  function Print(v: Json): seq<Token> {
    match v
    case JNull => [NullWord]
    case JBool(b) => [BoolWord(b)]
    case JInt(i) => [Number(i, Plain)]
    case JStr(s) => [Text(s, Plain)]
    case JArr(items) => [LBracket] + PrintItems(items) + [RBracket]
    case JObj(fields) => [LBrace] + PrintFields(fields) + [RBrace]
  }

  function PrintItems(items: seq<Json>): seq<Token> {
    if items == [] then [] else Print(items[0]) + PrintMoreItems(items[1..])
  }

  function PrintMoreItems(items: seq<Json>): seq<Token> {
    if items == [] then [] else [Comma] + Print(items[0]) + PrintMoreItems(items[1..])
  }

  function PrintFields(fs: seq<Field>): seq<Token> {
    if fs == [] then [] else PrintField(fs[0]) + PrintMoreFields(fs[1..])
  }

  function PrintMoreFields(fs: seq<Field>): seq<Token> {
    if fs == [] then [] else [Comma] + PrintField(fs[0]) + PrintMoreFields(fs[1..])
  }

  function PrintField(f: Field): seq<Token> {
    [Text(f.key, Plain), Colon] + Print(f.value)
  }

  /** `json.dumps` with sorted keys and no white space. */
  function Dump(v: Json): seq<Token> {
    Print(Canonical(v))
  }

  /* ---- Parser ---- */

  function SkipGaps(ts: seq<Token>): (r: seq<Token>)
    ensures |r| <= |ts|
    ensures ts != [] && !ts[0].Gap? ==> r == ts
  {
    if ts != [] && ts[0].Gap? then SkipGaps(ts[1..]) else ts
  }

  /** Read one value starting at the first token; the rest of the text follows it. */
  function ParseValue(ts: seq<Token>): (r: Result<(Json, seq<Token>), Error>)
    ensures r.Ok? ==> |r.value.1| < |ts|
    decreases |ts|, 0
  {
    if ts == [] then Err(Malformed)
    else
      match ts[0]
      case NullWord => Ok((JNull, ts[1..]))
      case BoolWord(b) => Ok((JBool(b), ts[1..]))
      case Number(i, _) => Ok((JInt(i), ts[1..]))
      case Text(s, _) => Ok((JStr(s), ts[1..]))
      case LBracket =>
        var r := ParseItems(ts[1..]);
        if r.Err? then Err(r.error) else Ok((JArr(r.value.0), r.value.1))
      case LBrace =>
        var r := ParseFields(ts[1..]);
        if r.Err? then Err(r.error) else Ok((JObj(r.value.0), r.value.1))
      case _ => Err(Malformed)
  }

  /** The elements up to the closing bracket. */
  function ParseItems(text: seq<Token>): (r: Result<(seq<Json>, seq<Token>), Error>)
    ensures r.Ok? ==> |r.value.1| < |text|
    decreases |text|, 2
  {
    var ts := SkipGaps(text);
    if ts == [] then Err(Malformed)
    else if ts[0] == RBracket then Ok(([], ts[1..]))
    else ParseItem(ts)
  }

  function ParseItem(ts: seq<Token>): (r: Result<(seq<Json>, seq<Token>), Error>)
    ensures r.Ok? ==> |r.value.1| < |ts|
    decreases |ts|, 1
  {
    var v := ParseValue(ts);
    if v.Err? then Err(v.error) else
    var rest := ParseMoreItems(v.value.1);
    if rest.Err? then Err(rest.error) else Ok(([v.value.0] + rest.value.0, rest.value.1))
  }

  function ParseMoreItems(text: seq<Token>): (r: Result<(seq<Json>, seq<Token>), Error>)
    ensures r.Ok? ==> |r.value.1| < |text|
    decreases |text|, 2
  {
    var ts := SkipGaps(text);
    if ts == [] then Err(Malformed)
    else if ts[0] == RBracket then Ok(([], ts[1..]))
    else if ts[0] == Comma then ParseItem(SkipGaps(ts[1..]))
    else Err(Malformed)
  }

  /** The members up to the closing brace; a repeated key is refused. */
  function ParseFields(text: seq<Token>): (r: Result<(seq<Field>, seq<Token>), Error>)
    ensures r.Ok? ==> |r.value.1| < |text|
    decreases |text|, 2
  {
    var ts := SkipGaps(text);
    if ts == [] then Err(Malformed)
    else if ts[0] == RBrace then Ok(([], ts[1..]))
    else ParseField(ts, {})
  }

  function ParseField(ts: seq<Token>, seen: set<string>): (r: Result<(seq<Field>, seq<Token>), Error>)
    ensures r.Ok? ==> |r.value.1| < |ts|
    decreases |ts|, 1
  {
    if ts == [] || !ts[0].Text? then Err(Malformed)
    else if ts[0].s in seen then Err(DuplicateKey)
    else
      var colon := SkipGaps(ts[1..]);
      if colon == [] || colon[0] != Colon then Err(Malformed) else
      var v := ParseValue(SkipGaps(colon[1..]));
      if v.Err? then Err(v.error) else
      var rest := ParseMoreFields(v.value.1, seen + {ts[0].s});
      if rest.Err? then Err(rest.error)
      else Ok(([Field(ts[0].s, v.value.0)] + rest.value.0, rest.value.1))
  }

  function ParseMoreFields(text: seq<Token>, seen: set<string>): (r: Result<(seq<Field>, seq<Token>), Error>)
    ensures r.Ok? ==> |r.value.1| < |text|
    decreases |text|, 2
  {
    var ts := SkipGaps(text);
    if ts == [] then Err(Malformed)
    else if ts[0] == RBrace then Ok(([], ts[1..]))
    else if ts[0] == Comma then ParseField(SkipGaps(ts[1..]), seen)
    else Err(Malformed)
  }

  /** `json.loads` of a whole text. */
  function Load(text: seq<Token>): Result<Json, Error> {
    var v := ParseValue(SkipGaps(text));
    if v.Err? then Err(v.error)
    else if SkipGaps(v.value.1) != [] then Err(Malformed)
    else Ok(v.value.0)
  }

  /* ---- Bounds ---- */

  function Digits(n: nat): nat {
    if n < 10 then 1 else 1 + Digits(n / 10)
  }

  /** Bytes of a string between its quotes: only quotes, backslashes and control characters are escaped. */
  function EscapedLength(s: string): nat {
    if s == "" then 0 else EscapedBytes(s[0]) + EscapedLength(s[1..])
  }

  function EscapedBytes(c: char): nat {
    if c == '"' || c == '\\' || c in "\n\r\t" || c as int == 8 || c as int == 12 then 2
    else if c as int < 0x20 then 6
    else Utf8Length([c])
  }

  function TokenBytes(t: Token): nat {
    match t
    case Gap(width) => width
    case NullWord => 4
    case BoolWord(b) => if b then 4 else 5
    case Number(i, Plain) => if i < 0 then 1 + Digits(-i) else Digits(i)
    case Text(s, Plain) => 2 + EscapedLength(s)
    case Number(_, Other(width)) => width
    case Text(_, Other(width)) => width
    case _ => 1
  }

  function Bytes(ts: seq<Token>): nat {
    if ts == [] then 0 else TokenBytes(ts[0]) + Bytes(ts[1..])
  }

  /** The greatest nesting level of any part of the value, which itself sits at `level`. */
  function Depth(v: Json, level: nat): nat {
    match v
    case JArr(items) => DepthOfItems(items, level)
    case JObj(fields) => DepthOfFields(fields, level)
    case _ => level
  }

  function DepthOfItems(items: seq<Json>, level: nat): nat {
    if items == [] then level else Max(Depth(items[0], level + 1), DepthOfItems(items[1..], level))
  }

  function DepthOfFields(fs: seq<Field>, level: nat): nat {
    if fs == [] then level else Max(Depth(fs[0].value, level + 1), DepthOfFields(fs[1..], level))
  }

  /** Members and elements of every collection in the value. */
  function Items(v: Json): nat {
    match v
    case JArr(items) => |items| + ItemsOf(items)
    case JObj(fields) => |fields| + ItemsOfFields(fields)
    case _ => 0
  }

  function ItemsOf(items: seq<Json>): nat {
    if items == [] then 0 else Items(items[0]) + ItemsOf(items[1..])
  }

  function ItemsOfFields(fs: seq<Field>): nat {
    if fs == [] then 0 else Items(fs[0].value) + ItemsOfFields(fs[1..])
  }

  /** UTF-8 bytes of every text and key in the value. */
  function StringBytes(v: Json): nat {
    match v
    case JStr(s) => Utf8Length(s)
    case JArr(items) => StringBytesOf(items)
    case JObj(fields) => StringBytesOfFields(fields)
    case _ => 0
  }

  function StringBytesOf(items: seq<Json>): nat {
    if items == [] then 0 else StringBytes(items[0]) + StringBytesOf(items[1..])
  }

  function StringBytesOfFields(fs: seq<Field>): nat {
    if fs == [] then 0 else Utf8Length(fs[0].key) + StringBytes(fs[0].value) + StringBytesOfFields(fs[1..])
  }

  datatype Bounds = Bounds(bytes: nat, depth: nat, items: nat)

  function DumpBounded(v: Json, b: Bounds): Result<seq<Token>, Error> {
    if Bytes(Dump(v)) > b.bytes then Err(TooLong)
    else if Depth(v, 0) > b.depth then Err(TooDeep)
    else if Items(v) > b.items then Err(TooMany)
    else Ok(Dump(v))
  }

  function LoadCanonical(text: seq<Token>, b: Bounds): Result<Json, Error> {
    if Bytes(text) > b.bytes then Err(TooLong) else
    var v := Load(text);
    if v.Err? then v else
    var canonical := DumpBounded(v.value, b);
    if canonical.Err? then Err(canonical.error)
    else if canonical.value != text then Err(NotCanonical)
    else v
  }

  /* ---- The worklist measure ---- */

  function Size(v: Json): nat {
    1 + match v
        case JArr(items) => SizeOf(items)
        case JObj(fields) => SizeOfFields(fields)
        case _ => 0
  }

  function SizeOf(items: seq<Json>): nat {
    if items == [] then 0 else Size(items[0]) + SizeOf(items[1..])
  }

  function SizeOfFields(fs: seq<Field>): nat {
    if fs == [] then 0 else Size(fs[0].value) + SizeOfFields(fs[1..])
  }

  datatype Pending = Pending(value: Json, level: nat)

  function PendingDepth(ps: seq<Pending>, floor: nat): nat {
    if ps == [] then floor else Max(Depth(ps[0].value, ps[0].level), PendingDepth(ps[1..], floor))
  }

  function PendingItems(ps: seq<Pending>): nat {
    if ps == [] then 0 else Items(ps[0].value) + PendingItems(ps[1..])
  }

  function PendingBytes(ps: seq<Pending>): nat {
    if ps == [] then 0 else StringBytes(ps[0].value) + PendingBytes(ps[1..])
  }

  function PendingSize(ps: seq<Pending>): nat {
    if ps == [] then 0 else Size(ps[0].value) + PendingSize(ps[1..])
  }

  lemma {:induction false} PendingAppend(a: seq<Pending>, b: seq<Pending>, floor: nat)
    ensures PendingDepth(a + b, floor) == PendingDepth(a, PendingDepth(b, floor))
    ensures PendingItems(a + b) == PendingItems(a) + PendingItems(b)
    ensures PendingBytes(a + b) == PendingBytes(a) + PendingBytes(b)
    ensures PendingSize(a + b) == PendingSize(a) + PendingSize(b)
    decreases |a|
  {
    if a == [] {
      assert a + b == b;
    } else {
      assert (a + b)[0] == a[0] && (a + b)[1..] == a[1..] + b;
      PendingAppend(a[1..], b, floor);
    }
  }

  lemma {:induction false} PendingFloor(a: seq<Pending>, x: nat, y: nat)
    ensures PendingDepth(a, Max(x, y)) == Max(x, PendingDepth(a, y))
    decreases |a|
  {
    if a != [] { PendingFloor(a[1..], x, y); }
  }

  function ItemsPending(items: seq<Json>, level: nat): (ps: seq<Pending>)
    ensures |ps| == |items| && forall i :: 0 <= i < |items| ==> ps[i] == Pending(items[i], level)
  {
    seq(|items|, i requires 0 <= i < |items| => Pending(items[i], level))
  }

  lemma {:induction false} ItemsPendingMeasure(items: seq<Json>, level: nat, floor: nat)
    ensures var ps := ItemsPending(items, level + 1);
            && Max(floor, PendingDepth(ps, level)) == Max(floor, DepthOfItems(items, level))
            && PendingItems(ps) == ItemsOf(items) && PendingBytes(ps) == StringBytesOf(items)
            && PendingSize(ps) == SizeOf(items)
    decreases |items|
  {
    if items != [] {
      assert ItemsPending(items, level + 1)[1..] == ItemsPending(items[1..], level + 1);
      ItemsPendingMeasure(items[1..], level, 0);
    }
  }

  function Values(fs: seq<Field>): (vs: seq<Json>)
    ensures |vs| == |fs| && forall i :: 0 <= i < |fs| ==> vs[i] == fs[i].value
  {
    seq(|fs|, i requires 0 <= i < |fs| => fs[i].value)
  }

  function KeyBytes(fs: seq<Field>): nat {
    if fs == [] then 0 else Utf8Length(fs[0].key) + KeyBytes(fs[1..])
  }

  lemma {:induction false} FieldsAsItems(fs: seq<Field>, level: nat)
    ensures DepthOfFields(fs, level) == DepthOfItems(Values(fs), level)
    ensures ItemsOfFields(fs) == ItemsOf(Values(fs)) && SizeOfFields(fs) == SizeOf(Values(fs))
    ensures StringBytesOfFields(fs) == KeyBytes(fs) + StringBytesOf(Values(fs))
    decreases |fs|
  {
    if fs != [] {
      assert Values(fs)[1..] == Values(fs[1..]);
      FieldsAsItems(fs[1..], level);
    }
  }

  lemma KeyBytesAppend(fs: seq<Field>, n: nat)
    requires n < |fs|
    ensures KeyBytes(fs[..n + 1]) == KeyBytes(fs[..n]) + Utf8Length(fs[n].key)
    decreases n
  {
    if n > 0 {
      assert fs[..n + 1][1..] == fs[1..][..n] && fs[..n][1..] == fs[1..][..n - 1];
      KeyBytesAppend(fs[1..], n - 1);
    }
  }

  function ChildValues(v: Json): seq<Json> {
    match v
    case JArr(items) => items
    case JObj(fields) => Values(fields)
    case _ => []
  }

  /** The bytes the measure counts when it takes the value itself off the worklist. */
  function OwnBytes(v: Json): nat {
    match v
    case JStr(s) => Utf8Length(s)
    case JObj(fields) => KeyBytes(fields)
    case _ => 0
  }

  /** A value measures as itself and its children. */
  lemma ChildrenMeasure(v: Json, level: nat, floor: nat)
    ensures var more := ItemsPending(ChildValues(v), level + 1);
            && Max(floor, Depth(v, level)) == PendingDepth(more, Max(floor, level))
            && Items(v) == |ChildValues(v)| + PendingItems(more)
            && StringBytes(v) == OwnBytes(v) + PendingBytes(more) && Size(v) == 1 + PendingSize(more)
  {
    var more := ItemsPending(ChildValues(v), level + 1);
    match v {
      case JArr(items) => ItemsPendingMeasure(items, level, floor);
      case JObj(fields) => FieldsAsItems(fields, level); ItemsPendingMeasure(Values(fields), level, floor);
      case _ =>
    }
    PendingFloor(more, floor, level);
    DepthAtLeast(v, level);
  }

  /** Replacing the top of the worklist by its children leaves the whole measure unchanged. */
  lemma PopMeasure(below: seq<Pending>, top: Pending, floor: nat)
    ensures var more := ItemsPending(ChildValues(top.value), top.level + 1);
            && PendingDepth(below + [top], floor) == PendingDepth(below + more, Max(floor, top.level))
            && PendingItems(below + [top]) == |ChildValues(top.value)| + PendingItems(below + more)
            && PendingBytes(below + [top]) == OwnBytes(top.value) + PendingBytes(below + more)
            && PendingSize(below + more) < PendingSize(below + [top])
  {
    var more := ItemsPending(ChildValues(top.value), top.level + 1);
    ChildrenMeasure(top.value, top.level, floor);
    PendingAppend(below, [top], floor);
    PendingAppend(below, more, Max(floor, top.level));
  }

  /** The worklist measure computes exactly the recursive meaning of depth, collection items and string bytes. */
  method Measure(value: Json, depth: nat) returns (maxDepth: nat, items: nat, bytes: nat)
    ensures maxDepth == Depth(value, depth) && items == Items(value) && bytes == StringBytes(value)
  {
    maxDepth, items, bytes := depth, 0, 0;
    var pending := [Pending(value, depth)];
    DepthAtLeast(value, depth);
    while pending != []
      invariant PendingDepth(pending, maxDepth) == Depth(value, depth)
      invariant items + PendingItems(pending) == Items(value)
      invariant bytes + PendingBytes(pending) == StringBytes(value)
      decreases PendingSize(pending)
    {
      hide PendingDepth, PendingItems, PendingBytes, PendingSize, Depth, Items, StringBytes;
      var n := |pending| - 1;
      var top := pending[n];
      assert pending == pending[..n] + [top];
      PopMeasure(pending[..n], top, maxDepth);
      pending := pending[..n];
      maxDepth := Max(maxDepth, top.level);
      match top.value {
        case JStr(s) => bytes := bytes + Utf8Length(s);
        case JArr(children) => items := items + |children|;
        case JObj(fields) =>
          items := items + |fields|;
          ghost var before := bytes;
          for i := 0 to |fields|
            invariant bytes == before + KeyBytes(fields[..i])
          {
            KeyBytesAppend(fields, i);
            bytes := bytes + Utf8Length(fields[i].key);
          }
          assert fields[..|fields|] == fields;
        case _ =>
      }
      pending := pending + ItemsPending(ChildValues(top.value), top.level + 1);
    }
  }

  lemma {:induction false} DepthAtLeast(v: Json, level: nat)
    ensures Depth(v, level) >= level
  {
    match v
    case JArr(items) => ItemsDepthAtLeast(items, level);
    case JObj(fields) => FieldsAsItems(fields, level); ItemsDepthAtLeast(Values(fields), level);
    case _ =>
  }

  lemma {:induction false} ItemsDepthAtLeast(items: seq<Json>, level: nat)
    ensures DepthOfItems(items, level) >= level
    decreases |items|
  {
    if items != [] { ItemsDepthAtLeast(items[1..], level); }
  }
}
