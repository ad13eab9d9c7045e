/** Printing a JSON tree and reading it back through `extract_json`. */
module JsonRoundTrip {
  import opened Wrappers
  import opened Json
  import opened JsonGrammar
  import Text

  /** A tree as a JSON writer sees it: keys are strings, numbers are integers. */
  datatype Doc =
    | DNull
    | DBool(b: bool)
    | DInt(n: int)
    | DStr(s: string)
    | DArr(items: seq<Doc>)
    | DObj(fields: seq<Field>)

  datatype Field = Field(key: string, doc: Doc)

  /** How the writer lays the tree out: whitespace between any two tokens, and the quote. */
  datatype Layout = Layout(gap: string, quote: char)

  predicate ValidLayout(l: Layout) {
    IsQuote(l.quote) && forall i :: 0 <= i < |l.gap| ==> IsWs(l.gap[i])
  }

  // ---- The printer ------------------------------------------------------------------

  function DigitChar(n: nat): char
    requires n < 10
  {
    '0' + n as char
  }

  function Digits(n: nat): string {
    if n < 10 then [DigitChar(n)] else Digits(n / 10) + [DigitChar(n % 10)]
  }

  function PrintInt(n: int): string {
    if n < 0 then "-" + Digits(-n) else Digits(n)
  }

  function EscapeChar(c: char, quote: char): string {
    if c == quote || c == '\\' then ['\\', c]
    else if c == '\n' then "\\n"
    else if c == '\t' then "\\t"
    else if c == '\r' then "\\r"
    else [c]
  }

  function Escape(t: string, quote: char): string {
    if t == "" then "" else EscapeChar(t[0], quote) + Escape(t[1..], quote)
  }

  /** The tree that the writer prints: the same gap everywhere, and no trailing commas. */
  function TreeOf(l: Layout, d: Doc): Tree
    decreases d
  {
    match d
    case DNull => Word("null")
    case DBool(b) => Word(if b then "true" else "false")
    case DInt(n) => Number(PrintInt(n))
    case DStr(t) => Quoted(l.quote, Escape(t, l.quote))
    case DArr(items) => Array(l.gap, ItemEntries(l, items))
    case DObj(fields) => Object(l.gap, FieldEntries(l, fields))
  }

  function ItemEntries(l: Layout, items: seq<Doc>): (r: seq<Entry>)
    ensures |r| == |items|
    decreases items
  {
    if items == [] then []
    else
      [Entry(None, TreeOf(l, items[0]), l.gap, if |items| == 1 then None else Some(l.gap))] + ItemEntries(l, items[1..])
  }

  function FieldEntries(l: Layout, fields: seq<Field>): (r: seq<Entry>)
    ensures |r| == |fields|
    decreases fields
  {
    if fields == [] then []
    else
      var key := Key(l.quote, Escape(fields[0].key, l.quote), l.gap, l.gap);
      [Entry(Some(key), TreeOf(l, fields[0].doc), l.gap, if |fields| == 1 then None else Some(l.gap))]
      + FieldEntries(l, fields[1..])
  }

  function Print(l: Layout, d: Doc): string {
    Spell(TreeOf(l, d))
  }

  // ---- What reading back yields -------------------------------------------------------

  /** The value `extract_json` builds: quoted texts go through `convert_value`, keys included,
      and equal keys overwrite. */
  function Load(py: Python, d: Doc): Value
    decreases d
  {
    match d
    case DNull => Leaf(Null)
    case DBool(b) => Leaf(Bool(b))
    case DInt(n) => Leaf(Int(n))
    case DStr(t) => Leaf(Convert(py, t))
    case DArr(items) => Arr(LoadItems(py, items))
    case DObj(fields) => Obj(LoadFields(py, [], fields))
  }

  function LoadItems(py: Python, items: seq<Doc>): (r: seq<Value>)
    ensures |r| == |items|
    decreases items
  {
    if items == [] then [] else [Load(py, items[0])] + LoadItems(py, items[1..])
  }

  function LoadFields(py: Python, obj: seq<Member>, fields: seq<Field>): seq<Member>
    decreases fields
  {
    if fields == [] then obj
    else LoadFields(py, Put(obj, Convert(py, fields[0].key), Load(py, fields[0].doc)), fields[1..])
  }

  /** The tree itself as a Python value. */
  function Same(d: Doc): Value
    decreases d
  {
    match d
    case DNull => Leaf(Null)
    case DBool(b) => Leaf(Bool(b))
    case DInt(n) => Leaf(Int(n))
    case DStr(t) => Leaf(Str(t))
    case DArr(items) => Arr(SameItems(items))
    case DObj(fields) => Obj(SameFields(fields))
  }

  function SameItems(items: seq<Doc>): (r: seq<Value>)
    ensures |r| == |items|
    decreases items
  {
    if items == [] then [] else [Same(items[0])] + SameItems(items[1..])
  }

  function SameFields(fields: seq<Field>): (r: seq<Member>)
    ensures |r| == |fields|
    decreases fields
  {
    if fields == [] then [] else [Member(Str(fields[0].key), Same(fields[0].doc))] + SameFields(fields[1..])
  }

  /** `convert_value` leaves every string of the tree alone, and no object repeats a key. */
  predicate Stable(py: Python, d: Doc)
    decreases d
  {
    match d
    case DStr(t) => Convert(py, t) == Str(t)
    case DArr(items) => forall i :: 0 <= i < |items| ==> Stable(py, items[i])
    case DObj(fields) =>
      && (forall i :: 0 <= i < |fields| ==>
            Convert(py, fields[i].key) == Str(fields[i].key) && Stable(py, fields[i].doc))
      && (forall i, j :: 0 <= i < j < |fields| ==> fields[i].key != fields[j].key)
    case _ => true
  }

  // ---- Numbers --------------------------------------------------------------------------

  lemma {:induction false} DigitsRead(n: nat)
    ensures AllDigits(Digits(n)) && NatOf(Digits(n)) == n
  {
    if n >= 10 {
      DigitsRead(n / 10);
      var t := Digits(n);
      assert t[..|t| - 1] == Digits(n / 10);
      assert DigitValue(DigitChar(n % 10)) == n % 10;
    } else {
      assert Digits(n)[..0] == "";
      assert DigitValue(DigitChar(n)) == n;
    }
  }

  lemma IntRead(n: int)
    ensures IntOf(PrintInt(n)) == Some(n)
    ensures PrintInt(n) != "" && (PrintInt(n)[0] == '-' || IsDigit(PrintInt(n)[0]))
    ensures forall i :: 0 <= i < |PrintInt(n)| ==> PrintInt(n)[i] == '-' || IsDigit(PrintInt(n)[i])
    ensures !FloatLike(PrintInt(n))
  {
    DigitsRead(if n < 0 then -n else n);
    var t := PrintInt(n);
    if n < 0 {
      assert t[1..] == Digits(-n);
      assert !IsDigit(t[0]);
    }
    forall i | 0 <= i < |t| ensures t[i] == '-' || IsDigit(t[i]) {
      if n < 0 && i > 0 {
        assert t[i] == Digits(-n)[i - 1];
      }
    }
    hide Digits, NatOf, IntOf, PrintInt;
    NotFloat(t);
  }

  /** Digits and signs alone do not read as a float. */
  lemma NotFloat(t: string)
    requires forall i :: 0 <= i < |t| ==> t[i] == '-' || IsDigit(t[i])
    ensures !FloatLike(t)
  {
    assert forall i :: 0 <= i < |t| ==> Text.Lower(t)[i] == t[i];
  }

  /** A leading plus or zero changes nothing, and a minus negates. */
  lemma SignsRead(t: string)
    requires AllDigits(t)
    ensures IntOf("+" + t) == IntOf(t) == IntOf("0" + t) == Some(NatOf(t))
    ensures IntOf("-" + t) == Some(-(NatOf(t) as int))
  {
    ZeroRead(t);
    assert ("+" + t)[1..] == t && ("-" + t)[1..] == t;
    assert !IsDigit(("+" + t)[0]) && !IsDigit(("-" + t)[0]);
    assert AllDigits("0" + t);
  }

  lemma {:induction false} ZeroRead(t: string)
    requires forall i :: 0 <= i < |t| ==> IsDigit(t[i])
    ensures NatOf("0" + t) == NatOf(t)
  {
    var n := |t| - 1;
    assert ("0" + t)[..|t|] == if t == "" then "" else "0" + t[..n];
    if t != "" {
      ZeroRead(t[..n]);
    }
  }

  // ---- Strings ---------------------------------------------------------------------------

  lemma {:induction false} EscapeReads(t: string, quote: char)
    requires IsQuote(quote)
    ensures Closed(Escape(t, quote), quote) && Decode(Escape(t, quote)) == t
  {
    if t != "" {
      EscapeReads(t[1..], quote);
      CharReads(t[0], quote, Escape(t[1..], quote));
      hide EscapeChar, Closed, Decode;
    }
  }

  lemma CharReads(c: char, quote: char, rest: string)
    requires IsQuote(quote)
    ensures Closed(EscapeChar(c, quote) + rest, quote) == Closed(rest, quote)
    ensures Decode(EscapeChar(c, quote) + rest) == [c] + Decode(rest)
  {
    var one := EscapeChar(c, quote);
    assert (one + rest)[|one|..] == rest;
    assert |one| == 2 ==> Unescape(one[1]) == c;
  }

  // ---- The printed tree --------------------------------------------------------------------

  /** What the writer prints is a tree, and it means the document with its texts converted. */
  lemma {:induction false} TreeMeans(l: Layout, py: Python, d: Doc)
    requires ValidLayout(l)
    ensures Valid(py, TreeOf(l, d)) && Meaning(py, TreeOf(l, d)) == Load(py, d)
    decreases d
  {
    match d
    case DInt(n) => IntMeans(py, n);
    case DStr(t) => EscapeReads(t, l.quote);
    case DArr(items) => ItemsMean(l, py, items);
    case DObj(fields) => FieldsMean(l, py, [], fields);
    case _ => assert Text.Lower("null") == "null" && Text.Lower("true") == "true" && Text.Lower("false") == "false";
  }

  lemma IntMeans(py: Python, n: int)
    ensures Valid(py, Number(PrintInt(n))) && Meaning(py, Number(PrintInt(n))) == Leaf(Int(n))
  {
    IntRead(n);
    hide PrintInt, IntOf, FloatLike;
  }

  lemma {:induction false} ItemsMean(l: Layout, py: Python, items: seq<Doc>)
    requires ValidLayout(l)
    ensures ValidEntries(py, ItemEntries(l, items), false)
    ensures Meanings(py, ItemEntries(l, items)) == LoadItems(py, items)
    decreases items
  {
    if items != [] {
      TreeMeans(l, py, items[0]);
      ItemsMean(l, py, items[1..]);
      hide TreeOf, Valid, Meaning, Load;
    }
  }

  lemma {:induction false} FieldsMean(l: Layout, py: Python, obj: seq<Member>, fields: seq<Field>)
    requires ValidLayout(l)
    ensures ValidEntries(py, FieldEntries(l, fields), true)
    ensures Fields(py, obj, FieldEntries(l, fields)) == LoadFields(py, obj, fields)
    decreases fields
  {
    if fields != [] {
      EscapeReads(fields[0].key, l.quote);
      TreeMeans(l, py, fields[0].doc);
      FieldsMean(l, py, Put(obj, Convert(py, fields[0].key), Load(py, fields[0].doc)), fields[1..]);
      hide TreeOf, Valid, Meaning, Load, Put, Convert, Escape, Closed, Decode;
    }
  }

  /** A printed document, wherever it stands, is read as its value and ends where it ends. */
  lemma ValueReads(l: Layout, py: Python, s: string, pos: nat, d: Doc)
    requires ValidLayout(l) && At(s, pos, Print(l, d)) && Delim(s, pos + |Print(l, d)|)
    ensures ParseValue(py, s, pos) == Ok((Load(py, d), pos + |Print(l, d)|))
  {
    hide *;
    PrintIs(l, d);
    TreeMeans(l, py, d);
    TreeReads(py, s, pos, TreeOf(l, d));
  }

  lemma PrintIs(l: Layout, d: Doc)
    ensures Print(l, d) == Spell(TreeOf(l, d))
  {
  }

  // ---- extract_json ----------------------------------------------------------------------------

  lemma {:induction false} StripNothing(t: string)
    requires t != "" && !Text.IsSpace(t[0]) && !Text.IsSpace(t[|t| - 1])
    ensures Text.Strip(t) == t
  {
  }

  /** The braces of an object's text delimit it between any brace-free surroundings. */
  lemma BodyIsObject(prefix: string, body: string, suffix: string)
    requires '{' !in prefix && '}' !in suffix
    requires |body| >= 2 && body[0] == '{' && body[|body| - 1] == '}'
    ensures var s := prefix + body + suffix;
      && FirstFrom(s, '{', 0) == |prefix|
      && LastBefore(s, '}', |s|) == |prefix| + |body|
      && s[|prefix|..|prefix| + |body|] == body
  {
    var s := prefix + body + suffix;
    assert s[|prefix|] == '{';
    assert s[|prefix| + |body| - 1] == '}';
    forall j | 0 <= j < |prefix| ensures s[j] != '{' {
      assert s[j] == prefix[j];
    }
    forall j | |prefix| + |body| <= j < |s| ensures s[j] != '}' {
      assert s[j] == suffix[j - |prefix| - |body|];
    }
    assert s == prefix + (body + suffix);
    assert s[|prefix|..|prefix| + |body|] == body;
  }

  lemma {:induction false} EntriesEnd(es: seq<Entry>, close: char)
    ensures SpellEntries(es, close) != "" && SpellEntries(es, close)[|SpellEntries(es, close)| - 1] == close
    decreases |es|
  {
    if es != [] {
      EntriesEnd(es[1..], close);
      EntriesUnfold(es, close);
      hide Spell, KeyText;
    }
  }

  lemma ObjectEnds(t: Tree)
    requires t.Object?
    ensures |Spell(t)| >= 2 && Spell(t)[0] == '{' && Spell(t)[|Spell(t)| - 1] == '}'
    ensures !Text.IsSpace('{') && !Text.IsSpace('}')
  {
    EntriesEnd(t.fields, '}');
    hide SpellEntries;
  }

  lemma WholeText(t: string)
    ensures At(t, 0, t) && Delim(t, |t|)
  {
  }

  lemma ExtractOf(py: Python, s: string, body: string, v: Value)
    requires var start, end := FirstFrom(s, '{', 0), LastBefore(s, '}', |s|);
      start < end && s[start..end] == body
    requires Text.Strip(body) == body
    requires ParseValue(py, body, 0) == Ok((v, |body|))
    ensures Extract(py, s) == Ok(v)
  {
  }

  /** The text of an object is found and read, whatever brace-free text surrounds it. */
  lemma ExtractReadsTree(py: Python, prefix: string, t: Tree, suffix: string)
    requires t.Object? && Valid(py, t) && '{' !in prefix && '}' !in suffix
    ensures Extract(py, prefix + Spell(t) + suffix) == Ok(Meaning(py, t))
  {
    hide *;
    var body := Spell(t);
    ObjectEnds(t);
    BodyIsObject(prefix, body, suffix);
    StripNothing(body);
    WholeText(body);
    TreeReads(py, body, 0, t);
    ExtractOf(py, prefix + body + suffix, body, Meaning(py, t));
  }

  /** And whatever is extracted is the text of an object with no opening brace before it and no
      closing brace after it. */
  lemma ExtractSound(py: Python, s: string) returns (prefix: string, t: Tree, suffix: string)
    requires Extract(py, s).Ok?
    ensures t.Object? && Valid(py, t) && '{' !in prefix && '}' !in suffix
    ensures s == prefix + Spell(t) + suffix && Extract(py, s) == Ok(Meaning(py, t))
  {
    hide *;
    var start, end, body := ExtractBody(py, s);
    t := TreeSound(py, body, 0);
    OpensObject(py, body, t);
    WholeBody(body, Spell(t), 0 + |Spell(t)|);
    prefix, suffix := s[..start], s[end..];
    assert s == prefix + body + suffix;
  }

  lemma ExtractBody(py: Python, s: string) returns (start: nat, end: nat, body: string)
    requires Extract(py, s).Ok?
    ensures start < end <= |s| && body == s[start..end] && |body| > 0 && body[0] == '{' && body[|body| - 1] == '}'
    ensures '{' !in s[..start] && '}' !in s[end..]
    ensures ParseValue(py, body, 0).Ok? && ParseValue(py, body, 0).value.1 <= |body|
    ensures SkipWs(body, ParseValue(py, body, 0).value.1) == |body|
    ensures Extract(py, s) == Ok(ParseValue(py, body, 0).value.0)
  {
    hide ParseValue, Text.Strip;
    start, end := FirstFrom(s, '{', 0), LastBefore(s, '}', |s|);
    EmptyFails(py);
    if start < end {
      body := s[start..end];
      assert body[0] == s[start] && body[|body| - 1] == s[end - 1];
      StripNothing(body);
    } else {
      body := "";
    }
  }

  lemma EmptyFails(py: Python)
    ensures Text.Strip("") == "" && ParseValue(py, "", 0).Err?
  {
  }

  lemma OpensObject(py: Python, body: string, t: Tree)
    requires body != "" && body[0] == '{' && Valid(py, t) && At(body, SkipWs(body, 0), Spell(t))
    ensures t.Object? && SkipWs(body, 0) == 0
  {
    BraceOpens(py, t);
    AtChar(body, 0, Spell(t), 0);
    hide Spell, Valid;
  }

  lemma BraceOpens(py: Python, t: Tree)
    requires Valid(py, t)
    ensures Spell(t) != "" && (Spell(t)[0] == '{' <==> t.Object?)
  {
    if t.Word? {
      assert Text.Lower(t.text)[0] == Text.LowerChar(t.text[0]);
    }
  }

  lemma WholeBody(body: string, text: string, end: nat)
    requires At(body, 0, text) && end == |text| && body != "" && body[|body| - 1] == '}'
    requires SkipWs(body, end) == |body|
    ensures text == body
  {
    if end < |body| {
      LastSkipped(body, end);
    }
  }

  lemma LastSkipped(body: string, end: nat)
    requires end < |body| && SkipWs(body, end) == |body|
    ensures IsWs(body[|body| - 1])
  {
    var gap := Skipped(body, end);
    assert gap[|gap| - 1] == body[|body| - 1];
  }

  /** The text is that of an object, with no opening brace before it and no closing brace after. */
  ghost predicate HoldsObject(py: Python, s: string, prefix: string, t: Tree, suffix: string) {
    && t.Object? && Valid(py, t) && s == prefix + Spell(t) + suffix
    && '{' !in prefix && '}' !in suffix
  }

  /** `extract_json` succeeds exactly on such texts, with what the object means, and fails with a
      value error on all others. */
  lemma ExtractExactly(py: Python, s: string)
    ensures Extract(py, s).Ok? <==> exists prefix, t, suffix :: HoldsObject(py, s, prefix, t, suffix)
    ensures forall prefix, t, suffix :: HoldsObject(py, s, prefix, t, suffix) ==> Extract(py, s) == Ok(Meaning(py, t))
    ensures Extract(py, s).Err? ==> Extract(py, s).error.ValueError?
  {
    if Extract(py, s).Ok? {
      var prefix, t, suffix := ExtractSound(py, s);
      assert HoldsObject(py, s, prefix, t, suffix);
    } else {
      ExtractErrors(py, s);
    }
    forall prefix, t, suffix | HoldsObject(py, s, prefix, t, suffix) ensures Extract(py, s) == Ok(Meaning(py, t)) {
      ExtractReadsTree(py, prefix, t, suffix);
    }
    hide Extract, Meaning, Spell, Valid;
  }

  lemma ExtractErrors(py: Python, s: string)
    requires Extract(py, s).Err?
    ensures Extract(py, s).error.ValueError?
  {
    var start, end := FirstFrom(s, '{', 0), LastBefore(s, '}', |s|);
    OnlyValueErrors(py, Text.Strip(if start <= end then s[start..end] else ""), 0);
    hide ParseValue, Text.Strip;
  }

  /** Reading a printed object back, whatever brace-free text surrounds it: the result is the
      tree with every quoted text converted and equal keys merged. */
  lemma ExtractReads(l: Layout, py: Python, prefix: string, fields: seq<Field>, suffix: string)
    requires ValidLayout(l) && '{' !in prefix && '}' !in suffix
    ensures Extract(py, prefix + Print(l, DObj(fields)) + suffix) == Ok(Load(py, DObj(fields)))
  {
    TreeMeans(l, py, DObj(fields));
    PrintIs(l, DObj(fields));
    assert TreeOf(l, DObj(fields)).Object?;
    hide *;
    ExtractReadsTree(py, prefix, TreeOf(l, DObj(fields)), suffix);
  }

  // ---- When the tree comes back unchanged --------------------------------------------------------

  lemma {:induction false} PutLength(obj: seq<Member>, key: Scalar, value: Value)
    ensures |Put(obj, key, value)| == |obj| + if HasKey(obj, key) then 0 else 1
    ensures !HasKey(obj, key) ==> Put(obj, key, value) == obj + [Member(key, value)]
  {
    if obj != [] {
      if !SameKey(obj[0].key, key) {
        PutLength(obj[1..], key, value);
        if HasKey(obj, key) {
          var i :| 0 <= i < |obj| && SameKey(obj[i].key, key);
          assert obj[1..][i - 1] == obj[i];
        }
        if HasKey(obj[1..], key) {
          var i :| 0 <= i < |obj[1..]| && SameKey(obj[1..][i].key, key);
          assert obj[i + 1] == obj[1..][i];
        }
      }
    }
  }

  lemma LoadFieldsUnfold(py: Python, obj: seq<Member>, fields: seq<Field>, obj1: seq<Member>)
    requires fields != []
    requires obj1 == Put(obj, Convert(py, fields[0].key), Load(py, fields[0].doc))
    ensures LoadFields(py, obj, fields) == LoadFields(py, obj1, fields[1..])
    ensures |fields| == 1 ==> LoadFields(py, obj, fields) == obj1
  {
  }

  lemma {:induction false} LoadFieldsLength(py: Python, obj: seq<Member>, fields: seq<Field>)
    ensures |LoadFields(py, obj, fields)| <= |obj| + |fields|
    decreases |fields|
  {
    if fields != [] {
      var obj1 := Put(obj, Convert(py, fields[0].key), Load(py, fields[0].doc));
      PutLength(obj, Convert(py, fields[0].key), Load(py, fields[0].doc));
      LoadFieldsLength(py, obj1, fields[1..]);
    }
  }

  /** If no key merged, what was read before stays in front. */
  lemma {:induction false} LoadFieldsPrefix(py: Python, obj: seq<Member>, fields: seq<Field>)
    requires |LoadFields(py, obj, fields)| == |obj| + |fields|
    ensures obj <= LoadFields(py, obj, fields)
    decreases |fields|
  {
    if fields != [] {
      var obj1 := Put(obj, Convert(py, fields[0].key), Load(py, fields[0].doc));
      PutLength(obj, Convert(py, fields[0].key), Load(py, fields[0].doc));
      LoadFieldsLength(py, obj1, fields[1..]);
      LoadFieldsPrefix(py, obj1, fields[1..]);
    }
  }

  /** No string of a field's key, and nothing inside its value, is converted. */
  predicate FieldKept(py: Python, f: Field) {
    Convert(py, f.key) == Str(f.key) && Load(py, f.doc) == Same(f.doc)
  }

  predicate AllKept(py: Python, fields: seq<Field>) {
    forall i :: 0 <= i < |fields| ==> FieldKept(py, fields[i])
  }

  predicate DistinctKeys(fields: seq<Field>) {
    forall i, j :: 0 <= i < j < |fields| ==> fields[i].key != fields[j].key
  }

  predicate NewKeys(obj: seq<Member>, fields: seq<Field>) {
    forall i :: 0 <= i < |fields| ==> !HasKey(obj, Str(fields[i].key))
  }

  lemma HasKeyAppend(obj: seq<Member>, m: Member, key: Scalar)
    ensures HasKey(obj + [m], key) <==> HasKey(obj, key) || SameKey(m.key, key)
  {
    if HasKey(obj, key) {
      var i :| 0 <= i < |obj| && SameKey(obj[i].key, key);
      assert (obj + [m])[i] == obj[i];
    }
    if SameKey(m.key, key) {
      assert (obj + [m])[|obj|] == m;
    }
  }

  /** Splitting off the first field splits the conditions on keys. */
  lemma KeysSplit(obj: seq<Member>, fields: seq<Field>, v: Value)
    requires fields != []
    ensures DistinctKeys(fields) && NewKeys(obj, fields) <==>
      && !HasKey(obj, Str(fields[0].key))
      && DistinctKeys(fields[1..]) && NewKeys(obj + [Member(Str(fields[0].key), v)], fields[1..])
  {
    var m := Member(Str(fields[0].key), v);
    var rest := fields[1..];
    forall i | 0 <= i < |rest|
      ensures HasKey(obj + [m], Str(rest[i].key)) <==> HasKey(obj, Str(rest[i].key)) || rest[i].key == fields[0].key
    {
      HasKeyAppend(obj, m, Str(rest[i].key));
    }
    assert forall i :: 0 < i < |fields| ==> fields[i] == rest[i - 1];
  }

  /** Fields load to themselves exactly when nothing is converted and nothing merges. */
  lemma {:induction false} FieldsUnchanged(py: Python, obj: seq<Member>, fields: seq<Field>)
    ensures LoadFields(py, obj, fields) == obj + SameFields(fields) <==>
      AllKept(py, fields) && DistinctKeys(fields) && NewKeys(obj, fields)
    decreases |fields|
  {
    if fields == [] {
      assert obj + SameFields(fields) == obj;
    } else {
      hide LoadFields, SameFields, Load, Same, Convert, HasKey, Put, DistinctKeys, NewKeys, SameKey;
      var f, rest := fields[0], fields[1..];
      var k, v := Convert(py, f.key), Load(py, f.doc);
      var obj1 := Put(obj, k, v);
      assert AllKept(py, fields) <==> FieldKept(py, f) && AllKept(py, rest) by {
        assert forall i :: 0 < i < |fields| ==> fields[i] == rest[i - 1];
      }
      hide AllKept;
      KeysSplit(obj, fields, v);
      PutLength(obj, k, v);
      LoadFieldsUnfold(py, obj, fields, obj1);
      SameFieldsUnfold(obj, fields);
      FieldsUnchanged(py, obj1, rest);
      if LoadFields(py, obj, fields) == obj + SameFields(fields) {
        FirstUnchanged(py, obj, fields);
      }
    }
  }

  lemma SameFieldsUnfold(obj: seq<Member>, fields: seq<Field>)
    requires fields != []
    ensures obj + SameFields(fields)
      == obj + [Member(Str(fields[0].key), Same(fields[0].doc))] + SameFields(fields[1..])
  {
  }

  /** If the whole is unchanged, so is its first field, and its key was new. */
  lemma FirstUnchanged(py: Python, obj: seq<Member>, fields: seq<Field>)
    requires fields != [] && LoadFields(py, obj, fields) == obj + SameFields(fields)
    ensures FieldKept(py, fields[0]) && !HasKey(obj, Str(fields[0].key))
  {
    var f, rest := fields[0], fields[1..];
    var k, v := Convert(py, f.key), Load(py, f.doc);
    var obj1 := Put(obj, k, v);
    hide LoadFields, SameFields, Load, Same, Convert, HasKey, Put, SameKey;
    PutLength(obj, k, v);
    LoadFieldsUnfold(py, obj, fields, obj1);
    SameFieldsUnfold(obj, fields);
    LoadFieldsLength(py, obj1, rest);
    LoadFieldsPrefix(py, obj1, rest);
    assert obj1[|obj|] == (obj + [Member(Str(f.key), Same(f.doc))])[|obj|];
  }

  lemma {:induction false} ItemsUnchanged(py: Python, items: seq<Doc>)
    ensures LoadItems(py, items) == SameItems(items)
      <==> forall i :: 0 <= i < |items| ==> Load(py, items[i]) == Same(items[i])
    decreases |items|
  {
    if items != [] {
      ItemsUnchanged(py, items[1..]);
      assert forall i :: 0 < i < |items| ==> items[i] == items[1..][i - 1];
      if LoadItems(py, items) == SameItems(items) {
        assert LoadItems(py, items)[0] == SameItems(items)[0];
        assert LoadItems(py, items)[1..] == SameItems(items)[1..];
      }
    }
  }

  /** Reading back gives the very tree that was printed exactly when `convert_value` leaves its
      strings and keys alone and no object repeats a key. */
  lemma {:induction false} UnchangedExactly(py: Python, d: Doc)
    ensures Load(py, d) == Same(d) <==> Stable(py, d)
    decreases d
  {
    match d
    case DArr(items) =>
      forall i | 0 <= i < |items| ensures Load(py, items[i]) == Same(items[i]) <==> Stable(py, items[i]) {
        UnchangedExactly(py, items[i]);
      }
      ItemsUnchanged(py, items);
    case DObj(fields) =>
      forall i | 0 <= i < |fields|
        ensures Load(py, fields[i].doc) == Same(fields[i].doc) <==> Stable(py, fields[i].doc)
      {
        UnchangedExactly(py, fields[i].doc);
      }
      FieldsUnchanged(py, [], fields);
      assert [] + SameFields(fields) == SameFields(fields);
    case _ =>
  }

  /** The round trip of `extract_json`, with the exact condition under which it is one. */
  lemma RoundTrip(l: Layout, py: Python, prefix: string, fields: seq<Field>, suffix: string)
    requires ValidLayout(l) && '{' !in prefix && '}' !in suffix
    ensures Extract(py, prefix + Print(l, DObj(fields)) + suffix) == Ok(Same(DObj(fields)))
      <==> Stable(py, DObj(fields))
  {
    ExtractReads(l, py, prefix, fields, suffix);
    UnchangedExactly(py, DObj(fields));
  }

  // ---- What quoted texts become ---------------------------------------------------------------------

  /** The text is the word, given in lower-case letters, in any mixture of cases. */
  predicate UpToCase(t: string, w: string) {
    |t| == |w| && forall i :: 0 <= i < |t| ==> t[i] == w[i] || ('A' <= t[i] <= 'Z' && t[i] - 'A' + 'a' == w[i])
  }

  /** The text has a point or an exponent letter. */
  predicate HasPoint(t: string) {
    '.' in t || 'e' in t || 'E' in t
  }

  lemma LowerIs(t: string, w: string)
    requires forall i :: 0 <= i < |w| ==> 'a' <= w[i] <= 'z'
    ensures Text.Lower(t) == w <==> UpToCase(t, w)
  {
    if UpToCase(t, w) {
      assert forall i :: 0 <= i < |t| ==> Text.LowerChar(t[i]) == w[i];
    }
  }

  lemma PointIs(t: string)
    ensures FloatLike(t) <==> HasPoint(t)
  {
    assert forall i :: 0 <= i < |t| ==> (Text.Lower(t)[i] == 'e' <==> t[i] == 'e' || t[i] == 'E');
  }

  /** A quoted text becomes the constant it spells in any case, else the float or integer it reads
      as, and otherwise stays the text it is. */
  lemma QuotedExactly(py: Python, t: string)
    ensures var v := Load(py, DStr(t));
      if UpToCase(t, "true") then v == Leaf(Bool(true))
      else if UpToCase(t, "false") then v == Leaf(Bool(false))
      else if UpToCase(t, "null") then v == Leaf(Null)
      else if HasPoint(t) then v == Leaf(if py.isFloat(t) then Float(t) else Str(t))
      else v == Leaf(if py.toInt(t).Some? then Int(py.toInt(t).value) else Str(t))
  {
    LowerIs(t, "true");
    LowerIs(t, "false");
    LowerIs(t, "null");
    PointIs(t);
    hide Text.Lower, UpToCase, FloatLike, HasPoint;
  }

  /** So quoting a constant, or an integer that `int()` reads as itself, changes nothing. */
  lemma QuotingChangesNothing(l: Layout, py: Python, d: Doc)
    requires d.DNull? || d.DBool? || (d.DInt? && py.toInt(PrintInt(d.n)) == Some(d.n))
    ensures Load(py, DStr(Print(l, d))) == Load(py, d)
  {
    var t := Print(l, d);
    QuotedExactly(py, t);
    if d.DInt? {
      IntRead(d.n);
      IntLike(t);
      hide PrintInt, IntOf, FloatLike, UpToCase, HasPoint;
      assert t == PrintInt(d.n);
    } else {
      assert t == if d.DNull? then "null" else if d.b then "true" else "false";
      WordsApart();
      hide UpToCase, HasPoint;
    }
  }

  lemma WordsApart()
    ensures UpToCase("null", "null") && UpToCase("true", "true") && UpToCase("false", "false")
    ensures !UpToCase("null", "true") && !UpToCase("null", "false") && !UpToCase("false", "true")
  {
    assert "null"[0] == 'n' && "true"[0] == 't';
  }

  /** An integer's text is no word and has no point. */
  lemma IntLike(t: string)
    requires t != "" && forall i :: 0 <= i < |t| ==> t[i] == '-' || IsDigit(t[i])
    ensures !UpToCase(t, "true") && !UpToCase(t, "false") && !UpToCase(t, "null") && !HasPoint(t)
  {
    assert t[0] == '-' || IsDigit(t[0]);
  }

  /** An unquoted word in any case is its constant, and an unquoted number is what it reads as: a
      float with a point or an exponent letter, an integer without. */
  lemma UnquotedExactly(py: Python, t: string)
    ensures Valid(py, Word(t)) <==> UpToCase(t, "true") || UpToCase(t, "false") || UpToCase(t, "null")
    ensures UpToCase(t, "true") ==> Meaning(py, Word(t)) == Leaf(Bool(true))
    ensures UpToCase(t, "false") ==> Meaning(py, Word(t)) == Leaf(Bool(false))
    ensures UpToCase(t, "null") ==> Meaning(py, Word(t)) == Leaf(Null)
    ensures Valid(py, Number(t)) && HasPoint(t) ==> py.isFloat(t) && Meaning(py, Number(t)) == Leaf(Float(t))
    ensures Valid(py, Number(t)) && !HasPoint(t) ==>
      IntOf(t).Some? && Meaning(py, Number(t)) == Leaf(Int(IntOf(t).value))
  {
    LowerIs(t, "true");
    LowerIs(t, "false");
    LowerIs(t, "null");
    PointIs(t);
    hide Text.Lower, UpToCase, FloatLike, HasPoint, IntOf;
  }

  // ---- Repeated keys -------------------------------------------------------------------------------------

  /** Putting under a key that is there replaces the value where it stands and keeps the key as it
      was first written; a new key goes to the end. */
  lemma {:induction false} PutExactly(obj: seq<Member>, key: Scalar, value: Value, i: nat)
    requires i < |obj| && SameKey(obj[i].key, key) && forall j :: 0 <= j < i ==> !SameKey(obj[j].key, key)
    ensures Put(obj, key, value) == obj[i := Member(obj[i].key, value)]
  {
    if i > 0 {
      PutExactly(obj[1..], key, value, i - 1);
      assert obj == [obj[0]] + obj[1..];
    }
  }
}
