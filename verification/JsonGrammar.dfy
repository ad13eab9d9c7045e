/** The language that `extract_json` reads: concrete trees, what they spell and what they mean. The
    reader accepts exactly the texts of trees, and gives each its meaning. */
module JsonGrammar {
  import opened Wrappers
  import opened Json
  import Text

  /** A value as it is written. A number or a word is its text, a quoted text keeps its escapes,
      and lists keep the whitespace between their tokens. */
  datatype Tree =
    | Word(text: string)
    | Number(text: string)
    | Quoted(quote: char, raw: string)
    | Triple(quote: char, body: string)
    | Array(gap: string, items: seq<Entry>)
    | Object(gap: string, fields: seq<Entry>)

  /** A value in a list, with its key in an object, the whitespace after it, and, when a comma
      follows, the whitespace after the comma. */
  datatype Entry = Entry(key: Option<Key>, tree: Tree, after: string, comma: Option<string>)

  /** A quoted key with the whitespace before and behind its colon. */
  datatype Key = Key(quote: char, raw: string, before: string, behind: string)

  // ---- What a tree spells ------------------------------------------------------------------------

  function SpellQuoted(quote: char, raw: string): string {
    [quote] + (raw + [quote])
  }

  function Three(quote: char): string {
    [quote, quote, quote]
  }

  function Spell(t: Tree): string
    decreases t, 2
  {
    match t
    case Word(text) => text
    case Number(text) => text
    case Quoted(quote, raw) => SpellQuoted(quote, raw)
    case Triple(quote, body) => Three(quote) + (body + Three(quote))
    case Array(gap, items) => "[" + (gap + SpellEntries(items, ']'))
    case Object(gap, fields) => "{" + (gap + SpellEntries(fields, '}'))
  }

  function SpellKey(k: Key): string {
    SpellQuoted(k.quote, k.raw) + (k.before + (":" + k.behind))
  }

  /** The entries that remain, up to and including the closing mark. */
  function SpellEntries(es: seq<Entry>, close: char): string
    decreases es, 1
  {
    if es == [] then [close]
    else
      var key := if es[0].key.Some? then SpellKey(es[0].key.value) else "";
      key + (Spell(es[0].tree) + (es[0].after + SpellRest(es, close)))
  }

  /** What follows the first entry. */
  function SpellRest(es: seq<Entry>, close: char): string
    requires es != []
    decreases es, 0
  {
    if es[0].comma.Some? then "," + (es[0].comma.value + SpellEntries(es[1..], close)) else [close]
  }

  // ---- Which trees there are ------------------------------------------------------------------------

  predicate Gap(t: string) {
    forall i :: 0 <= i < |t| ==> IsWs(t[i])
  }

  /** No quote ends the text early, and every backslash has a character to escape. */
  predicate Closed(raw: string, quote: char) {
    if raw == "" then true
    else if raw[0] == '\\' then |raw| >= 2 && Closed(raw[2..], quote)
    else raw[0] != quote && Closed(raw[1..], quote)
  }

  predicate ThreeAt(t: string, i: nat, quote: char) {
    i + 3 <= |t| && t[i] == t[i + 1] == t[i + 2] == quote
  }

  /** The three quotes occur nowhere before the end. */
  predicate ClosedTriple(body: string, quote: char) {
    forall i :: 0 <= i < |body| ==> !ThreeAt(body + Three(quote), i, quote)
  }

  predicate ValidNumber(py: Python, text: string) {
    && text != "" && StartsNumber(text[0]) && (forall i :: 0 <= i < |text| ==> IsNumChar(text[i]))
    && if FloatLike(text) then py.isFloat(text) else IntOf(text).Some?
  }

  predicate ValidKey(k: Key) {
    IsQuote(k.quote) && Closed(k.raw, k.quote) && Gap(k.before) && Gap(k.behind)
  }

  predicate Valid(py: Python, t: Tree)
    decreases t
  {
    match t
    case Word(text) => Text.Lower(text) == "true" || Text.Lower(text) == "false" || Text.Lower(text) == "null"
    case Number(text) => ValidNumber(py, text)
    case Quoted(quote, raw) => IsQuote(quote) && Closed(raw, quote)
    case Triple(quote, body) => IsQuote(quote) && ClosedTriple(body, quote)
    case Array(gap, items) => Gap(gap) && ValidEntries(py, items, false)
    case Object(gap, fields) => Gap(gap) && ValidEntries(py, fields, true)
  }

  /** Only the last entry may do without a comma, and it need not. */
  predicate ValidEntries(py: Python, es: seq<Entry>, keyed: bool)
    decreases es
  {
    es == [] ||
    (&& (es[0].key.Some? <==> keyed) && (keyed ==> ValidKey(es[0].key.value))
     && Valid(py, es[0].tree) && Gap(es[0].after)
     && (if es[0].comma.Some? then Gap(es[0].comma.value) && ValidEntries(py, es[1..], keyed) else |es| == 1))
  }

  // ---- What a tree means ----------------------------------------------------------------------------

  function Decode(raw: string): string {
    if raw == "" then ""
    else if raw[0] == '\\' && |raw| >= 2 then [Unescape(raw[1])] + Decode(raw[2..])
    else [raw[0]] + Decode(raw[1..])
  }

  function Meaning(py: Python, t: Tree): Value
    decreases t
  {
    match t
    case Word(text) =>
      if Text.Lower(text) == "true" then Leaf(Bool(true))
      else if Text.Lower(text) == "false" then Leaf(Bool(false))
      else Leaf(Null)
    case Number(text) =>
      if FloatLike(text) then Leaf(Float(text))
      else (match IntOf(text) case Some(n) => Leaf(Int(n)) case None => Leaf(Null))
    case Quoted(_, raw) => Leaf(Convert(py, Decode(raw)))
    case Triple(_, body) => Leaf(Convert(py, body))
    case Array(_, items) => Arr(Meanings(py, items))
    case Object(_, fields) => Obj(Fields(py, [], fields))
  }

  function Meanings(py: Python, es: seq<Entry>): seq<Value>
    decreases es
  {
    if es == [] then [] else [Meaning(py, es[0].tree)] + Meanings(py, es[1..])
  }

  function KeyMeaning(py: Python, e: Entry): Scalar {
    match e.key
    case Some(k) => Convert(py, Decode(k.raw))
    case None => Null
  }

  /** The entries put into a dictionary, first to last. */
  function Fields(py: Python, obj: seq<Member>, es: seq<Entry>): seq<Member>
    decreases es
  {
    if es == [] then obj
    else Fields(py, Put(obj, KeyMeaning(py, es[0]), Meaning(py, es[0].tree)), es[1..])
  }

  // ---- Texts at positions --------------------------------------------------------------

  predicate At(s: string, pos: nat, t: string) {
    pos + |t| <= |s| && s[pos..pos + |t|] == t
  }

  lemma AtConcat(s: string, pos: nat, a: string, b: string)
    requires At(s, pos, a + b)
    ensures At(s, pos, a) && At(s, pos + |a|, b)
  {
    assert (a + b)[..|a|] == a;
    assert (a + b)[|a|..] == b;
    assert s[pos..pos + |a|] == s[pos..pos + |a + b|][..|a|];
    assert s[pos + |a|..pos + |a| + |b|] == s[pos..pos + |a + b|][|a|..];
  }

  lemma AtJoin(s: string, pos: nat, a: string, b: string)
    requires At(s, pos, a) && At(s, pos + |a|, b)
    ensures At(s, pos, a + b)
  {
    assert s[pos..pos + |a + b|] == s[pos..pos + |a|] + s[pos + |a|..pos + |a| + |b|];
  }

  lemma AtChar(s: string, pos: nat, t: string, i: nat)
    requires At(s, pos, t) && i < |t|
    ensures s[pos + i] == t[i]
  {
  }

  predicate IsPunct(c: char) {
    c == ',' || c == ':' || c == ']' || c == '}'
  }

  /** A value may end here: at the end of the text, before whitespace, or before punctuation. */
  predicate Delim(s: string, pos: nat) {
    pos == |s| || (pos < |s| && (IsWs(s[pos]) || IsPunct(s[pos])))
  }

  lemma {:induction false} SkipRun(s: string, pos: nat, gap: string)
    requires At(s, pos, gap) && Gap(gap)
    requires pos + |gap| < |s| ==> !IsWs(s[pos + |gap|])
    ensures SkipWs(s, pos) == pos + |gap|
    decreases |gap|
  {
    if gap != "" {
      AtChar(s, pos, gap, 0);
      assert gap == gap[..1] + gap[1..];
      AtConcat(s, pos, gap[..1], gap[1..]);
      SkipRun(s, pos + 1, gap[1..]);
    }
  }

  /** Skipping the gap before a non-blank text lands on the text. */
  lemma SkipGap(s: string, pos: nat, gap: string, t: string)
    requires Gap(gap) && At(s, pos, gap + t) && t != "" && !IsWs(t[0])
    ensures SkipWs(s, pos) == pos + |gap| && At(s, pos + |gap|, t)
    ensures s[pos + |gap|] == t[0]
  {
    AtConcat(s, pos, gap, t);
    AtChar(s, pos + |gap|, t, 0);
    SkipRun(s, pos, gap);
  }

  /** What is skipped is a gap. */
  lemma {:induction false} Skipped(s: string, pos: nat) returns (gap: string)
    requires pos <= |s|
    ensures Gap(gap) && At(s, pos, gap) && SkipWs(s, pos) == pos + |gap|
    ensures SkipWs(s, SkipWs(s, pos)) == SkipWs(s, pos)
    decreases |s| - pos
  {
    gap := "";
    if pos < |s| && IsWs(s[pos]) {
      gap := Skipped(s, pos + 1);
      gap := [s[pos]] + gap;
    }
  }

  // ---- Quoted texts ---------------------------------------------------------------------------

  lemma {:induction false} TailReads(py: Python, s: string, pos: nat, quote: char, acc: string, raw: string)
    requires IsQuote(quote) && Closed(raw, quote) && At(s, pos, raw + [quote])
    ensures StringTail(py, s, pos, quote, acc) == Ok((Convert(py, acc + Decode(raw)), pos + |raw| + 1))
    decreases |raw|
  {
    AtChar(s, pos, raw + [quote], 0);
    if raw == "" {
      assert acc + "" == acc;
    } else {
      var k, c := if raw[0] == '\\' then 2 else 1, if raw[0] == '\\' then Unescape(raw[1]) else raw[0];
      AtChar(s, pos, raw + [quote], k - 1);
      assert raw + [quote] == raw[..k] + (raw[k..] + [quote]);
      AtConcat(s, pos, raw[..k], raw[k..] + [quote]);
      TailReads(py, s, pos + k, quote, acc + [c], raw[k..]);
      assert acc + [c] + Decode(raw[k..]) == acc + ([c] + Decode(raw[k..]));
    }
  }

  lemma {:induction false} TailSound(py: Python, s: string, pos: nat, quote: char, acc: string) returns (raw: string)
    requires pos <= |s| && StringTail(py, s, pos, quote, acc).Ok? && IsQuote(quote)
    ensures Closed(raw, quote) && At(s, pos, raw + [quote])
    ensures StringTail(py, s, pos, quote, acc) == Ok((Convert(py, acc + Decode(raw)), pos + |raw| + 1))
    decreases |s| - pos
  {
    if s[pos] == quote {
      raw := "";
      assert acc + "" == acc;
    } else {
      var k, c := if s[pos] == '\\' then 2 else 1, if s[pos] == '\\' then Unescape(s[pos + 1]) else s[pos];
      var rest := TailSound(py, s, pos + k, quote, acc + [c]);
      raw := s[pos..pos + k] + rest;
      assert raw[k..] == rest;
      assert acc + [c] + Decode(rest) == acc + ([c] + Decode(rest));
      assert raw + [quote] == s[pos..pos + k] + (rest + [quote]);
      AtJoin(s, pos, s[pos..pos + k], rest + [quote]);
    }
  }

  lemma StringReads(py: Python, s: string, pos: nat, quote: char, raw: string)
    requires IsQuote(quote) && Closed(raw, quote) && At(s, pos, SpellQuoted(quote, raw))
    ensures pos < |s| && s[pos] == quote
    ensures ParseString(py, s, pos) == Ok((Convert(py, Decode(raw)), pos + |SpellQuoted(quote, raw)|))
  {
    AtChar(s, pos, SpellQuoted(quote, raw), 0);
    AtConcat(s, pos, [quote], raw + [quote]);
    TailReads(py, s, pos + 1, quote, "", raw);
    assert "" + Decode(raw) == Decode(raw);
  }

  lemma StringSound(py: Python, s: string, pos: nat) returns (raw: string)
    requires pos < |s| && IsQuote(s[pos]) && ParseString(py, s, pos).Ok?
    ensures Closed(raw, s[pos]) && At(s, pos, SpellQuoted(s[pos], raw))
    ensures ParseString(py, s, pos) == Ok((Convert(py, Decode(raw)), pos + |SpellQuoted(s[pos], raw)|))
  {
    raw := TailSound(py, s, pos + 1, s[pos], "");
    assert "" + Decode(raw) == Decode(raw);
    AtJoin(s, pos, [s[pos]], raw + [s[pos]]);
  }

  lemma SliceOfThree(s: string, pos: nat, quote: char)
    requires pos <= |s|
    ensures Slice(s, pos, 3) == Three(quote) <==> ThreeAt(s, pos, quote)
  {
    if pos + 3 <= |s| {
      assert Slice(s, pos, 3) == [s[pos], s[pos + 1], s[pos + 2]];
    }
  }

  lemma ThreeHere(s: string, pos: nat, t: string, i: nat, quote: char)
    requires At(s, pos, t) && i + 3 <= |t|
    ensures ThreeAt(s, pos + i, quote) <==> ThreeAt(t, i, quote)
  {
    AtChar(s, pos, t, i);
    AtChar(s, pos, t, i + 1);
    AtChar(s, pos, t, i + 2);
  }

  /** Dropping the first character moves the places of three quotes by one. */
  lemma ThreeShift(c: char, rest: string, quote: char)
    ensures forall i :: 0 <= i < |rest| ==>
      (ThreeAt([c] + rest + Three(quote), i + 1, quote) <==> ThreeAt(rest + Three(quote), i, quote))
  {
    assert [c] + rest + Three(quote) == [c] + (rest + Three(quote));
  }

  lemma {:induction false} TripleReads(py: Python, s: string, pos: nat, quote: char, acc: string, body: string)
    requires ClosedTriple(body, quote) && At(s, pos, body + Three(quote))
    ensures TripleTail(py, s, pos, Three(quote), acc) == Ok((Convert(py, acc + body), pos + |body| + 3))
    decreases |body|
  {
    hide Convert;
    var all := body + Three(quote);
    SliceOfThree(s, pos, quote);
    ThreeHere(s, pos, all, 0, quote);
    if body == "" {
      assert acc + "" == acc;
    } else {
      var c, rest := body[0], body[1..];
      AtChar(s, pos, all, 0);
      assert body == [c] + rest && all == [c] + (rest + Three(quote));
      AtConcat(s, pos, [c], rest + Three(quote));
      ThreeShift(c, rest, quote);
      hide ThreeAt;
      TripleReads(py, s, pos + 1, quote, acc + [c], rest);
      assert acc + [c] + rest == acc + body;
    }
  }

  lemma {:induction false} TripleSound(py: Python, s: string, pos: nat, quote: char, acc: string) returns (body: string)
    requires pos <= |s| && TripleTail(py, s, pos, Three(quote), acc).Ok?
    ensures ClosedTriple(body, quote) && At(s, pos, body + Three(quote))
    ensures TripleTail(py, s, pos, Three(quote), acc) == Ok((Convert(py, acc + body), pos + |body| + 3))
    decreases |s| - pos
  {
    hide Convert;
    SliceOfThree(s, pos, quote);
    if Slice(s, pos, 3) == Three(quote) {
      body := "";
      assert acc + "" == acc && "" + Three(quote) == Three(quote);
    } else {
      var rest := TripleSound(py, s, pos + 1, quote, acc + [s[pos]]);
      body := [s[pos]] + rest;
      assert acc + [s[pos]] + rest == acc + body;
      assert body + Three(quote) == [s[pos]] + (rest + Three(quote));
      AtJoin(s, pos, [s[pos]], rest + Three(quote));
      ThreeHere(s, pos, body + Three(quote), 0, quote);
      ThreeShift(s[pos], rest, quote);
      hide ThreeAt, Slice;
      forall i | 0 <= i < |body| ensures !ThreeAt(body + Three(quote), i, quote) {
        assert i > 0 ==> !ThreeAt(rest + Three(quote), i - 1, quote);
      }
    }
  }

  // ---- Words and numbers -----------------------------------------------------------------------------

  /** A slice whose first character is not the word's, up to case, is not the word. */
  lemma NotWord(s: string, pos: nat, k: nat, w: string)
    requires pos < |s| && 0 < k && |w| == k
    requires Text.LowerChar(s[pos]) != w[0]
    ensures Text.Lower(Slice(s, pos, k)) != w
  {
  }

  lemma SliceAt(s: string, pos: nat, t: string)
    requires At(s, pos, t)
    ensures Slice(s, pos, |t|) == t
  {
  }

  /** Text that opens with none of the brackets and quotes is a word or a number. */
  lemma PlainDispatch(py: Python, s: string, pos: nat)
    requires pos < |s| && !IsWs(s[pos]) && s[pos] != '{' && s[pos] != '[' && !IsQuote(s[pos])
    ensures ParseValue(py, s, pos) ==
      if Text.Lower(Slice(s, pos, 4)) == "true" then Ok((Leaf(Bool(true)), pos + 4))
      else if Text.Lower(Slice(s, pos, 5)) == "false" then Ok((Leaf(Bool(false)), pos + 5))
      else if Text.Lower(Slice(s, pos, 4)) == "null" then Ok((Leaf(Null), pos + 4))
      else if StartsNumber(s[pos]) then Lift(ParseNumber(py, s, pos))
      else Err(ValueError)
  {
    assert SkipWs(s, pos) == pos;
    assert !IsTriple(Slice(s, pos, 3)) by {
      assert Slice(s, pos, 3)[0] == s[pos];
    }
  }

  lemma WordReads(py: Python, s: string, pos: nat, text: string)
    requires Valid(py, Word(text)) && At(s, pos, text)
    ensures ParseValue(py, s, pos) == Ok((Meaning(py, Word(text)), pos + |text|))
  {
    var w := Text.Lower(text);
    AtChar(s, pos, text, 0);
    assert w[0] == Text.LowerChar(s[pos]);
    SliceAt(s, pos, text);
    PlainDispatch(py, s, pos);
    if w[0] != 't' {
      NotWord(s, pos, 4, "true");
    }
    if w[0] == 'n' {
      NotWord(s, pos, 5, "false");
    }
  }

  lemma {:induction false} NumEndRun(s: string, pos: nat, t: string)
    requires At(s, pos, t) && forall i :: 0 <= i < |t| ==> IsNumChar(t[i])
    requires pos + |t| < |s| ==> !IsNumChar(s[pos + |t|])
    ensures NumEnd(s, pos) == pos + |t|
    decreases |t|
  {
    if t != "" {
      AtChar(s, pos, t, 0);
      assert t == t[..1] + t[1..];
      AtConcat(s, pos, t[..1], t[1..]);
      NumEndRun(s, pos + 1, t[1..]);
    }
  }

  lemma {:induction false} NumEndIs(s: string, pos: nat)
    requires pos <= |s|
    ensures forall i :: pos <= i < NumEnd(s, pos) ==> IsNumChar(s[i])
    ensures NumEnd(s, pos) < |s| ==> !IsNumChar(s[NumEnd(s, pos)])
    decreases |s| - pos
  {
    if pos < |s| && IsNumChar(s[pos]) {
      NumEndIs(s, pos + 1);
    }
  }

  /** Text that starts like a number goes to the number parser. */
  lemma NumberDispatch(py: Python, s: string, pos: nat)
    requires pos < |s| && StartsNumber(s[pos])
    ensures ParseValue(py, s, pos) == Lift(ParseNumber(py, s, pos))
  {
    PlainDispatch(py, s, pos);
    NotWord(s, pos, 4, "true");
    NotWord(s, pos, 5, "false");
    NotWord(s, pos, 4, "null");
  }

  /** What the number parser makes of the run of number characters. */
  lemma NumberIs(py: Python, s: string, pos: nat, text: string)
    requires pos < |s| && StartsNumber(s[pos]) && text == s[pos..NumEnd(s, pos)] && text != ""
    requires forall i :: 0 <= i < |text| ==> IsNumChar(text[i])
    ensures Lift(ParseNumber(py, s, pos)) ==
      if ValidNumber(py, text) then Ok((Meaning(py, Number(text)), NumEnd(s, pos))) else Err(ValueError)
  {
    assert text[0] == s[pos];
    hide FloatLike, IntOf, NumEnd;
  }

  lemma NumberReads(py: Python, s: string, pos: nat, text: string)
    requires ValidNumber(py, text) && At(s, pos, text) && Delim(s, pos + |text|)
    ensures ParseValue(py, s, pos) == Ok((Meaning(py, Number(text)), pos + |text|))
  {
    AtChar(s, pos, text, 0);
    NumEndRun(s, pos, text);
    NumberDispatch(py, s, pos);
    NumberIs(py, s, pos, text);
    hide Meaning, ParseNumber, ParseValue, NumEnd;
  }

  // ---- Quoted values ---------------------------------------------------------------------------------

  lemma QuoteDispatch(py: Python, s: string, pos: nat)
    requires pos < |s| && IsQuote(s[pos])
    ensures ParseValue(py, s, pos) ==
      if ThreeAt(s, pos, s[pos]) then Lift(TripleTail(py, s, pos + 3, Three(s[pos]), ""))
      else Lift(ParseString(py, s, pos))
  {
    assert SkipWs(s, pos) == pos;
    SliceOfThree(s, pos, s[pos]);
    if IsTriple(Slice(s, pos, 3)) {
      assert Slice(s, pos, 3)[0] == s[pos];
    }
    assert IsTriple(Slice(s, pos, 3)) <==> Slice(s, pos, 3) == Three(s[pos]);
    hide TripleTail, ParseString, Slice;
  }

  lemma QuotedReads(py: Python, s: string, pos: nat, quote: char, raw: string)
    requires IsQuote(quote) && Closed(raw, quote)
    requires At(s, pos, SpellQuoted(quote, raw)) && Delim(s, pos + |SpellQuoted(quote, raw)|)
    ensures ParseValue(py, s, pos) == Ok((Meaning(py, Quoted(quote, raw)), pos + |SpellQuoted(quote, raw)|))
  {
    StringReads(py, s, pos, quote, raw);
    QuoteDispatch(py, s, pos);
    AtChar(s, pos, SpellQuoted(quote, raw), 1);
    hide ParseString, Decode, Convert;
    assert !ThreeAt(s, pos, quote);
  }

  lemma TripledReads(py: Python, s: string, pos: nat, quote: char, body: string)
    requires IsQuote(quote) && ClosedTriple(body, quote) && At(s, pos, Spell(Triple(quote, body)))
    ensures ParseValue(py, s, pos) == Ok((Meaning(py, Triple(quote, body)), pos + |Spell(Triple(quote, body))|))
  {
    hide *;
    var t := Triple(quote, body);
    LeafSpells(py, t);
    LeafMeans(py, t);
    AtConcat(s, pos, Three(quote), body + Three(quote));
    IsThree(s, pos, quote);
    QuoteDispatch(py, s, pos);
    TripleReads(py, s, pos + 3, quote, "", body);
    LiftIs(TripleTail(py, s, pos + 3, Three(quote), ""));
    assert "" + body == body;
  }

  lemma IsThree(s: string, pos: nat, quote: char)
    requires At(s, pos, Three(quote)) && IsQuote(quote)
    ensures pos < |s| && s[pos] == quote && ThreeAt(s, pos, quote) && |Three(quote)| == 3
  {
    AtChar(s, pos, Three(quote), 0);
    ThreeHere(s, pos, Three(quote), 0, quote);
  }

  // ---- Lists: every text of a tree is read -----------------------------------------------------------

  function KeyText(e: Entry): string {
    if e.key.Some? then SpellKey(e.key.value) else ""
  }

  /** Values start with a character that no loop or skip stops at. */
  lemma SpellStarts(py: Python, t: Tree)
    requires Valid(py, t)
    ensures Spell(t) != "" && !IsWs(Spell(t)[0]) && !IsPunct(Spell(t)[0])
  {
    if t.Word? {
      assert Text.Lower(t.text)[0] == Text.LowerChar(t.text[0]);
    }
  }

  lemma EntriesStart(py: Python, es: seq<Entry>, keyed: bool, close: char)
    requires ValidEntries(py, es, keyed) && IsPunct(close)
    ensures SpellEntries(es, close) != "" && !IsWs(SpellEntries(es, close)[0])
    ensures es != [] ==> SpellEntries(es, close)[0] != close
    ensures es != [] && keyed ==> IsQuote(SpellEntries(es, close)[0])
  {
    if es != [] {
      SpellStarts(py, es[0].tree);
      hide Spell, SpellRest;
    }
  }

  lemma EntriesUnfold(es: seq<Entry>, close: char)
    requires es != []
    ensures SpellEntries(es, close) == KeyText(es[0]) + (Spell(es[0].tree) + (es[0].after + SpellRest(es, close)))
  {
  }

  /** The gap after a value ends it, and leads to what follows. */
  lemma AfterValue(s: string, pos: nat, gap: string, rest: string)
    requires Gap(gap) && rest != "" && IsPunct(rest[0]) && At(s, pos, gap + rest)
    ensures Delim(s, pos) && SkipWs(s, pos) == pos + |gap| < |s| && At(s, pos + |gap|, rest)
    ensures s[pos + |gap|] == rest[0]
  {
    SkipGap(s, pos, gap, rest);
    AtConcat(s, pos, gap, rest);
    if gap != "" {
      AtChar(s, pos, gap, 0);
    }
  }

  /** Where things are when the first of several entries has been read. */
  lemma EntryPlace(py: Python, s: string, pos: nat, es: seq<Entry>, keyed: bool, close: char)
    returns (value: nat, after: nat, next: nat)
    requires ValidEntries(py, es, keyed) && es != [] && IsPunct(close) && At(s, pos, SpellEntries(es, close))
    ensures pos < |s| && s[pos] != close && At(s, pos, KeyText(es[0]))
    ensures value == pos + |KeyText(es[0])| && At(s, value, Spell(es[0].tree))
    ensures after == value + |Spell(es[0].tree)| && Delim(s, after) && next == SkipWs(s, after) < |s|
    ensures es[0].comma.None? ==> |es| == 1 && s[next] == close && next + 1 == pos + |SpellEntries(es, close)|
    ensures es[0].comma.Some? ==>
      && s[next] == ',' && ValidEntries(py, es[1..], keyed)
      && At(s, SkipWs(s, next + 1), SpellEntries(es[1..], close))
      && SkipWs(s, next + 1) + |SpellEntries(es[1..], close)| == pos + |SpellEntries(es, close)|
  {
    hide *;
    var e, rest := es[0], SpellRest(es, close);
    EntryStart(py, s, pos, es, keyed, close);
    EntryParts(py, es, keyed, close);
    AtConcat(s, pos, KeyText(e), Spell(e.tree) + (e.after + rest));
    value := pos + |KeyText(e)|;
    AtConcat(s, value, Spell(e.tree), e.after + rest);
    after := value + |Spell(e.tree)|;
    AfterValue(s, after, e.after, rest);
    next := after + |e.after|;
    if e.comma.Some? {
      var gap, more := e.comma.value, SpellEntries(es[1..], close);
      EntriesStart(py, es[1..], keyed, close);
      AtConcat(s, next, ",", gap + more);
      SkipGap(s, next + 1, gap, more);
    }
  }

  lemma EntryStart(py: Python, s: string, pos: nat, es: seq<Entry>, keyed: bool, close: char)
    requires ValidEntries(py, es, keyed) && es != [] && IsPunct(close) && At(s, pos, SpellEntries(es, close))
    ensures pos < |s| && s[pos] != close
  {
    EntriesStart(py, es, keyed, close);
    AtChar(s, pos, SpellEntries(es, close), 0);
    hide SpellEntries, ValidEntries;
  }

  /** The parts of what the first entry and the rest spell. */
  lemma EntryParts(py: Python, es: seq<Entry>, keyed: bool, close: char)
    requires ValidEntries(py, es, keyed) && es != [] && IsPunct(close)
    ensures var e, rest := es[0], SpellRest(es, close);
      && SpellEntries(es, close) == KeyText(e) + (Spell(e.tree) + (e.after + rest))
      && |SpellEntries(es, close)| == |KeyText(e)| + |Spell(e.tree)| + |e.after| + |rest|
      && Gap(e.after) && rest != "" && IsPunct(rest[0])
      && (e.comma.None? ==> |es| == 1 && rest == [close] && rest[0] == close)
      && (e.comma.Some? ==>
            && rest == "," + (e.comma.value + SpellEntries(es[1..], close)) && rest[0] == ','
            && Gap(e.comma.value) && ValidEntries(py, es[1..], keyed)
            && |rest| == 1 + |e.comma.value| + |SpellEntries(es[1..], close)|)
  {
    EntriesUnfold(es, close);
    hide SpellEntries, Spell, KeyText, Valid, ValidKey;
  }

  /** Where things are in a key. */
  lemma KeyPlace(s: string, pos: nat, k: Key, value: string) returns (afterKey: nat, colon: nat)
    requires ValidKey(k) && At(s, pos, SpellKey(k)) && At(s, pos + |SpellKey(k)|, value)
    requires value != "" && !IsWs(value[0])
    ensures At(s, pos, SpellQuoted(k.quote, k.raw)) && afterKey == pos + |SpellQuoted(k.quote, k.raw)| <= |s|
    ensures colon == SkipWs(s, afterKey) < |s| && s[colon] == ':'
    ensures SkipWs(s, colon + 1) == pos + |SpellKey(k)|
  {
    hide *;
    var quoted := SpellQuoted(k.quote, k.raw);
    KeyParts(k);
    AtConcat(s, pos, quoted, k.before + (":" + k.behind));
    afterKey := pos + |quoted|;
    SkipGap(s, afterKey, k.before, ":" + k.behind);
    colon := afterKey + |k.before|;
    AtConcat(s, colon, ":", k.behind);
    AtJoin(s, colon + 1, k.behind, value);
    SkipGap(s, colon + 1, k.behind, value);
    InText(s, pos, quoted);
  }

  lemma KeyParts(k: Key)
    requires ValidKey(k)
    ensures SpellKey(k) == SpellQuoted(k.quote, k.raw) + (k.before + (":" + k.behind))
    ensures |SpellKey(k)| == |SpellQuoted(k.quote, k.raw)| + |k.before| + 1 + |k.behind|
    ensures Gap(k.before) && Gap(k.behind) && !IsWs(':')
  {
  }

  lemma InText(s: string, pos: nat, t: string)
    requires At(s, pos, t)
    ensures pos + |t| <= |s|
  {
  }

  lemma MemberOf(
    py: Python, s: string, pos: nat, key: Scalar, afterKey: nat, value: Value, after: nat)
    requires pos < |s| && IsQuote(s[pos]) && SkipWs(s, pos) == pos
    requires ParseString(py, s, pos) == Ok((key, afterKey)) && afterKey <= |s|
    requires SkipWs(s, afterKey) < |s| && s[SkipWs(s, afterKey)] == ':'
    requires ParseValue(py, s, SkipWs(s, SkipWs(s, afterKey) + 1)) == Ok((value, after))
    ensures ParseMember(py, s, pos) == Ok((Member(key, value), after))
  {
    hide ParseString, ParseValue, SkipWs, IsQuote;
  }

  lemma QuoteStays(s: string, pos: nat)
    requires pos < |s| && IsQuote(s[pos])
    ensures SkipWs(s, pos) == pos
  {
  }

  lemma ListDispatch(py: Python, s: string, pos: nat)
    requires pos < |s|
    ensures s[pos] == '[' ==> ParseValue(py, s, pos) == Items(py, s, SkipWs(s, pos + 1), [])
    ensures s[pos] == '{' ==> ParseValue(py, s, pos) == Members(py, s, SkipWs(s, pos + 1), [])
  {
    hide Items, Members;
  }

  lemma OpenPlace(py: Python, s: string, pos: nat, open: string, gap: string, es: seq<Entry>, keyed: bool, close: char)
    requires |open| == 1 && Gap(gap) && ValidEntries(py, es, keyed) && IsPunct(close)
    requires At(s, pos, open + (gap + SpellEntries(es, close)))
    ensures pos < |s| && s[pos] == open[0]
    ensures SkipWs(s, pos + 1) == pos + 1 + |gap| && At(s, pos + 1 + |gap|, SpellEntries(es, close))
  {
    hide *;
    EntriesStart(py, es, keyed, close);
    AtConcat(s, pos, open, gap + SpellEntries(es, close));
    AtChar(s, pos, open, 0);
    SkipGap(s, pos + 1, gap, SpellEntries(es, close));
  }

  lemma MeaningsUnfold(py: Python, lst: seq<Value>, es: seq<Entry>)
    ensures es == [] ==> lst + Meanings(py, es) == lst
    ensures es != [] ==>
      lst + Meanings(py, es) == lst + [Meaning(py, es[0].tree)] + Meanings(py, es[1..])
  {
  }

  lemma FieldsOpen(py: Python, obj: seq<Member>, es: seq<Entry>)
    ensures es == [] ==> Fields(py, obj, es) == obj
    ensures es != [] ==>
      Fields(py, obj, es) == Fields(py, Put(obj, KeyMeaning(py, es[0]), Meaning(py, es[0].tree)), es[1..])
  {
  }

  lemma ArraySpells(py: Python, gap: string, items: seq<Entry>)
    ensures Spell(Array(gap, items)) == "[" + (gap + SpellEntries(items, ']'))
    ensures Valid(py, Array(gap, items)) <==> Gap(gap) && ValidEntries(py, items, false)
    ensures Meaning(py, Array(gap, items)) == Arr([] + Meanings(py, items))
  {
  }

  lemma ObjectSpells(py: Python, gap: string, fields: seq<Entry>)
    ensures Spell(Object(gap, fields)) == "{" + (gap + SpellEntries(fields, '}'))
    ensures Valid(py, Object(gap, fields)) <==> Gap(gap) && ValidEntries(py, fields, true)
    ensures Meaning(py, Object(gap, fields)) == Obj(Fields(py, [], fields))
  {
  }

  lemma FirstValid(py: Python, es: seq<Entry>, keyed: bool)
    requires ValidEntries(py, es, keyed) && es != []
    ensures Valid(py, es[0].tree) && (es[0].key.Some? <==> keyed) && (keyed ==> ValidKey(es[0].key.value))
  {
  }

  lemma Close(py: Python, s: string, pos: nat, close: char)
    requires At(s, pos, SpellEntries([], close))
    ensures pos < |s| && s[pos] == close && |SpellEntries([], close)| == 1
  {
    AtChar(s, pos, [close], 0);
  }

  /** The text of a tree, wherever it stands, is read as its meaning and ends where it ends. */
  lemma {:induction false} TreeReads(py: Python, s: string, pos: nat, t: Tree)
    requires Valid(py, t) && At(s, pos, Spell(t)) && Delim(s, pos + |Spell(t)|)
    ensures ParseValue(py, s, pos) == Ok((Meaning(py, t), pos + |Spell(t)|))
    decreases t
  {
    hide *;
    match t
    case Word(text) =>
      LeafSpells(py, t);
      WordReads(py, s, pos, text);
    case Number(text) =>
      LeafSpells(py, t);
      NumberReads(py, s, pos, text);
    case Quoted(quote, raw) =>
      LeafSpells(py, t);
      QuotedReads(py, s, pos, quote, raw);
    case Triple(quote, body) =>
      LeafSpells(py, t);
      TripledReads(py, s, pos, quote, body);
    case Array(gap, items) =>
      ArraySpells(py, gap, items);
      Brackets();
      OpenPlace(py, s, pos, "[", gap, items, false, ']');
      ListDispatch(py, s, pos);
      ItemsRead(py, s, pos + 1 + |gap|, [], items);
    case Object(gap, fields) =>
      ObjectSpells(py, gap, fields);
      Brackets();
      OpenPlace(py, s, pos, "{", gap, fields, true, '}');
      ListDispatch(py, s, pos);
      FieldsRead(py, s, pos + 1 + |gap|, [], fields);
  }

  lemma Brackets()
    ensures IsPunct(']') && IsPunct('}')
  {
  }

  lemma LeafSpells(py: Python, t: Tree)
    ensures t.Word? ==> Spell(t) == t.text
    ensures t.Number? ==> Spell(t) == t.text && (Valid(py, t) <==> ValidNumber(py, t.text))
    ensures t.Quoted? ==>
      Spell(t) == SpellQuoted(t.quote, t.raw) && (Valid(py, t) <==> IsQuote(t.quote) && Closed(t.raw, t.quote))
    ensures t.Triple? ==>
      && (Valid(py, t) <==> IsQuote(t.quote) && ClosedTriple(t.body, t.quote))
      && Spell(t) == Three(t.quote) + (t.body + Three(t.quote)) && |Spell(t)| == |t.body| + 6
  {
  }

  lemma {:induction false} ItemsRead(py: Python, s: string, pos: nat, lst: seq<Value>, es: seq<Entry>)
    requires ValidEntries(py, es, false) && At(s, pos, SpellEntries(es, ']'))
    ensures Items(py, s, pos, lst) == Ok((Arr(lst + Meanings(py, es)), pos + |SpellEntries(es, ']')|))
    decreases es
  {
    hide *;
    MeaningsUnfold(py, lst, es);
    Brackets();
    if es == [] {
      Close(py, s, pos, ']');
      ItemsStop(py, s, pos, lst);
    } else {
      var v := Meaning(py, es[0].tree);
      FirstValid(py, es, false);
      NoKey(es[0]);
      var value, after, next := EntryPlace(py, s, pos, es, false, ']');
      TreeReads(py, s, pos, es[0].tree);
      ItemsStep(py, s, pos, lst, v, after);
      if es[0].comma.Some? {
        ItemsRead(py, s, SkipWs(s, next + 1), lst + [v], es[1..]);
      } else {
        MeaningsUnfold(py, lst + [v], es[1..]);
        ItemsStop(py, s, next, lst + [v]);
      }
    }
  }

  lemma NoKey(e: Entry)
    requires e.key.None?
    ensures KeyText(e) == ""
  {
  }

  lemma HasKeyText(py: Python, e: Entry)
    requires e.key.Some?
    ensures KeyText(e) == SpellKey(e.key.value) && KeyMeaning(py, e) == Convert(py, Decode(e.key.value.raw))
    ensures ValidKey(e.key.value) ==> IsQuote(e.key.value.quote) && Closed(e.key.value.raw, e.key.value.quote)
  {
  }

  lemma {:induction false} FieldReads(py: Python, s: string, pos: nat, e: Entry)
    requires e.key.Some? && ValidKey(e.key.value) && Valid(py, e.tree)
    requires At(s, pos, KeyText(e)) && At(s, pos + |KeyText(e)|, Spell(e.tree))
    requires Delim(s, pos + |KeyText(e)| + |Spell(e.tree)|)
    ensures ParseMember(py, s, pos)
      == Ok((Member(KeyMeaning(py, e), Meaning(py, e.tree)), pos + |KeyText(e)| + |Spell(e.tree)|))
    decreases e
  {
    hide *;
    var k := e.key.value;
    HasKeyText(py, e);
    SpellStarts(py, e.tree);
    var afterKey, colon := KeyPlace(s, pos, k, Spell(e.tree));
    StringReads(py, s, pos, k.quote, k.raw);
    QuoteStays(s, pos);
    TreeReads(py, s, SkipWs(s, colon + 1), e.tree);
    MemberOf(py, s, pos, KeyMeaning(py, e), afterKey, Meaning(py, e.tree), pos + |KeyText(e)| + |Spell(e.tree)|);
  }

  lemma {:induction false} FieldsRead(py: Python, s: string, pos: nat, obj: seq<Member>, es: seq<Entry>)
    requires ValidEntries(py, es, true) && At(s, pos, SpellEntries(es, '}'))
    ensures Members(py, s, pos, obj) == Ok((Obj(Fields(py, obj, es)), pos + |SpellEntries(es, '}')|))
    decreases es
  {
    hide *;
    FieldsOpen(py, obj, es);
    Brackets();
    if es == [] {
      Close(py, s, pos, '}');
      MembersStop(py, s, pos, obj);
    } else {
      var m := Member(KeyMeaning(py, es[0]), Meaning(py, es[0].tree));
      var obj1 := Put(obj, m.key, m.value);
      FirstValid(py, es, true);
      var value, after, next := EntryPlace(py, s, pos, es, true, '}');
      FieldReads(py, s, pos, es[0]);
      MembersStep(py, s, pos, obj, m, after);
      if es[0].comma.Some? {
        FieldsRead(py, s, SkipWs(s, next + 1), obj1, es[1..]);
      } else {
        FieldsOpen(py, obj1, es[1..]);
        MembersStop(py, s, next, obj1);
      }
    }
  }

  // ---- Lists: what is read is the text of a tree -------------------------------------------------------

  /** Reading a value begins behind the whitespace. */
  lemma ReadSkips(py: Python, s: string, pos: nat)
    requires pos <= |s|
    ensures ParseValue(py, s, pos) == ParseValue(py, s, SkipWs(s, pos))
    ensures ParseValue(py, s, pos).Ok? ==> SkipWs(s, pos) < |s|
  {
    var _ := Skipped(s, pos);
    hide Items, Members, TripleTail, ParseString, ParseNumber, Slice, Text.Lower, SkipWs;
  }

  lemma PlainSound(py: Python, s: string, pos: nat) returns (t: Tree)
    requires pos < |s| && !IsWs(s[pos]) && s[pos] != '{' && s[pos] != '[' && !IsQuote(s[pos])
    requires ParseValue(py, s, pos).Ok?
    ensures Valid(py, t) && At(s, pos, Spell(t))
    ensures ParseValue(py, s, pos) == Ok((Meaning(py, t), pos + |Spell(t)|))
  {
    PlainDispatch(py, s, pos);
    hide ParseValue;
    if Text.Lower(Slice(s, pos, 4)) == "true" {
      t := Word(Slice(s, pos, 4));
    } else if Text.Lower(Slice(s, pos, 5)) == "false" {
      t := Word(Slice(s, pos, 5));
    } else if Text.Lower(Slice(s, pos, 4)) == "null" {
      t := Word(Slice(s, pos, 4));
    } else {
      t := NumberSound(py, s, pos);
    }
  }

  lemma NumberSound(py: Python, s: string, pos: nat) returns (t: Tree)
    requires pos < |s| && StartsNumber(s[pos]) && ParseNumber(py, s, pos).Ok?
    ensures Valid(py, t) && At(s, pos, Spell(t))
    ensures Lift(ParseNumber(py, s, pos)) == Ok((Meaning(py, t), pos + |Spell(t)|))
  {
    NumEndIs(s, pos);
    var text := s[pos..NumEnd(s, pos)];
    t := Number(text);
    NumberIs(py, s, pos, text);
    hide FloatLike, IntOf, NumEnd, Meaning, ValidNumber;
  }

  lemma QuoteSound(py: Python, s: string, pos: nat) returns (t: Tree)
    requires pos < |s| && IsQuote(s[pos]) && ParseValue(py, s, pos).Ok?
    ensures Valid(py, t) && At(s, pos, Spell(t))
    ensures ParseValue(py, s, pos) == Ok((Meaning(py, t), pos + |Spell(t)|))
  {
    hide *;
    QuoteDispatch(py, s, pos);
    var quote := s[pos];
    if ThreeAt(s, pos, quote) {
      ThreeIs(s, pos, quote);
      LiftIs(TripleTail(py, s, pos + 3, Three(quote), ""));
      var body := TripleSound(py, s, pos + 3, quote, "");
      assert "" + body == body;
      t := Triple(quote, body);
      LeafSpells(py, t);
      LeafMeans(py, t);
      AtJoin(s, pos, Three(quote), body + Three(quote));
    } else {
      LiftIs(ParseString(py, s, pos));
      var raw := StringSound(py, s, pos);
      t := Quoted(quote, raw);
      LeafSpells(py, t);
      LeafMeans(py, t);
    }
  }

  lemma ThreeIs(s: string, pos: nat, quote: char)
    requires ThreeAt(s, pos, quote)
    ensures At(s, pos, Three(quote)) && |Three(quote)| == 3 && pos + 3 <= |s|
  {
    assert s[pos..pos + 3] == Three(quote);
  }

  lemma LiftIs(r: Parsed<Scalar>)
    ensures Lift(r).Ok? <==> r.Ok?
    ensures r.Ok? ==> Lift(r) == Ok((Leaf(r.value.0), r.value.1))
  {
  }

  lemma LeafMeans(py: Python, t: Tree)
    ensures t.Quoted? ==> Meaning(py, t) == Leaf(Convert(py, Decode(t.raw)))
    ensures t.Triple? ==> Meaning(py, t) == Leaf(Convert(py, t.body))
  {
  }

  /** The text of an entry followed by the text of the rest. */
  lemma EntryJoin(py: Python, s: string, pos: nat, e: Entry, rest: seq<Entry>, keyed: bool, close: char)
    requires IsPunct(close)
    requires (e.key.Some? <==> keyed) && (keyed ==> ValidKey(e.key.value)) && Valid(py, e.tree) && Gap(e.after)
    requires At(s, pos, KeyText(e)) && At(s, pos + |KeyText(e)|, Spell(e.tree))
    requires var next := pos + |KeyText(e)| + |Spell(e.tree)| + |e.after|;
      && At(s, pos + |KeyText(e)| + |Spell(e.tree)|, e.after) && next < |s|
      && if e.comma.Some? then
           && s[next] == ',' && At(s, next + 1, e.comma.value) && Gap(e.comma.value)
           && ValidEntries(py, rest, keyed) && At(s, next + 1 + |e.comma.value|, SpellEntries(rest, close))
         else s[next] == close && rest == []
    ensures ValidEntries(py, [e] + rest, keyed) && At(s, pos, SpellEntries([e] + rest, close))
    ensures |SpellEntries([e] + rest, close)| == |KeyText(e)| + |Spell(e.tree)| + |e.after|
      + if e.comma.Some? then 1 + |e.comma.value| + |SpellEntries(rest, close)| else 1
  {
    hide *;
    var es := [e] + rest;
    assert es[1..] == rest;
    OneMoreEntry(py, e, rest, keyed);
    EntryParts(py, es, keyed, close);
    var value, next := pos + |KeyText(e)|, pos + |KeyText(e)| + |Spell(e.tree)| + |e.after|;
    var tail := SpellRest(es, close);
    if e.comma.Some? {
      AtJoin(s, next + 1, e.comma.value, SpellEntries(rest, close));
      OneChar(s, next, ',');
      AtJoin(s, next, ",", e.comma.value + SpellEntries(rest, close));
    } else {
      OneChar(s, next, close);
    }
    AtJoin(s, next - |e.after|, e.after, tail);
    AtJoin(s, value, Spell(e.tree), e.after + tail);
    AtJoin(s, pos, KeyText(e), Spell(e.tree) + (e.after + tail));
  }

  lemma OneChar(s: string, pos: nat, c: char)
    requires pos < |s| && s[pos] == c
    ensures At(s, pos, [c])
  {
  }

  lemma OneMoreEntry(py: Python, e: Entry, rest: seq<Entry>, keyed: bool)
    requires (e.key.Some? <==> keyed) && (keyed ==> ValidKey(e.key.value)) && Valid(py, e.tree) && Gap(e.after)
    requires if e.comma.Some? then Gap(e.comma.value) && ValidEntries(py, rest, keyed) else rest == []
    ensures ValidEntries(py, [e] + rest, keyed)
  {
    assert ([e] + rest)[1..] == rest;
    hide Valid, ValidKey;
  }

  lemma OpenJoin(s: string, pos: nat, open: string, gap: string, es: seq<Entry>, close: char)
    requires |open| == 1 && pos < |s| && s[pos] == open[0]
    requires At(s, pos + 1, gap) && At(s, pos + 1 + |gap|, SpellEntries(es, close))
    ensures At(s, pos, open + (gap + SpellEntries(es, close)))
  {
    hide SpellEntries;
    AtJoin(s, pos + 1, gap, SpellEntries(es, close));
    AtJoin(s, pos, open, gap + SpellEntries(es, close));
  }

  lemma NoEntries(py: Python, s: string, pos: nat, keyed: bool, close: char)
    requires pos < |s| && s[pos] == close
    ensures ValidEntries(py, [], keyed) && At(s, pos, SpellEntries([], close)) && |SpellEntries([], close)| == 1
  {
  }

  /** Whatever is read as a value is, behind the whitespace, the text of a tree, and is read as its
      meaning. */
  lemma {:induction false} TreeSound(py: Python, s: string, pos: nat) returns (t: Tree)
    requires pos <= |s| && ParseValue(py, s, pos).Ok?
    ensures Valid(py, t) && At(s, SkipWs(s, pos), Spell(t))
    ensures ParseValue(py, s, pos) == Ok((Meaning(py, t), SkipWs(s, pos) + |Spell(t)|))
    decreases |s| - pos, 1
  {
    hide *;
    ReadSkips(py, s, pos);
    var gap0 := Skipped(s, pos);
    var p := SkipWs(s, pos);
    Visible(s, p);
    if s[p] == '[' || s[p] == '{' {
      ListDispatch(py, s, p);
      Brackets();
      var gap := Skipped(s, p + 1);
      if s[p] == '[' {
        var es := ItemsSound(py, s, SkipWs(s, p + 1), []);
        t := Array(gap, es);
        ArraySpells(py, gap, es);
        OpenJoin(s, p, "[", gap, es, ']');
      } else {
        var es := FieldsSound(py, s, SkipWs(s, p + 1), []);
        t := Object(gap, es);
        ObjectSpells(py, gap, es);
        OpenJoin(s, p, "{", gap, es, '}');
      }
    } else if IsQuote(s[p]) {
      t := QuoteSound(py, s, p);
    } else {
      t := PlainSound(py, s, p);
    }
  }

  lemma Visible(s: string, p: nat)
    requires p < |s| && SkipWs(s, p) == p
    ensures !IsWs(s[p])
  {
  }

  lemma {:induction false} ItemsSound(py: Python, s: string, pos: nat, lst: seq<Value>) returns (es: seq<Entry>)
    requires pos <= |s| && SkipWs(s, pos) == pos && Items(py, s, pos, lst).Ok?
    ensures ValidEntries(py, es, false) && At(s, pos, SpellEntries(es, ']'))
    ensures Items(py, s, pos, lst) == Ok((Arr(lst + Meanings(py, es)), pos + |SpellEntries(es, ']')|))
    decreases |s| - pos, 2
  {
    hide *;
    Brackets();
    if pos == |s| || s[pos] == ']' {
      ItemsStop(py, s, pos, lst);
      NoEntries(py, s, pos, false, ']');
      es := [];
      MeaningsUnfold(py, lst, es);
    } else {
      if ParseValue(py, s, pos).Err? {
        ItemsFail(py, s, pos, lst);
      }
      var t := TreeSound(py, s, pos);
      var v, after := Meaning(py, t), pos + |Spell(t)|;
      ItemsStep(py, s, pos, lst, v, after);
      var gap := Skipped(s, after);
      var next := SkipWs(s, after);
      if s[next] == ',' {
        var gap2 := Skipped(s, next + 1);
        var rest := ItemsSound(py, s, SkipWs(s, next + 1), lst + [v]);
        var e := Entry(None, t, gap, Some(gap2));
        es := [e] + rest;
        NoKey(e);
        Nowhere(s, pos);
        EntryJoin(py, s, pos, e, rest, false, ']');
        MeaningsUnfold(py, lst, es);
      } else {
        var e := Entry(None, t, gap, None);
        es := [e] + [];
        NoKey(e);
        Nowhere(s, pos);
        EntryJoin(py, s, pos, e, [], false, ']');
        ItemsStop(py, s, next, lst + [v]);
        MeaningsUnfold(py, lst, es);
        MeaningsUnfold(py, lst + [v], es[1..]);
      }
    }
  }

  lemma Nowhere(s: string, pos: nat)
    requires pos <= |s|
    ensures At(s, pos, "")
  {
  }

  /** What is read as a member is a key and a value. */
  lemma {:induction false} MemberSound(py: Python, s: string, pos: nat) returns (k: Key, t: Tree)
    requires pos <= |s| && SkipWs(s, pos) == pos && ParseMember(py, s, pos).Ok?
    ensures ValidKey(k) && Valid(py, t) && At(s, pos, SpellKey(k)) && At(s, pos + |SpellKey(k)|, Spell(t))
    ensures ParseMember(py, s, pos)
      == Ok((Member(Convert(py, Decode(k.raw)), Meaning(py, t)), pos + |SpellKey(k)| + |Spell(t)|))
    decreases |s| - pos, 2
  {
    hide *;
    var afterKey, colon := MemberParts(py, s, pos);
    var raw := StringSound(py, s, pos);
    var before := Skipped(s, afterKey);
    var behind := Skipped(s, colon + 1);
    t := TreeSound(py, s, SkipWs(s, colon + 1));
    k := Key(s[pos], raw, before, behind);
    KeyJoin(s, pos, k, colon);
  }

  lemma MemberParts(py: Python, s: string, pos: nat) returns (afterKey: nat, colon: nat)
    requires pos <= |s| && SkipWs(s, pos) == pos && ParseMember(py, s, pos).Ok?
    ensures pos < |s| && IsQuote(s[pos]) && ParseString(py, s, pos).Ok?
    ensures afterKey == ParseString(py, s, pos).value.1 <= |s| && pos < afterKey
    ensures colon == SkipWs(s, afterKey) < |s| && s[colon] == ':' && pos < SkipWs(s, colon + 1) <= |s|
    ensures var value := ParseValue(py, s, SkipWs(s, colon + 1));
      value.Ok? && ParseMember(py, s, pos)
        == Ok((Member(ParseString(py, s, pos).value.0, value.value.0), value.value.1))
  {
    hide ParseString, ParseValue, SkipWs, IsQuote;
    afterKey := ParseString(py, s, pos).value.1;
    colon := SkipWs(s, afterKey);
  }

  lemma KeyJoin(s: string, pos: nat, k: Key, colon: nat)
    requires IsQuote(k.quote) && Closed(k.raw, k.quote) && Gap(k.before) && Gap(k.behind)
    requires At(s, pos, SpellQuoted(k.quote, k.raw)) && At(s, pos + |SpellQuoted(k.quote, k.raw)|, k.before)
    requires colon == pos + |SpellQuoted(k.quote, k.raw)| + |k.before| < |s| && s[colon] == ':'
    requires At(s, colon + 1, k.behind)
    ensures ValidKey(k) && At(s, pos, SpellKey(k)) && pos + |SpellKey(k)| == colon + 1 + |k.behind|
  {
    var quoted := SpellQuoted(k.quote, k.raw);
    hide SpellQuoted, Closed;
    AtJoin(s, colon, ":", k.behind);
    AtJoin(s, pos + |quoted|, k.before, ":" + k.behind);
    AtJoin(s, pos, quoted, k.before + (":" + k.behind));
  }

  lemma {:induction false} FieldsSound(py: Python, s: string, pos: nat, obj: seq<Member>) returns (es: seq<Entry>)
    requires pos <= |s| && SkipWs(s, pos) == pos && Members(py, s, pos, obj).Ok?
    ensures ValidEntries(py, es, true) && At(s, pos, SpellEntries(es, '}'))
    ensures Members(py, s, pos, obj) == Ok((Obj(Fields(py, obj, es)), pos + |SpellEntries(es, '}')|))
    decreases |s| - pos, 3
  {
    hide *;
    Brackets();
    if pos == |s| || s[pos] == '}' {
      MembersStop(py, s, pos, obj);
      NoEntries(py, s, pos, true, '}');
      es := [];
      FieldsOpen(py, obj, es);
    } else {
      if ParseMember(py, s, pos).Err? {
        MembersFail(py, s, pos, obj);
      }
      var k, t := MemberSound(py, s, pos);
      var e0 := Entry(Some(k), t, "", None);
      HasKeyText(py, e0);
      var m, after := Member(KeyMeaning(py, e0), Meaning(py, t)), pos + |SpellKey(k)| + |Spell(t)|;
      MembersStep(py, s, pos, obj, m, after);
      var obj1 := Put(obj, m.key, m.value);
      var gap := Skipped(s, after);
      var next := SkipWs(s, after);
      if s[next] == ',' {
        var gap2 := Skipped(s, next + 1);
        var rest := FieldsSound(py, s, SkipWs(s, next + 1), obj1);
        var e := Entry(Some(k), t, gap, Some(gap2));
        es := [e] + rest;
        HasKeyText(py, e);
        EntryJoin(py, s, pos, e, rest, true, '}');
        FieldsOpen(py, obj, es);
      } else {
        var e := Entry(Some(k), t, gap, None);
        es := [e] + [];
        HasKeyText(py, e);
        EntryJoin(py, s, pos, e, [], true, '}');
        MembersStop(py, s, next, obj1);
        FieldsOpen(py, obj, es);
        FieldsOpen(py, obj1, es[1..]);
      }
    }
  }

  // ---- Errors ---------------------------------------------------------------------------------------------

  lemma {:induction false} StringErrors(py: Python, s: string, pos: nat, quote: char, acc: string)
    requires pos <= |s|
    ensures StringTail(py, s, pos, quote, acc) != Err(IndexError)
    decreases |s| - pos
  {
    if pos < |s| && s[pos] == '\\' {
      if pos + 1 < |s| {
        StringErrors(py, s, pos + 2, quote, acc + [Unescape(s[pos + 1])]);
      }
    } else if pos < |s| && s[pos] != quote {
      StringErrors(py, s, pos + 1, quote, acc + [s[pos]]);
    }
  }

  lemma {:induction false} TripleErrors(py: Python, s: string, pos: nat, quote: string, acc: string)
    requires pos <= |s| && |quote| == 3
    ensures TripleTail(py, s, pos, quote, acc) != Err(IndexError)
    decreases |s| - pos
  {
    if pos < |s| && Slice(s, pos, 3) != quote {
      TripleErrors(py, s, pos + 1, quote, acc + [s[pos]]);
    }
  }

  /** Reading a value never runs past the end of the text: every failure is a value error. */
  lemma {:induction false} OnlyValueErrors(py: Python, s: string, pos: nat)
    requires pos <= |s|
    ensures ParseValue(py, s, pos) != Err(IndexError)
    decreases |s| - pos, 1
  {
    var p := SkipWs(s, pos);
    if p < |s| {
      var gap := Skipped(s, p + 1);
      if s[p] == '{' {
        MemberErrors(py, s, SkipWs(s, p + 1), []);
      } else if s[p] == '[' {
        ItemErrors(py, s, SkipWs(s, p + 1), []);
      } else if IsTriple(Slice(s, p, 3)) {
        TripleErrors(py, s, p + 3, Slice(s, p, 3), "");
      } else if IsQuote(s[p]) {
        StringErrors(py, s, p + 1, s[p], "");
      }
    }
    hide Members, Items, StringTail, TripleTail, Convert, SkipWs, Text.Lower, Slice;
  }

  lemma {:induction false} ItemErrors(py: Python, s: string, pos: nat, lst: seq<Value>)
    requires pos <= |s|
    ensures Items(py, s, pos, lst) != Err(IndexError)
    decreases |s| - pos, 2
  {
    hide *;
    if pos == |s| || s[pos] == ']' {
      ItemsStop(py, s, pos, lst);
    } else {
      OnlyValueErrors(py, s, pos);
      if ParseValue(py, s, pos).Err? {
        ItemsFail(py, s, pos, lst);
      } else {
        var (v, after) := ParseValue(py, s, pos).value;
        ItemsStep(py, s, pos, lst, v, after);
        var next := SkipWs(s, after);
        if next < |s| && s[next] == ',' {
          ItemErrors(py, s, SkipWs(s, next + 1), lst + [v]);
        } else if next < |s| && s[next] == ']' {
          ItemsStop(py, s, next, lst + [v]);
        }
      }
    }
  }

  lemma {:induction false} MemberErrors(py: Python, s: string, pos: nat, obj: seq<Member>)
    requires pos <= |s| && SkipWs(s, pos) == pos
    ensures Members(py, s, pos, obj) != Err(IndexError)
    decreases |s| - pos, 3
  {
    hide *;
    if pos == |s| || s[pos] == '}' {
      MembersStop(py, s, pos, obj);
    } else {
      OneMemberErrors(py, s, pos);
      if ParseMember(py, s, pos).Err? {
        MembersFail(py, s, pos, obj);
      } else {
        var (m, after) := ParseMember(py, s, pos).value;
        MembersStep(py, s, pos, obj, m, after);
        var next := SkipWs(s, after);
        if next < |s| && s[next] == ',' {
          var gap := Skipped(s, next + 1);
          MemberErrors(py, s, SkipWs(s, next + 1), Put(obj, m.key, m.value));
        } else if next < |s| && s[next] == '}' {
          MembersStop(py, s, next, Put(obj, m.key, m.value));
        }
      }
    }
  }

  lemma {:induction false} OneMemberErrors(py: Python, s: string, pos: nat)
    requires pos < |s| && SkipWs(s, pos) == pos
    ensures ParseMember(py, s, pos) != Err(IndexError)
    decreases |s| - pos, 2
  {
    if IsQuote(s[pos]) {
      StringErrors(py, s, pos + 1, s[pos], "");
      var key := ParseString(py, s, pos);
      if key.Ok? && SkipWs(s, key.value.1) < |s| {
        OnlyValueErrors(py, s, SkipWs(s, SkipWs(s, key.value.1) + 1));
      }
    }
    hide StringTail, ParseValue, SkipWs, Convert;
  }
}
