/** The lenient JSON reader: position-threading parsers over one string, as functions.
    `JsonParsers` holds the loops that compute them. */
module Json {
  import opened Wrappers
  import Text

  /** Python values a scalar can become; a float is kept as its literal. */
  datatype Scalar = Null | Bool(b: bool) | Int(n: int) | Float(literal: string) | Str(s: string)

  datatype Member = Member(key: Scalar, value: Value)

  datatype Value = Leaf(scalar: Scalar) | Arr(items: seq<Value>) | Obj(members: seq<Member>)

  datatype Error = ValueError | IndexError

  type Parsed<T> = Result<(T, nat), Error>

  /** `int()` on arbitrary text and the texts `float()` accepts. */
  datatype Python = Python(toInt: string -> Option<int>, isFloat: string -> bool)

  // ---- Characters and numbers -------------------------------------------------------

  /** The four blanks JSON allows; `Text.IsSpace` has more. */
  predicate IsWs(c: char) {
    c == ' ' || c == '\t' || c == '\n' || c == '\r'
  }

  predicate IsNumChar(c: char) {
    IsDigit(c) || c == '-' || c == '+' || c == '.' || c == 'e' || c == 'E'
  }

  predicate IsDigit(c: char) {
    '0' <= c <= '9'
  }

  /** The characters that make `parse_value` expect a number. */
  predicate StartsNumber(c: char) {
    IsDigit(c) || c == '-' || c == '+' || c == '.'
  }

  function SkipWs(s: string, pos: nat): (p: nat)
    requires pos <= |s|
    ensures pos <= p <= |s|
    ensures p < |s| ==> !IsWs(s[p])
    decreases |s| - pos
  {
    if pos < |s| && IsWs(s[pos]) then SkipWs(s, pos + 1) else pos
  }

  /** The end of the run of number characters at `pos`. */
  function NumEnd(s: string, pos: nat): (p: nat)
    requires pos <= |s|
    ensures pos <= p <= |s|
    ensures pos < |s| && IsNumChar(s[pos]) ==> pos < p
    decreases |s| - pos
  {
    if pos < |s| && IsNumChar(s[pos]) then NumEnd(s, pos + 1) else pos
  }

  /** Whether the text reads as a float: it has a point or an exponent letter. */
  predicate FloatLike(t: string) {
    '.' in t || 'e' in Text.Lower(t)
  }

  function DigitValue(c: char): nat
    requires IsDigit(c)
  {
    (c - '0') as nat
  }

  function NatOf(t: string): nat
    requires forall i :: 0 <= i < |t| ==> IsDigit(t[i])
  {
    if t == "" then 0 else 10 * NatOf(t[..|t| - 1]) + DigitValue(t[|t| - 1])
  }

  predicate AllDigits(t: string) {
    t != "" && forall i :: 0 <= i < |t| ==> IsDigit(t[i])
  }

  /** `int()` on a run of number characters. */
  function IntOf(t: string): Option<int> {
    if AllDigits(t) then Some(NatOf(t))
    else if t != "" && t[0] == '-' && AllDigits(t[1..]) then Some(-(NatOf(t[1..]) as int))
    else if t != "" && t[0] == '+' && AllDigits(t[1..]) then Some(NatOf(t[1..]))
    else None
  }

  /** `convert_value`: what a quoted text becomes. */
  function Convert(py: Python, t: string): Scalar {
    var lower := Text.Lower(t);
    if lower == "true" then Bool(true)
    else if lower == "false" then Bool(false)
    else if lower == "null" then Null
    else if FloatLike(t) then (if py.isFloat(t) then Float(t) else Str(t))
    else
      match py.toInt(t)
      case Some(n) => Int(n)
      case None => Str(t)
  }

  function ParseNumber(py: Python, s: string, pos: nat): (r: Parsed<Scalar>)
    requires pos < |s| && IsNumChar(s[pos])
    ensures r.Ok? ==> pos < r.value.1 <= |s|
  {
    var end := NumEnd(s, pos);
    var t := s[pos..end];
    if FloatLike(t) then
      (if py.isFloat(t) then Ok((Float(t), end)) else Err(ValueError))
    else
      match IntOf(t)
      case Some(n) => Ok((Int(n), end))
      case None => Err(ValueError)
  }

  // ---- Strings -----------------------------------------------------------------------

  predicate IsQuote(c: char) {
    c == '"' || c == '\''
  }

  function Unescape(c: char): char {
    if c == 'n' then '\n'
    else if c == 't' then '\t'
    else if c == 'r' then '\r'
    else c
  }

  /** The loop of `parse_string` from `pos`, with `acc` read so far. */
  function StringTail(py: Python, s: string, pos: nat, quote: char, acc: string): (r: Parsed<Scalar>)
    requires pos <= |s|
    ensures r.Ok? ==> pos < r.value.1 <= |s|
    decreases |s| - pos
  {
    if pos == |s| then Err(ValueError)
    else if s[pos] == '\\' then
      (if pos + 1 == |s| then Err(ValueError)
       else StringTail(py, s, pos + 2, quote, acc + [Unescape(s[pos + 1])]))
    else if s[pos] == quote then Ok((Convert(py, acc), pos + 1))
    else StringTail(py, s, pos + 1, quote, acc + [s[pos]])
  }

  function ParseString(py: Python, s: string, pos: nat): (r: Parsed<Scalar>)
    requires pos < |s| && IsQuote(s[pos])
    ensures r.Ok? ==> pos < r.value.1 <= |s|
  {
    StringTail(py, s, pos + 1, s[pos], "")
  }

  /** The `k` characters from `pos`, fewer at the end of the text. */
  function Slice(s: string, pos: nat, k: nat): string
    requires pos <= |s|
  {
    if pos + k <= |s| then s[pos..pos + k] else s[pos..]
  }

  function TripleTail(py: Python, s: string, pos: nat, quote: string, acc: string): (r: Parsed<Scalar>)
    requires pos <= |s| && |quote| == 3
    ensures r.Ok? ==> pos < r.value.1 <= |s|
    decreases |s| - pos
  {
    if pos == |s| then Err(ValueError)
    else if Slice(s, pos, 3) == quote then Ok((Convert(py, acc), pos + 3))
    else TripleTail(py, s, pos + 1, quote, acc + [s[pos]])
  }

  predicate IsTriple(t: string) {
    t == "'''" || t == "\"\"\""
  }

  function ParseKey(py: Python, s: string, pos: nat): (r: Parsed<Scalar>)
    requires pos <= |s|
    ensures r.Ok? ==> pos < r.value.1 <= |s|
  {
    var p := SkipWs(s, pos);
    if p == |s| then Err(IndexError)
    else if IsQuote(s[p]) then ParseString(py, s, p)
    else Err(ValueError)
  }

  // ---- Values -------------------------------------------------------------------------

  /** Equality of dictionary keys: True and 1, False and 0 are one key. */
  predicate SameKey(a: Scalar, b: Scalar) {
    a == b || (a.Bool? && b.Int? && b.n == (if a.b then 1 else 0))
           || (a.Int? && b.Bool? && a.n == (if b.b then 1 else 0))
  }

  predicate HasKey(obj: seq<Member>, key: Scalar) {
    exists i :: 0 <= i < |obj| && SameKey(obj[i].key, key)
  }

  /** `obj[key] = value` on an insertion-ordered dictionary. */
  function Put(obj: seq<Member>, key: Scalar, value: Value): seq<Member> {
    if obj == [] then [Member(key, value)]
    else if SameKey(obj[0].key, key) then [Member(obj[0].key, value)] + obj[1..]
    else [obj[0]] + Put(obj[1..], key, value)
  }

  function ParseValue(py: Python, s: string, pos: nat): (r: Parsed<Value>)
    requires pos <= |s|
    ensures r.Ok? ==> pos < r.value.1 <= |s|
    decreases |s| - pos, 1
  {
    var p := SkipWs(s, pos);
    if p == |s| then Err(ValueError)
    else if s[p] == '{' then Members(py, s, SkipWs(s, p + 1), [])
    else if s[p] == '[' then Items(py, s, SkipWs(s, p + 1), [])
    else if IsTriple(Slice(s, p, 3)) then Lift(TripleTail(py, s, p + 3, Slice(s, p, 3), ""))
    else if IsQuote(s[p]) then Lift(ParseString(py, s, p))
    else if Text.Lower(Slice(s, p, 4)) == "true" then Ok((Leaf(Bool(true)), p + 4))
    else if Text.Lower(Slice(s, p, 5)) == "false" then Ok((Leaf(Bool(false)), p + 5))
    else if Text.Lower(Slice(s, p, 4)) == "null" then Ok((Leaf(Null), p + 4))
    else if StartsNumber(s[p]) then Lift(ParseNumber(py, s, p))
    else Err(ValueError)
  }

  function Lift(r: Parsed<Scalar>): Parsed<Value> {
    match r
    case Ok((x, p)) => Ok((Leaf(x), p))
    case Err(e) => Err(e)
  }

  /** One `key: value` of an object. */
  function ParseMember(py: Python, s: string, pos: nat): (r: Parsed<Member>)
    requires pos <= |s|
    ensures r.Ok? ==> pos < r.value.1 <= |s|
    decreases |s| - pos, 2
  {
    match ParseKey(py, s, SkipWs(s, pos))
    case Err(e) => Err(e)
    case Ok((key, afterKey)) =>
      var colon := SkipWs(s, afterKey);
      if colon == |s| || s[colon] != ':' then Err(ValueError)
      else
        match ParseValue(py, s, SkipWs(s, colon + 1))
        case Err(e) => Err(e)
        case Ok((value, afterValue)) => Ok((Member(key, value), afterValue))
  }

  /** The loop of `parse_object` at `pos`, with `obj` read so far. */
  function Members(py: Python, s: string, pos: nat, obj: seq<Member>): (r: Parsed<Value>)
    requires pos <= |s|
    ensures r.Ok? ==> pos < r.value.1 <= |s|
    decreases |s| - pos, 3
  {
    if pos == |s| then Err(ValueError)
    else if s[pos] == '}' then Ok((Obj(obj), pos + 1))
    else
      match ParseMember(py, s, pos)
      case Err(e) => Err(e)
      case Ok((m, after)) =>
        var next := SkipWs(s, after);
        var obj1 := Put(obj, m.key, m.value);
        if next == |s| then Err(ValueError)
        else if s[next] == ',' then Members(py, s, SkipWs(s, next + 1), obj1)
        else if s[next] == '}' then Ok((Obj(obj1), next + 1))
        else Err(ValueError)
  }

  /** The loop of `parse_array` at `pos`, with `lst` read so far. */
  function Items(py: Python, s: string, pos: nat, lst: seq<Value>): (r: Parsed<Value>)
    requires pos <= |s|
    ensures r.Ok? ==> pos < r.value.1 <= |s|
    decreases |s| - pos, 2
  {
    if pos == |s| then Err(ValueError)
    else if s[pos] == ']' then Ok((Arr(lst), pos + 1))
    else
      match ParseValue(py, s, pos)
      case Err(e) => Err(e)
      case Ok((value, afterValue)) =>
        var next := SkipWs(s, afterValue);
        if next == |s| then Err(ValueError)
        else if s[next] == ',' then Items(py, s, SkipWs(s, next + 1), lst + [value])
        else if s[next] == ']' then Ok((Arr(lst + [value]), next + 1))
        else Err(ValueError)
  }

  /** One turn of the object loop, when its member parses. */
  lemma MembersStep(py: Python, s: string, pos: nat, obj: seq<Member>, m: Member, after: nat)
    requires pos < |s| && s[pos] != '}' && ParseMember(py, s, pos) == Ok((m, after))
    ensures after <= |s|
    ensures SkipWs(s, after) < |s| && s[SkipWs(s, after)] == ',' ==>
      Members(py, s, pos, obj) == Members(py, s, SkipWs(s, SkipWs(s, after) + 1), Put(obj, m.key, m.value))
    ensures SkipWs(s, after) < |s| && s[SkipWs(s, after)] == '}' ==>
      Members(py, s, pos, obj) == Members(py, s, SkipWs(s, after), Put(obj, m.key, m.value))
    ensures SkipWs(s, after) == |s| || s[SkipWs(s, after)] !in {',', '}'} ==>
      Members(py, s, pos, obj) == Err(ValueError)
  {
    hide ParseMember, SkipWs, Put;
  }

  lemma MembersFail(py: Python, s: string, pos: nat, obj: seq<Member>)
    requires pos < |s| && s[pos] != '}' && ParseMember(py, s, pos).Err?
    ensures Members(py, s, pos, obj) == Err(ParseMember(py, s, pos).error)
  {
  }

  lemma MembersStop(py: Python, s: string, pos: nat, obj: seq<Member>)
    requires pos <= |s| && (pos < |s| ==> s[pos] == '}')
    ensures Members(py, s, pos, obj) == if pos < |s| then Ok((Obj(obj), pos + 1)) else Err(ValueError)
  {
  }

  /** One turn of the array loop, when its value parses. */
  lemma ItemsStep(py: Python, s: string, pos: nat, lst: seq<Value>, value: Value, after: nat)
    requires pos < |s| && s[pos] != ']' && ParseValue(py, s, pos) == Ok((value, after))
    ensures after <= |s|
    ensures SkipWs(s, after) < |s| && s[SkipWs(s, after)] == ',' ==>
      Items(py, s, pos, lst) == Items(py, s, SkipWs(s, SkipWs(s, after) + 1), lst + [value])
    ensures SkipWs(s, after) < |s| && s[SkipWs(s, after)] == ']' ==>
      Items(py, s, pos, lst) == Items(py, s, SkipWs(s, after), lst + [value])
    ensures SkipWs(s, after) == |s| || s[SkipWs(s, after)] !in {',', ']'} ==>
      Items(py, s, pos, lst) == Err(ValueError)
  {
    hide ParseValue, SkipWs;
  }

  lemma ItemsFail(py: Python, s: string, pos: nat, lst: seq<Value>)
    requires pos < |s| && s[pos] != ']' && ParseValue(py, s, pos).Err?
    ensures Items(py, s, pos, lst) == Err(ParseValue(py, s, pos).error)
  {
  }

  lemma ItemsStop(py: Python, s: string, pos: nat, lst: seq<Value>)
    requires pos <= |s| && (pos < |s| ==> s[pos] == ']')
    ensures Items(py, s, pos, lst) == if pos < |s| then Ok((Arr(lst), pos + 1)) else Err(ValueError)
  {
  }

  // ---- The whole text -------------------------------------------------------------------

  /** Index of the first occurrence of `c` at or after `from`, or |s|. */
  function FirstFrom(s: string, c: char, from: nat): (i: nat)
    requires from <= |s|
    ensures from <= i <= |s|
    ensures i < |s| ==> s[i] == c
    ensures forall j :: from <= j < i ==> s[j] != c
    decreases |s| - from
  {
    if from == |s| || s[from] == c then from else FirstFrom(s, c, from + 1)
  }

  /** One past the last occurrence of `c` before `upto`, or 0. */
  function LastBefore(s: string, c: char, upto: nat): (i: nat)
    requires upto <= |s|
    ensures i <= upto
    ensures i > 0 ==> s[i - 1] == c
    ensures forall j :: i <= j < upto ==> s[j] != c
  {
    if upto == 0 || s[upto - 1] == c then upto else LastBefore(s, c, upto - 1)
  }

  /** `extract_json`. */
  function Extract(py: Python, s: string): Result<Value, Error> {
    var start := FirstFrom(s, '{', 0);
    if start == |s| then Err(ValueError)
    else
      var end := LastBefore(s, '}', |s|);
      var body := Text.Strip(if start <= end then s[start..end] else "");
      match ParseValue(py, body, 0)
      case Err(e) => Err(e)
      case Ok((value, pos)) => if SkipWs(body, pos) == |body| then Ok(value) else Err(ValueError)
  }
}
