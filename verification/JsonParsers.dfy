/** The parsers as the loops they are, each proved to compute its function in `Json`. */
module JsonParsers {
  import opened Wrappers
  import opened Json
  import Text

  method SkipWhitespace(s: string, start: nat) returns (pos: nat)
    requires start <= |s|
    ensures pos == SkipWs(s, start)
  {
    pos := start;
    while pos < |s| && IsWs(s[pos])
      invariant start <= pos <= |s|
      invariant SkipWs(s, pos) == SkipWs(s, start)
    {
      pos := pos + 1;
    }
  }

  method ReadNumber(py: Python, s: string, start: nat) returns (r: Parsed<Scalar>)
    requires start < |s| && IsNumChar(s[start])
    ensures r == ParseNumber(py, s, start)
  {
    var pos := start;
    while pos < |s| && IsNumChar(s[pos])
      invariant start <= pos <= |s|
      invariant NumEnd(s, pos) == NumEnd(s, start)
    {
      pos := pos + 1;
    }
    var text := s[start..pos];
    if FloatLike(text) {
      if !py.isFloat(text) {
        return Err(ValueError);
      }
      return Ok((Float(text), pos));
    }
    match IntOf(text)
    case Some(n) => r := Ok((Int(n), pos));
    case None => r := Err(ValueError);
  }

  method ReadString(py: Python, s: string, start: nat) returns (r: Parsed<Scalar>)
    requires start < |s| && IsQuote(s[start])
    ensures r == ParseString(py, s, start)
  {
    var quote := s[start];
    var pos: nat := start + 1;
    var result: string := "";
    while pos < |s|
      invariant start < pos <= |s|
      invariant StringTail(py, s, pos, quote, result) == ParseString(py, s, start)
    {
      var c := s[pos];
      if c == '\\' {
        pos := pos + 1;
        if pos >= |s| {
          return Err(ValueError);
        }
        result := result + [Unescape(s[pos])];
      } else if c == quote {
        pos := pos + 1;
        return Ok((Convert(py, result), pos));
      } else {
        result := result + [c];
      }
      pos := pos + 1;
    }
    r := Err(ValueError);
  }

  method ReadTripleQuoted(py: Python, s: string, start: nat) returns (r: Parsed<Scalar>)
    requires start + 3 <= |s| && IsTriple(Slice(s, start, 3))
    ensures r == TripleTail(py, s, start + 3, Slice(s, start, 3), "")
  {
    var quote := Slice(s, start, 3);
    var pos: nat := start + 3;
    var result: string := "";
    while pos < |s|
      invariant start + 3 <= pos <= |s|
      invariant TripleTail(py, s, pos, quote, result) == TripleTail(py, s, start + 3, quote, "")
    {
      if Slice(s, pos, 3) == quote {
        pos := pos + 3;
        return Ok((Convert(py, result), pos));
      }
      result := result + [s[pos]];
      pos := pos + 1;
    }
    r := Err(ValueError);
  }

  method ReadKey(py: Python, s: string, start: nat) returns (r: Parsed<Scalar>)
    requires start <= |s|
    ensures r == ParseKey(py, s, start)
  {
    var pos := SkipWhitespace(s, start);
    if pos == |s| {
      return Err(IndexError);
    }
    if IsQuote(s[pos]) {
      r := ReadString(py, s, pos);
    } else {
      r := Err(ValueError);
    }
  }

  method ReadValue(py: Python, s: string, start: nat) returns (r: Parsed<Value>)
    requires start <= |s|
    ensures r == ParseValue(py, s, start)
    decreases |s| - start, 1
  {
    var pos := SkipWhitespace(s, start);
    if pos >= |s| {
      return Err(ValueError);
    }
    if s[pos] == '{' {
      r := ReadObject(py, s, pos);
    } else if s[pos] == '[' {
      r := ReadArray(py, s, pos);
    } else if IsTriple(Slice(s, pos, 3)) {
      var q := ReadTripleQuoted(py, s, pos);
      r := Lift(q);
    } else if IsQuote(s[pos]) {
      var q := ReadString(py, s, pos);
      r := Lift(q);
    } else if Text.Lower(Slice(s, pos, 4)) == "true" {
      r := Ok((Leaf(Bool(true)), pos + 4));
    } else if Text.Lower(Slice(s, pos, 5)) == "false" {
      r := Ok((Leaf(Bool(false)), pos + 5));
    } else if Text.Lower(Slice(s, pos, 4)) == "null" {
      r := Ok((Leaf(Null), pos + 4));
    } else if StartsNumber(s[pos]) {
      var q := ReadNumber(py, s, pos);
      r := Lift(q);
    } else {
      r := Err(ValueError);
    }
  }

  /** The part of `parse_object`'s loop that reads a key, a colon and a value. */
  method ReadMember(py: Python, s: string, start: nat) returns (r: Parsed<Member>)
    requires start <= |s|
    ensures r == ParseMember(py, s, start)
    decreases |s| - start, 2
  {
    var pos := SkipWhitespace(s, start);
    var key := ReadKey(py, s, pos);
    if key.Err? {
      return Err(key.error);
    }
    pos := SkipWhitespace(s, key.value.1);
    if pos >= |s| || s[pos] != ':' {
      return Err(ValueError);
    }
    pos := SkipWhitespace(s, pos + 1);
    var value := ReadValue(py, s, pos);
    r := match value case Ok((v, after)) => Ok((Member(key.value.0, v), after)) case Err(e) => Err(e);
  }

  method ReadObject(py: Python, s: string, start: nat) returns (r: Parsed<Value>)
    requires start < |s| && s[start] == '{'
    ensures r == Members(py, s, SkipWs(s, start + 1), [])
    decreases |s| - start, 0
  {
    hide *;
    var obj: seq<Member> := [];
    var pos := SkipWhitespace(s, start + 1);
    while pos < |s| && s[pos] != '}'
      invariant start < pos <= |s|
      invariant Members(py, s, pos, obj) == Members(py, s, SkipWs(s, start + 1), [])
      decreases |s| - pos
    {
      var member := ReadMember(py, s, pos);
      if member.Err? {
        MembersFail(py, s, pos, obj);
        return Err(member.error);
      }
      MembersStep(py, s, pos, obj, member.value.0, member.value.1);
      obj := Put(obj, member.value.0.key, member.value.0.value);
      pos := SkipWhitespace(s, member.value.1);
      if pos < |s| && s[pos] == ',' {
        pos := SkipWhitespace(s, pos + 1);
      } else if pos < |s| && s[pos] == '}' {
        break;
      } else {
        return Err(ValueError);
      }
    }
    MembersStop(py, s, pos, obj);
    if pos >= |s| || s[pos] != '}' {
      return Err(ValueError);
    }
    r := Ok((Obj(obj), pos + 1));
  }

  method ReadArray(py: Python, s: string, start: nat) returns (r: Parsed<Value>)
    requires start < |s| && s[start] == '['
    ensures r == Items(py, s, SkipWs(s, start + 1), [])
    decreases |s| - start, 0
  {
    hide *;
    var lst: seq<Value> := [];
    var pos := SkipWhitespace(s, start + 1);
    while pos < |s| && s[pos] != ']'
      invariant start < pos <= |s|
      invariant Items(py, s, pos, lst) == Items(py, s, SkipWs(s, start + 1), [])
      decreases |s| - pos
    {
      var value := ReadValue(py, s, pos);
      if value.Err? {
        ItemsFail(py, s, pos, lst);
        return Err(value.error);
      }
      ItemsStep(py, s, pos, lst, value.value.0, value.value.1);
      lst := lst + [value.value.0];
      pos := SkipWhitespace(s, value.value.1);
      if pos < |s| && s[pos] == ',' {
        pos := SkipWhitespace(s, pos + 1);
      } else if pos < |s| && s[pos] == ']' {
        break;
      } else {
        return Err(ValueError);
      }
    }
    ItemsStop(py, s, pos, lst);
    if pos >= |s| || s[pos] != ']' {
      return Err(ValueError);
    }
    r := Ok((Arr(lst), pos + 1));
  }

  method ExtractJson(py: Python, s: string) returns (r: Result<Value, Error>)
    ensures r == Extract(py, s)
  {
    var start := FirstFrom(s, '{', 0);
    if start == |s| {
      return Err(ValueError);
    }
    var end := LastBefore(s, '}', |s|);
    var body := Text.Strip(if start <= end then s[start..end] else "");
    var parsed := ReadValue(py, body, 0);
    if parsed.Err? {
      return Err(parsed.error);
    }
    var pos := SkipWhitespace(body, parsed.value.1);
    if pos != |body| {
      return Err(ValueError);
    }
    r := Ok(parsed.value.0);
  }
}
