/** The string helpers the session needs: lower-casing, whitespace splitting, joining. */
module Text {
  function LowerChar(c: char): char {
    if 'A' <= c <= 'Z' then c - 'A' + 'a' else c
  }

  function Lower(s: string): string {
    seq(|s|, i requires 0 <= i < |s| => LowerChar(s[i]))
  }

  /** The characters at which `split()` separates and which `strip()` removes. */
  predicate IsSpace(c: char) {
    || '\U{0009}' <= c <= '\U{000D}' || '\U{001C}' <= c <= '\U{0020}' || c == '\U{0085}' || c == '\U{00A0}'
    || c == '\U{1680}' || '\U{2000}' <= c <= '\U{200A}' || '\U{2028}' <= c <= '\U{2029}'
    || c == '\U{202F}' || c == '\U{205F}' || c == '\U{3000}'
  }

  /** Length of the longest prefix without whitespace. */
  function WordEnd(s: string): (k: nat)
    ensures k <= |s|
    ensures forall i :: 0 <= i < k ==> !IsSpace(s[i])
    ensures k < |s| ==> IsSpace(s[k])
  {
    if s == [] || IsSpace(s[0]) then 0 else 1 + WordEnd(s[1..])
  }

  /** Maximal runs of non-whitespace characters, in order. */
  function Words(s: string): seq<string>
    decreases |s|
  {
    if s == [] then []
    else if IsSpace(s[0]) then Words(s[1..])
    else [s[..WordEnd(s)]] + Words(s[WordEnd(s)..])
  }

  function JoinWords(ws: seq<string>): string {
    if ws == [] then []
    else if |ws| == 1 then ws[0]
    else ws[0] + " " + JoinWords(ws[1..])
  }

  /** The key under which a query is remembered. */
  function Normalize(query: string): string {
    JoinWords(Words(Lower(query)))
  }

  /** `strip()`. */
  function Strip(s: string): string
    decreases |s|
  {
    if s == [] then s
    else if IsSpace(s[0]) then Strip(s[1..])
    else if IsSpace(s[|s| - 1]) then Strip(s[..|s| - 1])
    else s
  }

  predicate Blank(s: string) {
    forall i :: 0 <= i < |s| ==> IsSpace(s[i])
  }

  /** `t` is `s` without the whitespace around it, and something is left. */
  ghost predicate Trimmed(s: string, t: string) {
    t != "" && !IsSpace(t[0]) && !IsSpace(t[|t| - 1])
    && exists a, b :: Blank(a) && Blank(b) && s == a + t + b
  }

  lemma {:induction false} StripTrims(s: string)
    ensures Strip(s) == "" <==> Blank(s)
    ensures Strip(s) != "" ==> Trimmed(s, Strip(s))
    decreases |s|
  {
    hide IsSpace, Trimmed;
    if s != "" {
      var n := |s| - 1;
      if IsSpace(s[0]) {
        StripTrims(s[1..]);
        assert s == [s[0]] + s[1..] + "";
        Padded([s[0]], s[1..], "", Strip(s));
      } else if IsSpace(s[n]) {
        StripTrims(s[..n]);
        assert s == "" + s[..n] + [s[n]];
        Padded("", s[..n], [s[n]], Strip(s));
      } else {
        NothingToTrim(s);
      }
    }
  }

  lemma NothingToTrim(s: string)
    requires s != "" && !IsSpace(s[0]) && !IsSpace(s[|s| - 1])
    ensures Trimmed(s, s)
  {
    hide IsSpace;
    assert Blank("") && s == "" + s + "";
  }

  lemma Padded(a: string, s: string, b: string, t: string)
    requires Blank(a) && Blank(b)
    ensures Blank(s) <==> Blank(a + s + b)
    ensures Trimmed(s, t) ==> Trimmed(a + s + b, t)
  {
    hide IsSpace;
    forall i | 0 <= i < |s| ensures (a + s + b)[|a| + i] == s[i] {
    }
    if Trimmed(s, t) {
      var a1, b1 :| Blank(a1) && Blank(b1) && s == a1 + t + b1;
      assert a + s + b == (a + a1) + t + (b1 + b);
      assert Blank(a + a1) && Blank(b1 + b);
    }
  }

  predicate IsWord(w: string) {
    w != [] && forall i :: 0 <= i < |w| ==> !IsSpace(w[i])
  }

  lemma {:induction false} WordsAreWords(s: string)
    ensures forall w :: w in Words(s) ==> IsWord(w)
    decreases |s|
  {
    if s != [] {
      if IsSpace(s[0]) {
        WordsAreWords(s[1..]);
      } else {
        WordsAreWords(s[WordEnd(s)..]);
      }
    }
  }

  lemma WordEndOfPrefix(w: string, rest: string)
    requires IsWord(w)
    requires rest != [] ==> IsSpace(rest[0])
    ensures WordEnd(w + rest) == |w|
  {
    var k := WordEnd(w + rest);
    assert forall i :: 0 <= i < |w| ==> (w + rest)[i] == w[i];
    assert rest != [] ==> (w + rest)[|w|] == rest[0];
  }

  /** Whitespace separates words, wherever it stands. With `Words("") == []` and `OneWord` this
      settles what the words of any text are. */
  lemma {:induction false} WordsSeparate(a: string, c: char, b: string)
    requires IsSpace(c)
    ensures Words(a + [c] + b) == Words(a) + Words(b)
    decreases |a|
  {
    var s := a + [c] + b;
    hide IsSpace;
    if a == "" {
      assert s[1..] == b;
    } else if IsSpace(a[0]) {
      WordsSeparate(a[1..], c, b);
      assert s[1..] == a[1..] + [c] + b;
    } else {
      var k := WordEnd(a);
      WordEndOfPrefix(a[..k], a[k..] + [c] + b);
      assert s == a[..k] + (a[k..] + [c] + b);
      assert s[..k] == a[..k] && s[k..] == a[k..] + [c] + b;
      WordsSeparate(a[k..], c, b);
      assert [a[..k]] + (Words(a[k..]) + Words(b)) == [a[..k]] + Words(a[k..]) + Words(b);
    }
  }

  lemma OneWord(w: string)
    requires IsWord(w)
    ensures Words(w) == [w]
  {
    WordEndOfPrefix(w, "");
    assert w + "" == w && w[|w|..] == "";
    assert w[0] == w[0];
  }

  /** Joining words with single spaces and splitting again gives the words back. */
  lemma {:induction false} WordsOfJoin(ws: seq<string>)
    requires forall w :: w in ws ==> IsWord(w)
    ensures Words(JoinWords(ws)) == ws
  {
    assert forall i :: 0 <= i < |ws| ==> ws[i] in ws;
    if |ws| == 1 {
      WordEndOfPrefix(ws[0], []);
      assert ws[0] + [] == ws[0];
      assert ws == [ws[0]];
    } else if |ws| > 1 {
      var rest := " " + JoinWords(ws[1..]);
      WordEndOfPrefix(ws[0], rest);
      WordsOfJoin(ws[1..]);
      assert JoinWords(ws) == ws[0] + rest;
      assert (ws[0] + rest)[0] == ws[0][0];
      assert (ws[0] + rest)[..|ws[0]|] == ws[0];
      assert (ws[0] + rest)[|ws[0]|..] == rest;
      assert rest[1..] == JoinWords(ws[1..]);
      assert ws == [ws[0]] + ws[1..];
    }
  }

  /** Two queries are duplicates exactly when they agree word by word up to case. */
  lemma SameNormalForm(a: string, b: string)
    ensures Normalize(a) == Normalize(b) <==> Words(Lower(a)) == Words(Lower(b))
  {
    WordsAreWords(Lower(a));
    WordsAreWords(Lower(b));
    WordsOfJoin(Words(Lower(a)));
    WordsOfJoin(Words(Lower(b)));
  }
}
