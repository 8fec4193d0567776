/** The string handling that decides identity in the node: `trim`, `to_ascii_lowercase`, 64-hex ids.
    White space is the ASCII white space of Rust's `trim`. */
module Text {

  predicate IsSpace(c: char) {
    c == ' ' || '\t' <= c <= '\r'
  }

  predicate Blank(s: string) {
    forall i :: 0 <= i < |s| ==> IsSpace(s[i])
  }

  function TrimStart(s: string): string {
    if s != "" && IsSpace(s[0]) then TrimStart(s[1..]) else s
  }

  function TrimEnd(s: string): string {
    if s != "" && IsSpace(s[|s| - 1]) then TrimEnd(s[..|s| - 1]) else s
  }

  function Trim(s: string): string {
    TrimEnd(TrimStart(s))
  }

  function LowerChar(c: char): (r: char)
    ensures IsSpace(r) == IsSpace(c)
  {
    if 'A' <= c <= 'Z' then c - 'A' + 'a' else c
  }

  function Lower(s: string): (r: string)
    ensures |r| == |s|
    ensures forall i :: 0 <= i < |s| ==> r[i] == LowerChar(s[i])
  {
    seq(|s|, i requires 0 <= i < |s| => LowerChar(s[i]))
  }

  // `trim().to_ascii_lowercase()`: the key of a wallet or validator.
  function Norm(s: string): string {
    Lower(Trim(s))
  }

  predicate IsHexDigit(c: char) {
    '0' <= c <= '9' || 'a' <= c <= 'f' || 'A' <= c <= 'F'
  }

  predicate IsHex64(s: string) {
    |s| == 64 && forall i :: 0 <= i < |s| ==> IsHexDigit(s[i])
  }

  // ----- padding and letter case never change a normalised id

  lemma {:induction false} TrimStartPad(a: string, s: string)
    requires Blank(a)
    ensures TrimStart(a + s) == TrimStart(s)
  {
    if a == "" {
      assert a + s == s;
    } else {
      assert (a + s)[1..] == a[1..] + s;
      TrimStartPad(a[1..], s);
    }
  }

  lemma {:induction false} TrimEndPad(s: string, b: string)
    requires Blank(b)
    ensures TrimEnd(s + b) == TrimEnd(s)
  {
    if b == "" {
      assert s + b == s;
    } else {
      assert (s + b)[..|s + b| - 1] == s + b[..|b| - 1];
      TrimEndPad(s, b[..|b| - 1]);
    }
  }

  // Trailing blanks stay trailing when the front is trimmed, unless the whole string is blank.
  lemma {:induction false} TrimStartTail(s: string, b: string)
    requires Blank(b)
    ensures TrimStart(s + b) == (if Blank(s) then "" else TrimStart(s) + b)
    decreases |s| + |b|
  {
    if s == "" {
      assert s + b == b;
      if b != "" {
        assert b == [b[0]] + b[1..];
        TrimStartTail("", b[1..]);
        assert "" + b[1..] == b[1..];
      }
    } else if IsSpace(s[0]) {
      assert (s + b)[1..] == s[1..] + b;
      TrimStartTail(s[1..], b);
      assert Blank(s) == Blank(s[1..]) by {
        if Blank(s[1..]) {
          forall i | 0 <= i < |s| ensures IsSpace(s[i]) {
            assert i > 0 ==> s[i] == s[1..][i - 1];
          }
        }
      }
    }
  }

  lemma {:induction false} TrimStartBlank(s: string)
    requires Blank(s)
    ensures TrimStart(s) == ""
  {
    if s != "" {
      TrimStartBlank(s[1..]);
    }
  }

  lemma TrimPad(a: string, s: string, b: string)
    requires Blank(a) && Blank(b)
    ensures Trim(a + s + b) == Trim(s)
  {
    assert a + s + b == a + (s + b);
    TrimStartPad(a, s + b);
    TrimStartTail(s, b);
    if Blank(s) {
      TrimStartBlank(s);
    } else {
      TrimEndPad(TrimStart(s), b);
    }
  }

  lemma {:induction false} LowerTrimStart(s: string)
    ensures Lower(TrimStart(s)) == TrimStart(Lower(s))
  {
    if s != "" && IsSpace(s[0]) {
      assert Lower(s)[1..] == Lower(s[1..]);
      LowerTrimStart(s[1..]);
    }
  }

  lemma {:induction false} LowerTrimEnd(s: string)
    ensures Lower(TrimEnd(s)) == TrimEnd(Lower(s))
  {
    if s != "" && IsSpace(s[|s| - 1]) {
      assert Lower(s)[..|s| - 1] == Lower(s[..|s| - 1]);
      LowerTrimEnd(s[..|s| - 1]);
    }
  }

  lemma NormOfLower(s: string)
    ensures Norm(s) == Trim(Lower(s))
  {
    LowerTrimStart(s);
    LowerTrimEnd(TrimStart(s));
  }

  // Two spellings of one id: equal up to letter case, then padded.
  lemma NormIgnoresPaddingAndCase(a: string, s: string, b: string, t: string)
    requires Blank(a) && Blank(b)
    requires Lower(s) == Lower(t)
    ensures Norm(a + s + b) == Norm(t)
  {
    TrimPad(a, s, b);
    NormOfLower(s);
    NormOfLower(t);
  }

  // ----- the order of strings

  predicate LessThan(a: string, b: string) {
    b != "" && (a == "" || a[0] < b[0] || (a[0] == b[0] && LessThan(a[1..], b[1..])))
  }

  lemma {:induction false} LessThanIsTotal(a: string, b: string)
    ensures a == b || LessThan(a, b) || LessThan(b, a)
    ensures !(LessThan(a, b) && LessThan(b, a)) && !LessThan(a, a)
    decreases |a|
  {
    if a != "" {
      LessThanIsTotal(a[1..], a[1..]);
      if b != "" && a[0] == b[0] {
        LessThanIsTotal(a[1..], b[1..]);
        assert a == [a[0]] + a[1..] && b == [b[0]] + b[1..];
      }
    }
  }

  lemma {:induction false} LessThanIsTransitive(a: string, b: string, c: string)
    requires LessThan(a, b) && LessThan(b, c)
    ensures LessThan(a, c)
    decreases |a|
  {
    if a != "" && a[0] == b[0] == c[0] {
      LessThanIsTransitive(a[1..], b[1..], c[1..]);
    }
  }
}
