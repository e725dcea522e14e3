/** Strings as JavaScript sees them: sequences of UTF-16 code units. */
module Text {
  newtype CodeUnit = u: int | 0 <= u < 0x1_0000

  type Str = seq<CodeUnit>

  const TAB: CodeUnit := 9
  const LF: CodeUnit := 10
  const VT: CodeUnit := 11
  const FF: CodeUnit := 12
  const CR: CodeUnit := 13
  const SP: CodeUnit := 32
  const NBSP: CodeUnit := 0xA0

  /** The units matched by `\s`, which are also the ones `trim()` removes. */
  predicate IsWhite(c: CodeUnit) {
    || TAB <= c <= CR || c == SP || c == NBSP || c == 0x1680
    || 0x2000 <= c <= 0x200A || c == 0x2028 || c == 0x2029
    || c == 0x202F || c == 0x205F || c == 0x3000 || c == 0xFEFF
  }

  /** The text with every white unit dropped: what no pass below may lose. */
  function Strip(s: Str): (r: Str)
    ensures |r| <= |s|
  {
    if s == [] then []
    else if IsWhite(s[0]) then Strip(s[1..])
    else [s[0]] + Strip(s[1..])
  }

  lemma {:induction false} StripConcat(a: Str, b: Str)
    ensures Strip(a + b) == Strip(a) + Strip(b)
  {
    if a == [] {
      assert a + b == b;
    } else {
      assert (a + b)[1..] == a[1..] + b && (a + b)[0] == a[0];
      StripConcat(a[1..], b);
      if !IsWhite(a[0]) {
        assert [a[0]] + (Strip(a[1..]) + Strip(b)) == ([a[0]] + Strip(a[1..])) + Strip(b);
      }
    }
  }

  lemma {:induction false} StripWhite(s: Str)
    requires forall i :: 0 <= i < |s| ==> IsWhite(s[i])
    ensures Strip(s) == []
  {
    if s != [] {
      StripWhite(s[1..]);
    }
  }

  lemma {:induction false} StripNonEmpty(s: Str)
    requires exists i :: 0 <= i < |s| && !IsWhite(s[i])
    ensures Strip(s) != []
  {
    if IsWhite(s[0]) {
      var i :| 0 <= i < |s| && !IsWhite(s[i]);
      assert !IsWhite(s[1..][i - 1]);
      StripNonEmpty(s[1..]);
    }
  }

  function TrimStart(s: Str): (r: Str)
    ensures |r| <= |s|
  {
    if s != [] && IsWhite(s[0]) then TrimStart(s[1..]) else s
  }

  function TrimEnd(s: Str): (r: Str)
    ensures |r| <= |s|
  {
    if s != [] && IsWhite(s[|s| - 1]) then TrimEnd(s[..|s| - 1]) else s
  }

  lemma {:induction false} TrimStartProperties(s: Str)
    ensures var r := TrimStart(s);
            && r == s[|s| - |r|..] && Strip(r) == Strip(s) && (r != [] ==> !IsWhite(r[0]))
  {
    if s != [] && IsWhite(s[0]) {
      TrimStartProperties(s[1..]);
    }
  }

  lemma {:induction false} TrimEndProperties(s: Str)
    ensures var r := TrimEnd(s);
            && r == s[..|r|] && Strip(r) == Strip(s) && (r != [] ==> !IsWhite(r[|r| - 1]))
  {
    if s != [] && IsWhite(s[|s| - 1]) {
      var init := s[..|s| - 1];
      TrimEndProperties(init);
      assert s == init + [s[|s| - 1]];
      StripConcat(init, [s[|s| - 1]]);
    }
  }

  function Trim(s: Str): (r: Str)
    ensures |r| <= |s|
  {
    TrimEnd(TrimStart(s))
  }

  lemma SliceOfTail(s: Str, lo: nat, n: nat)
    requires lo + n <= |s|
    ensures s[lo..][..n] == s[lo..lo + n]
  {
  }

  lemma TrimmedStays(s: Str)
    requires Trimmed(s)
    ensures Trim(s) == s
  {
  }

  lemma TrimIsTrimmed(s: Str)
    ensures Trimmed(Trim(s))
    ensures Strip(Trim(s)) == Strip(s)
  {
    TrimStartProperties(s);
    TrimEndProperties(TrimStart(s));
    assert Trim(s) != [] ==> Trim(s)[0] == TrimStart(s)[0];
  }

  lemma TrimIsSlice(s: Str)
    ensures IsSlice(Trim(s), s, |s| - |TrimStart(s)|)
  {
    var a := TrimStart(s);
    TrimStartProperties(s);
    TrimEndProperties(a);
    SliceOfTail(s, |s| - |a|, |Trim(s)|);
  }

  /** `trim()` yields a slice of the text with nothing white at either end, and loses nothing else. */
  lemma TrimProperties(s: Str)
    ensures Trimmed(Trim(s))
    ensures Strip(Trim(s)) == Strip(s)
    ensures Trimmed(s) ==> Trim(s) == s
    ensures IsSlice(Trim(s), s, |s| - |TrimStart(s)|)
  {
    TrimIsTrimmed(s);
    TrimIsSlice(s);
    if Trimmed(s) {
      TrimmedStays(s);
    }
  }

  predicate IsSlice(r: Str, s: Str, lo: nat) {
    lo + |r| <= |s| && r == s[lo..lo + |r|]
  }

  predicate Trimmed(s: Str) {
    s != [] ==> !IsWhite(s[0]) && !IsWhite(s[|s| - 1])
  }

  /** The number of leading units equal to `c`. */
  function Leading(s: Str, c: CodeUnit): (n: nat)
    ensures n <= |s|
    ensures forall i :: 0 <= i < n ==> s[i] == c
    ensures n < |s| ==> s[n] != c
  {
    if s != [] && s[0] == c then 1 + Leading(s[1..], c) else 0
  }
}
