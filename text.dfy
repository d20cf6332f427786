/** JavaScript string helpers the screens rely on: lodash's `trim` and a
    string's `length`. */
module Text {

  /** The characters JavaScript's `\s` class matches; lodash's `trim` strips
      exactly these. The lemmas of this module hold whichever characters they are. */
  predicate IsWhitespace(c: char) {
    || c == ' ' || c == '\t' || c == '\n' || c == '\U{B}' || c == '\U{C}' || c == '\r'
    || c == '\U{A0}' || c == '\U{1680}' || ('\U{2000}' <= c <= '\U{200A}')
    || c == '\U{2028}' || c == '\U{2029}' || c == '\U{202F}' || c == '\U{205F}'
    || c == '\U{3000}' || c == '\U{FEFF}'
  }

  predicate AllWhitespace(s: string) {
    forall i :: 0 <= i < |s| ==> IsWhitespace(s[i])
  }

  /** Neither end of `s` is whitespace. */
  predicate Trimmed(s: string) {
    s == [] || (!IsWhitespace(s[0]) && !IsWhitespace(s[|s| - 1]))
  }

  /** Drops the leading run of whitespace. */
  function TrimStart(s: string): (t: string)
    ensures |t| <= |s|
    ensures t != [] ==> !IsWhitespace(t[0])
  {
    if s != [] && IsWhitespace(s[0]) then TrimStart(s[1..]) else s
  }

  /** Drops the trailing run of whitespace. */
  function TrimEnd(s: string): (t: string)
    ensures |t| <= |s|
    ensures t != [] ==> !IsWhitespace(t[|t| - 1])
  {
    if s != [] && IsWhitespace(s[|s| - 1]) then TrimEnd(s[..|s| - 1]) else s
  }

  /** lodash `trim`: cut the string after its last non-whitespace character,
      then drop the leading whitespace. */
  function Trim(s: string): (t: string)
    ensures Trimmed(t) && |t| <= |s|
  {
    TrimStartSpec(TrimEnd(s));
    TrimStart(TrimEnd(s))
  }

  /** `TrimStart` keeps a suffix, drops only whitespace, and stops at the first
      character that is not whitespace. */
  lemma {:induction false} TrimStartSpec(s: string)
    ensures var r := TrimStart(s);
      && |r| <= |s| && r == s[|s| - |r|..]
      && AllWhitespace(s[..|s| - |r|])
      && (r != [] ==> !IsWhitespace(r[0]))
    decreases |s|
  {
    if s != [] && IsWhitespace(s[0]) {
      var t := s[1..];
      var r := TrimStart(t);
      TrimStartSpec(t);
      assert TrimStart(s) == r;
      assert r == s[|s| - |r|..] by { assert t[|t| - |r|..] == s[|s| - |r|..]; }
      var k := |s| - |r|;
      forall i | 0 <= i < k ensures IsWhitespace(s[..k][i]) {
        if i > 0 { assert s[..k][i] == t[..k - 1][i - 1]; }
      }
    }
  }

  /** `TrimEnd` keeps a prefix, drops only whitespace, and stops at the last
      character that is not whitespace. */
  lemma {:induction false} TrimEndSpec(s: string)
    ensures var r := TrimEnd(s);
      && |r| <= |s| && r == s[..|r|]
      && AllWhitespace(s[|r|..])
      && (r != [] ==> !IsWhitespace(r[|r| - 1]))
    decreases |s|
  {
    if s != [] && IsWhitespace(s[|s| - 1]) {
      var r := TrimEnd(s[..|s| - 1]);
      TrimEndSpec(s[..|s| - 1]);
      assert s[|r|..] == s[..|s| - 1][|r|..] + [s[|s| - 1]];
    }
  }

  lemma {:induction false} TrimEndPadded(x: string, b: string)
    requires AllWhitespace(b) && (x == [] || !IsWhitespace(x[|x| - 1]))
    ensures TrimEnd(x + b) == x
    decreases |b|
  {
    if b == [] {
      assert x + b == x;
    } else {
      var s := x + b;
      assert s[..|s| - 1] == x + b[..|b| - 1];
      TrimEndPadded(x, b[..|b| - 1]);
    }
  }

  lemma {:induction false} TrimStartPadded(a: string, x: string)
    requires AllWhitespace(a) && (x == [] || !IsWhitespace(x[0]))
    ensures TrimStart(a + x) == x
    decreases |a|
  {
    if a == [] {
      assert a + x == x;
    } else {
      var s := a + x;
      assert s[1..] == a[1..] + x;
      TrimStartPadded(a[1..], x);
    }
  }

  /** Whitespace padding on either side of a trimmed string is all `trim` removes. */
  lemma {:induction false} TrimPadded(a: string, x: string, b: string)
    requires AllWhitespace(a) && AllWhitespace(b) && Trimmed(x)
    ensures Trim(a + x + b) == x
  {
    if x == [] && a != [] {
      // a + b is all whitespace, so TrimEnd removes all of it
      assert AllWhitespace(a + b) by {
        forall i | 0 <= i < |a + b| ensures IsWhitespace((a + b)[i]) {
          if i < |a| { assert (a + b)[i] == a[i]; } else { assert (a + b)[i] == b[i - |a|]; }
        }
      }
      assert a + x + b == [] + (a + b);
      TrimEndPadded([], a + b);
    } else {
      assert a + x + b == (a + x) + b;
      TrimEndPadded(a + x, b);
      TrimStartPadded(a, x);
    }
  }

  /** Every string is its trimmed form padded with whitespace on both sides. */
  lemma TrimSplits(s: string)
    ensures exists a, b :: AllWhitespace(a) && AllWhitespace(b) && s == a + Trim(s) + b
  {
    var t := TrimEnd(s);
    var r := TrimStart(t);
    TrimEndSpec(s);
    TrimStartSpec(t);
    var k := |t| - |r|;
    var a, b := t[..k], s[|t|..];
    assert t == a + t[k..];
    assert s == s[..|t|] + b;
    assert s == a + r + b;
  }

  /** A string with no whitespace at either end is left as it is. */
  lemma TrimOfTrimmed(s: string)
    requires Trimmed(s)
    ensures Trim(s) == s
  {
    assert [] + s + [] == s;
    TrimPadded([], s, []);
  }

  lemma TrimIdempotent(s: string)
    ensures Trim(Trim(s)) == Trim(s)
  {
    TrimOfTrimmed(Trim(s));
  }

  /** `trim` yields the empty string exactly when the input is all whitespace. */
  lemma TrimEmptyIff(s: string)
    ensures Trim(s) == [] <==> AllWhitespace(s)
  {
    if AllWhitespace(s) {
      assert s + [] + [] == s;
      TrimPadded(s, [], []);
    } else {
      TrimSplits(s);
    }
  }

  /** Whether `c` is a single UTF-16 code unit; a character past U+FFFF is a
      surrogate pair, two units. */
  predicate InBmp(c: char) {
    c < '\U{10000}'
  }

  /** JavaScript's `s.length`: the number of UTF-16 code units, which is at
      least the number of characters and at most twice it. */
  function JsLength(s: string): (n: nat)
    ensures |s| <= n <= 2 * |s|
  {
    if s == [] then 0 else (if InBmp(s[0]) then 1 else 2) + JsLength(s[1..])
  }

  /** `length` adds up over concatenation. */
  lemma {:induction false} JsLengthConcat(a: string, b: string)
    ensures JsLength(a + b) == JsLength(a) + JsLength(b)
    decreases |a|
  {
    if a == [] {
      assert a + b == b;
    } else {
      assert (a + b)[1..] == a[1..] + b;
      JsLengthConcat(a[1..], b);
    }
  }

  /** `length` is the character count exactly when no character lies past U+FFFF. */
  lemma {:induction false} JsLengthBmp(s: string)
    ensures JsLength(s) == |s| <==> forall i :: 0 <= i < |s| ==> InBmp(s[i])
    decreases |s|
  {
    if s != [] {
      var t := s[1..];
      JsLengthBmp(t);
      assert forall i :: 0 <= i < |t| ==> t[i] == s[i + 1];
      if forall i :: 0 <= i < |s| ==> InBmp(s[i]) {
        assert forall i :: 0 <= i < |t| ==> InBmp(t[i]);
      }
      if JsLength(s) == |s| {
        assert InBmp(s[0]);
        forall i | 0 <= i < |s| ensures InBmp(s[i]) {
          if i > 0 { assert s[i] == t[i - 1]; }
        }
      }
    }
  }
}
