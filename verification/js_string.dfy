/** The pieces of JavaScript string semantics the core relies on:
    `String.prototype.trim`, the UTF-16 `length` and prefix tests. */
module JsString {

  /** ECMAScript WhiteSpace and LineTerminator code points, the set `trim`
      removes: TAB, LF, VT, FF, CR, SPACE, NBSP, OGHAM SPACE MARK,
      U+2000..U+200A, LINE and PARAGRAPH SEPARATOR, NNBSP, MMSP,
      IDEOGRAPHIC SPACE and the byte-order mark. */
  predicate IsWhitespace(c: char) {
    var n := c as int;
    || (0x09 <= n <= 0x0D)
    || n == 0x20
    || n == 0xA0
    || n == 0x1680
    || (0x2000 <= n <= 0x200A)
    || n == 0x2028
    || n == 0x2029
    || n == 0x202F
    || n == 0x205F
    || n == 0x3000
    || n == 0xFEFF
  }

  /** Every character of `s` is whitespace (the empty string included). */
  predicate IsBlank(s: string) {
    forall i | 0 <= i < |s| :: IsWhitespace(s[i])
  }

  /** Drops the leading whitespace: the result is a suffix of `s`, what was
      dropped is all whitespace, and the result does not start with any. */
  function TrimStart(s: string): (r: string)
    ensures |r| <= |s| && r == s[|s| - |r|..]
    ensures IsBlank(s[..|s| - |r|])
    ensures r == [] || !IsWhitespace(r[0])
  {
    if |s| > 0 && IsWhitespace(s[0]) then TrimStart(s[1..]) else s
  }

  /** Drops the trailing whitespace: the result is a prefix of `s`, what was
      dropped is all whitespace, and the result does not end with any. */
  function TrimEnd(s: string): (r: string)
    ensures |r| <= |s| && r == s[..|r|]
    ensures IsBlank(s[|r|..])
    ensures r == [] || !IsWhitespace(r[|r| - 1])
  {
    if |s| > 0 && IsWhitespace(s[|s| - 1]) then
      var r := TrimEnd(s[..|s| - 1]);
      assert s[|r|..] == s[..|s| - 1][|r|..] + [s[|s| - 1]];
      r
    else
      s
  }

  /** `s.trim()`. */
  function Trim(s: string): (r: string)
    ensures |r| <= |s|
    ensures r == [] || (!IsWhitespace(r[0]) && !IsWhitespace(r[|r| - 1]))
  {
    TrimEnd(TrimStart(s))
  }

  /** Slicing a suffix of `s` is slicing `s` itself, shifted. */
  lemma SuffixSlices(s: string, a: nat, k: nat)
    requires a + k <= |s|
    ensures s[a..][..k] == s[a..a + k] && s[a..][k..] == s[a + k..]
  {
  }

  /** What `trim()` keeps is a stretch of `s` with only white space before
      and after it. */
  lemma TrimIsStretch(s: string)
    ensures exists a | 0 <= a <= |s| - |Trim(s)| ::
      Trim(s) == s[a..a + |Trim(s)|] && IsBlank(s[..a]) && IsBlank(s[a + |Trim(s)|..])
  {
    var t := TrimStart(s);
    var r := TrimEnd(t);
    var a := |s| - |t|;
    assert Trim(s) == r && t == s[a..];
    SuffixSlices(s, a, |r|);
    assert IsBlank(s[..a]);
    assert IsBlank(t[|r|..]) && s[a + |r|..] == t[|r|..];
    assert 0 <= a <= |s| - |Trim(s)| &&
      Trim(s) == s[a..a + |Trim(s)|] && IsBlank(s[..a]) && IsBlank(s[a + |Trim(s)|..]);
  }

  /** `!s.trim()` holds exactly for the blank strings. */
  lemma TrimEmptyIffBlank(s: string)
    ensures Trim(s) == [] <==> IsBlank(s)
  {
    var t := TrimStart(s);
    assert TrimEnd(t) == [] ==> IsBlank(t) by {
      if TrimEnd(t) == [] {
        assert t[0..] == t;
      }
    }
    assert IsBlank(t) ==> t == [];
    assert t == [] ==> IsBlank(s) by {
      if t == [] {
        assert s[..|s|] == s;
      }
    }
    assert IsBlank(s) ==> IsBlank(t);
  }

  /** The number of UTF-16 code units of `s`, which is what JavaScript's
      `length` counts: code points above U+FFFF take a surrogate pair. */
  function Utf16Length(s: string): (n: nat)
    ensures |s| <= n <= 2 * |s|
    ensures |s| == 1 ==> (n == 2 <==> s[0] as int > 0xFFFF)
  {
    if |s| == 0 then 0
    else (if s[0] as int > 0xFFFF then 2 else 1) + Utf16Length(s[1..])
  }

  /** Code units add up over concatenation, so together with the one-character
      case above this fixes `length` for every string. */
  lemma {:induction false} Utf16LengthConcat(a: string, b: string)
    ensures Utf16Length(a + b) == Utf16Length(a) + Utf16Length(b)
  {
    if |a| > 0 {
      Utf16LengthConcat(a[1..], b);
      assert (a + b)[1..] == a[1..] + b;
      assert (a + b)[0] == a[0];
    } else {
      assert a + b == b;
    }
  }

  /** Every character of `s` lies in the Basic Multilingual Plane, so each
      takes one UTF-16 code unit. */
  predicate IsBmp(s: string) {
    forall i | 0 <= i < |s| :: s[i] as int <= 0xFFFF
  }

  /** JavaScript's `length` agrees with the character count exactly when no
      character needs a surrogate pair. */
  lemma {:induction false} Utf16LengthBmp(s: string)
    ensures Utf16Length(s) == |s| <==> IsBmp(s)
  {
    if |s| > 0 {
      Utf16LengthBmp(s[1..]);
      assert IsBmp(s) <==> s[0] as int <= 0xFFFF && IsBmp(s[1..]) by {
        assert forall i | 1 <= i < |s| :: s[i] == s[1..][i - 1];
      }
    }
  }

  /** `s.startsWith(p)`. */
  predicate StartsWith(s: string, p: string) {
    |p| <= |s| && s[..|p|] == p
  }
}
