/** The Python string operations the storefront relies on: `strip`,
    `upper`, `startswith`, `lstrip('/')` and `split(',')`. */
module Text {

  /** Python's `str.isspace` for one character. */
  predicate IsSpace(c: char)
  {
    var n := c as int;
    n == 32 || 9 <= n <= 13 || 28 <= n <= 31 || n == 0x85 || n == 0xA0 || n == 0x1680
    || 0x2000 <= n <= 0x200A || n == 0x2028 || n == 0x2029 || n == 0x202F
    || n == 0x205F || n == 0x3000
  }

  /** `s.lstrip()`. */
  function TrimLeft(s: string): string
  {
    if s != [] && IsSpace(s[0]) then TrimLeft(s[1..]) else s
  }

  /** `lstrip` removes exactly the leading whitespace: what it returns is
      a suffix of `s`, everything before it is whitespace, and it does not
      itself start with whitespace. */
  lemma {:induction false} TrimLeftSpec(s: string)
    ensures var r := TrimLeft(s);
      |r| <= |s| && r == s[|s| - |r|..]
      && (forall i | 0 <= i < |s| - |r| :: IsSpace(s[i]))
      && (r != [] ==> !IsSpace(r[0]))
  {
    if s != [] && IsSpace(s[0]) {
      TrimLeftSpec(s[1..]);
      var r := TrimLeft(s);
      assert s[1..][|s[1..]| - |r|..] == s[|s| - |r|..];
      forall i | 0 <= i < |s| - |r| ensures IsSpace(s[i]) {
        if i > 0 {
          assert s[i] == s[1..][i - 1];
        }
      }
    }
  }

  /** `s.rstrip()`. */
  function TrimRight(s: string): string
  {
    if s != [] && IsSpace(s[|s| - 1]) then TrimRight(s[..|s| - 1]) else s
  }

  /** `rstrip` removes exactly the trailing whitespace. */
  lemma {:induction false} TrimRightSpec(s: string)
    ensures var r := TrimRight(s);
      |r| <= |s| && r == s[..|r|]
      && (forall i | |r| <= i < |s| :: IsSpace(s[i]))
      && (r != [] ==> !IsSpace(r[|r| - 1]))
  {
    if s != [] && IsSpace(s[|s| - 1]) {
      var init := s[..|s| - 1];
      TrimRightSpec(init);
      var r := TrimRight(s);
      assert init[..|r|] == s[..|r|];
      forall i | |r| <= i < |s| ensures IsSpace(s[i]) {
        if i < |s| - 1 {
          assert s[i] == init[i];
        }
      }
    }
  }

  /** `s.strip()`. */
  function Strip(s: string): string
  {
    TrimRight(TrimLeft(s))
  }

  /** Neither end of a stripped string is whitespace. */
  predicate IsStripped(s: string)
  {
    s == [] || (!IsSpace(s[0]) && !IsSpace(s[|s| - 1]))
  }

  /** `strip` removes whitespace only, from both ends, and leaves a slice of its input. */
  lemma StripIsSlice(s: string)
    ensures IsStripped(Strip(s))
    ensures |Strip(s)| <= |TrimLeft(s)| <= |s|
    ensures var k := |s| - |TrimLeft(s)|; k + |Strip(s)| <= |s| && Strip(s) == s[k..k + |Strip(s)|]
    ensures (forall i | 0 <= i < |s| :: IsSpace(s[i])) <==> Strip(s) == []
  {
    var l := TrimLeft(s);
    var r := TrimRight(l);
    var k := |s| - |l|;
    assert |l| <= |s| && l == s[k..] && (l != [] ==> !IsSpace(l[0])) by {
      TrimLeftSpec(s);
    }
    assert |r| <= |l| && r == l[..|r|] && (r != [] ==> !IsSpace(r[|r| - 1])) by {
      TrimRightSpec(l);
    }
    assert r == s[k..k + |r|];
    if r != [] {
      assert r[0] == l[0];
      assert !IsSpace(s[k]);
    } else {
      assert l == [] by {
        if l != [] {
          TrimRightSpec(l);
          assert false;
        }
      }
      TrimLeftSpec(s);
    }
  }

  /** Stripping a stripped string changes nothing. */
  lemma StripStripped(s: string)
    requires IsStripped(s)
    ensures Strip(s) == s
  {
  }

  lemma StripIdempotent(s: string)
    ensures Strip(Strip(s)) == Strip(s)
  {
    StripIsSlice(s);
    StripStripped(Strip(s));
  }

  /** `str.upper` on one character; only ASCII letters are mapped. */
  function UpperChar(c: char): char
  {
    if 'a' <= c <= 'z' then (c as int - 32) as char else c
  }

  /** `s.upper()`. */
  function Upper(s: string): (r: string)
    ensures |r| == |s|
    ensures forall i | 0 <= i < |s| :: r[i] == UpperChar(s[i])
  {
    seq(|s|, i requires 0 <= i < |s| => UpperChar(s[i]))
  }

  /** A string `upper` leaves as it is. */
  predicate IsUpper(s: string)
  {
    forall i | 0 <= i < |s| :: UpperChar(s[i]) == s[i]
  }

  /** `upper` yields upper-case text, and changes exactly the lower-case letters. */
  lemma UpperIsUpper(s: string)
    ensures IsUpper(Upper(s))
    ensures IsUpper(s) <==> Upper(s) == s
  {
    if IsUpper(s) {
      assert Upper(s) == s;
    }
    if Upper(s) == s {
      forall i | 0 <= i < |s| ensures UpperChar(s[i]) == s[i] {
        assert Upper(s)[i] == UpperChar(s[i]);
      }
    }
  }

  /** A coupon code in canonical form: `code.upper().strip()`. */
  function CanonicalCode(code: string): string
  {
    Strip(Upper(code))
  }

  /** Canonicalising an already canonical code changes nothing, so storing
      `upper().strip()` of a code that the form already cleaned is a no-op. */
  lemma CanonicalCodeIdempotent(code: string)
    ensures IsUpper(CanonicalCode(code)) && IsStripped(CanonicalCode(code))
    ensures CanonicalCode(CanonicalCode(code)) == CanonicalCode(code)
  {
    var u := Upper(code);
    var c := Strip(u);
    UpperIsUpper(code);
    StripIsSlice(u);
    var i := |u| - |TrimLeft(u)|;
    forall k | 0 <= k < |c| ensures UpperChar(c[k]) == c[k] {
      assert c[k] == u[i + k];
    }
    UpperIsUpper(c);
    StripStripped(c);
  }

  /** `s.startswith(p)`. */
  predicate StartsWith(s: string, p: string)
  {
    |p| <= |s| && s[..|p|] == p
  }

  /** `s.lstrip(c)` for a single character `c`. */
  function LStripChar(s: string, c: char): (r: string)
    ensures |r| <= |s| && r == s[|s| - |r|..]
    ensures forall i | 0 <= i < |s| - |r| :: s[i] == c
    ensures r != [] ==> r[0] != c
  {
    if s != [] && s[0] == c then LStripChar(s[1..], c) else s
  }

  /** `s.split(sep)`: the pieces between separators, empty ones included. */
  function Split(s: string, sep: char): (parts: seq<string>)
    ensures |parts| >= 1
    ensures forall i | 0 <= i < |parts| :: sep !in parts[i]
  {
    if s == [] then [[]]
    else
      var rest := Split(s[1..], sep);
      if s[0] == sep then [[]] + rest else [[s[0]] + rest[0]] + rest[1..]
  }

  /** `sep.join(parts)`. */
  function Join(parts: seq<string>, sep: char): string
    requires |parts| >= 1
  {
    if |parts| == 1 then parts[0] else parts[0] + [sep] + Join(parts[1..], sep)
  }

  /** Joining the pieces of a split gives the original text back. */
  lemma {:induction false} JoinSplit(s: string, sep: char)
    ensures Join(Split(s, sep), sep) == s
  {
    if s != [] {
      var rest := Split(s[1..], sep);
      JoinSplit(s[1..], sep);
      if s[0] == sep {
        assert Split(s, sep) == [[]] + rest;
        assert Split(s, sep)[1..] == rest;
      } else {
        var parts := Split(s, sep);
        assert parts == [[s[0]] + rest[0]] + rest[1..];
        if |rest| == 1 {
          assert parts == [[s[0]] + rest[0]];
        } else {
          assert parts[1..] == rest[1..];
          assert Join(rest, sep) == rest[0] + [sep] + Join(rest[1..], sep);
        }
      }
    }
  }

  /** The number of separators in `s`. */
  function Count(s: string, sep: char): nat
  {
    if s == [] then 0 else (if s[0] == sep then 1 else 0) + Count(s[1..], sep)
  }

  /** `split` yields one more piece than there are separators. */
  lemma {:induction false} SplitCount(s: string, sep: char)
    ensures |Split(s, sep)| == Count(s, sep) + 1
  {
    if s != [] {
      SplitCount(s[1..], sep);
    }
  }
}
