/**
 * The few functions of Go's `strings` package that the indicator handlers use,
 * on strings modelled as sequences of runes (one Dafny `char` per Go rune).
 */
module Strings {

  /** Go's `unicode.IsSpace`: the Unicode White_Space property. */
  predicate IsSpace(c: char)
  {
    var n := c as int;
    || (0x09 <= n <= 0x0D)   // \t \n \v \f \r
    || n == 0x20 || n == 0x85 || n == 0xA0 || n == 0x1680
    || (0x2000 <= n <= 0x200A)
    || n == 0x2028 || n == 0x2029 || n == 0x202F || n == 0x205F
    || n == 0x3000
  }

  /** Drops leading white space. */
  function TrimLeft(s: string): string
  {
    if |s| > 0 && IsSpace(s[0]) then TrimLeft(s[1..]) else s
  }

  /** Drops trailing white space. */
  function TrimRight(s: string): string
  {
    if |s| > 0 && IsSpace(s[|s| - 1]) then TrimRight(s[..|s| - 1]) else s
  }

  /** `TrimLeft` leaves the suffix that starts at the first non-space character. */
  lemma {:induction false} TrimLeftSuffix(s: string)
    ensures var r := TrimLeft(s);
      && |r| <= |s| && r == s[|s| - |r|..]
      && (forall k :: 0 <= k < |s| - |r| ==> IsSpace(s[k]))
      && (r == [] || !IsSpace(r[0]))
  {
    if |s| > 0 && IsSpace(s[0]) {
      TrimLeftSuffix(s[1..]);
    }
  }

  /** `TrimRight` leaves the prefix that ends at the last non-space character. */
  lemma {:induction false} TrimRightPrefix(s: string)
    ensures var r := TrimRight(s);
      && |r| <= |s| && r == s[..|r|]
      && (forall k :: |r| <= k < |s| ==> IsSpace(s[k]))
      && (r == [] || !IsSpace(r[|r| - 1]))
  {
    if |s| > 0 && IsSpace(s[|s| - 1]) {
      TrimRightPrefix(s[..|s| - 1]);
    }
  }

  /**
   * `strings.TrimSpace`: the result is the slice `s[i..j]` that remains once every
   * leading and trailing space is dropped; it neither starts nor ends with a space.
   */
  function TrimSpace(s: string): (r: string)
    ensures exists i, j :: 0 <= i <= j <= |s| && r == s[i..j]
                           && (forall k :: 0 <= k < i ==> IsSpace(s[k]))
                           && (forall k :: j <= k < |s| ==> IsSpace(s[k]))
    ensures r == [] || (!IsSpace(r[0]) && !IsSpace(r[|r| - 1]))
  {
    var l := TrimLeft(s);
    var r := TrimRight(l);
    TrimLeftSuffix(s);
    TrimRightPrefix(l);
    assert r == s[|s| - |l|..][..|r|] == s[|s| - |l|..|s| - |l| + |r|];
    r
  }

  predicate IsAsciiUpper(c: char)
  {
    'A' <= c <= 'Z'
  }

  /** True when no character of `s` is an ASCII capital letter. */
  predicate NoAsciiUpper(s: string)
  {
    forall i :: 0 <= i < |s| ==> !IsAsciiUpper(s[i])
  }

  /** `unicode.ToLower` restricted to ASCII: capitals move to the lower-case block, all else stays. */
  function LowerChar(c: char): (r: char)
    ensures !IsAsciiUpper(r)
    ensures IsAsciiUpper(c) ==> r as int == c as int + 32
    ensures !IsAsciiUpper(c) ==> r == c
  {
    if IsAsciiUpper(c) then (c as int + 32) as char else c
  }

  /** `strings.ToLower` over ASCII: same length, every character lowered in place. */
  function ToLower(s: string): (r: string)
    ensures |r| == |s|
    ensures forall i :: 0 <= i < |s| ==> r[i] == LowerChar(s[i])
    ensures NoAsciiUpper(r)
  {
    seq(|s|, i requires 0 <= i < |s| => LowerChar(s[i]))
  }

  /** `strings.HasPrefix`. */
  predicate HasPrefix(s: string, prefix: string)
  {
    |prefix| <= |s| && s[..|prefix|] == prefix
  }

  /** `strings.Contains`: `sub` occurs at some position of `s`. */
  predicate Contains(s: string, sub: string)
  {
    exists i :: 0 <= i <= |s| - |sub| && HasPrefix(s[i..], sub)
  }

  /**
   * `strings.Replace(s, pat, rep, -1)` for a non-empty `pat`: one left-to-right
   * pass that replaces every non-overlapping occurrence, resuming the search just
   * after each replaced occurrence.
   */
  function ReplaceAll(s: string, pat: string, rep: string): (r: string)
    requires |pat| > 0
    ensures |rep| <= |pat| ==> |r| <= |s|
    decreases |s|
  {
    if |s| < |pat| then s
    else if HasPrefix(s, pat) then rep + ReplaceAll(s[|pat|..], pat, rep)
    else [s[0]] + ReplaceAll(s[1..], pat, rep)
  }

  /** Replacing with text that holds no capital never introduces one. */
  lemma {:induction false} ReplaceAllNoAsciiUpper(s: string, pat: string, rep: string)
    requires |pat| > 0 && NoAsciiUpper(s) && NoAsciiUpper(rep)
    ensures NoAsciiUpper(ReplaceAll(s, pat, rep))
    decreases |s|
  {
    if |s| >= |pat| {
      if HasPrefix(s, pat) {
        ReplaceAllNoAsciiUpper(s[|pat|..], pat, rep);
      } else {
        ReplaceAllNoAsciiUpper(s[1..], pat, rep);
      }
    }
  }

  /** A prefix that holds no first character of `pat` passes through `ReplaceAll` untouched. */
  lemma {:induction false} ReplaceAllSkip(a: string, b: string, pat: string, rep: string)
    requires |pat| > 0 && pat[0] !in a
    ensures ReplaceAll(a + b, pat, rep) == a + ReplaceAll(b, pat, rep)
    decreases |a|
  {
    if a == [] {
      assert a + b == b;
    } else {
      assert (a + b)[1..] == a[1..] + b;
      ReplaceAllSkip(a[1..], b, pat, rep);
      assert (a + b)[0] != pat[0];
    }
  }

  /** A prefix at none of whose positions `pat` starts is copied unchanged in front of the replaced rest. */
  lemma {:induction false} ReplaceAllNoMatchIn(a: string, b: string, pat: string, rep: string)
    requires |pat| > 0
    requires forall k :: 0 <= k < |a| ==> !HasPrefix((a + b)[k..], pat)
    ensures ReplaceAll(a + b, pat, rep) == a + ReplaceAll(b, pat, rep)
    decreases |a|
  {
    var s := a + b;
    if a == [] {
      assert s == b;
    } else if |s| >= |pat| {
      var t := a[1..] + b;
      assert s[1..] == t;
      assert !HasPrefix(s[0..], pat) && s[0..] == s;
      forall k | 0 <= k < |a| - 1
        ensures !HasPrefix(t[k..], pat)
      {
        assert t[k..] == s[k + 1..];
      }
      ReplaceAllNoMatchIn(a[1..], b, pat, rep);
      assert ReplaceAll(s, pat, rep) == [a[0]] + ReplaceAll(t, pat, rep);
      assert [a[0]] + a[1..] == a;
    }
  }

  /**
   * The first occurrence of `pat` is the one replaced, and the search resumes just
   * after it: `a` may hold anything as long as no occurrence starts inside it.
   */
  lemma ReplaceAllFirst(a: string, b: string, pat: string, rep: string)
    requires |pat| > 0
    requires forall k :: 0 <= k < |a| ==> !HasPrefix((a + pat + b)[k..], pat)
    ensures ReplaceAll(a + pat + b, pat, rep) == a + rep + ReplaceAll(b, pat, rep)
  {
    assert a + pat + b == a + (pat + b);
    ReplaceAllNoMatchIn(a, pat + b, pat, rep);
    assert HasPrefix(pat + b, pat);
    assert (pat + b)[|pat|..] == b;
  }

  /**
   * A piece `x` that starts with the first character of `pat` but does not start an
   * occurrence passes through, when nothing else around it holds that character.
   */
  lemma ReplaceAllPassOver(a: string, x: string, b: string, pat: string, rep: string)
    requires |pat| > 0 && |x| > 0 && pat[0] !in a && pat[0] !in x[1..] && pat[0] !in b
    requires !HasPrefix(x + b, pat)
    ensures ReplaceAll(a + x + b, pat, rep) == a + x + b
  {
    var xb := x + b;
    ReplaceAllSkip(a, xb, pat, rep);
    assert a + x + b == a + xb;
    var rest := x[1..] + b;
    assert xb[1..] == rest;
    assert pat[0] !in rest;
    ReplaceAllSkip(rest, [], pat, rep);
    assert rest + [] == rest;
    assert xb == [xb[0]] + rest;
  }

  /** A string in which `pat` does not occur comes back from `ReplaceAll` unchanged. */
  lemma {:induction false} ReplaceAllAbsent(s: string, pat: string, rep: string)
    requires |pat| > 0
    requires !Contains(s, pat)
    ensures ReplaceAll(s, pat, rep) == s
    decreases |s|
  {
    if |s| >= |pat| {
      assert !HasPrefix(s[0..], pat);
      assert s[0..] == s;
      assert !Contains(s[1..], pat) by {
        forall i | 0 <= i <= |s[1..]| - |pat|
          ensures !HasPrefix(s[1..][i..], pat)
        {
          assert s[1..][i..] == s[i + 1..];
          assert !HasPrefix(s[i + 1..], pat);
        }
      }
      ReplaceAllAbsent(s[1..], pat, rep);
    }
  }
}
