/**
 * Threat indicators (known phishing e-mail addresses and domains): how a submitted
 * string is canonicalised, how its type is detected, and how stored indicators are
 * grouped into the feed that clients fetch.
 */
module Indicators {
  import opened Wrappers
  import opened Strings

  /** The type names stored with an indicator. */
  const IndicatorTypeEmail := "email"
  const IndicatorTypeDomain := "domain"

  /** The names of the two collections of a fetched feed. */
  const IndicatorsGroupEmails := "emails"
  const IndicatorsGroupDomains := "domains"

  /**
   * A stored indicator. `kind` is the stored type name (Go's `Type`), `original`
   * the canonical plaintext (empty for an indicator submitted already hashed),
   * `hashed` its SHA-256 hex digest, `datetime` the creation time.
   */
  datatype Indicator = Indicator(
    kind: string,
    original: string,
    hashed: string,
    tags: seq<string>,
    datetime: int,
    owner: string,
    enabled: bool)

  /**
   * The third-party functions the handlers call: the validator library's
   * `email` and `fqdn` checks, and the SHA-256 hex encoder.
   */
  datatype Deps = Deps(
    isEmail: string -> bool,
    isFqdn: string -> bool,
    encodeSHA256: string -> string)

  datatype IndicatorError = InvalidIndicatorType

  predicate IsHexDigit(c: char)
  {
    ('0' <= c <= '9') || ('a' <= c <= 'f') || ('A' <= c <= 'F')
  }

  /** `validateSHA256`: exactly 64 hexadecimal digits, in either case. */
  predicate IsSha256(s: string)
  {
    |s| == 64 && forall i :: 0 <= i < |s| ==> IsHexDigit(s[i])
  }

  /** The four de-obfuscation passes, applied in this order, each one left to right. */
  function Deobfuscate(s: string): (r: string)
    ensures |r| <= |s|
    ensures NoAsciiUpper(s) ==> NoAsciiUpper(r)
  {
    var a := ReplaceAll(s, "[@]", "@");
    var b := ReplaceAll(a, "[.]", ".");
    var c := ReplaceAll(b, "\\@", "@");
    var d := ReplaceAll(c, "\\.", ".");
    if NoAsciiUpper(s) then
      ReplaceAllNoAsciiUpper(s, "[@]", "@");
      ReplaceAllNoAsciiUpper(a, "[.]", ".");
      ReplaceAllNoAsciiUpper(b, "\\@", "@");
      ReplaceAllNoAsciiUpper(c, "\\.", ".");
      d
    else d
  }

  /**
   * Drops a leading "www." from a value that holds no '@'. A value with an '@'
   * (e-mail shaped) keeps its prefix, and nothing but those four characters is
   * ever dropped.
   */
  function StripWww(p: string): (r: string)
    ensures '@' in p ==> r == p
    ensures '@' !in p && HasPrefix(p, "www.") ==> "www." + r == p
    ensures !HasPrefix(p, "www.") ==> r == p
  {
    if '@' !in p && HasPrefix(p, "www.") then p[4..] else p
  }

  /**
   * `cleanIndicator`: trim white space, lower-case, de-obfuscate, then strip "www."
   * from a value with no '@'. The result has no ASCII capital and is never longer
   * than the input.
   */
  function CleanIndicator(s: string): (r: string)
    ensures |r| <= |s|
    ensures NoAsciiUpper(r)
  {
    var t := TrimSpace(s);
    var p := Deobfuscate(ToLower(t));
    var r := StripWww(p);
    assert NoAsciiUpper(r) by {
      if r != p {
        forall i | 0 <= i < |r| ensures !IsAsciiUpper(r[i]) {
          assert r[i] == p[i + 4];
        }
      }
    }
    r
  }

  /** No '[' and no backslash: nothing for the de-obfuscation passes to match. */
  predicate Plain(s: string)
  {
    '[' !in s && '\\' !in s
  }

  /** A plain value comes back from the de-obfuscation passes unchanged. */
  lemma DeobfuscatePlain(s: string)
    requires Plain(s)
    ensures Deobfuscate(s) == s
  {
    ReplaceAllSkip(s, [], "[@]", "@");
    ReplaceAllSkip(s, [], "[.]", ".");
    ReplaceAllSkip(s, [], "\\@", "@");
    ReplaceAllSkip(s, [], "\\.", ".");
    assert s + [] == s;
  }

  /** The pass for `obf` turns its one occurrence into the character it hides. */
  lemma ReplaceSingle(a: string, b: string, obf: string)
    requires Plain(a) && Plain(b) && |obf| > 1 && (obf[0] == '[' || obf[0] == '\\')
    ensures ReplaceAll(a + obf + b, obf, [obf[1]]) == a + [obf[1]] + b
  {
    forall k | 0 <= k < |a|
      ensures !HasPrefix((a + obf + b)[k..], obf)
    {
      assert (a + obf + b)[k..][0] == a[k];
    }
    ReplaceAllFirst(a, b, obf, [obf[1]]);
    ReplaceAllSkip(b, [], obf, [obf[1]]);
    assert b + [] == b;
  }

  /** "[@]" between plain text becomes "@". */
  lemma DeobfuscateBracketAt(a: string, b: string)
    requires Plain(a) && Plain(b)
    ensures Deobfuscate(a + "[@]" + b) == a + "@" + b
  {
    var t := a + "@" + b;
    ReplaceSingle(a, b, "[@]");
    ReplaceAllSkip(t, [], "[.]", ".");
    ReplaceAllSkip(t, [], "\\@", "@");
    ReplaceAllSkip(t, [], "\\.", ".");
    assert t + [] == t;
  }

  /** "[.]" between plain text becomes "."; the earlier "[@]" pass passes over it. */
  lemma DeobfuscateBracketDot(a: string, b: string)
    requires Plain(a) && Plain(b)
    ensures Deobfuscate(a + "[.]" + b) == a + "." + b
  {
    var t := a + "." + b;
    assert ("[.]" + b)[1] == '.';
    ReplaceAllPassOver(a, "[.]", b, "[@]", "@");
    ReplaceSingle(a, b, "[.]");
    ReplaceAllSkip(t, [], "\\@", "@");
    ReplaceAllSkip(t, [], "\\.", ".");
    assert t + [] == t;
  }

  /** "\\@" between plain text becomes "@". */
  lemma DeobfuscateEscapedAt(a: string, b: string)
    requires Plain(a) && Plain(b)
    ensures Deobfuscate(a + "\\@" + b) == a + "@" + b
  {
    var s, t := a + "\\@" + b, a + "@" + b;
    ReplaceAllSkip(s, [], "[@]", "@");
    ReplaceAllSkip(s, [], "[.]", ".");
    assert s + [] == s;
    ReplaceSingle(a, b, "\\@");
    ReplaceAllSkip(t, [], "\\.", ".");
    assert t + [] == t;
  }

  /** "\\." between plain text becomes "."; the earlier "\\@" pass passes over it. */
  lemma DeobfuscateEscapedDot(a: string, b: string)
    requires Plain(a) && Plain(b)
    ensures Deobfuscate(a + "\\." + b) == a + "." + b
  {
    var s := a + "\\." + b;
    ReplaceAllSkip(s, [], "[@]", "@");
    ReplaceAllSkip(s, [], "[.]", ".");
    assert s + [] == s;
    assert ("\\." + b)[1] == '.';
    ReplaceAllPassOver(a, "\\.", b, "\\@", "@");
    ReplaceSingle(a, b, "\\.");
  }

  /** A trimmed, lower-case value comes to the de-obfuscation passes unchanged. */
  lemma CleanSettled(s: string)
    requires s != [] && !IsSpace(s[0]) && !IsSpace(s[|s| - 1]) && NoAsciiUpper(s)
    ensures CleanIndicator(s) == StripWww(Deobfuscate(s))
  {
    assert TrimLeft(s) == s;
    assert TrimRight(s) == s;
    assert ToLower(s) == s;
  }

  /**
   * An e-mail address obfuscated as "user[@]host" is restored to "user@host", and
   * keeps a leading "www." because it holds an '@'.
   */
  lemma CleanObfuscatedEmail(a: string, b: string)
    requires a != [] && b != [] && !IsSpace(a[0]) && !IsSpace(b[|b| - 1])
    requires Plain(a) && Plain(b) && NoAsciiUpper(a) && NoAsciiUpper(b)
    ensures CleanIndicator(a + "[@]" + b) == a + "@" + b
  {
    var s := a + "[@]" + b;
    assert NoAsciiUpper(s) by {
      forall i | 0 <= i < |s| ensures !IsAsciiUpper(s[i]) {
        if i < |a| { assert s[i] == a[i]; }
        else if i >= |a| + 3 { assert s[i] == b[i - |a| - 3]; }
      }
    }
    CleanSettled(s);
    DeobfuscateBracketAt(a, b);
    assert '@' in a + "@" + b by { assert (a + "@" + b)[|a|] == '@'; }
  }

  /** A trimmed, lower-case, plain domain loses exactly its "www." prefix. */
  lemma CleanWwwDomain(s: string)
    requires HasPrefix(s, "www.") && !IsSpace(s[|s| - 1])
    requires NoAsciiUpper(s) && Plain(s) && '@' !in s
    ensures CleanIndicator(s) == s[4..]
  {
    CleanSettled(s);
    DeobfuscatePlain(s);
  }

  /**
   * `cleanIndicator` is not idempotent: only one "www." is stripped per call, so
   * cleaning "www.www.a.com" twice does not give what cleaning it once gives.
   */
  lemma CleanNotIdempotent(s: string)
    requires s == "www.www.a.com"
    ensures CleanIndicator(s) == s[4..]
    ensures CleanIndicator(CleanIndicator(s)) == s[8..] != CleanIndicator(s)
  {
    CleanWwwDomain(s);
    CleanWwwDomain(s[4..]);
  }

  /** The `[@]` pass finds the inner occurrence of "[[@]]", after the outer bracket. */
  lemma NestedFirstPass()
    ensures ReplaceAll("[[@]]", "[@]", "@") == "[@]"
  {
    var s := "[[@]]";
    assert s == "[" + "[@]" + "]";
    assert !HasPrefix(s[0..], "[@]") by { assert s[0..][1] != "[@]"[1]; }
    ReplaceAllFirst("[", "]", "[@]", "@");
    assert ReplaceAll("]", "[@]", "@") == "]";
    assert "[" + "@" + "]" == "[@]";
  }

  /** The later three passes leave the "[@]" that the first pass formed. */
  lemma NestedDeobfuscate()
    ensures Deobfuscate("[[@]]") == "[@]"
  {
    var t := "[@]";
    NestedFirstPass();
    assert !Contains(t, "[.]") by {
      assert t[0..] == t && t[1] != "[.]"[1];
    }
    ReplaceAllAbsent(t, "[.]", ".");
    ReplaceAllSkip(t, [], "\\@", "@");
    ReplaceAllSkip(t, [], "\\.", ".");
    assert t + [] == t;
  }

  /**
   * Each pass runs once, so a replacement can form a new match that stays: "[[@]]"
   * comes out as "[@]", and only a second cleaning turns that into "@".
   */
  lemma CleanNestedBrackets(s: string)
    requires s == "[[@]]"
    ensures CleanIndicator(s) == "[@]"
    ensures CleanIndicator(CleanIndicator(s)) == "@"
  {
    var t := "[@]";
    assert '@' in t by { assert t[1] == '@'; }
    CleanSettled(s);
    NestedDeobfuscate();
    CleanBracketedAt(t);
  }

  /** The bare obfuscated "[@]" cleans to "@". */
  lemma CleanBracketedAt(t: string)
    requires t == "[@]"
    ensures CleanIndicator(t) == "@"
  {
    CleanSettled(t);
    DeobfuscateBracketAt([], []);
    assert [] + t + [] == t && [] + "@" + [] == "@";
    assert "@"[0] == '@';
  }

  /** Two spaces on each side of a value are trimmed away. */
  lemma TrimTwoSpaces(s: string)
    requires |s| >= 6 && IsSpace(s[0]) && IsSpace(s[1]) && IsSpace(s[|s| - 1]) && IsSpace(s[|s| - 2])
    requires !IsSpace(s[2]) && !IsSpace(s[|s| - 3])
    ensures TrimSpace(s) == s[2..|s| - 2]
  {
    var u := s[2..];
    assert TrimLeft(s) == u by {
      assert s[1..][0] == s[1] && s[1..][1..] == u && u[0] == s[2];
      assert TrimLeft(s) == TrimLeft(s[1..]) == TrimLeft(u);
    }
    var v, w := u[..|u| - 1], u[..|u| - 2];
    assert TrimRight(u) == w by {
      assert u[|u| - 1] == s[|s| - 1] && v[|v| - 1] == s[|s| - 2] && w[|w| - 1] == s[|s| - 3];
      assert v[..|v| - 1] == w;
      assert TrimRight(u) == TrimRight(v) == TrimRight(w);
    }
  }

  /** Cleaning a value whose trimmed, lowered form is a plain "www." domain. */
  lemma CleanTrimmedDomain(s: string, w: string)
    requires TrimSpace(s) == w
    requires var l := ToLower(w); HasPrefix(l, "www.") && Plain(l) && '@' !in l
    ensures CleanIndicator(s) == ToLower(w)[4..]
  {
    DeobfuscatePlain(ToLower(w));
  }

  /** The trimmed example, lower-cased, is a plain "www." domain. */
  lemma ExampleLowered()
    ensures var l := ToLower("WWW.Example.com");
      l[4..] == "example.com" && HasPrefix(l, "www.") && Plain(l) && '@' !in l
  {
  }

  /** The padded, capitalised "www." domain is canonicalised to "example.com". */
  lemma CleanExampleDomain()
    ensures CleanIndicator("  WWW.Example.com  ") == "example.com"
  {
    var s := "  WWW.Example.com  ";
    TrimTwoSpaces(s);
    assert s[2..|s| - 2] == "WWW.Example.com";
    ExampleLowered();
    CleanTrimmedDomain(s, s[2..|s| - 2]);
  }

  /**
   * `detectIndicatorType`: the e-mail check is tried first, so a value that is both
   * an e-mail and an FQDN is an e-mail; a value that is neither is an error.
   */
  function DetectIndicatorType(deps: Deps, s: string): (r: Result<string, IndicatorError>)
    ensures r == Success(IndicatorTypeEmail) <==> deps.isEmail(s)
    ensures r == Success(IndicatorTypeDomain) <==> !deps.isEmail(s) && deps.isFqdn(s)
    ensures r.Failure? <==> !deps.isEmail(s) && !deps.isFqdn(s)
  {
    if deps.isEmail(s) then Success(IndicatorTypeEmail)
    else if deps.isFqdn(s) then Success(IndicatorTypeDomain)
    else Failure(InvalidIndicatorType)
  }

  /** The hashes of the indicators of type `t`, in the order the indicators come. */
  function HashesOfType(iocs: seq<Indicator>, t: string): (r: seq<string>)
    ensures |r| <= |iocs|
  {
    if iocs == [] then []
    else
      var last := iocs[|iocs| - 1];
      HashesOfType(iocs[..|iocs| - 1], t) + (if last.kind == t then [last.hashed] else [])
  }

  /** Grouping by type distributes over concatenation: the order of the input is kept. */
  lemma {:induction false} HashesOfTypeAppend(a: seq<Indicator>, b: seq<Indicator>, t: string)
    ensures HashesOfType(a + b, t) == HashesOfType(a, t) + HashesOfType(b, t)
    decreases |b|
  {
    if b != [] {
      var b' := b[..|b| - 1];
      assert (a + b)[..|a + b| - 1] == a + b';
      HashesOfTypeAppend(a, b', t);
    } else {
      assert a + b == a;
    }
  }

  /** A hash is in the group of type `t` exactly when some indicator of type `t` has it. */
  lemma {:induction false} HashesOfTypeMembers(iocs: seq<Indicator>, t: string, h: string)
    ensures h in HashesOfType(iocs, t) <==>
            exists i :: 0 <= i < |iocs| && iocs[i].kind == t && iocs[i].hashed == h
  {
    if iocs != [] {
      var init := iocs[..|iocs| - 1];
      HashesOfTypeMembers(init, t, h);
      assert forall i :: 0 <= i < |init| ==> init[i] == iocs[i];
    }
  }

  /** Two different types share no indicator, so their groups together are no longer than the input. */
  lemma {:induction false} HashesOfTwoTypes(iocs: seq<Indicator>, t1: string, t2: string)
    requires t1 != t2
    ensures |HashesOfType(iocs, t1)| + |HashesOfType(iocs, t2)| <= |iocs|
  {
    if iocs != [] {
      HashesOfTwoTypes(iocs[..|iocs| - 1], t1, t2);
    }
  }

  /**
   * `prepareIndicators`: both groups are always present (possibly empty); each holds,
   * in order, the hashes of the indicators of its type, and other types are dropped.
   */
  method PrepareIndicators(iocs: seq<Indicator>) returns (groups: map<string, seq<string>>)
    ensures groups.Keys == {IndicatorsGroupEmails, IndicatorsGroupDomains}
    ensures groups[IndicatorsGroupEmails] == HashesOfType(iocs, IndicatorTypeEmail)
    ensures groups[IndicatorsGroupDomains] == HashesOfType(iocs, IndicatorTypeDomain)
    ensures |groups[IndicatorsGroupEmails]| + |groups[IndicatorsGroupDomains]| <= |iocs|
  {
    var emails: seq<string> := [];
    var domains: seq<string> := [];
    for i := 0 to |iocs|
      invariant emails == HashesOfType(iocs[..i], IndicatorTypeEmail)
      invariant domains == HashesOfType(iocs[..i], IndicatorTypeDomain)
    {
      var ioc := iocs[i];
      assert iocs[..i + 1][..i] == iocs[..i];
      if ioc.kind == IndicatorTypeEmail {
        emails := emails + [ioc.hashed];
      } else if ioc.kind == IndicatorTypeDomain {
        domains := domains + [ioc.hashed];
      }
    }
    assert iocs[..|iocs|] == iocs;
    HashesOfTwoTypes(iocs, IndicatorTypeEmail, IndicatorTypeDomain);
    groups := map[IndicatorsGroupEmails := emails, IndicatorsGroupDomains := domains];
  }
}
