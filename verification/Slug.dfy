/** The tenant slug pattern, as a regular expression with its usual denotation,
    and the direct description of the strings it accepts. */
module Slug {
  datatype CharClass = AlphaNumeric | AlphaNumericOrHyphen

  predicate InClass(c: char, class_: CharClass) {
    'a' <= c <= 'z' || '0' <= c <= '9' || (class_.AlphaNumericOrHyphen? && c == '-')
  }

  /** The fragment of regular expressions the pattern is written in. */
  datatype Regex =
    | One(class_: CharClass)
    | Cat(first: Regex, second: Regex)
    | Maybe(body: Regex)
    | AtMost(class_: CharClass, max: nat)

  /** Anchored matching: `s` as a whole belongs to the language of `r`. */
  predicate Matches(r: Regex, s: string)
    decreases r
  {
    match r
    case One(k) => |s| == 1 && InClass(s[0], k)
    case Cat(a, b) => exists i | 0 <= i <= |s| :: Matches(a, s[..i]) && Matches(b, s[i..])
    case Maybe(b) => s == "" || Matches(b, s)
    case AtMost(k, max) => MatchesAtMost(k, max, s)
  }

  /** `[k]{0,max}`: no characters, or one of the class and then at most `max - 1`. */
  predicate MatchesAtMost(k: CharClass, max: nat, s: string)
    decreases max
  {
    s == "" || (max > 0 && InClass(s[0], k) && MatchesAtMost(k, max - 1, s[1..]))
  }

  /** `^[a-z0-9]([a-z0-9-]{0,48}[a-z0-9])?$` */
  const SLUG_PATTERN: Regex :=
    Cat(One(AlphaNumeric), Maybe(Cat(AtMost(AlphaNumericOrHyphen, 48), One(AlphaNumeric))))

  predicate MatchString(s: string) {
    Matches(SLUG_PATTERN, s)
  }

  /** What a reader would call a slug. */
  predicate IsSlug(s: string) {
    && 1 <= |s| <= 50
    && (forall i | 0 <= i < |s| :: InClass(s[i], AlphaNumericOrHyphen))
    && s[0] != '-'
    && s[|s| - 1] != '-'
  }

  lemma {:induction false} AtMostIsBoundedLength(k: CharClass, max: nat, s: string)
    ensures MatchesAtMost(k, max, s) <==> |s| <= max && forall i | 0 <= i < |s| :: InClass(s[i], k)
    decreases max
  {
    if s == "" || max == 0 {
    } else {
      AtMostIsBoundedLength(k, max - 1, s[1..]);
      assert forall i | 0 < i < |s| :: s[i] == s[1..][i - 1];
    }
  }

  /** The tail of the pattern: up to `max` inner characters and a closing one. */
  lemma TailLanguage(max: nat, s: string)
    ensures Matches(Cat(AtMost(AlphaNumericOrHyphen, max), One(AlphaNumeric)), s)
       <==> 1 <= |s| <= max + 1 && (forall i | 0 <= i < |s| :: InClass(s[i], AlphaNumericOrHyphen)) && s[|s| - 1] != '-'
  {
    var inner, last := AtMost(AlphaNumericOrHyphen, max), One(AlphaNumeric);
    forall i | 0 <= i <= |s| {
      AtMostIsBoundedLength(AlphaNumericOrHyphen, max, s[..i]);
    }
    if |s| > 0 {
      var n := |s| - 1;
      assert s[n..] == [s[n]];
      assert Matches(inner, s[..n]) && Matches(last, s[n..]) ==> Matches(Cat(inner, last), s);
    }
  }

  /** For every string, the pattern accepts exactly the slugs. */
  lemma PatternAcceptsExactlySlugs(s: string)
    ensures MatchString(s) <==> IsSlug(s)
  {
    var head := One(AlphaNumeric);
    var tail := Maybe(Cat(AtMost(AlphaNumericOrHyphen, 48), One(AlphaNumeric)));
    if |s| > 0 {
      TailLanguage(48, s[1..]);
      assert Matches(head, s[..1]) && Matches(tail, s[1..]) ==> MatchString(s);
      assert forall i | 0 <= i < |s| - 1 :: s[1..][i] == s[i + 1];
      assert forall i | 0 < i < |s| :: s[i] == s[1..][i - 1];
    }
    if i :| 0 <= i <= |s| && Matches(head, s[..i]) && Matches(tail, s[i..]) {
      assert i == 1;
    }
  }
}
