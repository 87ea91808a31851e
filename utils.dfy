/** `slugify`: lower-case the text, then replace every run of whitespace
    (the regular expression `/\s+/g`) by a single "-".

    Case folding is ASCII only, and whitespace is the ASCII set: space, tab,
    line feed, vertical tab, form feed and carriage return. */
module Utils {

  predicate IsWhitespace(c: char) {
    c == ' ' || '\t' <= c <= '\r'
  }

  predicate IsUpper(c: char) {
    'A' <= c <= 'Z'
  }

  predicate NoWhitespace(s: string) {
    forall i :: 0 <= i < |s| ==> !IsWhitespace(s[i])
  }

  predicate NoUpper(s: string) {
    forall i :: 0 <= i < |s| ==> !IsUpper(s[i])
  }

  function LowerChar(c: char): (l: char)
    ensures !IsUpper(l)
    ensures IsUpper(c) ==> l as int == c as int + 32
    ensures !IsUpper(c) ==> l == c
  {
    if IsUpper(c) then (c as int + 32) as char else c
  }

  /** `toLowerCase()`: upper-case letters become lower case, everything else
      stays where it is. */
  function ToLowerCase(s: string): (r: string)
    ensures |r| == |s| && NoUpper(r)
    ensures forall i :: 0 <= i < |s| ==> r[i] == LowerChar(s[i])
  {
    if s == [] then [] else [LowerChar(s[0])] + ToLowerCase(s[1..])
  }

  /** What remains once the run of whitespace at the front is consumed. */
  function SkipWhitespace(s: string): (r: string)
    ensures |r| <= |s|
    ensures r == [] || !IsWhitespace(r[0])
  {
    if s == [] || !IsWhitespace(s[0]) then s else SkipWhitespace(s[1..])
  }

  /** The skipped prefix is whitespace, and what remains is a suffix. */
  lemma {:induction false} SkipIsSuffix(s: string)
    ensures SkipWhitespace(s) == s[|s| - |SkipWhitespace(s)|..]
    ensures forall i :: 0 <= i < |s| - |SkipWhitespace(s)| ==> IsWhitespace(s[i])
  {
    if s != [] && IsWhitespace(s[0]) {
      SkipIsSuffix(s[1..]);
    }
  }

  /** `replace(/\s+/g, "-")`: each maximal whitespace run becomes one "-". */
  function CollapseWhitespace(s: string): (r: string)
    ensures NoWhitespace(r)
    decreases |s|
  {
    if s == [] then []
    else if IsWhitespace(s[0]) then "-" + CollapseWhitespace(SkipWhitespace(s[1..]))
    else [s[0]] + CollapseWhitespace(s[1..])
  }

  function Slugify(text: string): (slug: string)
    ensures NoWhitespace(slug) && NoUpper(slug)
  {
    var lower := ToLowerCase(text);
    CollapseKeepsNoUpper(lower);
    CollapseWhitespace(lower)
  }

  /** The replacement adds only "-", so it introduces no upper-case letter. */
  lemma {:induction false} CollapseKeepsNoUpper(s: string)
    requires NoUpper(s)
    ensures NoUpper(CollapseWhitespace(s))
    decreases |s|
  {
    if s != [] {
      if IsWhitespace(s[0]) {
        var rest := SkipWhitespace(s[1..]);
        SkipIsSuffix(s[1..]);
        CollapseKeepsNoUpper(rest);
      } else {
        CollapseKeepsNoUpper(s[1..]);
      }
    }
  }

  /** Text without whitespace passes through the replacement unchanged. */
  lemma {:induction false} CollapseWithoutWhitespace(s: string)
    requires NoWhitespace(s)
    ensures CollapseWhitespace(s) == s
  {
    if s != [] {
      CollapseWithoutWhitespace(s[1..]);
    }
  }

  lemma {:induction false} LowerWithoutUpper(s: string)
    requires NoUpper(s)
    ensures ToLowerCase(s) == s
  {
    if s != [] {
      LowerWithoutUpper(s[1..]);
    }
  }

  /** A lower-case string with no whitespace is its own slug. */
  lemma SlugOfSlugText(s: string)
    requires NoUpper(s) && NoWhitespace(s)
    ensures Slugify(s) == s
  {
    LowerWithoutUpper(s);
    CollapseWithoutWhitespace(s);
  }

  /** Slugifying twice is the same as slugifying once. */
  lemma SlugifyIdempotent(text: string)
    ensures Slugify(Slugify(text)) == Slugify(text)
  {
    SlugOfSlugText(Slugify(text));
  }

  /** A nonempty run of whitespace followed by a non-whitespace character
      (or the end) turns into exactly one "-". */
  lemma {:induction false} RunBecomesOneDash(run: string, rest: string)
    requires |run| > 0 && forall i :: 0 <= i < |run| ==> IsWhitespace(run[i])
    requires rest == [] || !IsWhitespace(rest[0])
    ensures CollapseWhitespace(run + rest) == "-" + CollapseWhitespace(rest)
  {
    SkipRun((run + rest)[1..], |run| - 1, rest);
  }

  lemma {:induction false} SkipRun(s: string, n: nat, rest: string)
    requires n <= |s| && s[n..] == rest && forall i :: 0 <= i < n ==> IsWhitespace(s[i])
    requires rest == [] || !IsWhitespace(rest[0])
    ensures SkipWhitespace(s) == rest
  {
    if n > 0 {
      SkipRun(s[1..], n - 1, rest);
    }
  }

  lemma {:induction false} SkipAppend(s: string, t: string)
    requires s != [] && !IsWhitespace(s[|s| - 1])
    ensures SkipWhitespace(s + t) == SkipWhitespace(s) + t
    ensures SkipWhitespace(s) != [] && !IsWhitespace(SkipWhitespace(s)[|SkipWhitespace(s)| - 1])
  {
    if IsWhitespace(s[0]) {
      assert (s + t)[1..] == s[1..] + t;
      SkipAppend(s[1..], t);
    }
  }

  /** Text that ends in a non-whitespace character is slugified
      independently of what follows it. */
  lemma {:induction false} CollapseSplits(s: string, t: string)
    requires s != [] && !IsWhitespace(s[|s| - 1])
    ensures CollapseWhitespace(s + t) == CollapseWhitespace(s) + CollapseWhitespace(t)
    decreases |s|
  {
    assert (s + t)[0] == s[0];
    assert (s + t)[1..] == s[1..] + t;
    if IsWhitespace(s[0]) {
      var rest := SkipWhitespace(s[1..]);
      SkipAppend(s[1..], t);
      CollapseSplits(rest, t);
    } else if |s| > 1 {
      CollapseSplits(s[1..], t);
    } else {
      assert s[1..] + t == t;
    }
  }

  /** The characters that are neither whitespace nor "-", in order. */
  function Letters(s: string): string {
    if s == [] then []
    else if IsWhitespace(s[0]) || s[0] == '-' then Letters(s[1..])
    else [s[0]] + Letters(s[1..])
  }

  lemma {:induction false} SkippedRunHasNoLetters(s: string)
    ensures Letters(SkipWhitespace(s)) == Letters(s)
  {
    if s != [] && IsWhitespace(s[0]) {
      SkippedRunHasNoLetters(s[1..]);
    }
  }

  /** Apart from the dashes, the replacement keeps every non-whitespace
      character, in its original order. */
  lemma {:induction false} CollapseKeepsLetters(s: string)
    ensures Letters(CollapseWhitespace(s)) == Letters(s)
    decreases |s|
  {
    if s != [] {
      if IsWhitespace(s[0]) {
        var rest := SkipWhitespace(s[1..]);
        CollapseKeepsLetters(rest);
        SkippedRunHasNoLetters(s[1..]);
        assert ("-" + CollapseWhitespace(rest))[1..] == CollapseWhitespace(rest);
      } else {
        CollapseKeepsLetters(s[1..]);
        assert ([s[0]] + CollapseWhitespace(s[1..]))[1..] == CollapseWhitespace(s[1..]);
      }
    }
  }
}
