/** `slugify(text)` of the customizer editor: lower-case, trim, turn each run of white space
    into one `-`, then drop every character other than `a`-`z`, `0`-`9` and `-`. */
module Slug {
  import opened Js

  predicate IsSlugChar(c: char) {
    ('a' <= c <= 'z') || ('0' <= c <= '9') || c == '-'
  }

  predicate AllSlugChars(s: string) {
    forall i :: 0 <= i < |s| ==> IsSlugChar(s[i])
  }

  /** `.replace(/\s+/g, "-")`: every maximal run of white space becomes a single dash. */
  function Dashify(s: string): (r: string)
    ensures (forall i :: 0 <= i < |s| ==> !IsSpace(s[i])) ==> r == s
    decreases |s|
  {
    if s == [] then []
    else if IsSpace(s[0]) then
      var rest := TrimStart(s);
      "-" + Dashify(rest)
    else [s[0]] + Dashify(s[1..])
  }

  /** `.replace(/[^a-z0-9\-]/g, "")`: keep the slug characters, in order. */
  function KeepSlugChars(s: string): (r: string)
    ensures AllSlugChars(r)
    ensures |r| <= |s|
    ensures AllSlugChars(s) ==> r == s
  {
    if s == [] then []
    else if IsSlugChar(s[0]) then [s[0]] + KeepSlugChars(s[1..])
    else KeepSlugChars(s[1..])
  }

  function Slugify(text: string): (r: string)
    ensures AllSlugChars(r)
  {
    KeepSlugChars(Dashify(Trim(Lower(text))))
  }

  /** A string made of slug characters is its own slug. */
  lemma SlugFixedPoint(s: string)
    requires AllSlugChars(s)
    ensures Slugify(s) == s
  {
    forall i | 0 <= i < |s|
      ensures !IsSpace(s[i]) && LowerChar(s[i]) == s[i]
    {
      assert IsSlugChar(s[i]);
    }
    var lower := Lower(s);
    assert lower == s;
    assert TrimStart(s) == s by {
      if s != [] { assert !IsSpace(s[0]); }
    }
    assert TrimEnd(s) == s by {
      if s != [] { assert !IsSpace(s[|s| - 1]); }
    }
    assert Trim(s) == s;
    assert Dashify(s) == s;
  }

  /** Slugifying a slug changes nothing. */
  lemma SlugifyIdempotent(text: string)
    ensures Slugify(Slugify(text)) == Slugify(text)
  {
    SlugFixedPoint(Slugify(text));
  }

  lemma SlugCharsConcat(a: string, b: string)
    requires AllSlugChars(a) && AllSlugChars(b)
    ensures AllSlugChars(a + b)
  {
    forall i | 0 <= i < |a + b|
      ensures IsSlugChar((a + b)[i])
    {
      if i < |a| {
        assert (a + b)[i] == a[i];
      } else {
        assert (a + b)[i] == b[i - |a|];
      }
    }
  }

  /** The values `addPickerOption` generates, `option-<n>`, are already slugs. */
  lemma OptionValueIsSlug(n: nat)
    ensures Slugify("option-" + DecimalString(n)) == "option-" + DecimalString(n)
  {
    var digits := DecimalString(n);
    assert AllSlugChars(digits);
    SlugCharsConcat("option-", digits);
    SlugFixedPoint("option-" + digits);
  }
}
