/** The URL slug of a new service: the title is lower-cased, every run of
    characters other than [a-z0-9] becomes one "-", a "-" at either end is
    removed, and "-" plus a short random base-36 suffix is appended.  The
    random suffix is a parameter. */
module Slug {
  import opened Common

  /** The characters a slug keeps; they are also the base-36 digits. */
  predicate IsSlugChar(c: char)
  {
    IsLowerAscii(c) || IsDigit(c)
  }

  /** Up to six base-36 digits. */
  type Suffix = s: string | |s| <= 6 && forall i :: 0 <= i < |s| ==> IsSlugChar(s[i])

  predicate SlugOrDash(s: string)
  {
    forall i :: 0 <= i < |s| ==> IsSlugChar(s[i]) || s[i] == '-'
  }

  predicate NoDoubleDash(s: string)
  {
    forall i :: 0 <= i < |s| - 1 ==> s[i] != '-' || s[i + 1] != '-'
  }

  /** What a slug base looks like: only [a-z0-9-], no "--", and no "-" at
      either end. */
  predicate WellFormedBase(s: string)
  {
    SlugOrDash(s) && NoDoubleDash(s) && (|s| > 0 ==> s[0] != '-' && s[|s| - 1] != '-')
  }

  /** The letters and digits of a string, in order. */
  function Kept(s: string): (r: string)
    ensures |r| <= |s|
  {
    if s == [] then []
    else (if IsSlugChar(s[0]) then [s[0]] else []) + Kept(s[1..])
  }

  /** Every character outside [a-z0-9] replaced by "-". */
  function Dashify(s: string): (r: string)
    ensures |r| == |s|
  {
    if s == [] then [] else [if IsSlugChar(s[0]) then s[0] else '-'] + Dashify(s[1..])
  }

  /** Every "-" that directly follows another "-" dropped. */
  function Squeeze(s: string): string
  {
    if |s| <= 1 then s
    else if s[0] == '-' && s[1] == '-' then Squeeze(s[1..])
    else [s[0]] + Squeeze(s[1..])
  }

  /** Drops the rest of a run of characters outside [a-z0-9]. */
  function SkipRun(s: string): (r: string)
    ensures |r| <= |s|
    ensures r == [] || IsSlugChar(r[0])
    ensures Kept(r) == Kept(s)
  {
    if s == [] || IsSlugChar(s[0]) then s else SkipRun(s[1..])
  }

  /** A "-" followed by the dashes of a run squeezes like a "-" followed
      by what comes after the run. */
  lemma {:induction false} SqueezeSkipsRun(s: string)
    ensures Squeeze("-" + Dashify(s)) == Squeeze("-" + Dashify(SkipRun(s)))
  {
    if s != [] && !IsSlugChar(s[0]) {
      var d := Dashify(s[1..]);
      assert Dashify(s) == "-" + d;
      assert ("-" + ("-" + d))[1..] == "-" + d;
      SqueezeSkipsRun(s[1..]);
    }
  }

  /** A "-" before a letter or digit (or the end) stays. */
  lemma SqueezeDashFront(s: string)
    requires s == [] || IsSlugChar(s[0])
    ensures Squeeze("-" + Dashify(s)) == "-" + Squeeze(Dashify(s))
  {
    if s != [] {
      assert ("-" + Dashify(s))[1..] == Dashify(s);
    }
  }

  /** A letter or digit in front stays. */
  lemma SqueezeSlugFront(c: char, s: string)
    requires IsSlugChar(c)
    ensures Squeeze([c] + s) == [c] + Squeeze(s)
  {
    if s != [] {
      assert ([c] + s)[1..] == s;
    }
  }

  /** `replace(/[^a-z0-9]+/g, "-")`, one run at a time. */
  function Collapse(s: string): (r: string)
    ensures SlugOrDash(r) && NoDoubleDash(r)
    ensures r == [] <==> s == []
    ensures r != [] ==> (r[0] == '-' <==> !IsSlugChar(s[0]))
    ensures Kept(r) == Kept(s)
    decreases |s|
  {
    if s == [] then []
    else if IsSlugChar(s[0]) then
      var rest := Collapse(s[1..]);
      assert ([s[0]] + rest)[1..] == rest;
      [s[0]] + rest
    else
      var rest := Collapse(SkipRun(s[1..]));
      assert ("-" + rest)[1..] == rest;
      "-" + rest
  }

  /** Collapsing replaces each run of characters outside [a-z0-9] by exactly
      one "-": it equals replacing every such character by "-" and then
      dropping each "-" that follows another. */
  lemma {:induction false} CollapseReplacesRuns(s: string)
    ensures Collapse(s) == Squeeze(Dashify(s))
    decreases |s|
  {
    if s != [] {
      if IsSlugChar(s[0]) {
        CollapseReplacesRuns(s[1..]);
        assert Dashify(s) == [s[0]] + Dashify(s[1..]);
        SqueezeSlugFront(s[0], Dashify(s[1..]));
      } else {
        var run := SkipRun(s[1..]);
        CollapseReplacesRuns(run);
        assert Dashify(s) == "-" + Dashify(s[1..]);
        SqueezeSkipsRun(s[1..]);
        SqueezeDashFront(run);
      }
    }
  }

  /** `replace(/(^-|-$)/g, "")`: one "-" is removed at each end. */
  function TrimDashes(s: string): string
  {
    var a := if |s| > 0 && s[0] == '-' then s[1..] else s;
    if |a| > 0 && a[|a| - 1] == '-' then a[..|a| - 1] else a
  }

  lemma {:induction false} KeptAppend(a: string, b: string)
    ensures Kept(a + b) == Kept(a) + Kept(b)
    decreases |a|
  {
    if a == [] {
      assert a + b == b;
    } else {
      var h := if IsSlugChar(a[0]) then [a[0]] else [];
      assert (a + b)[0] == a[0];
      assert (a + b)[1..] == a[1..] + b;
      assert Kept(a + b) == h + Kept(a[1..] + b);
      KeptAppend(a[1..], b);
      assert h + (Kept(a[1..]) + Kept(b)) == (h + Kept(a[1..])) + Kept(b);
    }
  }

  /** Trimming a collapsed string leaves a well-formed base and loses no
      letter or digit. */
  lemma {:induction false} TrimDashesCorrect(s: string)
    requires SlugOrDash(s) && NoDoubleDash(s)
    ensures WellFormedBase(TrimDashes(s))
    ensures Kept(TrimDashes(s)) == Kept(s)
  {
    var a := if |s| > 0 && s[0] == '-' then s[1..] else s;
    if |s| > 0 && s[0] == '-' {
      assert s == [s[0]] + a;
      KeptAppend([s[0]], a);
    }
    assert SlugOrDash(a) && NoDoubleDash(a);
    assert |a| > 0 ==> a[0] != '-';
    if |a| > 0 && a[|a| - 1] == '-' {
      var t := a[..|a| - 1];
      assert a == t + [a[|a| - 1]];
      KeptAppend(t, [a[|a| - 1]]);
      assert |t| > 0 ==> t[|t| - 1] == a[|a| - 2];
    }
  }

  /** The slug base of a title. */
  function SlugBase(title: string): (r: string)
    ensures WellFormedBase(r)
    ensures Kept(r) == Kept(LowerStr(title))
    ensures r == TrimDashes(Squeeze(Dashify(LowerStr(title))))
  {
    var collapsed := Collapse(LowerStr(title));
    CollapseReplacesRuns(LowerStr(title));
    TrimDashesCorrect(collapsed);
    TrimDashes(collapsed)
  }

  /** The full slug; every character of it is in [a-z0-9-]. */
  function Slug(title: string, suffix: Suffix): (r: string)
    ensures SlugOrDash(r)
    ensures |r| == |SlugBase(title)| + 1 + |suffix|
    ensures r[|r| - |suffix| - 1] == '-' && r[|r| - |suffix|..] == suffix
    ensures r[..|r| - |suffix| - 1] == SlugBase(title)
  {
    SlugBase(title) + "-" + suffix
  }

  /** A well-formed base is left as it is by the collapsing step. */
  lemma {:induction false} CollapseFixesBase(s: string)
    requires SlugOrDash(s) && NoDoubleDash(s)
    ensures Collapse(s) == s
    decreases |s|
  {
    if s != [] {
      assert SlugOrDash(s[1..]) && NoDoubleDash(s[1..]);
      CollapseFixesBase(s[1..]);
      if !IsSlugChar(s[0]) {
        assert s[1..] == [] || IsSlugChar(s[1]);
        assert SkipRun(s[1..]) == s[1..];
        assert s == "-" + s[1..];
      } else {
        assert s == [s[0]] + s[1..];
      }
    }
  }

  /** Normalising a slug base again changes nothing. */
  lemma SlugBaseIdempotent(title: string)
    ensures SlugBase(SlugBase(title)) == SlugBase(title)
  {
    var b := SlugBase(title);
    assert LowerStr(b) == b;
    CollapseFixesBase(b);
  }
}
