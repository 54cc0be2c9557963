/** An approximation of the query rendering `Template(query).render(**{node:
    value})`: every occurrence of the placeholder `{{node}}` is replaced by
    the value, left to right and without overlaps, like `str.replace`.
    Jinja's own expression syntax (spaces inside the braces, filters,
    control blocks) is not modelled; the document keeps each target
    symbolic (`Documents.Target`), so the builder does not depend on this
    module. */
module Template {
  import opened Values
  import opened Text

  /** The placeholder for template variable `key`. */
  function Placeholder(key: string): (p: string)
    ensures |p| == |key| + 4
    ensures p[..2] == "{{" && p[|p| - 2..] == "}}"
    ensures p[2..|p| - 2] == key
  {
    "{{" + key + "}}"
  }

  /** Left-to-right, non-overlapping replacement of `pat` by `rep`. */
  function Replace(t: string, pat: string, rep: string): (r: string)
    requires pat != []
    ensures rep == pat ==> r == t
    decreases |t|
  {
    if |t| < |pat| then t
    else if t[..|pat|] == pat then
      assert t == t[..|pat|] + t[|pat|..];
      rep + Replace(t[|pat|..], pat, rep)
    else
      assert t == [t[0]] + t[1..];
      [t[0]] + Replace(t[1..], pat, rep)
  }

  /** A text without the pattern is left unchanged. */
  lemma {:induction false} ReplaceAbsent(t: string, pat: string, rep: string)
    requires pat != []
    requires forall i: nat :: !OccursAt(t, pat, i)
    ensures Replace(t, pat, rep) == t
    decreases |t|
  {
    if |t| >= |pat| {
      assert !OccursAt(t, pat, 0);
      assert t[0..|pat|] == t[..|pat|];
      forall i: nat ensures !OccursAt(t[1..], pat, i) {
        assert !OccursAt(t, pat, i + 1);
        if i + |pat| <= |t[1..]| {
          assert t[1..][i..i + |pat|] == t[i + 1..i + 1 + |pat|];
        }
      }
      ReplaceAbsent(t[1..], pat, rep);
    }
  }

  /** Text around an occurrence is kept and the occurrence becomes `rep`. */
  lemma ReplaceJoin(a: string, pat: string, rep: string)
    requires pat != []
    requires forall i: nat :: !OccursAt(a, pat, i)
    ensures Replace(pat + a, pat, rep) == rep + a
  {
    assert (pat + a)[..|pat|] == pat;
    assert (pat + a)[|pat|..] == a;
    ReplaceAbsent(a, pat, rep);
  }

  /** The renderer: the template's text with `{{key}}` replaced by `value`. */
  function Render(template: Value, key: string, value: string): (r: string)
    ensures value == Placeholder(key) ==> r == Show(template)
  {
    Replace(Show(template), Placeholder(key), value)
  }

  /** A query without the placeholder renders to itself. */
  lemma RenderConstant(template: Value, key: string, value: string)
    requires forall i: nat :: !OccursAt(Show(template), Placeholder(key), i)
    ensures Render(template, key, value) == Show(template)
  {
    ReplaceAbsent(Show(template), Placeholder(key), value);
  }

  /** A query that starts with the placeholder, followed by text without it,
      renders to the value followed by that text. */
  lemma RenderLeading(key: string, value: string, rest: string)
    requires forall i: nat :: !OccursAt(rest, Placeholder(key), i)
    ensures Render(Str(Placeholder(key) + rest), key, value) == value + rest
  {
    ReplaceJoin(rest, Placeholder(key), value);
  }
}
