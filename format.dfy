/**
  Single-verb string formatting: the part of Go's `fmt.Sprintf` that the
  message generator uses. Every template of the corpus holds exactly one
  `%s` verb and no other `%`, and every argument is a plain noun, so
  `Sprintf(template, noun)` is "replace the one `%s` by the noun".
 */
module Format {

  datatype Option<T> = None | Some(value: T)

  /** True when `s` holds no `%` at all, so it cannot hold a formatting verb. */
  predicate NoPercent(s: string) {
    '%' !in s
  }

  /** True when `s` still holds a `%s` verb somewhere. */
  predicate HasPlaceholder(s: string) {
    exists i :: 0 <= i < |s| - 1 && s[i] == '%' && s[i + 1] == 's'
  }

  /** Position of the first `%` of `t` at or after `i`, or `|t|` when there is none. */
  function PercentIndexFrom(t: string, i: nat): (k: nat)
    requires i <= |t|
    ensures i <= k <= |t|
    ensures NoPercent(t[i..k])
    ensures k < |t| ==> t[k] == '%'
    decreases |t| - i
  {
    if i == |t| then i
    else if t[i] == '%' then i
    else
      var k := PercentIndexFrom(t, i + 1);
      assert t[i..k] == [t[i]] + t[i + 1..k];
      k
  }

  /** Position of the first `%` of `t`, or `|t|` when there is none. */
  function PercentIndex(t: string): (k: nat)
    ensures k <= |t|
    ensures NoPercent(t[..k])
    ensures k < |t| ==> t[k] == '%'
  {
    var k := PercentIndexFrom(t, 0);
    assert t[..k] == t[0..k];
    k
  }

  /** `t` is `t[..k] + "%s" + t[k + 2..]` with no `%` outside that `%s`. */
  predicate SplitAt(t: string, k: int) {
    0 <= k && k + 2 <= |t| && t[k] == '%' && t[k + 1] == 's' && NoPercent(t[..k]) && NoPercent(t[k + 2..])
  }

  /**
    A well-formed template: one `%s` verb and no other `%` anywhere, so
    nothing else in it is interpreted by `Sprintf`.
   */
  predicate IsTemplate(t: string) {
    exists k :: 0 <= k < |t| && SplitAt(t, k)
  }

  /** The split point of a template is unique: it is its first `%`. */
  lemma SplitAtFirstPercent(t: string, k: int)
    requires SplitAt(t, k)
    ensures PercentIndex(t) == k
  {
  }

  /** A template splits at its first `%`. */
  lemma TemplateFirstPercent(t: string)
    requires IsTemplate(t)
    ensures SplitAt(t, PercentIndex(t))
  {
    var k :| 0 <= k < |t| && SplitAt(t, k);
    SplitAtFirstPercent(t, k);
  }

  /** The text before the template's `%s`. */
  function Prefix(t: string): string
    requires IsTemplate(t)
  {
    TemplateFirstPercent(t);
    t[..PercentIndex(t)]
  }

  /** The text after the template's `%s`. */
  function Suffix(t: string): string
    requires IsTemplate(t)
  {
    TemplateFirstPercent(t);
    t[PercentIndex(t) + 2..]
  }

  /**
    A template is exactly `prefix + "%s" + suffix` with no `%` in either
    part, so it holds one `%` in all.
   */
  lemma TemplateShape(t: string)
    requires IsTemplate(t)
    ensures t == Prefix(t) + "%s" + Suffix(t)
    ensures NoPercent(Prefix(t)) && NoPercent(Suffix(t))
    ensures multiset(t)['%'] == 1
  {
    var k := PercentIndex(t);
    TemplateFirstPercent(t);
    assert t[k..k + 2] == "%s";
    assert t == t[..k] + t[k..k + 2] + t[k + 2..];
    assert multiset(t) == multiset(t[..k]) + multiset("%s") + multiset(t[k + 2..]);
    assert multiset(t[..k])['%'] == 0 && multiset(t[k + 2..])['%'] == 0;
  }

  /** Gluing `%s` between two `%`-free strings gives a template. */
  lemma PartsFormTemplate(p: string, s: string)
    requires NoPercent(p) && NoPercent(s)
    ensures IsTemplate(p + "%s" + s)
  {
    var t := p + "%s" + s;
    assert t[..|p|] == p && t[|p| + 2..] == s;
    assert SplitAt(t, |p|);
  }

  /**
    Conversely, gluing `%s` between two `%`-free strings gives a template
    whose prefix and suffix are exactly those strings: the split of a
    template is unique.
   */
  lemma TemplateFromParts(p: string, s: string)
    requires NoPercent(p) && NoPercent(s)
    ensures IsTemplate(p + "%s" + s)
    ensures Prefix(p + "%s" + s) == p && Suffix(p + "%s" + s) == s
  {
    var t := p + "%s" + s;
    PartsFormTemplate(p, s);
    assert t[..|p|] == p && t[|p| + 2..] == s;
    SplitAtFirstPercent(t, |p|);
  }

  /**
    `fmt.Sprintf(t, noun)` for a template with a single `%s`: the noun
    takes the verb's place. The placeholder is filled (no `%s` is left
    when the noun has no `%`), and the output holds a `%` exactly when the
    noun does.
   */
  function Fill(t: string, noun: string): (r: string)
    requires IsTemplate(t)
    ensures |r| == |t| - 2 + |noun|
    ensures NoPercent(r) <==> NoPercent(noun)
    ensures NoPercent(noun) ==> !HasPlaceholder(r)
  {
    TemplateShape(t);
    var r := Prefix(t) + noun + Suffix(t);
    assert forall c :: c in r <==> c in Prefix(t) || c in noun || c in Suffix(t);
    r
  }

  /** Filling `p + "%s" + s` with a noun gives `p + noun + s`. */
  lemma FillParts(p: string, s: string, noun: string)
    requires NoPercent(p) && NoPercent(s)
    ensures IsTemplate(p + "%s" + s)
    ensures Fill(p + "%s" + s, noun) == p + noun + s
  {
    TemplateFromParts(p, s);
  }

  /**
    The inverse of `Fill`: the noun that fills template `t` to give `r`,
    or `None` when `r` is not an instance of `t`.
   */
  function Unfill(t: string, r: string): (n: Option<string>)
    requires IsTemplate(t)
    ensures n.Some? ==> |r| == |t| - 2 + |n.value|
  {
    var p, s := Prefix(t), Suffix(t);
    if |p| + |s| <= |r| && r[..|p|] == p && r[|r| - |s|..] == s
    then Some(r[|p|..|r| - |s|])
    else None
  }

  /** Every output of `Fill` gives its noun back. */
  lemma UnfillFill(t: string, noun: string)
    requires IsTemplate(t)
    ensures Unfill(t, Fill(t, noun)) == Some(noun)
  {
    var p, s, r := Prefix(t), Suffix(t), Fill(t, noun);
    assert r == p + noun + s;
    assert r[..|p|] == p;
    assert r[|r| - |s|..] == s;
    assert r[|p|..|r| - |s|] == noun;
  }

  /** Every string that `Unfill` accepts is the output of `Fill` on what it returns. */
  lemma FillUnfill(t: string, r: string)
    requires IsTemplate(t)
    requires Unfill(t, r).Some?
    ensures Fill(t, Unfill(t, r).value) == r
  {
    var p, s := Prefix(t), Suffix(t);
    var noun := Unfill(t, r).value;
    assert r == r[..|p|] + r[|p|..|r| - |s|] + r[|r| - |s|..];
  }

  /** Two nouns that fill one template to the same text are the same noun. */
  lemma FillInjective(t: string, n1: string, n2: string)
    requires IsTemplate(t)
    requires Fill(t, n1) == Fill(t, n2)
    ensures n1 == n2
  {
    UnfillFill(t, n1);
    UnfillFill(t, n2);
  }
}
