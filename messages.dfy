/**
  The message generator: the functions that turn random draws into an
  insult/comeback exchange or a single line. The draws that the source
  takes from `rand.Intn` are passed in as indices and a coin.
 */
module Messages {
  import opened Format
  import opened Corpus

  /** A rendered pair: an insult and the comeback that answers it. */
  datatype Exchange = Exchange(insult: string, comeback: string)

  /**
    The values the generator takes from `rand.Intn`, in the order it takes
    them: the theme, the insult's noun, the comeback's noun, the insult
    template and the comeback template.
   */
  datatype Draws = Draws(theme: nat, noun1: nat, noun2: nat, insult: nat, comeback: nat)

  /**
    Every draw is one that `rand.Intn(len(...))` can return for the list it
    indexes: below that list's length (so the length is positive).
   */
  predicate ValidDraws(d: Draws) {
    && d.theme < |Themes|
    && d.noun1 < |Themes[d.theme].nouns|
    && d.noun2 < |Themes[d.theme].nouns|
    && d.insult < |Themes[d.theme].insults|
    && d.comeback < |Themes[d.theme].comebacks|
  }

  /** `s` is template `tmpl` with its `%s` filled by one of `nouns`. */
  predicate RenderedFrom(s: string, tmpl: string, nouns: seq<string>) {
    IsTemplate(tmpl) && Unfill(tmpl, s).Some? && Unfill(tmpl, s).value in nouns
  }

  /** `s` is an insult of theme `th`: one of its insult templates filled with one of its nouns. */
  predicate IsInsultOf(s: string, th: Theme) {
    exists i :: 0 <= i < |th.insults| && RenderedFrom(s, th.insults[i], th.nouns)
  }

  /** `s` is a comeback of theme `th`: one of its comeback templates filled with one of its nouns. */
  predicate IsComebackOf(s: string, th: Theme) {
    exists j :: 0 <= j < |th.comebacks| && RenderedFrom(s, th.comebacks[j], th.nouns)
  }

  /** Both halves of `ex` come from the one theme `th`. */
  predicate CoherentExchange(ex: Exchange, th: Theme) {
    IsInsultOf(ex.insult, th) && IsComebackOf(ex.comeback, th)
  }

  /**
    `randomChoice`: the element of `s` at the index `rand.Intn(len(s))`
    returned. The index is below `|s|`, so `s` is not empty, and the
    result is one of the elements of `s`.
   */
  function RandomChoice<T>(s: seq<T>, i: nat): (r: T)
    requires i < |s|
    ensures r in s
  {
    s[i]
  }

  /**
    `generateExchange`: both nouns and both templates are drawn from the
    one theme `Themes[d.theme]`, the nouns independently of each other.
    Both halves are fully rendered, and each is the template it was drawn
    from filled with the noun drawn for it.
   */
  function GenerateExchange(d: Draws): (ex: Exchange)
    requires ValidDraws(d)
    ensures CoherentExchange(ex, Themes[d.theme])
    ensures !HasPlaceholder(ex.insult) && !HasPlaceholder(ex.comeback)
    ensures RenderedFrom(ex.insult, Themes[d.theme].insults[d.insult], [Themes[d.theme].nouns[d.noun1]])
    ensures RenderedFrom(ex.comeback, Themes[d.theme].comebacks[d.comeback], [Themes[d.theme].nouns[d.noun2]])
  {
    CorpusWellFormed();
    var t := RandomChoice(Themes, d.theme);
    var noun1 := RandomChoice(t.nouns, d.noun1);
    var noun2 := RandomChoice(t.nouns, d.noun2);
    var insult := RandomChoice(t.insults, d.insult);
    var comeback := RandomChoice(t.comebacks, d.comeback);
    UnfillFill(insult, noun1);
    UnfillFill(comeback, noun2);
    Exchange(Fill(insult, noun1), Fill(comeback, noun2))
  }

  /**
    `generateMessage`: the insult of a fresh exchange when the coin
    (`rand.Intn(2)`) is 0, its comeback when it is 1. Either way the line
    is fully rendered and belongs to the drawn theme.
   */
  function GenerateMessage(d: Draws, coin: nat): (r: string)
    requires ValidDraws(d) && coin < 2
    ensures coin == 0 ==> r == GenerateExchange(d).insult
    ensures coin == 1 ==> r == GenerateExchange(d).comeback
    ensures !HasPlaceholder(r)
    ensures IsInsultOf(r, Themes[d.theme]) || IsComebackOf(r, Themes[d.theme])
  {
    var ex := GenerateExchange(d);
    if coin == 0 then ex.insult else ex.comeback
  }

  /** Every theme can be drawn from: the generator never calls `rand.Intn` with 0. */
  lemma EveryThemeDrawable(k: nat)
    requires k < |Themes|
    ensures ValidDraws(Draws(k, 0, 0, 0, 0))
    ensures WellFormedTheme(Themes[k])
  {
    CorpusWellFormed();
  }

  /**
    Every coherent exchange of a theme is produced by some draws: the
    generator's outputs are exactly the coherent exchanges.
   */
  lemma CoherentExchangeGenerated(ex: Exchange, k: nat)
    requires k < |Themes|
    requires CoherentExchange(ex, Themes[k])
    ensures exists d :: ValidDraws(d) && d.theme == k && GenerateExchange(d) == ex
  {
    var th := Themes[k];
    var i :| 0 <= i < |th.insults| && RenderedFrom(ex.insult, th.insults[i], th.nouns);
    var j :| 0 <= j < |th.comebacks| && RenderedFrom(ex.comeback, th.comebacks[j], th.nouns);
    var n1 :| 0 <= n1 < |th.nouns| && th.nouns[n1] == Unfill(th.insults[i], ex.insult).value;
    var n2 :| 0 <= n2 < |th.nouns| && th.nouns[n2] == Unfill(th.comebacks[j], ex.comeback).value;
    FillUnfill(th.insults[i], ex.insult);
    FillUnfill(th.comebacks[j], ex.comeback);
    var d := Draws(k, n1, n2, i, j);
    assert ValidDraws(d);
    assert GenerateExchange(d) == Exchange(Fill(th.insults[i], th.nouns[n1]), Fill(th.comebacks[j], th.nouns[n2]));
  }

  /**
    Conversely for single lines: every insult and every comeback of a theme
    is the line `GenerateMessage` gives for some draws and coin, the insult
    with coin 0 and the comeback with coin 1.
   */
  lemma MessageGenerated(s: string, k: nat)
    requires k < |Themes|
    requires IsInsultOf(s, Themes[k]) || IsComebackOf(s, Themes[k])
    ensures exists d, coin :: ValidDraws(d) && coin < 2 && d.theme == k && GenerateMessage(d, coin) == s
  {
    var th := Themes[k];
    EveryThemeDrawable(k);
    var other := GenerateExchange(Draws(k, 0, 0, 0, 0));
    var ex := if IsInsultOf(s, th) then Exchange(s, other.comeback) else Exchange(other.insult, s);
    CoherentExchangeGenerated(ex, k);
    var d :| ValidDraws(d) && d.theme == k && GenerateExchange(d) == ex;
    var coin := if IsInsultOf(s, th) then 0 else 1;
    assert GenerateMessage(d, coin) == s;
  }

  /**
    The two nouns are drawn independently: redrawing the comeback's noun as
    any noun of the theme, the insult's own noun included, leaves the
    insult unchanged.
   */
  lemma NounDrawsIndependent(d: Draws, j: nat)
    requires ValidDraws(d)
    requires j < |Themes[d.theme].nouns|
    ensures ValidDraws(d.(noun2 := j))
    ensures GenerateExchange(d.(noun2 := j)).insult == GenerateExchange(d).insult
    ensures RenderedFrom(GenerateExchange(d.(noun2 := j)).comeback, Themes[d.theme].comebacks[d.comeback], [Themes[d.theme].nouns[j]])
  {
  }

  /**
    The generator is not constant: redrawing the insult's noun as a
    different noun of the theme changes the insult.
   */
  lemma NounsDistinguishLines(d: Draws, i: nat)
    requires ValidDraws(d)
    requires i < |Themes[d.theme].nouns| && Themes[d.theme].nouns[i] != Themes[d.theme].nouns[d.noun1]
    ensures ValidDraws(d.(noun1 := i))
    ensures GenerateExchange(d.(noun1 := i)).insult != GenerateExchange(d).insult
  {
    var th := Themes[d.theme];
    var e := d.(noun1 := i);
    assert Unfill(th.insults[d.insult], GenerateExchange(e).insult).value in [th.nouns[i]];
    assert Unfill(th.insults[d.insult], GenerateExchange(d).insult).value in [th.nouns[d.noun1]];
  }

  /** With both noun draws equal, the insult and the comeback carry the same noun. */
  lemma SameNounTwice(d: Draws)
    requires ValidDraws(d) && d.noun1 == d.noun2
    ensures var th, ex := Themes[d.theme], GenerateExchange(d);
      Unfill(th.insults[d.insult], ex.insult) == Unfill(th.comebacks[d.comeback], ex.comeback)
  {
    var th, ex := Themes[d.theme], GenerateExchange(d);
    assert Unfill(th.insults[d.insult], ex.insult).value in [th.nouns[d.noun1]];
    assert Unfill(th.comebacks[d.comeback], ex.comeback).value in [th.nouns[d.noun2]];
  }

  /** The first insult template of the first theme, filled with its first noun. */
  lemma FirstInsultText()
    ensures IsTemplate(Theme0Insults[0])
    ensures Fill(Theme0Insults[0], Theme0Nouns[0]) == "You code like a dairy farmer!"
  {
    FillParts("You code like a ", "!", "dairy farmer");
  }

  /** The first comeback template of the first theme, filled with its first noun. */
  lemma FirstComebackText()
    ensures IsTemplate(Theme0Comebacks[0])
    ensures Fill(Theme0Comebacks[0], Theme0Nouns[0]) == "How appropriate. You fight like a dairy farmer."
  {
    FillParts("How appropriate. You fight like a ", ".", "dairy farmer");
  }

  /** Fixed draws give fixed text: all draws 0 give the first templates of the first theme with its first noun. */
  lemma FirstDrawsText()
    ensures ValidDraws(Draws(0, 0, 0, 0, 0))
    ensures GenerateExchange(Draws(0, 0, 0, 0, 0))
      == Exchange("You code like a dairy farmer!", "How appropriate. You fight like a dairy farmer.")
  {
    assert Themes[0] == Theme(Theme0Insults, Theme0Comebacks, Theme0Nouns);
    FirstInsultText();
    FirstComebackText();
  }

  /** With all draws 0 and coin 0, the line is the first insult. */
  lemma FirstDrawsMessage()
    ensures ValidDraws(Draws(0, 0, 0, 0, 0))
    ensures GenerateMessage(Draws(0, 0, 0, 0, 0), 0) == "You code like a dairy farmer!"
  {
    FirstDrawsText();
  }

  /** Two fixed draws that differ only in the noun give two different lines. */
  lemma GeneratorNotConstant()
    ensures ValidDraws(Draws(0, 0, 0, 0, 0)) && ValidDraws(Draws(0, 1, 0, 0, 0))
    ensures GenerateMessage(Draws(0, 1, 0, 0, 0), 0) != GenerateMessage(Draws(0, 0, 0, 0, 0), 0)
  {
    assert Themes[0] == Theme(Theme0Insults, Theme0Comebacks, Theme0Nouns);
    assert Theme0Nouns[0] != Theme0Nouns[1] by {
      assert |Theme0Nouns[0]| != |Theme0Nouns[1]|;
    }
    NounsDistinguishLines(Draws(0, 0, 0, 0, 0), 1);
  }
}
