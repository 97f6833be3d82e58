# monkeylines message generator in Dafny

A model of the insult/comeback generator of monkeylines (`messages.go`). The
generator holds a fixed table of eight themes. Each theme has four insult
templates, four comeback templates and its own list of nouns. Every template
holds a single `%s`.

`generateExchange` picks a theme and two nouns of that theme, drawn
independently. It then picks an insult template and a comeback template of
that theme, and fills each template's `%s` with one of the nouns.
`generateMessage` makes one exchange and returns its insult or its comeback
on a coin flip.

The model is pure. Every value that `rand.Intn` would return is passed in as
a parameter instead:
- the five draws of `generateExchange`, in the order the source makes them, as a `Draws` value;
- the `rand.Intn(2)` of `generateMessage` as a `coin`.

A draw must be below the length of the list it indexes. That is exactly the
condition under which `rand.Intn(len(...))` does not panic.

There are three modules:
- `Format` models `fmt.Sprintf(template, noun)` for a template with one `%s` and no other `%` (`Fill`), and gives it an inverse (`Unfill`).
- `Corpus` holds the theme table with its exact strings, and proves it well formed, one entry at a time:
  - no list is empty;
  - every template holds one `%s` and no other `%`;
  - no noun holds a `%`.
- `Messages` models `randomChoice`, `generateExchange` and `generateMessage`, and proves what they promise:
  - every output is fully rendered;
  - both halves of an exchange come from the drawn theme;
  - the nouns are drawn independently;
  - the generator's outputs are exactly the coherent exchanges and lines;
  - fixed draws give fixed text.

In `Corpus`, each template is written as `prefix + "%s" + suffix`, and a
prefix longer than forty characters is written in pieces split between
words. The string is the same as the one-piece literal in the source.

`messages.go` performs no check of the table when the program starts.
The model proves the table well formed instead (`Corpus.CorpusWellFormed`),
so every draw is in bounds and every template has exactly the one `%s`
that its single noun fills.

## Model

| member | source | states |
|---|---|---|
| Messages.Exchange | messages.go:8-11 | The output pair: an insult and the comeback that answers it, both strings. |
| Corpus.Theme | messages.go:13-20 | A theme: its insult templates, its comeback templates and the nouns that fill both. |
| Corpus.Themes | messages.go:22-185 | The table of eight themes, with every template and noun equal to the source's literal and in the source's order. |
| Messages.Draws | messages.go:191-197 | The five `rand.Intn` results of `generateExchange`, in the order it takes them: theme, first noun, second noun, insult template, comeback template. |
| Messages.ValidDraws | messages.go:187-189 | Each draw is below the length of the list it indexes, which is the range of `rand.Intn(len(slice))`. |
| Format.Fill | messages.go:196-197 | `Sprintf` of a single-`%s` template yields a string whose length is the template's minus 2 plus the noun's. The output holds a `%` exactly when the noun does, and no `%s` is left when the noun has no `%`. |
| Format.TemplateShape | messages.go:22-185 | Every accepted template is its prefix, then `%s`, then its suffix, with no `%` in either part, so it holds exactly one `%`. |
| Format.TemplateFromParts | messages.go:22-185 | Gluing `%s` between two `%`-free strings gives a template whose prefix and suffix are exactly those strings: the split is unique. |
| Format.FillParts | messages.go:196-197 | Filling `p + "%s" + s` with a noun gives `p + noun + s`. |
| Format.Unfill | messages.go:196-197 | Recovers the noun from a rendered line. When it succeeds, the line's length is the template's minus 2 plus the noun's. |
| Format.UnfillFill | messages.go:196-197 | Round trip: `Unfill(t, Fill(t, noun)) == Some(noun)`. |
| Format.FillUnfill | messages.go:196-197 | Round trip the other way: every line that `Unfill` accepts is `Fill` of the noun it returns. |
| Format.FillInjective | messages.go:196-197 | One template filled with two different nouns gives two different lines. |
| Corpus.CorpusWellFormed | messages.go:22-185 | The table has a theme, and each theme has non-empty insult, comeback and noun lists. Every template holds one `%s` and no other `%`, and no noun holds a `%`. |
| Corpus.CorpusSize | messages.go:22-185 | 8 themes, each with 4 insult templates, 4 comeback templates and at least 7 nouns. |
| Corpus.Theme0WellFormed | messages.go:23-41 | Theme 0 is well formed. |
| Corpus.Theme1WellFormed | messages.go:42-60 | Theme 1 is well formed. |
| Corpus.Theme2WellFormed | messages.go:61-80 | Theme 2 is well formed. |
| Corpus.Theme3WellFormed | messages.go:81-99 | Theme 3 is well formed. |
| Corpus.Theme4WellFormed | messages.go:100-119 | Theme 4 is well formed. |
| Corpus.Theme5WellFormed | messages.go:120-142 | Theme 5 is well formed. |
| Corpus.Theme6WellFormed | messages.go:143-162 | Theme 6 is well formed. |
| Corpus.Theme7WellFormed | messages.go:163-184 | Theme 7 is well formed. |
| Messages.RandomChoice | messages.go:187-189 | For any index below the length of the list, the choice is an element of the list, so the list is not empty. |
| Messages.GenerateExchange | messages.go:191-198 | Both halves belong to the drawn theme. Neither holds a `%s`. The insult is the drawn insult template rendered with the first noun drawn, and the comeback is the drawn comeback template rendered with the second noun drawn. |
| Messages.GenerateMessage | messages.go:201-207 | Coin 0 gives the exchange's insult and coin 1 its comeback. The line holds no `%s` and is an insult or a comeback of the drawn theme. |
| Messages.EveryThemeDrawable | messages.go:187-194 | Every theme is well formed and admits draws, so no `rand.Intn` call in the generator has argument 0. |
| Messages.CoherentExchangeGenerated | messages.go:191-198 | Converse of `GenerateExchange`: every exchange whose insult and comeback both come from one theme is produced by some draws of that theme. |
| Messages.MessageGenerated | messages.go:201-207 | Converse of `GenerateMessage`: every insult or comeback of a theme is the line for some draws and coin. |
| Messages.NounDrawsIndependent | messages.go:193-197 | Redrawing the comeback's noun, as any noun of the theme including the insult's own, leaves the insult unchanged and renders the comeback with the new noun. |
| Messages.NounsDistinguishLines | messages.go:193-196 | Redrawing the insult's noun as a different noun changes the insult. |
| Messages.SameNounTwice | messages.go:193-197 | When both noun draws are equal, the insult and the comeback carry the same noun. |
| Messages.FirstInsultText | messages.go:25-37 | Theme 0's first insult template with its first noun is `"You code like a dairy farmer!"`. |
| Messages.FirstComebackText | messages.go:31-37 | Theme 0's first comeback template with its first noun is `"How appropriate. You fight like a dairy farmer."`. |
| Messages.FirstDrawsText | messages.go:191-198 | All draws 0 give the exchange ("You code like a dairy farmer!", "How appropriate. You fight like a dairy farmer."). |
| Messages.FirstDrawsMessage | messages.go:201-207 | All draws 0 and coin 0 give `"You code like a dairy farmer!"`. |
| Messages.GeneratorNotConstant | messages.go:191-207 | Two fixed draws that differ only in the insult's noun give two different lines. |

## Left out

- `main.go` (the HTTP and TCP servers, page rendering, environment configuration) is not part of this model: it is I/O around the generator.
- The random source: the model takes the draws as parameters. It says nothing about uniformity or about the statistics of many draws, beyond `Messages.GeneratorNotConstant`.
- Concurrent use of the shared random source by several callers is not modelled. The model is pure and has no shared state.
- The model covers only the part of `fmt.Sprintf` that the corpus uses: one `%s` filled with a `%`-free string. Other verbs, `%%`, and argument-count mismatches are not modelled. These cases cannot arise with this corpus, because `Corpus.CorpusWellFormed` proves that every template has a single `%s`.
- Format.Fill: requires a single-`%s` template rather than modelling `Sprintf` on arbitrary format strings. Every call site discharges that requirement through `Corpus.CorpusWellFormed`.
