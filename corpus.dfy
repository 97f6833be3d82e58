/**
  The corpus of the message generator: eight themes, each with four
  insult templates, four comeback templates and a list of nouns of its
  own, and the proof that it is well formed (no list is empty, every
  template holds exactly one `%s` and no other `%`, no noun holds a `%`).

  Each template is written as `prefix + "%s" + suffix`, which is the same
  string as the one-piece literal; a prefix longer than forty characters
  is written in pieces split between words. The proof is one small lemma
  per template, the cheapest shape for the verifier, gathered list by list
  and theme by theme; the nouns are checked a list at a time.
 */
module Corpus {
  import opened Format

  /**
    A group of topically related templates. Every `%s` of a theme's
    templates is filled from that theme's own nouns.
   */
  datatype Theme = Theme(insults: seq<string>, comebacks: seq<string>, nouns: seq<string>)

  /** A theme can be drawn from: no list is empty, every template holds one `%s`, no noun holds a `%`. */
  predicate WellFormedTheme(th: Theme) {
    && |th.insults| > 0 && |th.comebacks| > 0 && |th.nouns| > 0
    && (forall t :: t in th.insults ==> IsTemplate(t))
    && (forall t :: t in th.comebacks ==> IsTemplate(t))
    && (forall n :: n in th.nouns ==> NoPercent(n))
  }

  /** A corpus can be drawn from: it has a theme and every theme is well formed. */
  predicate WellFormedCorpus(c: seq<Theme>) {
    |c| > 0 && forall th :: th in c ==> WellFormedTheme(th)
  }

  /** The table every message is drawn from, in source order. */
  const Themes: seq<Theme> := [
    Theme(Theme0Insults, Theme0Comebacks, Theme0Nouns),
    Theme(Theme1Insults, Theme1Comebacks, Theme1Nouns),
    Theme(Theme2Insults, Theme2Comebacks, Theme2Nouns),
    Theme(Theme3Insults, Theme3Comebacks, Theme3Nouns),
    Theme(Theme4Insults, Theme4Comebacks, Theme4Nouns),
    Theme(Theme5Insults, Theme5Comebacks, Theme5Nouns),
    Theme(Theme6Insults, Theme6Comebacks, Theme6Nouns),
    Theme(Theme7Insults, Theme7Comebacks, Theme7Nouns)
  ]

  const Theme0Insults: seq<string> := [
    "You code like a " + "%s" + "!",
    "I've seen a " + "%s" + " write better code!",
    "A " + "%s" + " could push cleaner commits!",
    "My grandmother's " + "%s" + " has better coding skills!"
  ]

  const Theme0Comebacks: seq<string> := [
    "How appropriate. You fight like a " + "%s" + ".",
    "And I thought you smelled like a " + "%s" + ".",
    "I'm glad you attended your " + "%s" + " family reunion.",
    "At least a " + "%s" + " can learn. You can't."
  ]

  const Theme0Nouns: seq<string> := [
    "dairy farmer",
    "cow",
    "rubber duck",
    "sea sponge",
    "three-headed monkey",
    "bilge rat",
    "barnacle",
    "parrot",
    "jellyfish",
    "cabin boy"
  ]

  const Theme1Insults: seq<string> := [
    "Your code is as ugly as a " + "%s" + "!",
    "Your functions smell worse than a " + "%s" + "!",
    "Your variables are messier than a " + "%s" + "!",
    "I've seen cleaner logic in a " + "%s" + "!"
  ]

  const Theme1Comebacks: seq<string> := [
    "Yet yours couldn't even pass a " + "%s" + ".",
    "Funny, your " + "%s" + " said the same about your code.",
    "At least my code doesn't crash like " + "your " + "%s" + ".",
    "Still prettier than your " + "%s" + "."
  ]

  const Theme1Nouns: seq<string> := [
    "merge conflict",
    "core dump",
    "stack trace",
    "spaghetti monster",
    "legacy codebase",
    "regex pattern",
    "minified bundle",
    "memory dump",
    "corrupted database"
  ]

  const Theme2Insults: seq<string> := [
    "You debug slower than a " + "%s" + "!",
    "Your debugging skills are worse than a " + "%s" + "!",
    "Even a " + "%s" + " finds bugs faster than you!",
    "A " + "%s" + " could step through code better!"
  ]

  const Theme2Comebacks: seq<string> := [
    "At least I know when to " + "%s" + ".",
    "I'd rather " + "%s" + " than watch you try.",
    "First you'd better learn to " + "%s" + ".",
    "Too bad you can't even " + "%s" + "."
  ]

  const Theme2Nouns: seq<string> := [
    "break out of an infinite loop",
    "exit vim",
    "read a stack trace",
    "use a debugger",
    "check the logs",
    "write a unit test",
    "set a breakpoint",
    "read the docs"
  ]

  const Theme3Insults: seq<string> := [
    "Your deploys are as reliable as a " + "%s" + "!",
    "Your CI pipeline is held together with " + "%s" + "!",
    "Your production server runs on " + "%s" + "!",
    "Your uptime is shorter than a " + "%s" + "!"
  ]

  const Theme3Comebacks: seq<string> := [
    "Your last deploy broke more things than " + "a " + "%s" + ".",
    "At least my " + "%s" + " doesn't page me at 3am.",
    "Better than your " + "%s" + " that never even builds.",
    "Says the one whose " + "%s" + " is always on fire."
  ]

  const Theme3Nouns: seq<string> := [
    "chocolate teapot",
    "mass of duct tape",
    "house of cards",
    "rubber band and a prayer",
    "coffee-stained napkin sketch",
    "server held together with hope",
    "cron job from 2003"
  ]

  const Theme4Insults: seq<string> := [
    "Your git history reads like a " + "%s" + "!",
    "Your commit messages are worse than " + "%s" + "!",
    "Your branches are more tangled than " + "%s" + "!",
    "Your pull requests look like " + "%s" + "!"
  ]

  const Theme4Comebacks: seq<string> := [
    "Your last commit message was just '" + "%s" + "'.",
    "At least I don't " + "%s" + " on every push.",
    "Better than your strategy of '" + "%s" + "'.",
    "Says the one who thinks '" + "%s" + "' is version control."
  ]

  const Theme4Nouns: seq<string> := [
    "fix stuff",
    "force push to main",
    "commit directly to production",
    "WIP WIP WIP final FINAL",
    "rebase and pray",
    "copy the whole folder",
    "undo undo undo",
    "asdfasdf"
  ]

  const Theme5Insults: seq<string> := [
    "You handle errors like a " + "%s" + " handles a sword!",
    "Your exception handling is as graceful " + "as a " + "%s" + "!",
    "You catch bugs like a " + "%s" + " catches cannonballs!",
    "Your error messages are as helpful as a " + "%s" + "!"
  ]

  const Theme5Comebacks: seq<string> := [
    "Your approach is even worse: " + "%s" + ".",
    "At least I don't " + "%s" + " like you do.",
    "Better than your technique of '" + "%s" + "'.",
    "Says the one whose strategy is '" + "%s" + "'."
  ]

  const Theme5Nouns: seq<string> := [
    "catch and ignore everything",
    "blame the user",
    "restart and hope for the best",
    "comment out the failing test",
    "wrap it all in a try-catch and move on",
    "print 'this should never happen'",
    "ship it anyway"
  ]

  const Theme6Insults: seq<string> := [
    "Your architecture looks like it was " + "designed by a " + "%s" + "!",
    "I've seen better design patterns in a " + "%s" + "!",
    "Your system design reminds me of a " + "%s" + "!",
    "A " + "%s" + " has more structure than your codebase!"
  ]

  const Theme6Comebacks: seq<string> := [
    "Your architecture collapses faster than " + "a " + "%s" + ".",
    "At least my code doesn't look like a " + "%s" + ".",
    "Better than your " + "%s" + " of a system.",
    "Says the one building on a " + "%s" + "."
  ]

  const Theme6Nouns: seq<string> := [
    "shipwreck",
    "sandcastle at high tide",
    "house built on quicksand",
    "tower of Babel",
    "Jenga tower in an earthquake",
    "soggy cardboard box",
    "pirate ship full of holes",
    "haunted spaghetti factory"
  ]

  const Theme7Insults: seq<string> := [
    "Your tests cover less than a " + "%s" + "!",
    "Your test suite is as thorough as a " + "%s" + "!",
    "I've seen more coverage from a " + "%s" + "!",
    "Your QA process is just " + "%s" + "!"
  ]

  const Theme7Comebacks: seq<string> := [
    "You don't even know what a " + "%s" + " is.",
    "At least I have tests. You just " + "%s" + ".",
    "Better than your approach of '" + "%s" + "'.",
    "Says the one who thinks " + "%s" + " is optional."
  ]

  const Theme7Nouns: seq<string> := [
    "blindfolded monkey poking a keyboard",
    "crossing your fingers and deploying",
    "testing in production",
    "asking the intern if it works",
    "refreshing the page once",
    "code review",
    "integration testing"
  ]

  /** The corpus is well formed, so every draw of the generator is in bounds and every `Fill` is defined. */
  lemma CorpusWellFormed()
    ensures WellFormedCorpus(Themes)
  {
    forall th | th in Themes
      ensures WellFormedTheme(th)
    {
      var k :| 0 <= k < |Themes| && Themes[k] == th;
      if k == 0 { Theme0WellFormed(); }
      else if k == 1 { Theme1WellFormed(); }
      else if k == 2 { Theme2WellFormed(); }
      else if k == 3 { Theme3WellFormed(); }
      else if k == 4 { Theme4WellFormed(); }
      else if k == 5 { Theme5WellFormed(); }
      else if k == 6 { Theme6WellFormed(); }
      else { Theme7WellFormed(); }
    }
  }

  /** The corpus has 8 themes, each with 4 insult and 4 comeback templates and at least 7 nouns. */
  lemma CorpusSize()
    ensures |Themes| == 8
    ensures forall th :: th in Themes ==> |th.insults| == 4 && |th.comebacks| == 4 && |th.nouns| >= 7
  {
  }

  /** Theme 0 is well formed. */
  lemma Theme0WellFormed()
    ensures WellFormedTheme(Theme(Theme0Insults, Theme0Comebacks, Theme0Nouns))
  {
    Theme0InsultsWellFormed();
    Theme0ComebacksWellFormed();
    Theme0NounsWellFormed();
  }

  /** Every insult template of theme 0 holds one `%s` and no other `%`. */
  lemma Theme0InsultsWellFormed()
    ensures forall t :: t in Theme0Insults ==> IsTemplate(t)
  {
    Theme0Insult0();
    Theme0Insult1();
    Theme0Insult2();
    Theme0Insult3();
  }

  /** Every comeback template of theme 0 holds one `%s` and no other `%`. */
  lemma Theme0ComebacksWellFormed()
    ensures forall t :: t in Theme0Comebacks ==> IsTemplate(t)
  {
    Theme0Comeback0();
    Theme0Comeback1();
    Theme0Comeback2();
    Theme0Comeback3();
  }

  /** No noun of theme 0 holds a `%`. */
  lemma Theme0NounsWellFormed()
    ensures forall n :: n in Theme0Nouns ==> NoPercent(n)
  {
  }

  /** Theme 1 is well formed. */
  lemma Theme1WellFormed()
    ensures WellFormedTheme(Theme(Theme1Insults, Theme1Comebacks, Theme1Nouns))
  {
    Theme1InsultsWellFormed();
    Theme1ComebacksWellFormed();
    Theme1NounsWellFormed();
  }

  /** Every insult template of theme 1 holds one `%s` and no other `%`. */
  lemma Theme1InsultsWellFormed()
    ensures forall t :: t in Theme1Insults ==> IsTemplate(t)
  {
    Theme1Insult0();
    Theme1Insult1();
    Theme1Insult2();
    Theme1Insult3();
  }

  /** Every comeback template of theme 1 holds one `%s` and no other `%`. */
  lemma Theme1ComebacksWellFormed()
    ensures forall t :: t in Theme1Comebacks ==> IsTemplate(t)
  {
    Theme1Comeback0();
    Theme1Comeback1();
    Theme1Comeback2();
    Theme1Comeback3();
  }

  /** No noun of theme 1 holds a `%`. */
  lemma Theme1NounsWellFormed()
    ensures forall n :: n in Theme1Nouns ==> NoPercent(n)
  {
  }

  /** Theme 2 is well formed. */
  lemma Theme2WellFormed()
    ensures WellFormedTheme(Theme(Theme2Insults, Theme2Comebacks, Theme2Nouns))
  {
    Theme2InsultsWellFormed();
    Theme2ComebacksWellFormed();
    Theme2NounsWellFormed();
  }

  /** Every insult template of theme 2 holds one `%s` and no other `%`. */
  lemma Theme2InsultsWellFormed()
    ensures forall t :: t in Theme2Insults ==> IsTemplate(t)
  {
    Theme2Insult0();
    Theme2Insult1();
    Theme2Insult2();
    Theme2Insult3();
  }

  /** Every comeback template of theme 2 holds one `%s` and no other `%`. */
  lemma Theme2ComebacksWellFormed()
    ensures forall t :: t in Theme2Comebacks ==> IsTemplate(t)
  {
    Theme2Comeback0();
    Theme2Comeback1();
    Theme2Comeback2();
    Theme2Comeback3();
  }

  /** No noun of theme 2 holds a `%`. */
  lemma Theme2NounsWellFormed()
    ensures forall n :: n in Theme2Nouns ==> NoPercent(n)
  {
  }

  /** Theme 3 is well formed. */
  lemma Theme3WellFormed()
    ensures WellFormedTheme(Theme(Theme3Insults, Theme3Comebacks, Theme3Nouns))
  {
    Theme3InsultsWellFormed();
    Theme3ComebacksWellFormed();
    Theme3NounsWellFormed();
  }

  /** Every insult template of theme 3 holds one `%s` and no other `%`. */
  lemma Theme3InsultsWellFormed()
    ensures forall t :: t in Theme3Insults ==> IsTemplate(t)
  {
    Theme3Insult0();
    Theme3Insult1();
    Theme3Insult2();
    Theme3Insult3();
  }

  /** Every comeback template of theme 3 holds one `%s` and no other `%`. */
  lemma Theme3ComebacksWellFormed()
    ensures forall t :: t in Theme3Comebacks ==> IsTemplate(t)
  {
    Theme3Comeback0();
    Theme3Comeback1();
    Theme3Comeback2();
    Theme3Comeback3();
  }

  /** No noun of theme 3 holds a `%`. */
  lemma Theme3NounsWellFormed()
    ensures forall n :: n in Theme3Nouns ==> NoPercent(n)
  {
  }

  /** Theme 4 is well formed. */
  lemma Theme4WellFormed()
    ensures WellFormedTheme(Theme(Theme4Insults, Theme4Comebacks, Theme4Nouns))
  {
    Theme4InsultsWellFormed();
    Theme4ComebacksWellFormed();
    Theme4NounsWellFormed();
  }

  /** Every insult template of theme 4 holds one `%s` and no other `%`. */
  lemma Theme4InsultsWellFormed()
    ensures forall t :: t in Theme4Insults ==> IsTemplate(t)
  {
    Theme4Insult0();
    Theme4Insult1();
    Theme4Insult2();
    Theme4Insult3();
  }

  /** Every comeback template of theme 4 holds one `%s` and no other `%`. */
  lemma Theme4ComebacksWellFormed()
    ensures forall t :: t in Theme4Comebacks ==> IsTemplate(t)
  {
    Theme4Comeback0();
    Theme4Comeback1();
    Theme4Comeback2();
    Theme4Comeback3();
  }

  /** No noun of theme 4 holds a `%`. */
  lemma Theme4NounsWellFormed()
    ensures forall n :: n in Theme4Nouns ==> NoPercent(n)
  {
  }

  /** Theme 5 is well formed. */
  lemma Theme5WellFormed()
    ensures WellFormedTheme(Theme(Theme5Insults, Theme5Comebacks, Theme5Nouns))
  {
    Theme5InsultsWellFormed();
    Theme5ComebacksWellFormed();
    Theme5NounsWellFormed();
  }

  /** Every insult template of theme 5 holds one `%s` and no other `%`. */
  lemma Theme5InsultsWellFormed()
    ensures forall t :: t in Theme5Insults ==> IsTemplate(t)
  {
    Theme5Insult0();
    Theme5Insult1();
    Theme5Insult2();
    Theme5Insult3();
  }

  /** Every comeback template of theme 5 holds one `%s` and no other `%`. */
  lemma Theme5ComebacksWellFormed()
    ensures forall t :: t in Theme5Comebacks ==> IsTemplate(t)
  {
    Theme5Comeback0();
    Theme5Comeback1();
    Theme5Comeback2();
    Theme5Comeback3();
  }

  /** No noun of theme 5 holds a `%`. */
  lemma Theme5NounsWellFormed()
    ensures forall n :: n in Theme5Nouns ==> NoPercent(n)
  {
  }

  /** Theme 6 is well formed. */
  lemma Theme6WellFormed()
    ensures WellFormedTheme(Theme(Theme6Insults, Theme6Comebacks, Theme6Nouns))
  {
    Theme6InsultsWellFormed();
    Theme6ComebacksWellFormed();
    Theme6NounsWellFormed();
  }

  /** Every insult template of theme 6 holds one `%s` and no other `%`. */
  lemma Theme6InsultsWellFormed()
    ensures forall t :: t in Theme6Insults ==> IsTemplate(t)
  {
    Theme6Insult0();
    Theme6Insult1();
    Theme6Insult2();
    Theme6Insult3();
  }

  /** Every comeback template of theme 6 holds one `%s` and no other `%`. */
  lemma Theme6ComebacksWellFormed()
    ensures forall t :: t in Theme6Comebacks ==> IsTemplate(t)
  {
    Theme6Comeback0();
    Theme6Comeback1();
    Theme6Comeback2();
    Theme6Comeback3();
  }

  /** No noun of theme 6 holds a `%`. */
  lemma Theme6NounsWellFormed()
    ensures forall n :: n in Theme6Nouns ==> NoPercent(n)
  {
  }

  /** Theme 7 is well formed. */
  lemma Theme7WellFormed()
    ensures WellFormedTheme(Theme(Theme7Insults, Theme7Comebacks, Theme7Nouns))
  {
    Theme7InsultsWellFormed();
    Theme7ComebacksWellFormed();
    Theme7NounsWellFormed();
  }

  /** Every insult template of theme 7 holds one `%s` and no other `%`. */
  lemma Theme7InsultsWellFormed()
    ensures forall t :: t in Theme7Insults ==> IsTemplate(t)
  {
    Theme7Insult0();
    Theme7Insult1();
    Theme7Insult2();
    Theme7Insult3();
  }

  /** Every comeback template of theme 7 holds one `%s` and no other `%`. */
  lemma Theme7ComebacksWellFormed()
    ensures forall t :: t in Theme7Comebacks ==> IsTemplate(t)
  {
    Theme7Comeback0();
    Theme7Comeback1();
    Theme7Comeback2();
    Theme7Comeback3();
  }

  /** No noun of theme 7 holds a `%`. */
  lemma Theme7NounsWellFormed()
    ensures forall n :: n in Theme7Nouns ==> NoPercent(n)
  {
  }

  // One lemma per template of the table.

  lemma Theme0Insult0()
    ensures IsTemplate(Theme0Insults[0])
  {
    PartsFormTemplate("You code like a ", "!");
  }

  lemma Theme0Insult1()
    ensures IsTemplate(Theme0Insults[1])
  {
    PartsFormTemplate("I've seen a ", " write better code!");
  }

  lemma Theme0Insult2()
    ensures IsTemplate(Theme0Insults[2])
  {
    PartsFormTemplate("A ", " could push cleaner commits!");
  }

  lemma Theme0Insult3()
    ensures IsTemplate(Theme0Insults[3])
  {
    PartsFormTemplate("My grandmother's ", " has better coding skills!");
  }

  lemma Theme0Comeback0()
    ensures IsTemplate(Theme0Comebacks[0])
  {
    PartsFormTemplate("How appropriate. You fight like a ", ".");
  }

  lemma Theme0Comeback1()
    ensures IsTemplate(Theme0Comebacks[1])
  {
    PartsFormTemplate("And I thought you smelled like a ", ".");
  }

  lemma Theme0Comeback2()
    ensures IsTemplate(Theme0Comebacks[2])
  {
    PartsFormTemplate("I'm glad you attended your ", " family reunion.");
  }

  lemma Theme0Comeback3()
    ensures IsTemplate(Theme0Comebacks[3])
  {
    PartsFormTemplate("At least a ", " can learn. You can't.");
  }

  lemma Theme1Insult0()
    ensures IsTemplate(Theme1Insults[0])
  {
    PartsFormTemplate("Your code is as ugly as a ", "!");
  }

  lemma Theme1Insult1()
    ensures IsTemplate(Theme1Insults[1])
  {
    PartsFormTemplate("Your functions smell worse than a ", "!");
  }

  lemma Theme1Insult2()
    ensures IsTemplate(Theme1Insults[2])
  {
    PartsFormTemplate("Your variables are messier than a ", "!");
  }

  lemma Theme1Insult3()
    ensures IsTemplate(Theme1Insults[3])
  {
    PartsFormTemplate("I've seen cleaner logic in a ", "!");
  }

  lemma Theme1Comeback0()
    ensures IsTemplate(Theme1Comebacks[0])
  {
    PartsFormTemplate("Yet yours couldn't even pass a ", ".");
  }

  lemma Theme1Comeback1()
    ensures IsTemplate(Theme1Comebacks[1])
  {
    PartsFormTemplate("Funny, your ", " said the same about your code.");
  }

  lemma Theme1Comeback2()
    ensures IsTemplate(Theme1Comebacks[2])
  {
    PartsFormTemplate("At least my code doesn't crash like " + "your ", ".");
  }

  lemma Theme1Comeback3()
    ensures IsTemplate(Theme1Comebacks[3])
  {
    PartsFormTemplate("Still prettier than your ", ".");
  }

  lemma Theme2Insult0()
    ensures IsTemplate(Theme2Insults[0])
  {
    PartsFormTemplate("You debug slower than a ", "!");
  }

  lemma Theme2Insult1()
    ensures IsTemplate(Theme2Insults[1])
  {
    PartsFormTemplate("Your debugging skills are worse than a ", "!");
  }

  lemma Theme2Insult2()
    ensures IsTemplate(Theme2Insults[2])
  {
    PartsFormTemplate("Even a ", " finds bugs faster than you!");
  }

  lemma Theme2Insult3()
    ensures IsTemplate(Theme2Insults[3])
  {
    PartsFormTemplate("A ", " could step through code better!");
  }

  lemma Theme2Comeback0()
    ensures IsTemplate(Theme2Comebacks[0])
  {
    PartsFormTemplate("At least I know when to ", ".");
  }

  lemma Theme2Comeback1()
    ensures IsTemplate(Theme2Comebacks[1])
  {
    PartsFormTemplate("I'd rather ", " than watch you try.");
  }

  lemma Theme2Comeback2()
    ensures IsTemplate(Theme2Comebacks[2])
  {
    PartsFormTemplate("First you'd better learn to ", ".");
  }

  lemma Theme2Comeback3()
    ensures IsTemplate(Theme2Comebacks[3])
  {
    PartsFormTemplate("Too bad you can't even ", ".");
  }

  lemma Theme3Insult0()
    ensures IsTemplate(Theme3Insults[0])
  {
    PartsFormTemplate("Your deploys are as reliable as a ", "!");
  }

  lemma Theme3Insult1()
    ensures IsTemplate(Theme3Insults[1])
  {
    PartsFormTemplate("Your CI pipeline is held together with ", "!");
  }

  lemma Theme3Insult2()
    ensures IsTemplate(Theme3Insults[2])
  {
    PartsFormTemplate("Your production server runs on ", "!");
  }

  lemma Theme3Insult3()
    ensures IsTemplate(Theme3Insults[3])
  {
    PartsFormTemplate("Your uptime is shorter than a ", "!");
  }

  lemma Theme3Comeback0()
    ensures IsTemplate(Theme3Comebacks[0])
  {
    PartsFormTemplate("Your last deploy broke more things than " + "a ", ".");
  }

  lemma Theme3Comeback1()
    ensures IsTemplate(Theme3Comebacks[1])
  {
    PartsFormTemplate("At least my ", " doesn't page me at 3am.");
  }

  lemma Theme3Comeback2()
    ensures IsTemplate(Theme3Comebacks[2])
  {
    PartsFormTemplate("Better than your ", " that never even builds.");
  }

  lemma Theme3Comeback3()
    ensures IsTemplate(Theme3Comebacks[3])
  {
    PartsFormTemplate("Says the one whose ", " is always on fire.");
  }

  lemma Theme4Insult0()
    ensures IsTemplate(Theme4Insults[0])
  {
    PartsFormTemplate("Your git history reads like a ", "!");
  }

  lemma Theme4Insult1()
    ensures IsTemplate(Theme4Insults[1])
  {
    PartsFormTemplate("Your commit messages are worse than ", "!");
  }

  lemma Theme4Insult2()
    ensures IsTemplate(Theme4Insults[2])
  {
    PartsFormTemplate("Your branches are more tangled than ", "!");
  }

  lemma Theme4Insult3()
    ensures IsTemplate(Theme4Insults[3])
  {
    PartsFormTemplate("Your pull requests look like ", "!");
  }

  lemma Theme4Comeback0()
    ensures IsTemplate(Theme4Comebacks[0])
  {
    PartsFormTemplate("Your last commit message was just '", "'.");
  }

  lemma Theme4Comeback1()
    ensures IsTemplate(Theme4Comebacks[1])
  {
    PartsFormTemplate("At least I don't ", " on every push.");
  }

  lemma Theme4Comeback2()
    ensures IsTemplate(Theme4Comebacks[2])
  {
    PartsFormTemplate("Better than your strategy of '", "'.");
  }

  lemma Theme4Comeback3()
    ensures IsTemplate(Theme4Comebacks[3])
  {
    PartsFormTemplate("Says the one who thinks '", "' is version control.");
  }

  lemma Theme5Insult0()
    ensures IsTemplate(Theme5Insults[0])
  {
    PartsFormTemplate("You handle errors like a ", " handles a sword!");
  }

  lemma Theme5Insult1()
    ensures IsTemplate(Theme5Insults[1])
  {
    PartsFormTemplate("Your exception handling is as graceful " + "as a ", "!");
  }

  lemma Theme5Insult2()
    ensures IsTemplate(Theme5Insults[2])
  {
    PartsFormTemplate("You catch bugs like a ", " catches cannonballs!");
  }

  lemma Theme5Insult3()
    ensures IsTemplate(Theme5Insults[3])
  {
    PartsFormTemplate("Your error messages are as helpful as a ", "!");
  }

  lemma Theme5Comeback0()
    ensures IsTemplate(Theme5Comebacks[0])
  {
    PartsFormTemplate("Your approach is even worse: ", ".");
  }

  lemma Theme5Comeback1()
    ensures IsTemplate(Theme5Comebacks[1])
  {
    PartsFormTemplate("At least I don't ", " like you do.");
  }

  lemma Theme5Comeback2()
    ensures IsTemplate(Theme5Comebacks[2])
  {
    PartsFormTemplate("Better than your technique of '", "'.");
  }

  lemma Theme5Comeback3()
    ensures IsTemplate(Theme5Comebacks[3])
  {
    PartsFormTemplate("Says the one whose strategy is '", "'.");
  }

  lemma Theme6Insult0()
    ensures IsTemplate(Theme6Insults[0])
  {
    PartsFormTemplate("Your architecture looks like it was " + "designed by a ", "!");
  }

  lemma Theme6Insult1()
    ensures IsTemplate(Theme6Insults[1])
  {
    PartsFormTemplate("I've seen better design patterns in a ", "!");
  }

  lemma Theme6Insult2()
    ensures IsTemplate(Theme6Insults[2])
  {
    PartsFormTemplate("Your system design reminds me of a ", "!");
  }

  lemma Theme6Insult3()
    ensures IsTemplate(Theme6Insults[3])
  {
    PartsFormTemplate("A ", " has more structure than your codebase!");
  }

  lemma Theme6Comeback0()
    ensures IsTemplate(Theme6Comebacks[0])
  {
    PartsFormTemplate("Your architecture collapses faster than " + "a ", ".");
  }

  lemma Theme6Comeback1()
    ensures IsTemplate(Theme6Comebacks[1])
  {
    PartsFormTemplate("At least my code doesn't look like a ", ".");
  }

  lemma Theme6Comeback2()
    ensures IsTemplate(Theme6Comebacks[2])
  {
    PartsFormTemplate("Better than your ", " of a system.");
  }

  lemma Theme6Comeback3()
    ensures IsTemplate(Theme6Comebacks[3])
  {
    PartsFormTemplate("Says the one building on a ", ".");
  }

  lemma Theme7Insult0()
    ensures IsTemplate(Theme7Insults[0])
  {
    PartsFormTemplate("Your tests cover less than a ", "!");
  }

  lemma Theme7Insult1()
    ensures IsTemplate(Theme7Insults[1])
  {
    PartsFormTemplate("Your test suite is as thorough as a ", "!");
  }

  lemma Theme7Insult2()
    ensures IsTemplate(Theme7Insults[2])
  {
    PartsFormTemplate("I've seen more coverage from a ", "!");
  }

  lemma Theme7Insult3()
    ensures IsTemplate(Theme7Insults[3])
  {
    PartsFormTemplate("Your QA process is just ", "!");
  }

  lemma Theme7Comeback0()
    ensures IsTemplate(Theme7Comebacks[0])
  {
    PartsFormTemplate("You don't even know what a ", " is.");
  }

  lemma Theme7Comeback1()
    ensures IsTemplate(Theme7Comebacks[1])
  {
    PartsFormTemplate("At least I have tests. You just ", ".");
  }

  lemma Theme7Comeback2()
    ensures IsTemplate(Theme7Comebacks[2])
  {
    PartsFormTemplate("Better than your approach of '", "'.");
  }

  lemma Theme7Comeback3()
    ensures IsTemplate(Theme7Comebacks[3])
  {
    PartsFormTemplate("Says the one who thinks ", " is optional.");
  }
}
