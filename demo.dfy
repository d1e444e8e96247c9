/** The example grammar the program is run on: S -> dA, A -> d | aB, B -> bC, C -> cA | aS. */
module DemoGrammar {
  import opened Grammars
  import opened WordGenerator

  const DemoProductions: seq<Production> := [
    Production("S", "dA"), Production("A", "d"), Production("A", "aB"),
    Production("B", "bC"), Production("C", "cA"), Production("C", "aS")
  ]

  /** Builds the example grammar through the mutators, in the program's order. */
  method BuildDemoGrammar() returns (g: Grammar)
    ensures fresh(g)
    ensures g.GetStart() == "S"
    ensures g.nonTerminals == {"S", "A", "B", "C"} && g.terminals == {'a', 'b', 'c', 'd'}
    ensures g.GetProductions() == DemoProductions
  {
    g := new Grammar("S");
    AddDemoSymbols(g);
    AddDemoProductions(g);
  }

  method AddDemoSymbols(g: Grammar)
    requires g.nonTerminals == {} && g.terminals == {}
    modifies g
    ensures g.nonTerminals == {"S", "A", "B", "C"} && g.terminals == {'a', 'b', 'c', 'd'}
    ensures g.productions == old(g.productions)
  {
    g.AddNonTerminal("S");
    g.AddNonTerminal("A");
    g.AddNonTerminal("B");
    g.AddNonTerminal("C");
    g.AddTerminal('a');
    g.AddTerminal('b');
    g.AddTerminal('c');
    g.AddTerminal('d');
  }

  method AddDemoProductions(g: Grammar)
    requires g.productions == []
    modifies g
    ensures g.productions == DemoProductions
    ensures g.nonTerminals == old(g.nonTerminals) && g.terminals == old(g.terminals)
  {
    g.AddProduction("S", "dA");
    g.AddProduction("A", "d");
    g.AddProduction("A", "aB");
    g.AddProduction("B", "bC");
    g.AddProduction("C", "cA");
    g.AddProduction("C", "aS");
  }

  /** Each demo production rewrites one symbol; its right side is one or two symbols long and ends in
      'd' or a nonterminal; the only S-production is S -> dA. */
  lemma DemoProductionShape(i: nat)
    requires i < |DemoProductions|
    ensures var p := DemoProductions[i];
      && |p.from| == 1 && p.from[0] in "SABC"
      && 1 <= |p.to| <= 2 && p.to[|p.to| - 1] in "dSABC"
      && (p.from == "S" ==> p.to == "dA")
  {
  }

  /** On "dA" exactly the two A-productions apply, giving "dd" and "daB" in declaration order. */
  lemma DemoRewritesOfDA()
    ensures Rewrite("dA", DemoProductions[1]) == Some("dd")
    ensures Rewrite("dA", DemoProductions[2]) == Some("daB")
    ensures forall i :: 0 <= i < |DemoProductions| && i != 1 && i != 2 ==> Rewrite("dA", DemoProductions[i]) == None
  {
    DemoProductionsStartWithDemo();
    RewritesOfDA(DemoProductions);
    OnlyARulesApplyToDA();
  }

  lemma DemoProductionsStartWithDemo()
    ensures StartsWithDemo(DemoProductions)
  {
  }

  lemma RewritesOfDA(ps: seq<Production>)
    requires StartsWithDemo(ps)
    ensures Rewrite("dA", ps[1]) == Some("dd")
    ensures Rewrite("dA", ps[2]) == Some("daB")
  {
    assert "dA" == "d" + "A";
    RewriteOfSplit("d", ps[1]);
    RewriteOfSplit("d", ps[2]);
    assert "d" + "d" == "dd";
    assert "d" + "aB" == "daB";
  }

  lemma OnlyARulesApplyToDA()
    ensures forall i :: 0 <= i < |DemoProductions| && i != 1 && i != 2 ==> Rewrite("dA", DemoProductions[i]) == None
  {
    forall i | 0 <= i < |DemoProductions| && i != 1 && i != 2 ensures Rewrite("dA", DemoProductions[i]) == None {
      DemoProductionShape(i);
      assert DemoProductions[i].from[0] != 'A';
      assert "dA"[1..][0] == 'A';
    }
  }

  /** The first productions of a list that starts with the example grammar's six. */
  ghost predicate StartsWithDemo(ps: seq<Production>) {
    && |ps| >= 6
    && ps[0] == Production("S", "dA") && ps[1] == Production("A", "d") && ps[2] == Production("A", "aB")
    && ps[3] == Production("B", "bC") && ps[4] == Production("C", "cA") && ps[5] == Production("C", "aS")
  }

  /** S => dA. */
  lemma DeriveDA(ps: seq<Production>) returns (dA: seq<nat>)
    requires StartsWithDemo(ps)
    ensures Derive(ps, "S", dA) == Some("dA")
  {
    var none: seq<nat> := [];
    assert "" + "S" == "S";
    DeriveStep(ps, "S", none, "", 0, "S", "dA");
    dA := none + [0];
    assert "" + "dA" == "dA";
  }

  /** u + A => u + d, by the production A -> d. */
  lemma DeriveFinalD(ps: seq<Production>, steps: seq<nat>, u: string)
    requires StartsWithDemo(ps) && Derive(ps, "S", steps) == Some(u + "A")
    ensures Reachable(ps, "S", u + "d")
  {
    DeriveStep(ps, "S", steps, u, 1, "A", "d");
  }

  /** dA => daB => dabC. */
  lemma DeriveDabC(ps: seq<Production>, dA: seq<nat>) returns (dabC: seq<nat>)
    requires StartsWithDemo(ps) && Derive(ps, "S", dA) == Some("dA")
    ensures Derive(ps, "S", dabC) == Some("dabC")
  {
    assert "dA" == "d" + "A";
    DeriveStep(ps, "S", dA, "d", 2, "A", "aB");
    var daB := dA + [2];
    assert "d" + "aB" == "da" + "B";
    DeriveStep(ps, "S", daB, "da", 3, "B", "bC");
    dabC := daB + [3];
    assert "da" + "bC" == "dabC";
  }

  /** dabC => dabcA => dabcd. */
  lemma DeriveDabcd(ps: seq<Production>, dabC: seq<nat>)
    requires StartsWithDemo(ps) && Derive(ps, "S", dabC) == Some("dabC")
    ensures Reachable(ps, "S", "dabcd")
  {
    assert "dabC" == "dab" + "C";
    DeriveStep(ps, "S", dabC, "dab", 4, "C", "cA");
    var dabcA := dabC + [4];
    assert "dab" + "cA" == "dabc" + "A";
    DeriveStep(ps, "S", dabcA, "dabc", 1, "A", "d");
    assert "dabc" + "d" == "dabcd";
  }

  /** dabC => dabaS => dabadA. */
  lemma DeriveDabadA(ps: seq<Production>, dabC: seq<nat>) returns (dabadA: seq<nat>)
    requires StartsWithDemo(ps) && Derive(ps, "S", dabC) == Some("dabC")
    ensures Derive(ps, "S", dabadA) == Some("dabadA")
  {
    assert "dabC" == "dab" + "C";
    DeriveStep(ps, "S", dabC, "dab", 5, "C", "aS");
    var dabaS := dabC + [5];
    assert "dab" + "aS" == "daba" + "S";
    DeriveStep(ps, "S", dabaS, "daba", 0, "S", "dA");
    dabadA := dabaS + [0];
    assert "daba" + "dA" == "dabadA";
  }

  /** S => dA => dd. */
  lemma ReachesDD(ps: seq<Production>)
    requires StartsWithDemo(ps)
    ensures Reachable(ps, "S", "dd")
  {
    var dA := DeriveDA(ps);
    assert "dA" == "d" + "A";
    DeriveFinalD(ps, dA, "d");
    assert "d" + "d" == "dd";
  }

  /** S => dA => daB => dabC => dabcA => dabcd. */
  lemma ReachesDabcd(ps: seq<Production>)
    requires StartsWithDemo(ps)
    ensures Reachable(ps, "S", "dabcd")
  {
    var dA := DeriveDA(ps);
    var dabC := DeriveDabC(ps, dA);
    DeriveDabcd(ps, dabC);
  }

  /** S => dA => daB => dabC => dabaS => dabadA => dabadd. */
  lemma ReachesDabadd(ps: seq<Production>)
    requires StartsWithDemo(ps)
    ensures Reachable(ps, "S", "dabadd")
  {
    var dA := DeriveDA(ps);
    var dabC := DeriveDabC(ps, dA);
    var dabadA := DeriveDabadA(ps, dabC);
    assert "dabadA" == "dabad" + "A";
    DeriveFinalD(ps, dabadA, "dabad");
    assert "dabad" + "d" == "dabadd";
  }

  /** Three finished words of the example grammar: each is derivable from S and no production applies to it. */
  lemma DemoWords()
    ensures Reachable(DemoProductions, "S", "dd") && NoRuleApplies(DemoProductions, "dd")
    ensures Reachable(DemoProductions, "S", "dabcd") && NoRuleApplies(DemoProductions, "dabcd")
    ensures Reachable(DemoProductions, "S", "dabadd") && NoRuleApplies(DemoProductions, "dabadd")
  {
    DemoProductionsStartWithDemo();
    ReachesDD(DemoProductions);
    ReachesDabcd(DemoProductions);
    ReachesDabadd(DemoProductions);
    EndsInTerminal("dd");
    EndsInTerminal("dabcd");
    EndsInTerminal("dabadd");
  }

  /** No demo production applies to a string ending in the terminal 'd'. */
  lemma EndsInTerminal(w: string)
    requires |w| >= 1 && w[|w| - 1] == 'd'
    ensures NoRuleApplies(DemoProductions, w)
  {
    forall i | 0 <= i < |DemoProductions| ensures Rewrite(w, DemoProductions[i]) == None {
      DemoProductionShape(i);
      var from := DemoProductions[i].from;
      assert w[|w| - 1..] != from by {
        assert w[|w| - 1..][0] == 'd' != from[0];
      }
    }
  }

  /** Every string derivable from S in the example grammar is S itself, or begins with 'd'
      and ends with 'd' or a nonterminal. */
  ghost predicate DemoShape(w: string) {
    w == "S" || (|w| >= 2 && w[0] == 'd' && w[|w| - 1] in "dSABC")
  }

  /** One demo rewrite keeps the shape. */
  lemma DemoRewriteShape(w: string, i: nat)
    requires DemoShape(w) && i < |DemoProductions| && Rewrite(w, DemoProductions[i]).Some?
    ensures DemoShape(Rewrite(w, DemoProductions[i]).value)
  {
    var p := DemoProductions[i];
    DemoProductionShape(i);
    var r := Rewrite(w, p).value;
    var keep := |w| - |p.from|;
    RewriteParts(w, p);
    assert r[|r| - 1] == r[keep..][|p.to| - 1] == p.to[|p.to| - 1];
    if w == "S" {
      assert w == w[..keep] + p.from && keep == 0;
      assert p.from == "S" && r == r[keep..];
    } else {
      assert r[0] == r[..keep][0] == w[..keep][0] == w[0];
    }
  }

  lemma {:induction false} DemoDerivedShape(steps: seq<nat>)
    ensures Derive(DemoProductions, "S", steps).Some? ==> DemoShape(Derive(DemoProductions, "S", steps).value)
    decreases |steps|
  {
    if steps != [] {
      var init := steps[..|steps| - 1];
      DemoDerivedShape(init);
      var i := steps[|steps| - 1];
      if Derive(DemoProductions, "S", init).Some? && i < |DemoProductions| {
        var w := Derive(DemoProductions, "S", init).value;
        if Rewrite(w, DemoProductions[i]).Some? {
          DemoRewriteShape(w, i);
        }
      }
    }
  }

  /** A string ending in a nonterminal still has a production to apply. */
  lemma NonterminalEndApplies(w: string)
    requires |w| >= 1 && w[|w| - 1] in "SABC"
    ensures !NoRuleApplies(DemoProductions, w)
  {
    var c := w[|w| - 1];
    var i := if c == 'S' then 0 else if c == 'A' then 1 else if c == 'B' then 3 else 4;
    assert w == w[..|w| - 1] + DemoProductions[i].from;
    RewriteOfSplit(w[..|w| - 1], DemoProductions[i]);
  }

  /** Every finished word of the example grammar begins and ends with 'd', so "abc" and "dabca"
      are not among them. */
  lemma DemoFinishedWordsShape(w: string)
    requires Reachable(DemoProductions, "S", w) && NoRuleApplies(DemoProductions, w)
    ensures |w| >= 2 && w[0] == 'd' && w[|w| - 1] == 'd'
  {
    var steps :| Derive(DemoProductions, "S", steps) == Some(w);
    DemoDerivedShape(steps);
    if |w| >= 1 && w[|w| - 1] in "SABC" {
      NonterminalEndApplies(w);
    }
  }

  /** Running the generator on the example grammar, as the program does with the default bound of 15. */
  method DemoGenerate(fuel: nat) returns (words: seq<string>)
    ensures |words| <= 15
    ensures forall w :: w in words ==> |w| >= 2 && w[0] == 'd' && w[|w| - 1] == 'd'
  {
    var g := BuildDemoGrammar();
    var gen := new ValidWordGenerator(g);
    var pending;
    ghost var pushed;
    words, pending, pushed := gen.Generate(fuel);
    forall w | w in words ensures |w| >= 2 && w[0] == 'd' && w[|w| - 1] == 'd' {
      DemoFinishedWordsShape(w);
    }
  }

  /** The one-rule grammar S -> d: its only finished word is "d". */
  const SingleRule: seq<Production> := [Production("S", "d")]

  /** The single rule turns S into d and does not apply to d. */
  lemma SingleRuleRewrites()
    ensures Rewrite("S", SingleRule[0]) == Some("d")
    ensures Rewrite("d", SingleRule[0]) == None
  {
    assert "S" == "" + "S";
    RewriteOfSplit("", SingleRule[0]);
    assert "" + "d" == "d";
    assert "d"[0] != "S"[0];
  }

  /** Everything derivable from S under S -> d is S or d. */
  lemma {:induction false} SingleRuleDerived(steps: seq<nat>)
    ensures Derive(SingleRule, "S", steps).Some? ==> Derive(SingleRule, "S", steps).value in {"S", "d"}
    decreases |steps|
  {
    if steps != [] {
      SingleRuleDerived(steps[..|steps| - 1]);
      SingleRuleRewrites();
    }
  }

  /** Distinct strings drawn from two values number at most two. */
  lemma DistinctFromTwo(s: seq<string>, a: string, b: string)
    requires Distinct(s) && forall x :: x in s ==> x == a || x == b
    ensures |s| <= 2
  {
    if |s| > 2 {
      TwoValuedRepeats(s, a, b);
    }
  }

  /** Distinct strings all equal to one value number at most one. */
  lemma DistinctFromOne(s: seq<string>, a: string)
    requires Distinct(s) && forall x :: x in s ==> x == a
    ensures |s| <= 1
  {
    if |s| > 1 {
      OneValuedRepeats(s, a);
    }
  }

  /** Two or more strings all equal to one value repeat it. */
  lemma OneValuedRepeats(s: seq<string>, a: string)
    requires |s| > 1 && forall x :: x in s ==> x == a
    ensures s[0] == s[1]
  {
    assert s[0] in s && s[1] in s;
  }

  /** Three or more strings drawn from two values repeat one of them. */
  lemma TwoValuedRepeats(s: seq<string>, a: string, b: string)
    requires |s| > 2 && forall x :: x in s ==> x == a || x == b
    ensures exists i, j :: 0 <= i < j < |s| && s[i] == s[j]
  {
    assert s[0] in s && s[1] in s && s[2] in s;
  }

  /** Under S -> d, S and d are the only strings reachable from S. */
  lemma SingleRuleReachableOnly(x: string)
    requires Reachable(SingleRule, "S", x)
    ensures x == "S" || x == "d"
  {
    var steps :| Derive(SingleRule, "S", steps) == Some(x);
    SingleRuleDerived(steps);
  }

  /** S => d, in any list whose first production is S -> d. */
  lemma DeriveSingleD(ps: seq<Production>) returns (steps: seq<nat>)
    requires |ps| >= 1 && ps[0] == Production("S", "d")
    ensures Derive(ps, "S", steps) == Some("d")
  {
    var none: seq<nat> := [];
    assert "" + "S" == "S";
    DeriveStep(ps, "S", none, "", 0, "S", "d");
    steps := none + [0];
    assert "" + "d" == "d";
  }

  /** Under S -> d, d is a finished word. */
  lemma SingleRuleDIsFinished()
    ensures Reachable(SingleRule, "S", "d") && NoRuleApplies(SingleRule, "d")
  {
    SingleRuleRewrites();
    var steps := DeriveSingleD(SingleRule);
  }

  /** Under S -> d, every finished word is d. */
  lemma SingleRuleFinishedIsD(w: string)
    requires Reachable(SingleRule, "S", w) && NoRuleApplies(SingleRule, w)
    ensures w == "d"
  {
    SingleRuleReachableOnly(w);
    SingleRuleRewrites();
  }

  /** What the generator's contract gives for S -> d with a bound of 100 words and 100 iterations:
      the run drains its queue and returns exactly ["d"]. */
  lemma SingleRuleRun(ps: seq<Production>, start: string, words: seq<string>, pending: seq<string>, pushed: seq<string>)
    requires ps == SingleRule && start == "S"
    requires |words| <= 100 && Distinct(words)
    requires forall w :: w in words ==> NoRuleApplies(ps, w)
    requires forall w :: w in words ==> Reachable(ps, start, w)
    requires Distinct(pushed) && forall x :: x in pushed ==> Reachable(ps, start, x)
    requires |pending| <= 1 + |pushed|
    requires pending != [] && |words| < 100 ==> 1 + |pushed| - |pending| == 100
    requires pending == [] && |words| < 100 ==>
      forall steps :: Derive(ps, start, steps).Some? && NoRuleApplies(ps, Derive(ps, start, steps).value)
        ==> Derive(ps, start, steps).value in words
    ensures words == ["d"]
  {
    forall x | x in pushed ensures x == "S" || x == "d" {
      SingleRuleReachableOnly(x);
    }
    DistinctFromTwo(pushed, "S", "d");
    forall w | w in words ensures w == "d" {
      SingleRuleFinishedIsD(w);
    }
    DistinctFromOne(words, "d");
    assert pending == [] && |words| < 100;
    SingleRuleDIsFinished();
    var steps :| Derive(ps, start, steps) == Some("d");
    assert "d" in words;
    assert words == [words[0]] && words[0] == "d";
  }

  /** The grammar S -> d, built through the mutators. */
  method BuildSingleRuleGrammar() returns (g: Grammar)
    ensures g.GetStart() == "S" && g.GetProductions() == SingleRule
  {
    g := new Grammar("S");
    g.AddNonTerminal("S");
    g.AddTerminal('d');
    g.AddProduction("S", "d");
  }

  /** Running the generator on S -> d with a limit of 100 words returns exactly ["d"]. */
  method SingleRuleGenerate() returns (words: seq<string>)
    ensures words == ["d"]
  {
    var g := BuildSingleRuleGrammar();
    var gen := new ValidWordGenerator(g);
    var pending;
    ghost var pushed;
    words, pending, pushed := gen.Generate(100, 100);
    SingleRuleRun(g.productions, g.start, words, pending, pushed);
  }

  /** S -> a, S -> b: the start symbol has two finished rewrites, so the order of the pushes decides
      which word comes out first. */
  const TwoRules: seq<Production> := [Production("S", "a"), Production("S", "b")]

  /** `ps` is S -> a, S -> b, stated rule by rule. */
  predicate IsTwoRules(ps: seq<Production>) {
    |ps| == 2 && ps[0] == Production("S", "a") && ps[1] == Production("S", "b")
  }

  /** A rule whose left-hand side is S does not apply to another one-letter string. */
  lemma NoRewriteOfOtherLetter(x: string, p: Production)
    requires p.from == "S" && |x| == 1 && x != "S"
    ensures Rewrite(x, p) == None
  {
    assert x[|x| - |p.from|..] == x;
  }

  /** Both rules rewrite S, and neither applies to a or b. */
  lemma TwoRulesRewrites()
    ensures Rewrite("S", TwoRules[0]) == Some("a") && Rewrite("S", TwoRules[1]) == Some("b")
    ensures NoRuleApplies(TwoRules, "a") && NoRuleApplies(TwoRules, "b")
  {
    assert "S" == "" + "S";
    RewriteOfSplit("", TwoRules[0]);
    RewriteOfSplit("", TwoRules[1]);
    assert "" + "a" == "a" && "" + "b" == "b";
    assert "a" != "S" by { assert "a"[0] != "S"[0]; }
    assert "b" != "S" by { assert "b"[0] != "S"[0]; }
    forall i | 0 <= i < |TwoRules|
      ensures Rewrite("a", TwoRules[i]).None? && Rewrite("b", TwoRules[i]).None?
    {
      NoRewriteOfOtherLetter("a", TwoRules[i]);
      NoRewriteOfOtherLetter("b", TwoRules[i]);
    }
  }

  /** Expanding S pushes a, then b. */
  lemma TwoRulesFirstStep()
    ensures FreshRewrites(TwoRules, "S", {}, 2) == ["a", "b"]
  {
    TwoRulesRewrites();
    assert FreshRewrites(TwoRules, "S", {}, 1) == ["a"];
  }

  /** Expanding a or b pushes nothing. */
  lemma TwoRulesNoPush(x: string, seen: set<string>)
    requires x == "a" || x == "b"
    ensures FreshRewrites(TwoRules, x, seen, 2) == []
  {
    TwoRulesRewrites();
    assert Rewrite(x, TwoRules[0]) == None && Rewrite(x, TwoRules[1]) == None;
    assert FreshRewrites(TwoRules, x, seen, 1) == [];
  }

  /** The breadth-first run on S -> a | S -> b: the first iteration pushes "a" then "b", in production
      order, and the next two dequeue them without pushing anything. */
  lemma {:induction false} TwoRulesBfs(n: nat)
    ensures n == 0 ==> Bfs(TwoRules, "S", n) == Run(["S"], {}, [])
    ensures 0 < n ==> Bfs(TwoRules, "S", n).pushed == ["a", "b"]
    ensures 0 < n <= 3 ==> Bfs(TwoRules, "S", n).q == ["a", "b"][n - 1..]
    ensures 3 < n ==> Bfs(TwoRules, "S", n).q == []
  {
    if n == 1 {
      TwoRulesFirstStep();
    } else if n > 1 {
      TwoRulesBfs(n - 1);
      var r := Bfs(TwoRules, "S", n - 1);
      if r.q != [] {
        TwoRulesNoPush(r.q[0], r.seen);
      }
    }
  }

  /** Under S -> a | S -> b some rule applies to S and none to a or b. */
  lemma TwoRulesApply(ps: seq<Production>)
    requires IsTwoRules(ps)
    ensures !NoRuleApplies(ps, "S") && NoRuleApplies(ps, "a") && NoRuleApplies(ps, "b")
  {
    assert ps == TwoRules;
    TwoRulesRewrites();
  }

  /** Among the first `n` strings dequeued, S, a, b, the finished ones: none, then a, then a and b. */
  lemma TwoRulesFinished(ps: seq<Production>, n: nat)
    requires IsTwoRules(ps) && 1 <= n <= 3
    ensures n == 1 ==> Finished(ps, ["S", "a", "b"][..n]) == []
    ensures n == 2 ==> Finished(ps, ["S", "a", "b"][..n]) == ["a"]
    ensures n == 3 ==> Finished(ps, ["S", "a", "b"][..n]) == ["a", "b"]
  {
    TwoRulesApply(ps);
    var empty: seq<string> := [];
    assert Finished(ps, empty) == [];
    FinishedSnoc(ps, empty, "S");
    FinishedSnoc(ps, ["S"], "a");
    FinishedSnoc(ps, ["S", "a"], "b");
    assert empty + ["S"] == ["S"] && ["S"] + ["a"] == ["S", "a"] && ["S", "a"] + ["b"] == ["S", "a", "b"];
    var all := ["S", "a", "b"];
    assert all[..1] == ["S"] && all[..2] == ["S", "a"] && all[..3] == all;
  }

  /** What `n` breadth-first steps on S -> a | S -> b leave, as stated through the pushes and the
      queue alone. */
  lemma TwoRulesIterations(ps: seq<Production>, start: string, n: nat, pushed: seq<string>, pending: seq<string>)
    requires IsTwoRules(ps) && start == "S"
    requires n == 1 + |pushed| - |pending|
    requires Bfs(ps, start, n).pushed == pushed && Bfs(ps, start, n).q == pending
    ensures n == 0 ==> pending == ["S"]
    ensures 0 < n ==> pushed == ["a", "b"] && n <= 3
  {
    assert ps == TwoRules;
    TwoRulesBfs(n);
  }

  /** With room for one word and fuel of at least two, the generator on S -> a | S -> b returns ["a"]:
      the word from the first production, which was pushed first. */
  lemma TwoRulesRun(ps: seq<Production>, start: string, fuel: nat, n: nat, words: seq<string>,
                    pending: seq<string>, pushed: seq<string>)
    requires IsTwoRules(ps) && start == "S" && fuel >= 2
    requires |words| <= 1
    requires n == 1 + |pushed| - |pending| <= fuel
    requires Bfs(ps, start, n).pushed == pushed && Bfs(ps, start, n).q == pending
    requires words == Finished(ps, ([start] + pushed)[..n])
    requires pending != [] && |words| < 1 ==> n == fuel
    ensures words == ["a"]
  {
    TwoRulesIterations(ps, start, n, pushed, pending);
    assert ([start] + pushed)[..0] == [];
    assert 0 < n;
    assert [start] + pushed == ["S", "a", "b"];
    TwoRulesStop(ps, fuel, n, words, pending);
  }

  /** Which of the three possible iteration counts the loop stopped at, given one word of room. */
  lemma TwoRulesStop(ps: seq<Production>, fuel: nat, n: nat, words: seq<string>, pending: seq<string>)
    requires IsTwoRules(ps) && fuel >= 2 && 0 < n <= 3 && |pending| == 3 - n && |words| <= 1
    requires words == Finished(ps, ["S", "a", "b"][..n])
    requires pending != [] && |words| < 1 ==> n == fuel
    ensures n == 2 && words == ["a"]
  {
    TwoRulesFinished(ps, n);
    // one iteration emits nothing and leaves a and b queued, so it cannot be where the loop stopped;
    // three iterations would have emitted two words
    assert n == 2;
  }

  /** The grammar S -> a | S -> b, built through the mutators. */
  method BuildTwoRulesGrammar() returns (g: Grammar)
    ensures g.GetStart() == "S" && IsTwoRules(g.GetProductions())
  {
    g := new Grammar("S");
    g.AddNonTerminal("S");
    g.AddTerminal('a');
    g.AddTerminal('b');
    g.AddProduction("S", "a");
    g.AddProduction("S", "b");
  }

  /** Asking the generator on S -> a | S -> b for one word with fuel 10 returns exactly ["a"]. */
  method TwoRulesGenerate() returns (words: seq<string>)
    ensures words == ["a"]
  {
    var g := BuildTwoRulesGrammar();
    var gen := new ValidWordGenerator(g);
    var pending;
    ghost var pushed;
    words, pending, pushed := gen.Generate(10, 1);
    ghost var n := 1 + |pushed| - |pending|;
    TwoRulesRun(gen.g.productions, gen.g.start, 10, n, words, pending, pushed);
  }
}
