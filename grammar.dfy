/** Productions, suffix rewriting and the mutable grammar that holds them. */
module Grammars {

  datatype Option<T> = None | Some(value: T)

  /** A rule "the suffix `from` may be replaced by `to`". Nothing checks that `from` is non-empty. */
  datatype Production = Production(from: string, to: string)

  /** `s` ends with `suffix`; the length test comes first, as in the guard of
      `ValidWordGenerator::generate` in main.cpp. */
  predicate EndsWith(s: string, suffix: string) {
    |suffix| <= |s| && s[|s| - |suffix|..] == suffix
  }

  /** One rewrite step: if `p.from` is a suffix of `cur`, keep the prefix in front of it and append `p.to`. */
  function Rewrite(cur: string, p: Production): (r: Option<string>)
    ensures r.Some? <==> EndsWith(cur, p.from)
    ensures r.Some? ==> |r.value| == |cur| - |p.from| + |p.to|
  {
    if EndsWith(cur, p.from) then
      Some(cur[..|cur| - |p.from|] + p.to)
    else
      None
  }

  /** Rewrite is exactly "split off `from` at the end, put `to` in its place": any split works. */
  lemma RewriteOfSplit(u: string, p: Production)
    ensures Rewrite(u + p.from, p) == Some(u + p.to)
  {
    var cur := u + p.from;
    assert cur[|cur| - |p.from|..] == p.from;
    assert cur[..|cur| - |p.from|] == u;
  }

  /** A rewrite keeps the part of `cur` in front of the replaced suffix and ends with `p.to`. */
  lemma RewriteParts(cur: string, p: Production)
    requires Rewrite(cur, p).Some?
    ensures var keep := |cur| - |p.from|;
      && Rewrite(cur, p).value[..keep] == cur[..keep]
      && Rewrite(cur, p).value[keep..] == p.to
      && cur == cur[..keep] + p.from
  {
  }

  /** No production's left side is a suffix of `w`: the generator emits `w` as a finished word. */
  predicate NoRuleApplies(ps: seq<Production>, w: string) {
    forall i :: 0 <= i < |ps| ==> Rewrite(w, ps[i]).None?
  }

  /** Applying the productions numbered `steps`, in that order, starting from `s`;
      None when a step names no production or its production does not apply. */
  function Derive(ps: seq<Production>, s: string, steps: seq<nat>): Option<string>
    decreases |steps|
  {
    if steps == [] then Some(s)
    else
      match Derive(ps, s, steps[..|steps| - 1])
      case None => None
      case Some(w) =>
        var i := steps[|steps| - 1];
        if i < |ps| then Rewrite(w, ps[i]) else None
  }

  /** Extending a derivation by one production index applies that production to its result. */
  lemma DeriveSnoc(ps: seq<Production>, s: string, steps: seq<nat>, i: nat)
    requires i < |ps|
    requires Derive(ps, s, steps).Some?
    ensures Derive(ps, s, steps + [i]) == Rewrite(Derive(ps, s, steps).value, ps[i])
  {
    assert (steps + [i])[..|steps|] == steps;
  }

  /** One derivation step: the production `from -> to` numbered `i` turns a derived `u + from` into `u + to`. */
  lemma DeriveStep(ps: seq<Production>, s: string, steps: seq<nat>, u: string, i: nat, from: string, to: string)
    requires i < |ps| && ps[i] == Production(from, to)
    requires Derive(ps, s, steps) == Some(u + from)
    ensures Derive(ps, s, steps + [i]) == Some(u + to)
  {
    DeriveSnoc(ps, s, steps, i);
    RewriteOfSplit(u, ps[i]);
  }

  /** `w` can be obtained from `s` by a finite chain of suffix rewrites. */
  ghost predicate Reachable(ps: seq<Production>, s: string, w: string) {
    exists steps :: Derive(ps, s, steps) == Some(w)
  }

  /** A set that holds `s` and is closed under every rewrite holds everything derivable from `s`. */
  lemma {:induction false} ClosedHoldsDerived(ps: seq<Production>, s: string, closed: set<string>, steps: seq<nat>)
    requires s in closed
    requires forall x, i :: x in closed && 0 <= i < |ps| && Rewrite(x, ps[i]).Some? ==> Rewrite(x, ps[i]).value in closed
    ensures Derive(ps, s, steps).Some? ==> Derive(ps, s, steps).value in closed
    decreases |steps|
  {
    if steps != [] {
      ClosedHoldsDerived(ps, s, closed, steps[..|steps| - 1]);
    }
  }

  /** The production system: nonterminals, terminals, productions in declaration order, start symbol.
      The start symbol is written only by the constructor, so it is a constant here. */
  class Grammar {
    var nonTerminals: set<string>
    var terminals: set<char>
    var productions: seq<Production>
    const start: string

    constructor (startSymbol: string)
      ensures start == startSymbol
      ensures nonTerminals == {} && terminals == {} && productions == []
    {
      start := startSymbol;
      nonTerminals, terminals, productions := {}, {}, [];
    }

    /** Membership in the nonterminal set; `AddNonTerminal` makes it true. */
    function IsNonTerminal(s: string): (r: bool)
      reads this
      ensures r <==> s in nonTerminals
    {
      s in nonTerminals
    }

    method AddNonTerminal(nt: string)
      modifies this
      ensures IsNonTerminal(nt)
      ensures nonTerminals == old(nonTerminals) + {nt}
      ensures old(IsNonTerminal(nt)) ==> nonTerminals == old(nonTerminals)
      ensures terminals == old(terminals) && productions == old(productions)
    {
      nonTerminals := nonTerminals + {nt};
    }

    method AddTerminal(t: char)
      modifies this
      ensures terminals == old(terminals) + {t}
      ensures nonTerminals == old(nonTerminals) && productions == old(productions)
    {
      terminals := terminals + {t};
    }

    method AddProduction(from: string, to: string)
      modifies this
      ensures productions == old(productions) + [Production(from, to)]
      ensures nonTerminals == old(nonTerminals) && terminals == old(terminals)
    {
      productions := productions + [Production(from, to)];
    }

    /** The productions in the order they were added. */
    function GetProductions(): (r: seq<Production>)
      reads this
      ensures r == productions
    {
      productions
    }

    /** The start symbol: a constant the constructor sets, so it reads no mutable state. */
    function GetStart(): (r: string)
      ensures r == start
    {
      start
    }
  }
}
