/** Breadth-first enumeration of the finished words of a grammar by suffix rewriting. */
module WordGenerator {
  import opened Grammars

  predicate Distinct(s: seq<string>) {
    forall i, j :: 0 <= i < j < |s| ==> s[i] != s[j]
  }

  /** What the generator's queue and seen set keep true: `done` (the strings dequeued so far) followed by
      the queue `q` is the start symbol followed by every string pushed; `seen` holds exactly the pushed
      strings, each pushed once; a start symbol that no production applies to leads to no push; and
      every pushed string is reachable from the start symbol. */
  ghost predicate QueueState(ps: seq<Production>, start: string, done: seq<string>, q: seq<string>,
                             seen: set<string>, pushed: seq<string>)
  {
    && done + q == [start] + pushed
    && (forall x :: x in seen <==> x in pushed)
    && Distinct(pushed)
    && (NoRuleApplies(ps, start) ==> pushed == [])
    && (forall x :: x in pushed ==> Reachable(ps, start, x))
  }

  /** One more rewrite step keeps a string reachable. */
  lemma ReachableStep(ps: seq<Production>, start: string, x: string, i: nat)
    requires Reachable(ps, start, x)
    requires i < |ps| && Rewrite(x, ps[i]).Some?
    ensures Reachable(ps, start, Rewrite(x, ps[i]).value)
  {
    var steps :| Derive(ps, start, steps) == Some(x);
    DeriveSnoc(ps, start, steps, i);
  }

  /** The string at the head of the queue is reachable from the start symbol. */
  lemma HeadReachable(ps: seq<Production>, start: string, done: seq<string>, q: seq<string>,
                      seen: set<string>, pushed: seq<string>)
    requires QueueState(ps, start, done, q, seen, pushed)
    requires q != []
    ensures Reachable(ps, start, q[0])
  {
    assert q[0] == ([start] + pushed)[|done|];
    if |done| == 0 {
      assert Derive(ps, start, []) == Some(start);
    } else {
      assert q[0] == pushed[|done| - 1];
    }
  }

  /** Moving the head of the queue to the dequeued strings keeps the queue state. */
  lemma DequeueKeepsState(ps: seq<Production>, start: string, done: seq<string>, q: seq<string>,
                          seen: set<string>, pushed: seq<string>)
    requires QueueState(ps, start, done, q, seen, pushed) && q != []
    ensures QueueState(ps, start, done + [q[0]], q[1..], seen, pushed)
  {
    assert done + [q[0]] + q[1..] == done + q;
  }

  /** Pushing an unseen rewrite of the string just dequeued keeps the queue state. */
  lemma PushStep(ps: seq<Production>, start: string, done: seq<string>, q: seq<string>,
                 seen: set<string>, pushed: seq<string>, i: nat)
    requires QueueState(ps, start, done, q, seen, pushed)
    requires done != [] && Reachable(ps, start, done[|done| - 1])
    requires i < |ps| && Rewrite(done[|done| - 1], ps[i]).Some?
    requires Rewrite(done[|done| - 1], ps[i]).value !in seen
    ensures var next := Rewrite(done[|done| - 1], ps[i]).value;
      QueueState(ps, start, done, q + [next], seen + {next}, pushed + [next])
  {
    var cur := done[|done| - 1];
    var next := Rewrite(cur, ps[i]).value;
    ReachableStep(ps, start, cur, i);
    assert done + (q + [next]) == (done + q) + [next];
    if pushed == [] {
      assert done + q == [start];
      assert done == [start];
    }
  }

  /** A finished word that heads the queue has not been dequeued before: the start symbol is the only
      string that can be queued twice, and a finished start symbol pushes nothing. */
  lemma FirstVisitOfWord(ps: seq<Production>, start: string, done: seq<string>, q: seq<string>,
                         seen: set<string>, pushed: seq<string>)
    requires QueueState(ps, start, done, q, seen, pushed)
    requires q != [] && NoRuleApplies(ps, q[0])
    ensures q[0] !in done
  {
    var all := done + q;
    forall j | 0 <= j < |done| ensures done[j] != q[0] {
      assert q[0] == all[|done|] == ([start] + pushed)[|done|] == pushed[|done| - 1];
      if j == 0 {
        assert done[0] == all[0] == ([start] + pushed)[0];
        assert !NoRuleApplies(ps, start);
      } else {
        assert done[j] == all[j] == ([start] + pushed)[j] == pushed[j - 1];
      }
    }
  }

  /** The strings the inner loop pushes for `cur` after trying the first `n` productions: each rewrite
      of `cur`, in production order, that is neither in `seen` nor produced by an earlier production. */
  ghost function FreshRewrites(ps: seq<Production>, cur: string, seen: set<string>, n: nat): seq<string>
    requires n <= |ps|
    decreases n
  {
    if n == 0 then []
    else
      var prev := FreshRewrites(ps, cur, seen, n - 1);
      var r := Rewrite(cur, ps[n - 1]);
      if r.Some? && r.value !in seen && r.value !in prev then prev + [r.value] else prev
  }

  /** Every freshly pushed string is a rewrite of `cur` by one of the first `n` productions and was not
      in `seen` before, and none is pushed twice. */
  lemma {:induction false} FreshRewritesAreNew(ps: seq<Production>, cur: string, seen: set<string>, n: nat)
    requires n <= |ps|
    ensures forall x :: x in FreshRewrites(ps, cur, seen, n) ==>
      x !in seen && exists i :: 0 <= i < n && Rewrite(cur, ps[i]) == Some(x)
    ensures Distinct(FreshRewrites(ps, cur, seen, n))
    decreases n
  {
    if n > 0 {
      FreshRewritesAreNew(ps, cur, seen, n - 1);
    }
  }

  /** After trying the first `i` productions on `cur`, the inner loop has pushed and marked seen exactly
      `FreshRewrites(ps, cur, seen, i)`, starting from `seen`, `q` and `pushed`. */
  ghost predicate PushedSoFar(ps: seq<Production>, cur: string, i: nat, seen: set<string>, q: seq<string>,
                              pushed: seq<string>, seen': set<string>, q': seq<string>, pushed': seq<string>)
    requires i <= |ps|
  {
    var added := FreshRewrites(ps, cur, seen, i);
    && pushed' == pushed + added
    && q' == q + added
    && (forall x :: x in seen' <==> x in seen || x in added)
  }

  /** A snapshot of the generator's state between two iterations of its outer loop: the queue, the seen
      set, and (as a record of the run) every string pushed so far, in push order. */
  datatype Run = Run(q: seq<string>, seen: set<string>, pushed: seq<string>)

  /** One iteration of the outer loop as a function: an empty queue stays put; otherwise the head is
      dequeued and its fresh rewrites, in production order, are appended to the queue, marked seen and
      recorded as pushed. */
  ghost function BfsStep(ps: seq<Production>, r: Run): Run
  {
    if r.q == [] then r
    else
      var added := FreshRewrites(ps, r.q[0], r.seen, |ps|);
      Run(r.q[1..] + added, r.seen + (set x | x in added), r.pushed + added)
  }

  /** The state after `n` iterations, starting from the queue holding only `start`. */
  ghost function Bfs(ps: seq<Production>, start: string, n: nat): Run
  {
    if n == 0 then Run([start], {}, []) else BfsStep(ps, Bfs(ps, start, n - 1))
  }

  /** Pushing exactly the fresh rewrites of the head is one step of `BfsStep`. */
  lemma PushedSoFarIsStep(ps: seq<Production>, q: seq<string>, seen: set<string>, pushed: seq<string>,
                          q': seq<string>, seen': set<string>, pushed': seq<string>)
    requires q != []
    requires PushedSoFar(ps, q[0], |ps|, seen, q[1..], pushed, seen', q', pushed')
    ensures BfsStep(ps, Run(q, seen, pushed)) == Run(q', seen', pushed')
  {
    var added := FreshRewrites(ps, q[0], seen, |ps|);
    assert seen' == seen + (set x | x in added);
  }

  /** The inner loop's invariant after `i` productions: the queue state holds, the pushes so far are the
      fresh rewrites, every rewrite found so far is seen, and `expanded` records whether any production
      applied yet. */
  ghost predicate InnerLoop(ps: seq<Production>, start: string, front: seq<string>, cur: string, i: nat,
                            seen: set<string>, q: seq<string>, pushed: seq<string>,
                            seen': set<string>, q': seq<string>, pushed': seq<string>, expanded: bool)
    requires i <= |ps|
  {
    && QueueState(ps, start, front, q', seen', pushed')
    && PushedSoFar(ps, cur, i, seen, q, pushed, seen', q', pushed')
    && (forall j :: 0 <= j < i && Rewrite(cur, ps[j]).Some? ==> Rewrite(cur, ps[j]).value in seen')
    && (expanded <==> exists j :: 0 <= j < i && Rewrite(cur, ps[j]).Some?)
  }

  /** Trying production `i` on `cur` pushes its rewrite exactly when that rewrite is not yet seen. */
  lemma InnerLoopStep(ps: seq<Production>, start: string, front: seq<string>, cur: string, i: nat,
                      seen: set<string>, q: seq<string>, pushed: seq<string>,
                      seen': set<string>, q': seq<string>, pushed': seq<string>, expanded: bool)
    requires front != [] && front[|front| - 1] == cur && Reachable(ps, start, cur)
    requires i < |ps| && InnerLoop(ps, start, front, cur, i, seen, q, pushed, seen', q', pushed', expanded)
    ensures var r := Rewrite(cur, ps[i]);
      if r.Some? && r.value !in seen' then
        InnerLoop(ps, start, front, cur, i + 1, seen, q, pushed,
                  seen' + {r.value}, q' + [r.value], pushed' + [r.value], true)
      else
        InnerLoop(ps, start, front, cur, i + 1, seen, q, pushed, seen', q', pushed', expanded || r.Some?)
  {
    var r := Rewrite(cur, ps[i]);
    if r.Some? && r.value !in seen' {
      PushStep(ps, start, front, q', seen', pushed', i);
    }
  }

  /** The inner loop of the generator: try every production on `cur` in declaration order, push each
      result not seen before, and report whether any production applied. `front` is everything dequeued
      so far, `cur` last. */
  method PushRewrites(ps: seq<Production>, ghost start: string, ghost front: seq<string>, cur: string,
                      seen: set<string>, q: seq<string>, ghost pushed: seq<string>)
    returns (seen': set<string>, q': seq<string>, expanded: bool, ghost pushed': seq<string>)
    requires QueueState(ps, start, front, q, seen, pushed)
    requires front != [] && front[|front| - 1] == cur && Reachable(ps, start, cur)
    ensures QueueState(ps, start, front, q', seen', pushed')
    ensures PushedSoFar(ps, cur, |ps|, seen, q, pushed, seen', q', pushed')
    ensures expanded <==> !NoRuleApplies(ps, cur)
    ensures forall i :: 0 <= i < |ps| && Rewrite(cur, ps[i]).Some? ==> Rewrite(cur, ps[i]).value in seen'
  {
    seen', q', pushed' := seen, q, pushed;
    expanded := false;
    for i := 0 to |ps|
      invariant InnerLoop(ps, start, front, cur, i, seen, q, pushed, seen', q', pushed', expanded)
    {
      seen', q', expanded, pushed' := TryProduction(ps, start, front, cur, i, seen, q, pushed, seen', q', expanded, pushed');
    }
  }

  /** One iteration of the inner loop: apply production `i` to `cur` and push the result if it is new. */
  method TryProduction(ps: seq<Production>, ghost start: string, ghost front: seq<string>, cur: string, i: nat,
                       ghost seen: set<string>, ghost q: seq<string>, ghost pushed: seq<string>,
                       seen1: set<string>, q1: seq<string>, expanded1: bool, ghost pushed1: seq<string>)
    returns (seen2: set<string>, q2: seq<string>, expanded2: bool, ghost pushed2: seq<string>)
    requires front != [] && front[|front| - 1] == cur && Reachable(ps, start, cur)
    requires i < |ps| && InnerLoop(ps, start, front, cur, i, seen, q, pushed, seen1, q1, pushed1, expanded1)
    ensures InnerLoop(ps, start, front, cur, i + 1, seen, q, pushed, seen2, q2, pushed2, expanded2)
  {
    InnerLoopStep(ps, start, front, cur, i, seen, q, pushed, seen1, q1, pushed1, expanded1);
    seen2, q2, expanded2, pushed2 := seen1, q1, expanded1, pushed1;
    var r := Rewrite(cur, ps[i]);
    if r.Some? {
      var next := r.value;
      if next !in seen1 {
        seen2 := seen1 + {next};
        pushed2 := pushed1 + [next];
        q2 := q1 + [next];
      }
      expanded2 := true;
    }
  }

  /** Every rewrite of every dequeued string is in the seen set. */
  ghost predicate Explored(ps: seq<Production>, processed: seq<string>, seen: set<string>) {
    forall x, i :: x in processed && 0 <= i < |ps| && Rewrite(x, ps[i]).Some? ==> Rewrite(x, ps[i]).value in seen
  }

  /** The emitted words are exactly the dequeued strings no production applies to, each once. */
  ghost predicate Emitted(ps: seq<Production>, processed: seq<string>, words: seq<string>) {
    && (forall x :: x in processed && NoRuleApplies(ps, x) ==> x in words)
    && (forall w :: w in words ==> w in processed && NoRuleApplies(ps, w))
    && Distinct(words)
  }

  /** The strings of `xs` no production applies to, in their order in `xs`. */
  ghost function Finished(ps: seq<Production>, xs: seq<string>): seq<string>
    decreases |xs|
  {
    if xs == [] then []
    else
      var last := xs[|xs| - 1];
      Finished(ps, xs[..|xs| - 1]) + if NoRuleApplies(ps, last) then [last] else []
  }

  /** Dequeuing one more string adds it to the finished strings exactly when no production applies. */
  lemma FinishedSnoc(ps: seq<Production>, xs: seq<string>, x: string)
    ensures Finished(ps, xs + [x]) == Finished(ps, xs) + if NoRuleApplies(ps, x) then [x] else []
  {
    assert (xs + [x])[..|xs|] == xs;
  }

  /** Dequeuing `q[0]` and running the inner loop on it keeps the exploration and emission invariants. */
  lemma DequeueStep(ps: seq<Production>, start: string, processed: seq<string>, q: seq<string>,
                    seen: set<string>, pushed: seq<string>, words: seq<string>, seen': set<string>)
    requires QueueState(ps, start, processed, q, seen, pushed) && q != []
    requires Explored(ps, processed, seen) && Emitted(ps, processed, words)
    requires seen <= seen'
    requires forall i :: 0 <= i < |ps| && Rewrite(q[0], ps[i]).Some? ==> Rewrite(q[0], ps[i]).value in seen'
    ensures Explored(ps, processed + [q[0]], seen')
    ensures Emitted(ps, processed + [q[0]], if NoRuleApplies(ps, q[0]) then words + [q[0]] else words)
  {
    if NoRuleApplies(ps, q[0]) {
      FirstVisitOfWord(ps, start, processed, q, seen, pushed);
    }
  }

  /** When the queue has drained, the dequeued strings are closed under rewriting, so every
      derivable finished word was emitted. */
  lemma DrainedIsComplete(ps: seq<Production>, start: string, processed: seq<string>, seen: set<string>,
                          pushed: seq<string>, words: seq<string>, steps: seq<nat>)
    requires QueueState(ps, start, processed, [], seen, pushed)
    requires Explored(ps, processed, seen)
    requires Emitted(ps, processed, words)
    requires Derive(ps, start, steps).Some? && NoRuleApplies(ps, Derive(ps, start, steps).value)
    ensures Derive(ps, start, steps).value in words
  {
    var closed := set x | x in processed;
    assert processed == [start] + pushed;
    assert start in closed;
    assert forall x :: x in seen ==> x in closed;
    ClosedHoldsDerived(ps, start, closed, steps);
  }

  /** Everything the generator's outer loop keeps true, with `processed` the strings dequeued so far. */
  ghost predicate GeneratorState(ps: seq<Production>, start: string, maxWords: nat, processed: seq<string>,
                                 q: seq<string>, seen: set<string>, pushed: seq<string>, words: seq<string>)
  {
    && QueueState(ps, start, processed, q, seen, pushed)
    && Explored(ps, processed, seen)
    && Emitted(ps, processed, words)
    && words == Finished(ps, processed)
    && Bfs(ps, start, |processed|) == Run(q, seen, pushed)
    && |words| <= maxWords
    && (0 < maxWords == |words| ==> processed != [] && words[|words| - 1] == processed[|processed| - 1])
  }

  /** Before the first iteration the queue holds only the start symbol and nothing is seen or emitted. */
  lemma InitialState(ps: seq<Production>, start: string, maxWords: nat)
    ensures GeneratorState(ps, start, maxWords, [], [start], {}, [], [])
  {
    assert Derive(ps, start, []) == Some(start);
  }

  /** One iteration of the generator's outer loop: dequeue the head, push its unseen rewrites, and emit it
      when no production applies to it. */
  method Visit(ps: seq<Production>, ghost start: string, maxWords: nat, q: seq<string>, seen: set<string>,
               words: seq<string>, ghost processed: seq<string>, ghost pushed: seq<string>)
    returns (q': seq<string>, seen': set<string>, words': seq<string>, emitted: bool,
             ghost processed': seq<string>, ghost pushed': seq<string>)
    requires GeneratorState(ps, start, maxWords, processed, q, seen, pushed, words)
    requires q != [] && |words| < maxWords
    ensures GeneratorState(ps, start, maxWords, processed', q', seen', pushed', words')
    ensures processed' == processed + [q[0]]
    ensures PushedSoFar(ps, q[0], |ps|, seen, q[1..], pushed, seen', q', pushed')
    ensures BfsStep(ps, Run(q, seen, pushed)) == Run(q', seen', pushed')
    ensures emitted <==> NoRuleApplies(ps, q[0])
    ensures words' == if emitted then words + [q[0]] else words
  {
    HeadReachable(ps, start, processed, q, seen, pushed);
    DequeueKeepsState(ps, start, processed, q, seen, pushed);
    var cur := q[0];
    var expanded;
    seen', q', expanded, pushed' := PushRewrites(ps, start, processed + [cur], cur, seen, q[1..], pushed);
    DequeueStep(ps, start, processed, q, seen, pushed, words, seen');
    FinishedSnoc(ps, processed, cur);
    PushedSoFarIsStep(ps, q, seen, pushed, q', seen', pushed');
    emitted := !expanded;
    words' := if emitted then words + [cur] else words;
    processed' := processed + [cur];
  }

  /** What the generator's state at loop exit says about its results. */
  lemma GeneratorOutcome(ps: seq<Production>, start: string, maxWords: nat, fuel: nat, processed: seq<string>,
                         pending: seq<string>, seen: set<string>, pushed: seq<string>, words: seq<string>)
    requires GeneratorState(ps, start, maxWords, processed, pending, seen, pushed, words)
    requires |processed| <= fuel
    requires pending == [] || |words| >= maxWords || |processed| >= fuel
    ensures |words| <= maxWords && Distinct(words)
    ensures forall w :: w in words ==> NoRuleApplies(ps, w)
    ensures Distinct(pushed) && forall x :: x in pushed ==> Reachable(ps, start, x)
    ensures |pending| <= 1 + |pushed| && |processed| == 1 + |pushed| - |pending| <= fuel
    ensures Bfs(ps, start, 1 + |pushed| - |pending|) == Run(pending, seen, pushed)
    ensures processed == [] ==> pending == [start] && pushed == []
    ensures words == Finished(ps, ([start] + pushed)[..1 + |pushed| - |pending|])
    ensures pending != [] && |words| < maxWords ==> 1 + |pushed| - |pending| == fuel
    ensures forall w :: w in words ==> Reachable(ps, start, w)
    ensures forall w :: w in words ==> w in [start] + pushed
    ensures pending == ([start] + pushed)[1 + |pushed| - |pending|..]
    ensures 0 < maxWords == |words| ==>
      |pending| <= |pushed| && words[|words| - 1] == ([start] + pushed)[|pushed| - |pending|]
    ensures pending == [] && |words| < maxWords ==>
      forall steps :: Derive(ps, start, steps).Some? && NoRuleApplies(ps, Derive(ps, start, steps).value)
        ==> Derive(ps, start, steps).value in words
  {
    var all := [start] + pushed;
    assert processed + pending == all;
    assert processed == all[..|processed|] && pending == all[|processed|..];
    forall w | w in words ensures Reachable(ps, start, w) && w in all {
      assert w in all;
      if w == start {
        assert Derive(ps, start, []) == Some(start);
      }
    }
    if 0 < maxWords == |words| {
      assert processed[|processed| - 1] == all[|processed| - 1];
    }
    if pending == [] && |words| < maxWords {
      forall steps | Derive(ps, start, steps).Some? && NoRuleApplies(ps, Derive(ps, start, steps).value)
        ensures Derive(ps, start, steps).value in words
      {
        DrainedIsComplete(ps, start, processed, seen, pushed, words, steps);
      }
    }
  }

  /** The outer loop of `ValidWordGenerator::generate`: from the queue holding only `start`, visit the
      head while the queue is non-empty, fewer than `maxWords` words were emitted and fuel is left. It
      stops in a state the loop keeps, for one of those three reasons. */
  method Explore(ps: seq<Production>, start: string, fuel: nat, maxWords: nat)
    returns (q: seq<string>, seen: set<string>, words: seq<string>, ghost processed: seq<string>,
             ghost pushed: seq<string>)
    ensures GeneratorState(ps, start, maxWords, processed, q, seen, pushed, words)
    ensures |processed| <= fuel
    ensures q == [] || |words| >= maxWords || |processed| >= fuel
    ensures maxWords == 0 ==> processed == []
  {
    q := [start];
    seen := {};
    var generated: nat := 0;
    words := [];
    pushed := [];
    processed := [];
    InitialState(ps, start, maxWords);
    var iterations := 0;

    while q != [] && generated < maxWords && iterations < fuel
      invariant GeneratorState(ps, start, maxWords, processed, q, seen, pushed, words)
      invariant generated == |words|
      invariant |processed| == iterations <= fuel
      invariant maxWords == 0 ==> iterations == 0
      decreases fuel - iterations
    {
      var emitted;
      q, seen, words, emitted, processed, pushed := Visit(ps, start, maxWords, q, seen, words, processed, pushed);
      if emitted {
        generated := generated + 1;
      }
      iterations := iterations + 1;
    }
  }

  class ValidWordGenerator {
    const g: Grammar

    constructor (grammar: Grammar)
      ensures g == grammar
    {
      g := grammar;
    }

    /** `ValidWordGenerator::generate` in main.cpp: runs its queue loop (`Explore`) on this grammar for at
        most `fuel` iterations and returns the words it would print, the strings still queued when it
        stopped, and (ghost) every string pushed after the start symbol, in push order. The loop stops
        early, as the C++ loop does, when the queue is empty or `maxWords` words have been emitted. */
    method Generate(fuel: nat, maxWords: nat := 15) returns (words: seq<string>, pending: seq<string>, ghost pushed: seq<string>)
      ensures |words| <= maxWords
      ensures Distinct(words)
      ensures forall w :: w in words ==> NoRuleApplies(g.productions, w)
      ensures forall w :: w in words ==> Reachable(g.productions, g.start, w)
      ensures forall w :: w in words ==> w in [g.start] + pushed
      // at most `fuel` iterations ran, and after them the queue and the pushes are exactly those of that
      // many breadth-first steps
      ensures |pending| <= 1 + |pushed| && 1 + |pushed| - |pending| <= fuel
      ensures Bfs(g.productions, g.start, 1 + |pushed| - |pending|).pushed == pushed
      ensures Bfs(g.productions, g.start, 1 + |pushed| - |pending|).q == pending
      // the words appear in the order their strings were dequeued
      ensures words == Finished(g.productions, ([g.start] + pushed)[..1 + |pushed| - |pending|])
      // the seen set: a rewritten string is pushed at most once, and only reachable strings are pushed
      ensures Distinct(pushed)
      ensures forall x :: x in pushed ==> Reachable(g.productions, g.start, x)
      // the queue left over is the unprocessed tail of everything pushed
      ensures pending == ([g.start] + pushed)[1 + |pushed| - |pending|..]
      // a run that stops with strings queued and fewer than maxWords words has used all its fuel
      ensures pending != [] && |words| < maxWords ==> 1 + |pushed| - |pending| == fuel
      // the loop stops as soon as the last allowed word is emitted
      ensures 0 < maxWords == |words| ==>
        |pending| <= |pushed| && words[|words| - 1] == ([g.start] + pushed)[|pushed| - |pending|]
      // with no room for a word the loop does not run
      ensures maxWords == 0 ==> pending == [g.start] && pushed == []
      // when the queue drained first, every reachable finished word was emitted
      ensures pending == [] && |words| < maxWords ==>
        forall steps :: Derive(g.productions, g.start, steps).Some? && NoRuleApplies(g.productions, Derive(g.productions, g.start, steps).value)
          ==> Derive(g.productions, g.start, steps).value in words
    {
      var ps := g.GetProductions();
      var start := g.GetStart();
      var seen;
      ghost var processed;
      pending, seen, words, processed, pushed := Explore(ps, start, fuel, maxWords);
      GeneratorOutcome(ps, start, maxWords, fuel, processed, pending, seen, pushed, words);
    }
  }
}
