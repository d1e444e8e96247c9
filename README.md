# Grammar word generator

A Dafny model of `lab_01/main.cpp`, a small regular-grammar tool. A `Grammar` holds a set of
nonterminals, a set of terminals, an ordered list of productions `from -> to` and a start symbol.
`ValidWordGenerator::generate` lists the finished words of the grammar breadth-first:

- it keeps a FIFO queue of strings, starting from the start symbol, and a set of strings already seen;
- it dequeues a string and tries every production on it in declaration order;
- a production applies when its `from` is a suffix of the string; the rewrite keeps the prefix in
  front of that suffix and appends `to`;
- each rewrite result that has not been seen before is marked seen and queued;
- a string that no production applies to is a finished word: it is emitted and counted;
- the loop stops when the queue is empty or `maxWords` words (15 by default) have been emitted.

Files:

- `grammar.dfy`, module `Grammars`:
  - the production datatype and the suffix-rewrite function;
  - derivations (`Derive`: a list of production indices applied in order) and reachability;
  - the `Grammar` class, whose mutators update its fields in place.
- `generator.dfy`, module `WordGenerator`: the `ValidWordGenerator` class and the generator's loop.
  - `Generate` returns the words the program prints, in print order.
  - It also returns the strings still queued when it stops and, as a ghost value, every string pushed
    after the start symbol, in push order.
  - The outer loop is the method `Explore`, one iteration of it is `Visit`, and the inner loop over
    the productions is `PushRewrites`.
  - `Bfs` defines the same loop as a function of the iteration count: each step dequeues the head and
    appends its unseen rewrites in production order. `Generate` is proved to end in the state of that
    many steps, which fixes the order the words come out in.
- `demo.dfy`, module `DemoGrammar`: the grammar `main` builds (`S -> dA`, `A -> d | aB`, `B -> bC`,
  `C -> cA | aS`), and facts about it; the one-rule grammar `S -> d`, on which `generate(100)`
  is proved to return exactly `["d"]`; and `S -> a | S -> b`, on which a run with room for one word
  is proved to return `["a"]`, the rewrite of the production declared first.

Reachability is stated through derivations: `Reachable(ps, s, w)` says some chain of productions,
each applied as a suffix rewrite, turns `s` into `w`. Completeness is proved for runs whose queue
drained before the word limit: every reachable finished word was then emitted.

## Model

| member | source | states |
|---|---|---|
| Grammars.Rewrite | lab_01/main.cpp:89-95 | A production applies to `cur` exactly when `from` is a suffix of `cur` (length test included); the result has the length of `cur`, minus that of `from`, plus that of `to` |
| Grammars.RewriteParts | lab_01/main.cpp:95 | The rewrite keeps the prefix of `cur` in front of `from` unchanged and ends with exactly `to` |
| Grammars.RewriteOfSplit | lab_01/main.cpp:89-95 | For every split `u + from`, the rewrite yields `u + to`, the inverse view of the suffix test |
| Grammars.DeriveSnoc | lab_01/main.cpp:88-95 | Extending a derivation by one production applies that production's rewrite to the derived string |
| Grammars.ClosedHoldsDerived | lab_01/main.cpp:88-100 | A set that holds the start and is closed under every production's rewrite holds every derivable string |
| Grammars.DeriveStep | lab_01/main.cpp:89-95 | Applying production `from -> to` to a derived `u + from` derives `u + to` |
| Grammars.Grammar.constructor | lab_01/main.cpp:22 | A new grammar has the given start symbol and empty nonterminals, terminals and productions |
| Grammars.Grammar.AddNonTerminal | lab_01/main.cpp:24-30 | After the call `IsNonTerminal(nt)` holds; the nonterminal set grows by `nt` only; adding a present symbol changes nothing; other fields are unchanged |
| Grammars.Grammar.IsNonTerminal | lab_01/main.cpp:24-26 | True exactly when the symbol is in the nonterminal set |
| Grammars.Grammar.GetProductions | lab_01/main.cpp:40-42 | Returns the production list, in the order the productions were added |
| Grammars.Grammar.GetStart | lab_01/main.cpp:44-46 | Returns the start symbol; it is a constant set by the constructor (`start == startSymbol`), so no mutator can change what it returns |
| Grammars.Grammar.AddTerminal | lab_01/main.cpp:32-34 | The terminal set grows by `t` only; the other fields are unchanged |
| Grammars.Grammar.AddProduction | lab_01/main.cpp:36-38 | The productions become the old list with exactly `Production(from, to)` appended; the other fields and the start symbol are unchanged |
| WordGenerator.ReachableStep | lab_01/main.cpp:88-99 | Rewriting a reachable string gives a reachable string |
| WordGenerator.HeadReachable | lab_01/main.cpp:78-84 | The string at the head of the queue is reachable from the start symbol |
| WordGenerator.DequeueKeepsState | lab_01/main.cpp:83-84 | Popping the queue's front keeps the queue invariant: dequeued strings followed by the queue are the start symbol followed by every pushed string |
| WordGenerator.PushStep | lab_01/main.cpp:95-100 | Pushing a rewrite that is not yet in `seen` keeps the queue invariant: `seen` equals the pushed strings, no string is pushed twice, every pushed string is reachable |
| WordGenerator.FirstVisitOfWord | lab_01/main.cpp:78-110 | A finished word at the head of the queue has not been dequeued before, because only the start symbol, whose first push bypasses `seen`, can be queued twice |
| WordGenerator.FreshRewritesAreNew | lab_01/main.cpp:88-100 | Each string the inner loop pushes for `cur` (`FreshRewrites`) is a rewrite of `cur` by some production and was not in `seen` before; none is pushed twice |
| WordGenerator.InnerLoopStep | lab_01/main.cpp:89-102 | Trying one production pushes and marks seen its rewrite exactly when the rewrite is new, keeps the queue invariant, and sets `expanded` once a production applies |
| WordGenerator.TryProduction | lab_01/main.cpp:89-102 | One inner-loop iteration takes the inner-loop invariant from `i` productions to `i + 1` |
| WordGenerator.PushRewrites | lab_01/main.cpp:86-104 | The queue and the pushes become the old ones followed by exactly the new rewrites of `cur`, in production order (`FreshRewrites`); `seen` grows by exactly those strings; the queue invariant is kept; every rewrite of `cur` ends up seen; `expanded` holds exactly when some production applies to `cur`, even when all rewrites were already seen |
| WordGenerator.DequeueStep | lab_01/main.cpp:83-110 | After one iteration every rewrite of every dequeued string is in `seen`; the emitted words are exactly the dequeued strings no production applies to, each once |
| WordGenerator.FinishedSnoc | lab_01/main.cpp:106-110 | Dequeuing one more string adds it to the finished strings, at the end, exactly when no production applies to it |
| WordGenerator.PushedSoFarIsStep | lab_01/main.cpp:83-104 | Dequeuing the head and pushing exactly its fresh rewrites, marking them seen, is one step of `BfsStep` |
| WordGenerator.InitialState | lab_01/main.cpp:75-80 | The queue holding only the start symbol, with nothing seen, dequeued or emitted, meets every loop invariant and is step 0 of `Bfs` |
| WordGenerator.Visit | lab_01/main.cpp:83-110 | One outer iteration dequeues the head; the new queue is the old tail followed by the head's new rewrites in production order, and `seen` grows by exactly those, which is one step of `BfsStep`; it keeps all loop invariants, including that the state is `Bfs` after as many steps as strings were dequeued, and emits the head exactly when no production applies to it |
| WordGenerator.DrainedIsComplete | lab_01/main.cpp:82-100 | Once the queue is empty, every derivable string no production applies to was emitted |
| WordGenerator.Explore | lab_01/main.cpp:75-111 | The outer loop ends in a state meeting every loop invariant, within `fuel` iterations, with the queue empty, `maxWords` words emitted or the fuel used up; with `maxWords` 0 it runs no iteration |
| WordGenerator.GeneratorOutcome | lab_01/main.cpp:74-112 | From the loop invariant and the exit condition: the iteration count is at most `fuel` and the queue, `seen` and the pushes are those of that many `Bfs` steps; when nothing was dequeued the queue is the start symbol alone and nothing was pushed; the words are the finished strings among those dequeued, in dequeue order; words are reachable; the leftover queue is the unprocessed tail of the pushes; a stop with strings queued and fewer than `maxWords` words used all the fuel; when the limit stopped the loop, the last word was the last string dequeued; a drained queue means completeness |
| WordGenerator.ValidWordGenerator.constructor | lab_01/main.cpp:72 | The generator refers to the grammar it was given |
| WordGenerator.ValidWordGenerator.Generate | lab_01/main.cpp:74-112 | At most `maxWords` words are returned, distinct; at most `fuel` iterations ran, and the pushes and the leftover queue are exactly those of that many `Bfs` steps from the start symbol; the words are exactly the finished strings among the strings those steps dequeued, in print order; each has no applicable production and is reachable from the start symbol; pushed strings are distinct and reachable; the leftover queue is the tail of the pushes; the loop stops only when the queue is empty, `maxWords` words are out, or all `fuel` iterations ran, and right after the last allowed word; with `maxWords` 0 nothing is dequeued, so the queue is still the start symbol alone; when the queue drains first, every reachable finished word is returned |
| DemoGrammar.BuildDemoGrammar | lab_01/main.cpp:117-134 | The mutator calls in `main` give start symbol `S` (unchanged by them), nonterminals `{S, A, B, C}`, terminals `{a, b, c, d}` and the six productions in order |
| DemoGrammar.AddDemoSymbols | lab_01/main.cpp:119-127 | The symbol calls in `main` give exactly those nonterminal and terminal sets and leave the productions alone |
| DemoGrammar.AddDemoProductions | lab_01/main.cpp:129-134 | The production calls in `main` give exactly the six productions in declaration order |
| DemoGrammar.DemoProductionShape | lab_01/main.cpp:129-134 | Every example production rewrites one nonterminal into one or two symbols ending in `d` or a nonterminal; the only S-rule is `S -> dA` |
| DemoGrammar.DemoRewritesOfDA | lab_01/main.cpp:88-100 | In the example grammar, exactly the two A-rules apply to `dA`, giving `dd` and then `daB` in declaration order |
| DemoGrammar.DeriveFinalD | lab_01/main.cpp:130 | In the example grammar, a derived `u + A` gives the derivable `u + d` by `A -> d` |
| DemoGrammar.ReachesDD | lab_01/main.cpp:129-130 | `dd` is derivable from `S` via `S -> dA`, `A -> d` |
| DemoGrammar.ReachesDabcd | lab_01/main.cpp:129-133 | `dabcd` is derivable from `S` via `dA`, `daB`, `dabC`, `dabcA` |
| DemoGrammar.ReachesDabadd | lab_01/main.cpp:129-134 | `dabadd` is derivable from `S` via `dA`, `daB`, `dabC`, `dabaS`, `dabadA` |
| DemoGrammar.DemoWords | lab_01/main.cpp:129-134 | `dd`, `dabcd` and `dabadd` are derivable from `S` in the example grammar and no production applies to them |
| DemoGrammar.EndsInTerminal | lab_01/main.cpp:89-92 | No example production applies to a string ending in `d` |
| DemoGrammar.NonterminalEndApplies | lab_01/main.cpp:89-92 | Some example production applies to every string ending in a nonterminal |
| DemoGrammar.DemoRewriteShape | lab_01/main.cpp:95 | An example rewrite keeps the shape "S, or begins with `d` and ends with `d` or a nonterminal" |
| DemoGrammar.DemoDerivedShape | lab_01/main.cpp:88-100 | Every string derivable from `S` in the example grammar has that shape |
| DemoGrammar.DemoFinishedWordsShape | lab_01/main.cpp:107-110 | Every finished word of the example grammar has length at least 2 and begins and ends with `d`, so `abc` and `dabca` are not finished words |
| DemoGrammar.DemoGenerate | lab_01/main.cpp:117-139 | Running the generator on `main`'s grammar with the default limit yields at most 15 words, each beginning and ending with `d` |
| DemoGrammar.SingleRuleRewrites | lab_01/main.cpp:89-95 | Under the one-rule grammar `S -> d`, the rule turns `S` into `d` and does not apply to `d` |
| DemoGrammar.SingleRuleDerived | lab_01/main.cpp:88-100 | Every string derivable from `S` under `S -> d` is `S` or `d` |
| DemoGrammar.SingleRuleFinishedIsD | lab_01/main.cpp:107-110 | Every finished word of `S -> d` is `d` |
| DemoGrammar.SingleRuleDIsFinished | lab_01/main.cpp:107-110 | `d` is a derivable finished word of `S -> d` |
| DemoGrammar.SingleRuleRun | lab_01/main.cpp:74-112 | Any result meeting the generator's contract for `S -> d` with limit 100 and fuel 100 is exactly `["d"]`: at most two strings are ever pushed, so the run cannot stop for fuel, and it cannot emit 100 words |
| DemoGrammar.BuildSingleRuleGrammar | lab_01/main.cpp:22-46 | The mutators build the grammar with start `S` and the one production `S -> d` |
| DemoGrammar.SingleRuleGenerate | lab_01/main.cpp:74-112 | Running the generator on `S -> d` with a limit of 100 words returns exactly `["d"]` |
| DemoGrammar.NoRewriteOfOtherLetter | lab_01/main.cpp:89-92 | A rule whose left-hand side is `S` does not apply to a one-letter string other than `S` |
| DemoGrammar.TwoRulesRewrites | lab_01/main.cpp:89-95 | Under `S -> a`, `S -> b` the rules turn `S` into `a` and `b`, and neither applies to `a` or `b` |
| DemoGrammar.TwoRulesApply | lab_01/main.cpp:89-92 | For any list equal to `S -> a`, `S -> b`, some rule applies to `S` and none to `a` or `b` |
| DemoGrammar.TwoRulesFirstStep | lab_01/main.cpp:88-100 | Expanding `S` pushes `a` and then `b`, in declaration order |
| DemoGrammar.TwoRulesNoPush | lab_01/main.cpp:88-100 | Expanding `a` or `b` pushes nothing |
| DemoGrammar.TwoRulesBfs | lab_01/main.cpp:82-104 | The breadth-first run on `S -> a`, `S -> b` pushes `a` then `b` in its first step and then drains the queue in order: after `n` steps the queue is `[S]`, `[a, b]`, `[b]`, then empty |
| DemoGrammar.TwoRulesFinished | lab_01/main.cpp:106-110 | Among the first one, two and three strings dequeued, the finished ones are none, `a`, and `a, b` |
| DemoGrammar.TwoRulesIterations | lab_01/main.cpp:82-104 | If a pushed list and a queue are those of `n` steps, with `n` one more than the pushes minus the queue length, then the queue is `[S]` when `n` is 0, and otherwise the pushes are `[a, b]` and `n` is at most 3 |
| DemoGrammar.TwoRulesRun | lab_01/main.cpp:74-112 | Any result meeting the generator's contract for `S -> a`, `S -> b` with room for one word and fuel at least 2 is exactly `["a"]` |
| DemoGrammar.TwoRulesStop | lab_01/main.cpp:82-110 | With room for one word, the loop on `S -> a`, `S -> b` can only stop after exactly two iterations, having emitted `a` |
| DemoGrammar.BuildTwoRulesGrammar | lab_01/main.cpp:22-46 | The mutators build the grammar with start `S` and the productions `S -> a`, `S -> b` in that order |
| DemoGrammar.TwoRulesGenerate | lab_01/main.cpp:74-112 | Running the generator on `S -> a`, `S -> b` with a limit of one word and fuel 10 returns exactly `["a"]`, not `["b"]` |

## Left out

- `Grammar::print` (lab_01/main.cpp:48-63) and the `std::cout` of each word (lab_01/main.cpp:108) are console output. Emission is modelled as appending to the returned sequence.
- The printing in `main` is left out: `g.print()` and the output of `generate`. `main`'s data is kept as the `DemoGrammar` module.
- The comment block after `main` is an old output trace, not logic, and is not modelled.
- `lab_01/Main.java` stores four lists and prints a line; it has no logic and is not part of this model.
- A grammar-to-automaton converter and an `accepts` simulation are described for this program but have no code in lab_01/main.cpp or lab_01/Main.java. They are not part of this model.
- WordGenerator.ValidWordGenerator.Generate: takes an extra `fuel` bound on the number of outer-loop iterations. The source loop need not terminate: under `S -> aS` no word is ever finished, and new strings appear forever. A run that stops with strings still queued and fewer than `maxWords` words has run exactly `fuel` iterations, so a caller can tell that fuel ran out. Completeness is stated only for runs whose queue drained.
- `maxWords` and `generated` are `size_t` in the source and `nat` here. `generated` never exceeds `maxWords`, so no wrap-around can happen.
- Nothing rejects a production with an empty `from`. As in the code, such a production applies to every string.
- The terminal set is kept and updated by `AddTerminal`; nothing but the left-out `print` reads it.
- The `const Grammar*` the generator holds, and C++ copy semantics, are not modelled as such. The grammar is a Dafny object reference.
