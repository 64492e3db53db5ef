# cfg-string-generator, modelled in Dafny

This project models the core of a bounded sentence generator for
context-free grammars. A grammar is an ordered table from nonterminal names
to lists of alternatives, and "S" is the start symbol. The generator
explores leftmost derivations breadth first, in levels, down to a maximum
depth.

There are two traversals:

- The **string traversal** (`Detail.string_gen`) works level by level. A
  gate item marks where each level ends. For each string it takes:
  - if the string holds no nonterminal, it goes to the output;
  - otherwise, the leftmost nonterminal occurrence is rewritten with every
    alternative of its rule, and the results are queued.

  After `D + 1` levels, a final drain keeps the terminal strings and drops
  the rest.
- The **path traversal** (`Detail.derivation_gen`) carries with every
  queued string the derivation paths that reached it. It extends only paths
  shorter than `D`. It records each step as (position, alternative), or as
  the alternative alone in low-memory mode.

The dispatcher `cfg_string_generator` picks a traversal, a queue and an
output container from three flags. The repetition flag takes the values of
`RepetitionMode` (cfg_string_gen.py:65-68): 0 (disabled), 1 (enabled) and
2 (count). In the model these are the constants `RepetitionMode.Disabled`,
`RepetitionMode.Enabled` and `RepetitionMode.Count`.

| mode | queue | output |
|---|---|---|
| plain | FIFO queue | list |
| deduplicating | deduplicating queue over a set | set |
| counting | deduplicating queue over a counting set | string → multiplicity |
| paths, every path | additive dictionary queue | string → paths |
| paths, first path | conservative dictionary queue | string → paths |

The counting set carries a "last removed multiplicity" that starts at 1. The
queue's counting set and the output's counting set share it. It is modelled
as a `Carry` object that both `CountSet` objects point to.

## Modules

- `Queues` (queues.dfy): the five queue/set classes as Dafny classes. Their
  fields are updated in place:
  - `Queue`, `SetQueue`, `AdditiveDictQueue` and `ConservativeDictQueue`;
  - `CountSet` with its shared `Carry`;
  - `CountingSetQueue`, which is the deduplicating queue over a `CountSet`.
- `Grammar` (grammar.dfy): the rule table.
  - `Search` is the combined search pattern: the leftmost position first,
    then the first rule name in table order at that position.
  - `Splice` and `Children` form one leftmost derivation step.
- `Levels` (levels.dfy): what the string traversal computes, as functions.
  - `ListGen` is the plain queue, `SetGen` the deduplicating queue and
    `CountGen` the counting queue.
  - Each is written as a level function (`ListLevel`, `SetLevel`,
    `CountLevel`), a drain and a run.
  - All of them take a one-step function `kids` and a finished-test `done`.
    `Kids(g)` and `Done(g)` are the grammar's own.
- `StringGen` (string_gen.dfy): the string traversal as imperative methods,
  one per queue/container combination. Each loop is proved equal to the
  function that specifies it.
- `Reachability` (reachability.dfy): what the plain-queue output means.
  - `Harvest` is level-by-level expansion, and `Chain` is a leftmost
    derivation from "S".
  - A string is listed exactly when it is terminal and reachable in at most
    `D + 1` steps.
- `Dedup` (dedup.dfy): what the deduplicating and counting outputs mean.
  - The set output has the same members as the plain list, and so has the
    set of keys of the counting output.
  - The proofs are an invariant argument over the levels (`Bounded`,
    `Lossless`) and a lock-step simulation (`Mirrors`).
- `Paths` (paths.dfy): derivation steps and paths, replaying a path from
  "S", and the path filter and extension of the path traversal.
- `Potential` (potential.dfy): a weight on the queued paths that every turn
  of the path traversal's loop strictly decreases. This is its termination
  argument.
- `PathSteps` (path_steps.dfy): what the path traversal computes, as
  functions on values.
  - `MergePut` and `KeepPut` are one put on the additive and on the
    conservative queue; `MergeAll` and `KeepAll` are a sequence of puts.
  - `Rewrites` is the puts of one expansion, and `MergeVisit` and
    `KeepVisit` are one turn of the loop.
  - A run is a trace of turns from the start state to an empty queue. Two
    complete traces are equal, so a run has exactly one result.
- `Coverage` (coverage.dfy): completeness of the path traversal. Every
  terminal string that a leftmost derivation of at most `D` steps reaches is
  stored.
  - The additive queue never loses a path.
  - The conservative queue drops later paths, but it is breadth first
    (`Layered`), so the path it keeps is never longer than the one it drops.
- `DerivationGen` (derivation_gen.dfy): the path traversal, one method per
  dictionary queue. Every method is proved to change the queue and the
  output exactly as its `PathSteps` function says, and the run ends in a
  complete trace. About the output, it is proved that:
  - the stored strings are exactly the terminal strings reachable from "S"
    in at most `D` steps;
  - every stored path replays to its key, is no longer than `D` and has the
    requested step shape;
  - the first-path mode keeps exactly one path per string;
  - depth 0 stores nothing unless "S" itself is terminal;
  - every stored string is one the string traversal yields for the same
    depth.
- `RepetitionMode` and `Generator` (generator.dfy): the mode constants and
  the dispatcher, including the empty rule table.
- `WorkedRuns` (worked_runs.dfy): proved outcomes on three small grammars:
  - `S -> a` at depth 0;
  - the binary-strings grammar of example.py at depth 0;
  - a grammar that reaches "a" at two depths.

## Where the behaviour differs from the program's documentation

The model follows the code in each case.

- **Depth.** The docstring of `cfg_string_generator` (cfg_string_gen.py:74)
  calls `max_depth` "the maximum number of derivations for a string to
  generate".
  - The string traversal runs `D + 1` levels (the loop at
    cfg_string_gen.py:13) and then drains. It therefore emits strings that
    need up to `D + 1` derivation steps (`ListGenMembers`,
    `SetGenMembers`).
  - The path traversal extends only paths shorter than `D`
    (cfg_string_gen.py:53). It stores exactly the terminal strings that need
    at most `D` steps (`MergeStoredExactly`, `KeepStoredExactly`).
  - For `S -> a` at depth 0, the string modes give "a"
    (`SingleAtDepthZero`), while the path mode gives nothing
    (`DerivationGen.DepthZero`).
- **Count mode.** The docstring of `CountSet` (cfg_queues.py:80-85) says it
  counts the number of occurrences of an item. The output's `insert`
  (cfg_queues.py:100-102) sets the entry instead of adding to it. A string
  that is emitted at two levels therefore keeps only the multiplicity of
  its last emission. `DetourCountOverwrites` shows the list mode giving
  `["a", "a"]` while the count mode gives `a -> 1`.
- **Path storage.** Storing a finished string in the path traversal also
  replaces what was stored for it. A string finished at two levels keeps
  only the paths of the later level.
- **Counting with paths.** `derivation=True` with `repetition=count` is not
  rejected. Any non-zero repetition selects the additive queue, as in the
  code.

## Model

| member | source | states |
|---|---|---|
| Queues.Queue.constructor | cfg_queues.py:2-3 | a new queue is empty |
| Queues.Queue.Put | cfg_queues.py:5-6 | the value is appended at the back, the rest is unchanged |
| Queues.Queue.Take | cfg_queues.py:8-10 | returns the front value and leaves exactly the rest, in order (FIFO) |
| Queues.Queue.Empty | cfg_queues.py:12-13 | true exactly when nothing is queued |
| Queues.SetQueue.constructor | cfg_queues.py:19-21 | empty list, membership set is the one passed in |
| Queues.SetQueue.Put | cfg_queues.py:23-26 | a value already a member changes nothing; otherwise it is appended and becomes a member; the list stays duplicate-free and within the members |
| Queues.SetQueue.Take | cfg_queues.py:28-31 | returns the front value, drops it from list and members, keeps the invariant |
| Queues.SetQueue.Empty | cfg_queues.py:33-34 | true exactly when nothing is queued |
| Queues.AdditiveDictQueue.constructor | cfg_queues.py:39-41 | empty list and dictionary |
| Queues.AdditiveDictQueue.Put | cfg_queues.py:43-48 | a queued key gets the new paths appended to its entry and keeps its place; a new key is appended with its paths; list and keys stay in one-to-one correspondence |
| Queues.AdditiveDictQueue.Take | cfg_queues.py:50-53 | returns the front key with its entry and removes both |
| Queues.AdditiveDictQueue.Empty | cfg_queues.py:55-56 | true exactly when nothing is queued |
| Queues.ConservativeDictQueue.constructor | cfg_queues.py:61-63 | empty list and dictionary |
| Queues.ConservativeDictQueue.Put | cfg_queues.py:65-68 | a queued key keeps its old entry and nothing changes; a new key is appended with its value |
| Queues.ConservativeDictQueue.Take | cfg_queues.py:70-73 | returns the front key with its entry and removes both |
| Queues.ConservativeDictQueue.Empty | cfg_queues.py:75-76 | true exactly when nothing is queued |
| Queues.Carry.constructor | cfg_queues.py:86 | the carried multiplicity starts at 1 |
| Queues.CountSet.constructor | cfg_queues.py:88-89 | empty counts, attached to the given carry |
| Queues.CountSet.Add | cfg_queues.py:91-95 | a present value gains the carried multiplicity; an absent one enters with it |
| Queues.CountSet.Remove | cfg_queues.py:97-98 | the value leaves the counts and its count becomes the carried multiplicity |
| Queues.CountSet.Insert | cfg_queues.py:100-102 | the value's count is set (not added) to the carried multiplicity |
| Queues.CountSet.Contains | cfg_queues.py:104-110 | answers membership; a member also gains the carried multiplicity, a non-member changes nothing |
| Queues.CountingSetQueue.constructor | cfg_queues.py:19-21 | empty list over the given counting set |
| Queues.CountingSetQueue.Put | cfg_queues.py:23-26 | a queued value stays in place and gains the carried multiplicity; a new one is appended with it |
| Queues.CountingSetQueue.Take | cfg_queues.py:28-31 | returns the front value, removes it, and its count becomes the carried multiplicity |
| Queues.CountingSetQueue.Empty | cfg_queues.py:33-34 | true exactly when nothing is queued |
| Grammar.FirstKeyAt | cfg_string_gen.py:9 | the first rule in table order whose name occurs at the position, or none if no name does |
| Grammar.SearchFrom | cfg_string_gen.py:20 | the leftmost occurrence at or after the position, or terminal when there is none |
| Grammar.Search | cfg_string_gen.py:20 | a found match is the leftmost occurrence, with ties going to the earlier rule; there is no match exactly when the string is terminal |
| Grammar.Splice | cfg_string_gen.py:27 | the result keeps the text before and after the span, holds the alternative at the match's start, and has the right length |
| Grammar.Children | cfg_string_gen.py:20-27 | a terminal string has no children; any other has one child per alternative of the rule found at its leftmost occurrence |
| Grammar.LeftmostUnique | cfg_string_gen.py:20 | at most one match satisfies the leftmost/tie-break condition |
| Grammar.ChildrenRewriteLeftmost | cfg_string_gen.py:26-27 | every child rewrites exactly the leftmost occurrence, and the kept prefix holds no nonterminal |
| StringGen.PutChildren | cfg_string_gen.py:26-27 | the queue gains exactly the children, in order |
| StringGen.ListVisit | cfg_string_gen.py:20-27 | one take: a terminal string is appended to the output, and any other string's children join the next level |
| StringGen.ListLevelLoop | cfg_string_gen.py:14-27 | one level on the plain queue equals `ListLevel` |
| StringGen.ListDrainLoop | cfg_string_gen.py:30-34 | the drain equals `ListDrain` and empties the queue |
| StringGen.ListStrings | cfg_string_gen.py:7-35 | the plain-queue run returns `ListGen(g, D)` |
| StringGen.PutChildrenNew | cfg_string_gen.py:26-27 | the deduplicating queue gains the children as `PutAllNew` says |
| StringGen.SetVisit | cfg_string_gen.py:20-27 | one take on the deduplicating queue equals `SetStep` |
| StringGen.SetLevelLoop | cfg_string_gen.py:14-27 | one level equals `SetLevel`, including the membership set |
| StringGen.SetDrainLoop | cfg_string_gen.py:30-34 | the drain equals `SetDrain` |
| StringGen.UniqueStrings | cfg_string_gen.py:7-35 | the deduplicating run returns `SetGen(g, D)` |
| StringGen.PutCountedItem | cfg_queues.py:23-26 | a counted put equals `PutCounted` with the carried multiplicity |
| StringGen.PutChildrenCounted | cfg_string_gen.py:26-27 | the children are put as `PutAllCounted` says, each with the multiplicity of the string taken |
| StringGen.CountVisit | cfg_string_gen.py:20-27 | one take on the counting queue equals `CountStep` (a terminal string is inserted with its multiplicity) |
| StringGen.CountLevelLoop | cfg_string_gen.py:14-27 | one level equals `CountLevel`, counts included; the gate is never left counted |
| StringGen.CountDrainLoop | cfg_string_gen.py:30-34 | the drain equals `CountDrain` |
| StringGen.CountRunLoop | cfg_string_gen.py:13-34 | the level loop followed by the drain equals `CountRun` |
| StringGen.CountStrings | cfg_string_gen.py:7-35 | the counting run returns `CountGen(g, D)`, and that is the output counting set's dictionary |
| Reachability.ListLevelExpands | cfg_string_gen.py:14-27 | `ListLevel`: a level queues the children of its strings in order and emits its terminal strings in order |
| Reachability.ListDrainEmits | cfg_string_gen.py:30-34 | `ListDrain`: the drain emits exactly the terminal strings of the queue, in order |
| Reachability.ListRunHarvests | cfg_string_gen.py:13-34 | `ListRun`: a run emits the terminal strings of every level, level by level |
| Reachability.ListGenHarvests | cfg_string_gen.py:7-35 | `ListGen`: the plain-queue output is the harvest of `D + 1` levels from "S" |
| Reachability.HarvestMembers | cfg_string_gen.py:13-34 | a string is harvested exactly when it is finished and lies within the levels |
| Reachability.ChainSound | cfg_string_gen.py:26-27 | every string on level n ends a leftmost derivation of n steps from "S" |
| Reachability.ChainComplete | cfg_string_gen.py:26-27 | the end of every leftmost derivation from "S" lies on the level of its length |
| Reachability.SpanReachable | cfg_string_gen.py:13-27 | a string lies within n levels from "S" exactly when some derivation of at most n steps reaches it |
| Reachability.HarvestReachable | cfg_string_gen.py:13-34 | harvested exactly when finished and reachable in at most that many steps |
| Reachability.ListGenMembers | cfg_string_gen.py:7-35 | plain-queue output: x is listed exactly when x is terminal and reachable from "S" in at most `D + 1` steps |
| Reachability.StepIsChild | cfg_string_gen.py:58-60 | a path step that applies produces one of the string traversal's children |
| Reachability.ChildIsStep | cfg_string_gen.py:58-60 | every child is produced by a step naming one of its rule's alternatives |
| Reachability.ReplayChain | cfg_string_gen.py:58-60 | a path that replays to x gives a leftmost derivation from "S" to x, one string per step |
| Reachability.ChainReplays | cfg_string_gen.py:58-60 | every leftmost derivation from "S" is the replay of a path of position-free steps with its length |
| Reachability.ReplayReachable | cfg_string_gen.py:58-60 | a string a path replays to is reachable in at most that path's length steps |
| Reachability.ReachableReplays | cfg_string_gen.py:58-60 | a string reachable in at most n steps is the replay of a path of at most n position-free steps |
| Dedup.GrammarStops | cfg_string_gen.py:20-24 | a terminal string has no children |
| Levels.PutAllCountedCount | cfg_queues.py:91-95 | counting puts of `xs`, each with multiplicity c, raise a string's count by c times the number of its occurrences in `xs` |
| Levels.PutAllCountedAdds | cfg_queues.py:91-95 | the same for every string at once, and the counted strings become the old ones and those of `xs` |
| Dedup.PutAllNewGrows | cfg_queues.py:23-26 | `PutNew`, `PutAllNew`: deduplicating puts only add, only what was put, and everything put is then queued or already marked |
| Dedup.SetLevelFacts | cfg_string_gen.py:14-27 | `SetStep`, `SetLevel`: a deduplicating level emits its terminal strings and loses no child of an unfinished string |
| Dedup.SetDrainEmits | cfg_string_gen.py:30-34 | `SetDrain`: the drain adds exactly the terminal strings of the queue |
| Dedup.SetRunSound | cfg_string_gen.py:13-34 | `SetRun`: the deduplicating run emits only terminal strings within the levels run |
| Dedup.SetRunComplete | cfg_string_gen.py:13-34 | the deduplicating run emits every terminal string within the levels run, even though it drops repeats |
| Dedup.SetRunMembers | cfg_string_gen.py:13-34 | a run from "S" emits x exactly when x is finished and reachable within the levels |
| Dedup.SetGenMembers | cfg_string_gen.py:7-35 | `SetGen`: set output: x is in it exactly when x is terminal and reachable from "S" in at most `D + 1` steps |
| Dedup.SetGenIsListed | cfg_string_gen.py:92-101 | the set mode's output is the set of the list mode's output |
| Dedup.PutAllCountedMirrors | cfg_queues.py:104-110 | `PutCounted`, `PutAllCounted`: counting puts queue and mark exactly what deduplicating puts do |
| Dedup.CountStepMirrors | cfg_string_gen.py:20-27 | `CountStep`: a counting take moves the queue like a deduplicating take |
| Dedup.CountLevelMirrors | cfg_string_gen.py:14-27 | `CountLevel`: a counting level moves the queue like a deduplicating level |
| Dedup.CountDrainMirrors | cfg_string_gen.py:30-34 | `CountDrain`: the counting drain emits the same strings as the deduplicating drain |
| Dedup.CountRunMirrors | cfg_string_gen.py:13-34 | `CountRun`: the counting run's keys are the deduplicating run's output |
| Dedup.CountGenKeys | cfg_string_gen.py:85-90 | `CountGen`: the counted strings are exactly the set mode's strings: terminal and reachable in at most `D + 1` steps |
| Paths.StepFor | cfg_string_gen.py:40 | a step records the alternative, and records the position exactly when not in low-memory mode |
| Paths.Available | cfg_string_gen.py:53 | a path is kept exactly when it was given and is shorter than the depth, and no more paths are kept than were given |
| Paths.AvailableKeeps | cfg_string_gen.py:53 | the kept paths are a subsequence of the given ones, so order is kept; a path shorter than the depth keeps its multiplicity and any other is dropped |
| Paths.Extend | cfg_string_gen.py:60 | every kept path is extended by the one new step, in order |
| Paths.ExtendSound | cfg_string_gen.py:58-61 | extending sound paths with the step just taken gives sound paths for the new string |
| Potential.Branching | cfg_string_gen.py:58 | the bound exceeds every rule's number of alternatives |
| Potential.WeightAvailable | cfg_string_gen.py:53 | dropping the paths that reached the depth does not increase the weight |
| Potential.WeightExtend | cfg_string_gen.py:60 | extending paths divides their weight by the branching bound |
| Potential.QueueWeightMerge | cfg_queues.py:44-45 | merging paths into a queued key adds exactly their weight |
| Potential.QueueWeightSnoc | cfg_queues.py:47-48 | appending a new key adds its entry's weight |
| Potential.QueueWeightTake | cfg_queues.py:51-52 | taking the front key removes exactly its entry's weight |
| PathSteps.MergeAllGathers | cfg_queues.py:43-48 | after additive puts (`MergePut`, `MergeAll`), every key holds its earlier paths followed by the paths of all its puts in put order; the keys are the old ones and the ones put; queued keys keep their places |
| PathSteps.KeepAllKeepsFirst | cfg_queues.py:65-68 | after conservative puts (`KeepPut`, `KeepAll`), a key already queued keeps its paths and a new key holds the paths of its first put; the keys are the old ones and the ones put |
| PathSteps.KeepAllExtends | cfg_queues.py:65-68 | conservative puts only append keys; queued keys keep their places |
| PathSteps.RewritesSound | cfg_string_gen.py:53-61 | an expansion (`Rewrites`) puts each child once, in rule-list order, with one extended path per path shorter than the depth, all of them sound |
| PathSteps.MergeRunUnique | cfg_string_gen.py:45-62 | the loop over the additive queue (`MergeVisit`, `MergeRun`) is deterministic: two complete runs from the start are the same run and store the same result |
| PathSteps.KeepRunUnique | cfg_string_gen.py:45-62 | the same for the conservative queue (`KeepVisit`, `KeepRun`) |
| DerivationGen.PutOneAdditive | cfg_queues.py:43-48 | the queue becomes `MergePut` of the old queue; every queued path stays sound; the weight grows by at most the new paths' weight |
| DerivationGen.PutOneConservative | cfg_queues.py:65-68 | the queue becomes `KeepPut` of the old queue; every queued path stays sound with one path per key; the weight grows by at most the new weight |
| DerivationGen.PutRewriteAdditive | cfg_string_gen.py:59-61 | putting the child of one alternative: the queue becomes `MergePut` with that put of `Rewrites` and stays sound |
| DerivationGen.PutRewriteConservative | cfg_string_gen.py:59-61 | the same on the conservative queue (`KeepPut`), one path per key |
| DerivationGen.PutDerivationsAdditive | cfg_string_gen.py:58-61 | the queue becomes `MergeAll` of the old queue with the expansion's puts, in rule-list order, and stays sound |
| DerivationGen.PutDerivationsConservative | cfg_string_gen.py:58-61 | the queue becomes `KeepAll` of the old queue with the expansion's puts, with one path per key |
| DerivationGen.ExpandAdditive | cfg_string_gen.py:53-61 | with a path shorter than the depth the queue becomes `MergeAll` with the expansion's puts, and with none it is unchanged; the queue stays sound and its weight drops |
| DerivationGen.ExpandConservative | cfg_string_gen.py:53-61 | the same for the conservative queue (`KeepAll`), one path per key |
| DerivationGen.VisitAdditive | cfg_string_gen.py:46-61 | one loop turn is `MergeVisit` of the old queue and output; stored keys are terminal with sound paths; the queue's weight strictly drops |
| DerivationGen.VisitConservative | cfg_string_gen.py:46-61 | one loop turn is `KeepVisit`, with exactly one path per queued and stored key |
| DerivationGen.AllDerivations | cfg_string_gen.py:38-62 | the run terminates, and its output ends a complete `MergeRun` trace, which `MergeRunUnique` makes the only possible output; a string is stored exactly when it is terminal and reachable from "S" in at most `D` steps; every path replays to its key, is at most `D` long and has the requested shape; depth 0 gives `DepthZero` |
| DerivationGen.FirstDerivations | cfg_string_gen.py:38-62 | the same over `KeepRun`, with exactly one path per stored string |
| DerivationGen.StoredAreGenerated | cfg_string_gen.py:82-101 | every string the path traversal stores with sound paths is also yielded by the set and the list modes for the same depth |
| DerivationGen.StoredAreReachable | cfg_string_gen.py:45-62 | every string stored with sound paths is reachable from "S" in at most `D` steps |
| DerivationGen.MergeStoredExactly | cfg_string_gen.py:38-62 | a complete additive run stores a string exactly when it is terminal and reachable from "S" in at most `D` steps |
| DerivationGen.KeepStoredExactly | cfg_string_gen.py:38-62 | the same for the conservative run: keeping one path per string loses no string |
| Coverage.MergeVisitTracks | cfg_string_gen.py:45-61 | one additive turn keeps a derivation of a terminal string tracked: its end is stored, or one of its forms is queued with a path short enough to finish it within `D` steps |
| Coverage.MergeRunComplete | cfg_string_gen.py:38-62 | a complete additive run stores every terminal string reachable from "S" in at most `D` steps |
| Coverage.RestLayered | cfg_queues.py:70-73 | taking the front of a breadth-first conservative queue leaves it breadth first, and every remaining path is as long as the front's path or one step longer |
| Coverage.KeepAllLayered | cfg_queues.py:65-68 | conservative puts of single paths of one length keep the queue breadth first |
| Coverage.KeepVisitLayered | cfg_string_gen.py:45-61 | one conservative turn keeps the queue breadth first: one path per key, lengths never decreasing along the queue and growing by at most one |
| Coverage.KeepVisitTracks | cfg_string_gen.py:45-61 | one conservative turn keeps a derivation tracked, because the path kept for a string already queued is no longer than the one dropped |
| Coverage.KeepRunComplete | cfg_string_gen.py:38-62 | a complete conservative run stores every terminal string reachable from "S" in at most `D` steps |
| Generator.CfgStringGenerator | cfg_string_gen.py:9-101 | an empty table makes every traversal fail on the empty rule name, except the path mode at depth 0, which returns nothing. Otherwise the flags select the output. In path mode it is the unique result of `MergeRun` (repetition on) or `KeepRun` (repetition off): exactly the terminal strings reachable in at most `D` steps, with sound paths, and one path per string when repetition is off. Counts = `CountGen`, list = `ListGen`, and set = `SetGen` |
| WorkedRuns.SingleAtDepthZero | cfg_string_gen.py:13-34 | `S -> a` at depth 0 yields exactly "a" in list, set and count modes |
| WorkedRuns.BinaryAtDepthZero | example.py:3 | the binary-strings grammar at depth 0 yields nothing in every mode |
| WorkedRuns.DetourCountOverwrites | cfg_queues.py:100-102 | "a" reached at two levels is listed twice but counted once |

## Left out

- `main` and all console input and output, and the printing in example.py:
  they are I/O.
- Grammar.Search: the combined regular expression is modelled as literal
  matching of the rule names. A name holding a regular-expression
  metacharacter would behave differently in the original.
- The rule table is a sequence of (name, alternatives) pairs in insertion
  order. A non-empty table only ever looks up names it holds. An empty table
  compiles to a pattern that matches the empty name at the start of "S".
  The lookup of that name then fails with a key error, which the dispatcher
  returns as `MissingRule("")`. The path mode at depth 0 drops "S" before
  the lookup and returns nothing.
- Queues.CountSet.Remove: only the multiplicity half of `last_removed` is
  kept, because the removed value itself is never read. The carry is scoped
  to one run (a `Carry` object shared by that run's two counting sets),
  whereas the original keeps it in a class attribute shared by every run.
- The Python set field is named `members`, because `set` is a Dafny
  keyword.
- `SetQueue` over a built-in set and `SetQueue` over a `CountSet` are two
  classes (`SetQueue`, `CountingSetQueue`), and the traversals are written
  once per queue kind, because the original relies on duck typing.
- The string traversal's methods take their queue (and counting output)
  empty from the caller, which is how the dispatcher calls them.
- The maximum depth is a `nat`. A negative depth is not modelled. With one,
  the string modes would run no level (cfg_string_gen.py:13) and only drain
  "S", emitting it if it is terminal (lines 29-34). The path mode would
  extend no path (line 53), so it would store "S" if it is terminal and
  nothing otherwise.
- Dedup.CountGenKeys: states which strings are counted, not what their
  multiplicities are. The multiplicities are pinned down only by `CountGen`
  itself and by the worked examples.
- Reachability.ListGenMembers: states membership, not how many times each
  string is listed.
- DerivationGen.AllDerivations: the set of stored strings is stated
  exactly. Which paths each string keeps is fixed only as the one result of
  `MergeRun`, and proved sound. Storing a string again overwrites its paths
  (cfg_string_gen.py:49-51, 79-80), and no lemma lists which paths survive
  that.
- DerivationGen.FirstDerivations: the same over `KeepRun`. No lemma states
  directly which single path is kept for a string.
- Generator.CfgStringGenerator: `MissingRule` stands for the key error that
  the original raises.
- The path and count modes return Python dictionaries, whose keys iterate in
  insertion order. The model returns a `map`, which has no order, so the
  order in which strings were stored or counted is not modelled. The
  program does not depend on that order.
