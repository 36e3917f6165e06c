# SOASim, verified

A Dafny model of the battle explorer's core, with proofs. SOASim turns a symbolic battle plan into concrete paths,
ships each path to a pool of worker processes, runs a small script machine there that plays the turns on the
emulator, and collects verdicts. The model follows these four stages.

**Plan enumeration.** `TargetDomains`, `BindingGraph`, `TurnCompiler`, `CompileTurn`, `TurnSolutions` and `TurnMeaning`
compile one symbolic turn: all ways to give every action a concrete target, by backtracking over a shared scratch turn
after a cycle check. `FakeAttacks`, `MixedRadix`, `Explorer` and `PathCounts` multiply the turns out, distribute the
fake-attack budget and predict the number of jobs; `ListingOrder` says in which order everything is listed. `Branching` is
the branch explorer. `Strides`, `FairCombos`, `FairWalk`, `TurnCover`, `SeedBoard`, `SeedInputs`, `SeedDraws`, `SeedStory`
and `SeedSearch` are the search for input combinations with a wanted seed delta.

**The runner.** `RunnerProtocol` is the runner as atomic steps of the submitting thread, dispatchers, child processes
and readers; any enabled step may come next and pipes may fail anywhere. `RunnerInvariants` and `RunnerEpochs` prove what
holds in every interleaving, `RunnerProgress` what stays possible. `RunLedger` and `RunPaths` are the collection of results
with retries, `PathStories` what becomes of every path, `LostJobs` runner and collection together.

**The script machine.** `ScriptVm` gives the meaning of its operations, `ScriptRunner` its loop, `PredicateEval` the
predicate evaluation. `BattleProgram` is the constant battle program; `BattleRuns` and `BattleSteps` state and preserve
what holds at each of its places, `BattleFlow` and `BattleHistory` what a run remembers of its hits, and `BattleOutcomes`
draws the conclusions for every run. `BattleEndings` tells the battle stop by stop and proves that a run ends as told,
`BattleReports` what its context reports, `JobVerdicts` under which heading its path is filed; `BattleEscapes` says exactly
which jobs can read outside their table on a given machine. The host is arbitrary: a memory that may change at every stop
and a stream of stop events. `PlanWriter` writes one turn's controller frames, `MenuReplay` plays them back on the menu.

**Programs and encodings.** `AddrProgram` is the address-program assembler and interpreter, `PredicatePacking` the packer that
relocates programs behind a record table, and `PathCodec`, `PayloadCodec` and `ContextCodec` are the wire formats.
`Bytes`, `Sequences`, `ActionTypes` and `ScriptContext` hold the shared vocabulary.

Where the code departs from its own comments, the model follows the code:

- Mirrors of open targets keep the order in which the user listed them; the comment promises a topological order
  (SimCore/Phases/BattleExplorer.cpp:248-250). `TurnMeaning.CompileRightExactlyWhen` gives the exact condition.
- Without turns the estimate is zero although one (empty) path is enumerated (SimCore/Phases/BattleExplorer.cpp:412-417, 596).
- A triple counts as exhausted after as many emissions as it has combinations, covered or not
  (SimCore/Phases/RNGSeedDeltaMap.cpp:396-398). `FairWalk.CoversExactlyWhen` says when it is.
- The bounds test of a program offset adds in 32 bits (SimCore/Runner/Script/PhaseScriptVM.cpp:30), so the last three
  offsets pass it. `BattleEscapes.EscapesExactlyWhen` says for which jobs and breakpoint maps that matters.
- The fake-attack loop counts in 8 bits (SimCore/Core/Input/SoaBattle/PlanWriter.cpp:83); a larger count never ends. The script
  machine of the model then hangs.
- An unsupported macro is not reported, and the frames of the turn before are stepped once more
  (SimCore/Core/Input/SoaBattle/PlanWriter.cpp:121, SimCore/Runner/Script/PhaseScriptVM.cpp:277-282).
- BUILD reports turn 0 but does not stop; that no run reaches it is proved.
- A right-hand side is read through its program first and by its key only if that yields nothing; the comment has it the other
  way round (SimCore/Runner/Script/PhaseScriptVM.cpp:619-627).
- A job whose run failed is not followed by a top-up, so the combination search can end with targets it could still have asked
  (SimCore/Phases/RNGSeedDeltaMap.cpp:562-567); the results say what holds otherwise.

Words are explicit: bytes and 16-, 32- and 64-bit values are subset types of the integers, wrap-around is written out
(`Wrap32`, `Wrap64`), target masks are 32-bit vectors. Sizes are unbounded naturals unless a field of that width stores them.

## Model

| member | source | states |
|---|---|---|
| AddrProgram.Execute | SimCore/Core/Memory/Soa/SoaAddrProgram.cpp:21-77 | The interpreter loop, on arbitrary bytes and any memory, ends and returns exactly the stepwise meaning, failures included |
| AddrProgram.AssembledRunsAsFold | SimCore/Core/Memory/Soa/SoaAddrProgramBuilder.h:12-51 | Running assembled instructions anywhere in a larger buffer equals folding them over a wrapping 32-bit address and the memory, including failing pointer loads |
| AddrProgram.AddressInClosedForm | SimCore/Core/Memory/Soa/SoaAddrProgram.cpp:35-75 | A base key followed by any moves gives the base plus all offsets and counts times strides, from the last pointer read on, modulo 2^32, and fails exactly when a pointer on the way cannot be read |
| AddrProgram.InstructionBytes | SimCore/Core/Memory/Soa/SoaAddrProgramBuilder.h:12-48 | The bytes of every instruction: its code, then its operands, least significant byte first |
| Bytes.LittleEndian | SimCore/Phases/Programs/BattleRunner/BattleRunnerPayload.cpp:10-11 | Two-, four- and eight-byte words stand in the buffers least significant byte first |
| AddrProgram.ExecRelocates | SimCore/Core/Memory/Soa/SoaAddrProgram.cpp:21-77 | A program that runs to success gives the same address wherever its bytes stand in a buffer |
| AddrProgram.Builder.BuiltProgramMeaning | SimCore/Core/Memory/Soa/SoaAddrProgramBuilder.h:41-51 | What the builder has emitted runs as the fold of the instructions asked for |
| AddrProgram.Builder.FinalizeProgram | SimCore/Core/Memory/Soa/SoaAddrProgramBuilder.h:41-48 | Emits the end mark and returns the start of the program |
| PredicatePacking.BlobDeduper.Intern | SimCore/Runner/Breakpoints/Predicate.cpp:15-33 | Returns the place of the first copy of the program and keeps the blob the concatenation of the distinct programs in first-use order, for any hash |
| PredicatePacking.BuildTable | SimCore/Runner/Breakpoints/Predicate.cpp:38-96 | Each record keeps its specification's fields (with defaulted width and turn mask) and holds, per program operand, the program's place behind the records; the blob is the programs' concatenation |
| PredicatePacking.ProgramsExact | SimCore/Runner/Breakpoints/Predicate.cpp:77-94 | The interned programs are exactly the used ones, pairwise different |
| PredicatePacking.RecordRoundTrip | SimCore/Runner/Breakpoints/Predicate.cpp:47-73 | A record read back from the table's bytes, with anything behind the table, is the record written |
| PredicatePacking.RecordLayout | SimCore/Runner/Breakpoints/Predicate.h:24-43 | Where in the 36 bytes of a record each of its fields stands |
| PredicatePacking.RecordMeans | SimCore/Runner/Breakpoints/Predicate.cpp:47-73 | What a built record says of its specification, with default width and turn mask, and which programs it has offsets for |
| PredicatePacking.PackingPreservesMeaning | SimCore/Runner/Breakpoints/Predicate.cpp:77-94 | A program operand that reads a value on its own reads the same value at its packed offset in records plus blob |
| PredicatePacking.PackedAssembledProgram | SimCore/Runner/Breakpoints/Predicate.cpp:84-91 | An assembled program in the blob, run at its offset, folds its instructions |
| PredicatePacking.ReadViaAddrProg | SimCore/Runner/Script/PhaseScriptVM.cpp:19-58 | Reads the operand exactly when the offset is set, the 32-bit bounds test passes, the program runs and the final address can be read in the leading key's region; tells a failed read from one outside the table |
| PredicatePacking.ReadMeans | SimCore/Runner/Script/PhaseScriptVM.cpp:20-61 | An operand read through its program: the program stands inside the table and starts with a base key, and the word at the address it leads to is read in that key's region and in one of the four widths |
| PredicatePacking.OutsideExactlyWhen | SimCore/Runner/Script/PhaseScriptVM.cpp:28-33 | In a table of at least one record and at most 0xFFFFFFFD bytes a read leaves the table exactly for the offsets 0xFFFFFFFD to 0xFFFFFFFF, whose 32-bit bounds test wraps around |
| PredicatePacking.PackedOffsetsInside | SimCore/Runner/Breakpoints/Predicate.cpp:77-94 | Every offset the table builder stores has its whole program inside the table; it can reach the wrap only in a table that all but fills 4 GiB and ends in a program of fewer than three bytes |
| PathCodec.EncodeTurnPlans | SimCore/Core/Input/SoaBattle/ActionPlanSerializer.cpp:51-61 | Produces the nested count-prefixed layout |
| PathCodec.TurnLayout | SimCore/Core/Input/SoaBattle/ActionPlanSerializer.cpp:51-61 | The count of turns comes first, and every turn begins, where the turns before it end, with its fake attacks and its number of actions |
| PathCodec.ActionLayout | SimCore/Core/Input/SoaBattle/ActionPlanSerializer.cpp:21-34 | The eight bytes of every action of every turn: actor, prelude flag, macro, nothing, target mask |
| PathCodec.DecodeTurnPlans | SimCore/Core/Input/SoaBattle/ActionPlanSerializer.cpp:63-89 | Returns what the recursive parser returns: ok only when the turns end where the buffer does; completed turns stay on failure |
| PathCodec.PathRoundTrip | SimCore/Core/Input/SoaBattle/ActionPlanSerializer.cpp:51-89 | Decoding an encoded path recovers it up to the item id and with prelude flags reduced to 0 or 1 |
| PathCodec.DecodableIsPrefixFree | SimCore/Core/Input/SoaBattle/ActionPlanSerializer.cpp:63-89 | No proper extension of a decodable buffer decodes |
| PathCodec.EncodedPathIsExact | SimCore/Core/Input/SoaBattle/ActionPlanSerializer.cpp:51-89 | Neither a strict prefix nor a strict extension of an encoded path decodes |
| PayloadCodec.EncodePayload | SimCore/Phases/Programs/BattleRunner/BattleRunnerPayload.cpp:15-49 | Writes header, frame, packed predicate table, blob and path |
| PayloadCodec.HeaderLayout | SimCore/Phases/Programs/BattleRunner/BattleRunnerPayload.cpp:15-24 | Bytes 0 to 20 of a job: its kind 3, version 3, the two timeouts and the frame to begin with |
| PayloadCodec.BlockLayout | SimCore/Phases/Programs/BattleRunner/BattleRunnerPayload.cpp:31-46 | From byte 21 on: the records by number, the programs and the path by size, each block behind its count |
| PayloadCodec.DecodePayload | SimCore/Phases/Programs/BattleRunner/BattleRunnerPayload.cpp:51-109 | Accepts, rejects or runs over exactly as specified, and on acceptance writes exactly the specified context keys |
| PayloadCodec.JobKeys | SimCore/Phases/Programs/BattleRunner/BattleRunnerPayload.cpp:91-108 | The keys a decoded job sets, by number, with what they hold; all others stay |
| PayloadCodec.PayloadRoundTrip | SimCore/Phases/Programs/BattleRunner/BattleRunnerPayload.cpp:15-109 | Decoding an encoded job recovers timeouts, initial frame, records followed by blob, zero baselines and the path as the wire carries it |
| ContextCodec.EncodeNumeric | SimCore/Runner/Script/PSContextCodec.cpp:19-73 | Encodes the entries in whatever order the map yields them, skipping the unencodable ones |
| ContextCodec.EntryLayout | SimCore/Runner/Script/PSContextCodec.cpp:21-63 | An entry is its key, the tag of its type, nothing, the size of its value, and the value |
| ContextCodec.ContextHead | SimCore/Runner/Script/PSContextCodec.cpp:65 | The letters CTX2, the version, nothing, and the number of entries come first |
| ContextCodec.DecodeNumeric | SimCore/Runner/Script/PSContextCodec.cpp:80-139 | Returns what the recursive decoder returns: first entry of a key wins, unknown types are skipped |
| ContextCodec.ContextRoundTrip | SimCore/Runner/Script/PSContextCodec.cpp:19-139 | Decoding an encoded context recovers exactly its encodable entries, for any iteration order |
| Branching.ValidateSpec | SimCore/Core/Branching/Branching.cpp:20-32 | No error exactly for well-formed specifications, and the first error otherwise |
| Branching.BranchExplorer.constructor | SimCore/Core/Branching/Branching.cpp:34-52 | The weights are the products of the option counts to the right, the total the product of all |
| Branching.BranchExplorer.MaterializeWithIndices | SimCore/Core/Branching/Branching.cpp:58-72 | The plan is the default frame off the decision frames and the chosen option on them |
| Branching.BranchExplorer.Next | SimCore/Core/Branching/Branching.cpp:74-91 | Yields the instance whose digits are the mixed-radix digits of the index, until the product is reached |
| Branching.BranchExplorer.ForEachBranch | SimCore/Core/Branching/Branching.cpp:93-103 | Visits exactly the product of the option counts, calling back per frame until declined |
| Branching.CallsMean | SimCore/Core/Branching/Branching.cpp:92-104 | The callback sees frame after frame, each under its number, up to and including the first it declines |
| MixedRadix.BigDigitsEnumerate | SimCore/Core/Branching/Branching.cpp:81-86 | Counting up to the product runs through all digit tuples in dictionary order, every tuple once |
| Branching.InstancesDistinct | SimCore/Core/Branching/Branching.cpp:74-91 | Different indices choose different options, in dictionary order |
| Branching.EveryChoiceVisited | SimCore/Core/Branching/Branching.cpp:74-91 | Every combination of options is the instance of exactly one index below the total |
| TargetDomains.MasksFromBits | SimCore/Phases/BattleExplorer.cpp:127-135 | Peels the bits off lowest first |
| TargetDomains.MaskBitsExact | SimCore/Phases/BattleExplorer.cpp:126-135 | Exactly the single-bit masks contained in the mask, ascending |
| TargetDomains.DomainAnyEnemy | SimCore/Phases/BattleExplorer.cpp:139-144 | The masks of the present enemy slots, as computed by peeling |
| TargetDomains.AnyEnemyExact | SimCore/Phases/BattleExplorer.cpp:139-144 | "Any enemy" offers exactly one mask per enemy slot with presence 1 |
| BindingGraph.CountSorted | SimCore/Phases/BattleExplorer.cpp:214-246 | Kahn's scan takes all nodes off its queue if and only if no binding chain returns to its start, for any number of actors and any visiting order |
| BindingGraph.RankedIsAcyclic | SimCore/Phases/BattleExplorer.cpp:214-246 | Bindings that always lead to a smaller rank have no cycle |
| TurnCompiler.Search.Dfs | SimCore/Phases/BattleExplorer.cpp:284-333 | The backtracking over one shared scratch turn appends exactly the completions of a search without leftovers, and leaves only targets of later places changed |
| CompileTurn.AssignmentOrder | SimCore/Phases/BattleExplorer.cpp:248-268 | Independent targets first, mirrors of open targets last, duplicates dropped |
| CompileTurn.HasCycle | SimCore/Phases/BattleExplorer.cpp:214-246 | True exactly when the mirroring edges contain a cycle |
| CompileTurn.CompileTurnSpecs | SimCore/Phases/BattleExplorer.cpp:153-341 | Collecting, rejecting, ordering and backtracking together give the specified list |
| TurnSolutions.SolveExact | SimCore/Phases/BattleExplorer.cpp:284-333 | For any turn: the search returns exactly the completions in which every place has an allowed target |
| TurnSolutions.BeforeMirror | SimCore/Phases/BattleExplorer.cpp:253-268 | Before a mirror of an open target stand exactly the independent targets and the mirrors listed above it |
| TurnMeaning.CompileSound | SimCore/Phases/BattleExplorer.cpp:154-337 | Soundness: every emitted specification is the user's turn, actors, macros and items unchanged, with targets that meet every binding (turns with one action per actor), and the turn is ordered |
| TurnMeaning.CompiledAsAsked | SimCore/Phases/BattleExplorer.cpp:173-200 | Action by action: the emitted actor, macro and item are the user's, no prelude is set, and the target is the literal mask, one bit of the mask, one present enemy's bit, or the target of the mirrored actor |
| TurnMeaning.CompileDistinct | SimCore/Phases/BattleExplorer.cpp:153-341 | No specification is emitted twice, whatever the turn |
| TurnMeaning.CompileComplete | SimCore/Phases/BattleExplorer.cpp:153-341 | For distinct slots, if every mirrored open target is settled before its mirrors, every satisfying assignment is emitted |
| TurnMeaning.CompileExact | SimCore/Phases/BattleExplorer.cpp:153-341 | Ordered turns compile to exactly their solutions, each once; every other turn compiles to nothing |
| ListingOrder.CompileRises | SimCore/Phases/BattleExplorer.cpp:268-337 | Of two specifications listed for a turn the earlier has the lower mask at the first place of the assignment order where they differ |
| TurnMeaning.CompileRightExactlyWhen | SimCore/Phases/BattleExplorer.cpp:255-261 | The compiler lists exactly the solutions if and only if the turn is ordered or has no solution |
| TurnMeaning.LateReferenceFindsNothing | SimCore/Phases/BattleExplorer.cpp:311-316 | A turn with acyclic bindings and a solution that is nevertheless compiled to nothing, because a reference is listed too late |
| FakeAttacks.Binom | SimCore/Phases/BattleExplorer.cpp:25-34 | The 64-bit multiplicative loop gives the binomial coefficient if its last product fits 64 bits, and otherwise too small a number |
| FakeAttacks.Absorption | SimCore/Phases/BattleExplorer.cpp:30-32 | k C(n,k) = n C(n-1,k-1): why every division of the loop is exact |
| FakeAttacks.Enumerator.Dfs | SimCore/Phases/BattleExplorer.cpp:42-52 | One branch of the recursion appends, behind the fixed prefix, all tuples with the remaining sum |
| FakeAttacks.EnumerateFakeAttackVectors | SimCore/Phases/BattleExplorer.cpp:36-58 | Returns the specified vectors |
| FakeAttacks.VectorsExact | SimCore/Phases/BattleExplorer.cpp:36-58 | Exactly the N-tuples of naturals with sum at most B, each once; none for N = 0 |
| ListingOrder.VectorsInOrder | SimCore/Phases/BattleExplorer.cpp:36-58 | The vectors come by their sums, and with equal sums in dictionary order |
| FakeAttacks.VectorsCount | SimCore/Phases/BattleExplorer.cpp:612-613 | For N >= 1 their number is C(B+N, N) |
| FakeAttacks.HockeyStick | SimCore/Phases/BattleExplorer.cpp:612-613 | The sum of the stars-and-bars counts is one binomial |
| Explorer.Odometer.Bump | SimCore/Phases/BattleExplorer.cpp:356-362 | One carry step: the next tuple of indices, and false exactly after the last |
| MixedRadix.SuccessorCounts | SimCore/Phases/BattleExplorer.cpp:356-362 | A carry step adds one to the number the tuple denotes, or wraps to zero from the last |
| Explorer.ProductTurnsToBasePaths | SimCore/Phases/BattleExplorer.cpp:344-384 | The k-th base path takes the mixed-radix digits of k, for every k below the product |
| PathCounts.ProductExact | SimCore/Phases/BattleExplorer.cpp:344-384 | The base paths are exactly the ways to take one choice per turn, each once |
| Explorer.EnumeratePaths | SimCore/Phases/BattleExplorer.cpp:386-426 | Compiles the turns, multiplies them out and expands every base path with every fake-attack vector |
| PathCounts.PathsExact | SimCore/Phases/BattleExplorer.cpp:386-426 | For every configuration: exactly the paths with a compiled specification per turn and fake attacks within the budget, each once |
| ListingOrder.PathNumber | SimCore/Phases/BattleExplorer.cpp:409-426 | Path number k * vectors + j is base path k with fake-attack vector j |
| PathCounts.PathsCounted | SimCore/Phases/BattleExplorer.cpp:386-426 | Their number is the product of the choices times C(B+N, N) |
| PathCounts.PathsSatisfy | SimCore/Phases/BattleExplorer.cpp:386-426 | Every turn of an enumerated path meets the user's target bindings |
| PathCounts.EstimatePathsNoFake | SimCore/Phases/BattleExplorer.cpp:591-606 | Zero without turns, else choices times initial frames modulo 2^64 |
| PathCounts.EstimatePathsWithFake | SimCore/Phases/BattleExplorer.cpp:608-614 | The first estimate times C(B+N, N) modulo 2^64 when the binomial's loop does not overflow, and otherwise times a smaller number |
| PathCounts.EstimateExactlyWhen | SimCore/Phases/BattleExplorer.cpp:591-614 | Modulo 2^64 the two estimators give the number of jobs if and only if there is a turn (or no initial frame) |
| RunPaths.Collector.SubmitAll | SimCore/Phases/BattleExplorer.cpp:466-489 | One encoded job per initial frame and path, numbered frame by frame |
| RunPaths.Collector.Handle | SimCore/Phases/BattleExplorer.cpp:500-572 | What one answer does to the books: reject, retry, abandon or file |
| RunPaths.Collector.Collect | SimCore/Phases/BattleExplorer.cpp:491-573 | Keeps the books and the story of every path for any order of answers, takes the polled answers one by one, and stops when nothing remains |
| PathStories.StoriesGoOn | SimCore/Phases/BattleExplorer.cpp:500-572 | The story of every path, in its answers alone: all but the last came from runs that broke off, each was followed by another submission while the limit allowed, and the last puts it where it belongs: refused, successful for outcome 0, failed for any other, or given up |
| PathStories.RetriesMeans | SimCore/Phases/BattleExplorer.cpp:506-543 | A job is sent again exactly when its run was delivered, not ok and without a breakpoint hit, and the retry limit is not used up |
| LostJobs.LostNeverReturns | SimCore/Runner/Parallel/ProcessWorker.cpp:175-188 | Whatever the runner does after a worker lost a job, that job is never answered: it died with the child, never got into its pipe, or is with a child whose reader has left |
| LostJobs.UnansweredRemains | SimCore/Phases/BattleExplorer.cpp:491-496 | As long as some job is not answered, `remaining` stays positive, whatever the other answers say |
| LostJobs.LostJobIsAwaited | SimCore/Phases/BattleExplorer.cpp:491-496 | Runner and caller together: after a job was lost the collection loop never runs out of jobs to wait for |
| RunLedger.DeliveredKeeps | SimCore/Phases/BattleExplorer.cpp:500-572 | Whatever an answer says, the invariant of the books holds afterwards |
| RunLedger.WorkConserved | SimCore/Phases/BattleExplorer.cpp:491-573 | Successes, fails, rejected, abandoned and remaining jobs add up to the jobs submitted, and no path is in two places |
| RunLedger.CollectionEnds | SimCore/Phases/BattleExplorer.cpp:518-541 | With retry limit r >= 0 no path is submitted more than r+1 times and at most jobs*(r+1) answers are taken |
| Strides.CoprimeStride | SimCore/Phases/RNGSeedDeltaMap.cpp:231-239 | For n >= 2 a stride in 1..n-1 coprime to n is found, for any seed |
| Strides.StrideVisitsAll | SimCore/Phases/RNGSeedDeltaMap.cpp:363-370 | n advances by a coprime stride visit every index exactly once |
| FairCombos.AdvanceAxis | SimCore/Phases/RNGSeedDeltaMap.cpp:363-370 | Moves the first axis with more than one entry, from the cursor on, by its stride |
| FairCombos.FairComboIterator.Next | SimCore/Phases/RNGSeedDeltaMap.cpp:378-413 | Ends; from the cursor on, triples that have nothing untried to offer within the limit are walked to there and passed; the first that has stands exactly behind its first untried combination, the rest are untouched, and the cursor is on the one after; or none of them has, and the cursor is where it was |
| FairCombos.DrawIsDetermined | SimCore/Phases/RNGSeedDeltaMap.cpp:378-413 | What a draw finds, and where it leaves triples and cursor, is determined by where it began and what was tried |
| FairWalk.FairTurns | SimCore/Phases/RNGSeedDeltaMap.cpp:363-370 | Of two moving axes the one nearer to the cursor is at most one turn ahead |
| FairWalk.AxisFollowsStride | SimCore/Phases/RNGSeedDeltaMap.cpp:363-370 | Along the walk every axis follows its own stride |
| FairWalk.TwoTurns | SimCore/Phases/RNGSeedDeltaMap.cpp:363-370 | With two moving axes the first has made (t+1)/2 turns at emission t and the other t/2 |
| FairWalk.ThreeTurns | SimCore/Phases/RNGSeedDeltaMap.cpp:363-370 | With three moving axes they have made (t+2)/3, (t+1)/3 and t/3 turns |
| FairWalk.ComesUpIsEmitted | SimCore/Phases/RNGSeedDeltaMap.cpp:385-403 | What the walk shows within the total is exactly what a new triple emits before it is exhausted |
| FairWalk.TwoAheadNeverComes | SimCore/Phases/RNGSeedDeltaMap.cpp:396-398 | When two moving axes share a factor of 3 or more, the combination two turns ahead on the first never comes up, however long one draws |
| TurnCover.PairsExactlyWhen | SimCore/Phases/RNGSeedDeltaMap.cpp:363-398 | Two counters of lengths n (first) and m taking turns show every pair of residues within n*m emissions if and only if n = 2 or gcd(n, m) = 2 |
| TurnCover.TriplesNever | SimCore/Phases/RNGSeedDeltaMap.cpp:363-398 | Three counters of lengths from 2 on never show every triple of residues within the product of their lengths |
| FairWalk.CoversExactlyWhen | SimCore/Phases/RNGSeedDeltaMap.cpp:396-398 | Every combination of a triple comes up before it counts as exhausted if and only if at most one axis moves, or exactly two do and the first has two entries or their lengths have greatest common divisor 2 |
| SeedInputs.InverseMap | SimCore/Phases/RNGSeedDeltaMap.cpp:275-283 | A pair is listed under a delta exactly when the probe observed it there |
| SeedInputs.FindTargets | SimCore/Phases/RNGSeedDeltaMap.cpp:435-444 | Exactly the sums of one delta per family that no single input gave, ascending |
| SeedInputs.TriplesFor | SimCore/Phases/RNGSeedDeltaMap.cpp:460-498 | Exactly the delta triples that sum to the target, each once in order, with indices in range and coprime strides |
| SeedBoard.SubmittedKeeps | SimCore/Phases/RNGSeedDeltaMap.cpp:505-537 | A submission keeps the books: counters, tried combinations, known jobs, catalogue |
| SeedBoard.AnsweredKeeps | SimCore/Phases/RNGSeedDeltaMap.cpp:547-586 | So does every answer, failed, unknown or observed |
| SeedDraws.ChainIsDetermined | SimCore/Phases/RNGSeedDeltaMap.cpp:378-413 | From the same triples all draws are determined by the order in which targets are asked |
| SeedDraws.OpensMean | SimCore/Phases/RNGSeedDeltaMap.cpp:505-507 | The places a sweep asks are those of the unsatisfied targets below the cap, ascending, each once |
| SeedDraws.RoundKeeps | SimCore/Phases/RNGSeedDeltaMap.cpp:549-598 | One poll of the collection loop, as a relation between the books before and after and the draws made, keeps the books in order |
| SeedDraws.GaveUpSettles | SimCore/Phases/RNGSeedDeltaMap.cpp:588-598 | After a sweep that found nothing every target is satisfied, at its cap, or its last draw found every triple spent |
| SeedStory.StoryTold | SimCore/Phases/RNGSeedDeltaMap.cpp:505-586 | At every poll, from events and submissions alone: exactly the ids handed out and not yet answered are open, with the jobs sent under them; a catalogue entry holds the inputs sent under the id whose first result reported its delta; a target is satisfied exactly when a job for it reported its own delta; and the jobs are those the draws found, in order |
| SeedSearch.Search.Draw | SimCore/Phases/RNGSeedDeltaMap.cpp:378-413 | The draw continues where the last one for the target stood, knows all that was found since, and finds an untried combination whose deltas sum to the target, or every triple of the target spent |
| SeedSearch.Search.EnqueueFor | SimCore/Phases/RNGSeedDeltaMap.cpp:505-537 | Draws exactly when the target is open and below its cap; submits what the draw found, or leaves the books alone, and then this draw left every triple of the target spent |
| SeedSearch.Search.InitialWave | SimCore/Phases/RNGSeedDeltaMap.cpp:541-542 | One draw for every target that can be helped, in ascending order, and one job for every draw that found something |
| SeedSearch.Search.SweepOnce | SimCore/Phases/RNGSeedDeltaMap.cpp:590-596 | Asks the targets that can be helped in order up to the first draw that finds something, and submits that; or all of them, and none does |
| SeedSearch.Search.TopUp | SimCore/Phases/RNGSeedDeltaMap.cpp:588-598 | Sweep after sweep sends one job, until there is a job per worker or a whole sweep found nothing; all draws are those of the sweeps |
| SeedSearch.Search.HandleResult | SimCore/Phases/RNGSeedDeltaMap.cpp:549-598 | An unknown job changes nothing; a failure only leaves its slot; an observation is catalogued, satisfies its target if it is the one, and is followed by exactly the sweeps of a top-up |
| SeedSearch.Search.Collect | SimCore/Phases/RNGSeedDeltaMap.cpp:547-599 | The books go from round to round; the loop stops only when all targets are observed, or nothing is in flight and the last known result failed or the last draws were a whole sweep that found nothing |
| SeedSearch.FindSeedDeltaCombos | SimCore/Phases/RNGSeedDeltaMap.cpp:273-599 | The whole search: it gives up exactly when a family has no input; its targets are exactly the sums no single input gave, each with every triple of deltas; from the opening books, which hold the probe's own first inputs, through the first wave and every poll its books and draws are as specified and tell what the polls brought; no two of its jobs carry the same inputs; unless a failed job ended it, on exit every target is satisfied, at its cap, or its last draw found nothing |
| RunnerProtocol.StepConserves | SimCore/Runner/Parallel/ParallelPhaseScriptRunner.cpp:122-154 | Every atomic step of submitter, dispatchers, children and readers moves a submission from one place to another; only a submission adds one |
| RunnerInvariants.RunKeeps | SimCore/Runner/Parallel/ParallelPhaseScriptRunner.cpp:105-155 | The invariant holds after every sequence of enabled steps |
| RunnerInvariants.EverySubmissionOnce | SimCore/Runner/Parallel/ParallelPhaseScriptRunner.cpp:122-154 | In every reachable state each submission is in exactly one place |
| RunnerInvariants.NoSecondResult | SimCore/Runner/Parallel/ProcessWorker.cpp:229-256 | No submission is ever answered twice |
| RunnerInvariants.LocalKeepsSlot | SimCore/Runner/Parallel/ProcessWorker.h:85-90 | Every step inside a worker keeps the slot's accounting |
| RunnerInvariants.SlotIsExact | SimCore/Runner/Parallel/ProcessWorker.h:85-90 | Until its reader leaves or it is stopped, a worker's slot is taken exactly when the dispatcher owns it or exactly one job is between send and release, so the child never holds two |
| RunnerInvariants.AtMostTwoLost | SimCore/Runner/Parallel/ProcessWorker.cpp:175-188 | A worker loses at most two jobs, counting those stuck in its child once the reader left |
| RunnerInvariants.WorkerResultsInOrder | SimCore/Runner/Parallel/TSQueue.h:9-29 | Every worker's accepted results come in submission order; with one worker that is all of them |
| RunnerEpochs.AnswersByEpoch | SimCore/Runner/Parallel/ParallelPhaseScriptRunner.cpp:122-154 | In every run, an accepted answer is for a job its worker took up in the job's own epoch and sent, a refused one for a job its worker took up in another epoch, and that epoch is the one of its submission |
| RunnerEpochs.NoneRefused | SimCore/Runner/Parallel/ParallelPhaseScriptRunner.cpp:80-108 | As long as the epoch is not changed, no job is refused |
| RunnerProgress.QueuedJobsCanBeAnswered | SimCore/Runner/Parallel/ParallelPhaseScriptRunner.cpp:122-154 | In every reachable state with one usable worker, every queued job can still be answered by it, and is accepted exactly when it carries the worker's epoch; so no interleaving locks the runner up |
| RunnerProgress.StoppedDispatcherExits | SimCore/Runner/Parallel/ParallelPhaseScriptRunner.cpp:276-288 | Once the queue is closed and the worker stopped, its dispatcher can always finish, so waiting for it can end |
| RunnerProgress.LeavingReaderFrees | SimCore/Runner/Parallel/ProcessWorker.cpp:298-301 | A reader that leaves frees the slot: a dispatcher that was waiting for it can take up the next job |
| PlanWriter.Writer.NavMainTo | SimCore/Core/Input/SoaBattle/PlanWriter.cpp:22-26 | Ends on the (clamped) item and appends exactly the moves from the remembered one |
| PlanWriter.Writer.ResolveRequestedTargetIndex | SimCore/Core/Input/SoaBattle/PlanWriter.cpp:38-48 | The specified target: the first living enemy in the mask, the cursor's own place without a mask, or none |
| PlanWriter.SingleTarget | SimCore/Core/Input/SoaBattle/PlanWriter.cpp:28-48 | A single-enemy mask selects that enemy exactly when it is present, alive and no player, and nothing otherwise |
| PlanWriter.Writer.Attack | SimCore/Core/Input/SoaBattle/PlanWriter.cpp:59-69 | Opens the targets, navigates and confirms; without target fails after opening |
| PlanWriter.Writer.FakeAttackRounds | SimCore/Core/Input/SoaBattle/PlanWriter.cpp:82-90 | For counts up to 255 the specified rounds, ending on Attack; for larger ones the loop is still running after any number of rounds |
| PlanWriter.FakeLoopEndsExactlyWhen | SimCore/Core/Input/SoaBattle/PlanWriter.cpp:83 | The loop over its 8-bit counter leaves after some number of rounds if and only if the count is at most 255, and then after that many |
| PlanWriter.Writer.BuildTurn | SimCore/Core/Input/SoaBattle/PlanWriter.cpp:107-125 | A fresh writer produces the specified frames, verdict and error, and does not end exactly for more than 255 fake attacks |
| MenuReplay.TargetMovesShortest | SimCore/Core/Input/SoaBattle/PlanWriter.cpp:50-57 | No sequence of presses reaches the target place with fewer of them |
| MenuReplay.TurnPlaysBack | SimCore/Core/Input/SoaBattle/PlanWriter.cpp:107-125 | Played back on the menu the writer assumes, the frames give exactly the requested number of opened and cancelled attacks and then the turn's commands on the resolved targets |
| MenuReplay.RequestedMeans | SimCore/Core/Input/SoaBattle/PlanWriter.cpp:30-52 | The target of a request: the first living enemy of the mask; without a mask the first enemy, dead or alive; none when there is none |
| MenuReplay.TurnFrames | SimCore/Core/Input/SoaBattle/PlanWriter.cpp:6-19 | A supported turn takes three frames for the zoom, two more for the rotation, six per fake attack, and per action four a menu item passed, two a press and two a target passed, one between actions; presses are single and released at once, sticks and triggers rest |
| MenuReplay.TurnFailsExactlyWhen | SimCore/Core/Input/SoaBattle/PlanWriter.cpp:113-122 | Writing succeeds exactly for supported turns; an attack without target is reported, an unsupported macro fails with no error code |
| PredicateEval.Evaluate | SimCore/Runner/Script/PhaseScriptVM.cpp:569-661 | The loop tallies exactly the verdicts of all records: totals modulo 2^32, the latch, and the id of the first failure; unless a record's operand is read outside the table |
| PredicateEval.JudgeOne | SimCore/Runner/Script/PhaseScriptVM.cpp:597-650 | One record: skipped, judged, or read outside the table, in the order of the source; the turn mask plays no part |
| PredicateEval.VerdictMeans | SimCore/Runner/Script/PhaseScriptVM.cpp:597-647 | A judged record is active and meant for the stop; its operands are read from program, key, address or immediate as its flag bits say; and it passes exactly when its code, 0 to 5, holds as equal, different, below, at most, above, at least, and never for another code |
| PredicateEval.SkippedMeans | SimCore/Runner/Script/PhaseScriptVM.cpp:597-634 | A record is skipped only when inactive, meant for another stop, or unreadable |
| PredicateEval.TallyMeans | SimCore/Runner/Script/PhaseScriptVM.cpp:649-661 | The tallies count the judged records and those that passed; the latch falls with the first that failed, whose id is reported |
| PredicateEval.Capture | SimCore/Runner/Script/PhaseScriptVM.cpp:525-566 | The baselines record by record, unless a record's operand is read outside the table |
| PredicateEval.CaptureMeans | SimCore/Runner/Script/PhaseScriptVM.cpp:525-566 | Capturing overwrites exactly the captured records' words of the baselines |
| PredicateEval.CapturedMeans | SimCore/Runner/Script/PhaseScriptVM.cpp:538-561 | A word is captured only from an active record that asks for it, through its program if that yields a value, else by key, else from its address |
| PredicateEval.DeltaComparesWithCapture | SimCore/Runner/Script/PhaseScriptVM.cpp:631-647 | A delta record judged after a capture compares with the captured value: code 2 passes exactly when the value fell, code 4 exactly when it grew |
| BattleProgram.MakeBattleRunnerProgram | SimCore/Phases/Programs/BattleRunner/BattleRunnerScript.h:34-114 | Building the program operation by operation gives the constant program the results below are about |
| BattleProgram.JumpGoes | SimCore/Phases/Programs/BattleRunner/BattleRunnerScript.h:40-113 | Every jump of the program finds its label |
| ScriptVm.JumpsExactlyWhen | SimCore/Runner/Script/PhaseScriptVM.cpp:160-187 | A conditional jump continues behind its label exactly when the comparison of the word holds, and with the next operation otherwise |
| ScriptVm.KeysJumpExactlyWhen | SimCore/Runner/Script/PhaseScriptVM.cpp:189-217 | Likewise for two words |
| ScriptRunner.PhaseScriptVm.RunOp | SimCore/Runner/Script/PhaseScriptVM.cpp:146-671 | One round of the loop does what the operation's step relation says |
| ScriptRunner.PhaseScriptVm.BuildPlan | SimCore/Runner/Script/PhaseScriptVM.cpp:240-298 | BUILD as specified, including turn 0, a missing path, the end of the path and a turn that cannot be written |
| ScriptRunner.PhaseScriptVm.ApplyPlan | SimCore/Runner/Script/PhaseScriptVM.cpp:300-337 | Steps the stored frames in order and marks the plan done; does nothing without a stored plan |
| ScriptRunner.PhaseScriptVm.RunUntilBreakpoint | SimCore/Runner/Script/PhaseScriptVM.cpp:347-393 | Mirrors the host's outcome and the key of the hit into the context, predicate keys overriding canonical ones |
| ScriptRunner.PhaseScriptVm.Run | SimCore/Runner/Script/PhaseScriptVM.cpp:123-675 | The loop walks one execution of the program |
| ScriptVm.StoredFrames | SimCore/Runner/Script/PhaseScriptVM.cpp:284-328 | Frames stored as bytes come back unchanged |
| BattleOutcomes.StepKeeps | SimCore/Phases/Programs/BattleRunner/BattleRunnerScript.h:40-113 | Every operation of the battle program keeps what holds at its place |
| BattleOutcomes.RunsGood | SimCore/Phases/Programs/BattleRunner/BattleRunnerScript.h:40-113 | So every machine of every run on a decoded job satisfies it |
| BattleOutcomes.DecodedJobFits | SimCore/Phases/Programs/BattleRunner/BattleRunnerPayload.cpp:67-109 | Every job the decoder accepts meets the assumptions of these results |
| BattleOutcomes.NeverUndefined | SimCore/Runner/Script/PhaseScriptVM.cpp:240-337 | No run indexes the path or the stored frames out of range, and none reads outside a predicate table whose used offsets lie below 0xFFFFFFFD |
| BattleEscapes.EscapesExactlyWhen | SimCore/Runner/Script/PhaseScriptVM.cpp:28-33 | For a given breakpoint map and every decoded job: on some game a run reads outside an object if and only if an active record has a used program offset from 0xFFFFFFFD on (a right-hand one only counts for a readable width) and the machine can report a breakpoint at which the record is evaluated, or one that begins the first turn if its left-hand value is captured |
| BattleEscapes.ShelteredStaysIn | SimCore/Runner/Script/PhaseScriptVM.cpp:28-33 | A job without such a record escapes under no breakpoint map |
| BattleEscapes.StrayJobEscapes | SimCore/Runner/Script/PhaseScriptVM.cpp:28-33 | A job of one such record is accepted by the decoder, and escapes on exactly the machines that can report a breakpoint at all |
| BattleEscapes.BuiltJobsStay | SimCore/Runner/Breakpoints/Predicate.cpp:77-94 | No job that the encoder builds below 4 GiB has such a record |
| BattleHistory.TracedKeeps | SimCore/Phases/Programs/BattleRunner/BattleRunnerScript.h:40-113 | Every operation keeps turn, baselines, battle, built turns and evaluations a function of what the host reported |
| BattleOutcomes.RunsTraced | SimCore/Phases/Programs/BattleRunner/BattleRunnerScript.h:40-113 | So they are in every machine of every run |
| BattleOutcomes.TurnInRange | SimCore/Phases/Programs/BattleRunner/BattleRunnerScript.h:46-90 | BUILD is reached with 1 <= ACTIVE_TURN <= LAST_TURN+1, RUN_UNTIL_BP with ACTIVE_TURN <= LAST_TURN, and the bound LAST_TURN+1 holds everywhere |
| BattleOutcomes.EachTurnBuiltOnce | SimCore/Phases/Programs/BattleRunner/BattleRunnerScript.h:50-90 | Two BUILDs of a run serve different turns, so there are at most LAST_TURN+1 |
| BattleOutcomes.InputsAppliedOnce | SimCore/Phases/Programs/BattleRunner/BattleRunnerScript.h:58-62 | The jump back to apply the inputs again is never reached |
| BattleOutcomes.BoundedBetweenRuns | SimCore/Phases/Programs/BattleRunner/BattleRunnerScript.h:50-90 | At most twenty operations lie between two runs of the game |
| BattleOutcomes.FramesAreTurns | SimCore/Runner/Script/PhaseScriptVM.cpp:284-337 | The frames stepped in turn t are the planned ones; for a turn of supported macros exactly the writer's frames for path entry t-1 in the battle that the hit beginning turn t showed |
| BattleOutcomes.BuiltInBattles | SimCore/Runner/Script/PhaseScriptVM.cpp:264-272 | Turn t is built in the battle decoded from what the hit that began it showed, or the one read before when that cannot be read |
| BattleOutcomes.HangsAtLongTurn | SimCore/Core/Input/SoaBattle/PlanWriter.cpp:83 | A run that hangs does so at BUILD of a turn of the path with more than 255 fake attacks |
| BattleOutcomes.EvaluationsAreOfTheHit | SimCore/Runner/Script/PhaseScriptVM.cpp:525-661 | Every evaluation judged the records on the game as it stood at its own hit, deltas against the baselines captured at the hits before it that began a turn |
| BattleOutcomes.OutcomesFaithful | SimCore/Runner/Script/PhaseScriptVM.cpp:443-449 | DWRunErr exactly when ok is false; Victory and Defeat only at their hits; TurnsExhausted only after the last turn with no predicate ever false; PredFailure only on the first false evaluation, naming its first false record; PlanMaterializeFailure only past the path or without target |
| BattleOutcomes.HitIsThere | SimCore/Runner/Script/PhaseScriptVM.cpp:378-391 | The reported key is that of the first armed predicate breakpoint at the stop's address, else of the first canonical one there; it is 0 without a stop, and else only if no other key is armed at the address |
| BattleOutcomes.HitByRecord | SimCore/Runner/Script/PhaseScriptVM.cpp:378-391 | A stop is reported under the breakpoint of the first record that has its own there, else under the first of 203, 204, 209, 210 and 211 that lies there, else under 0 |
| BattleEndings.RunsEndAsTold | SimCore/Phases/Programs/BattleRunner/BattleRunnerScript.h:66-113 | A finished run ended at the first stop that ends the job, by that stop's breakpoint, predicates and turn, with that stop's outcome, and ok unless the emulator stopped by itself; only a snapshot that does not load ends it without an outcome |
| BattleEndings.UnderWay | SimCore/Phases/Programs/BattleRunner/BattleRunnerScript.h:66-113 | While a run is under way no stop so far ended the job |
| BattleEndings.RunsHangAsTold | SimCore/Core/Input/SoaBattle/PlanWriter.cpp:83 | A run that hangs does so in the turn its last stop began, and no stop before ended it |
| BattleReports.TimeInForce | SimCore/Phases/Programs/BattleRunner/BattleRunnerScript.h:66-98 | Whenever the game is about to run, it is given the job's own time at first, the short one after a stop that begins a turn and the long one after any other |
| BattleReports.ControllerTold | SimCore/Runner/Script/PhaseScriptVM.cpp:284-337 | Whenever the game is about to run, both snapshots were loaded and the controller holds the last frame stepped, or the job's first frame as long as there is none |
| BattleReports.ResultReports | SimCore/Runner/Script/PhaseScriptVM.cpp:362-391 | A returned result reports the address, the time and the fields of its last stop, the polling interval, and the records judged in all and passed at last |
| BattleReports.UnwrittenReports | SimCore/Runner/Script/PhaseScriptVM.cpp:237-282 | When a run ends because a turn cannot be written, key 0x333 says why: 4 when the path has no such turn, 1 when an attack has no target |
| JobVerdicts.VerdictTold | SimCore/Phases/BattleExplorer.cpp:506-557 | What the caller reads of a finished run, by code: 0 exactly at breakpoint 209, 1 exactly at 210, 5 exactly when the emulator stopped by itself, 2 exactly when a record was false elsewhere, 4 exactly when inputs behind the last turn were asked for at 203, 3 exactly when the turn begun at 211 or 203 cannot be written |
| JobVerdicts.SuccessIsVictory | SimCore/Phases/BattleExplorer.cpp:553-558 | The caller counts a run as a success exactly when its last stop was at breakpoint 209, the victory |
| JobVerdicts.WireReads | SimCore/Runner/Parallel/ProcessWorker.cpp:246-258 | What the caller reads of a result is the same whether it reads the context or its wire form, in any order of the entries |
| JobVerdicts.PathFiledByGame | SimCore/Phases/BattleExplorer.cpp:506-571 | A path whose last answer is a run of the game is among the successes exactly when that run ended at the victory, among the failures exactly when it ended otherwise at a breakpoint, and given up otherwise; its earlier runs all broke off |

## Left out

- The 4 GiB limit of 32-bit offsets in the predicate table and of 32-bit byte counts: `PredicatePacking.Fits`, `PathCodec.Countable` and the buffer bound of `PayloadCodec.DecodePayload` assume that they do not wrap.
- Overflow of 64-bit path counts and of 32-bit delta sums: naturals and integers; only the estimators are modulo 2^64.
- Branching.BranchExplorer.Next: the index and the total are unbounded, not 64-bit.
- The battle-context codec and the derived battle buffer: opaque functions of the host.
- BattleEscapes.EscapesExactlyWhen: reads outside the derived battle buffer are not part of it; that buffer's own bounds test also adds in 32 bits (SimCore/Core/Memory/Soa/Battle/DerivedBattleBuffer.h:44-45), and what a read near the last address gives is part of the opaque function.
- Floating-point context values: opaque 4- and 8-byte patterns.
- PayloadCodec.DecodePayload: where the path length points behind the buffer, the outcome is `Overrun`; what the C++ code would read there is not modelled.
- PathCodec.DecodeTurnPlans: the space the decoder reserves for a count taken from the wire (SimCore/Core/Input/SoaBattle/ActionPlanSerializer.cpp:71, 79); a huge count can make that throw, which is not modelled.
- The text of a failed comparison (PRED_FAILED_CMP_STR), progress messages and logging.
- PlanWriter.Writer.BuildTurn: gives up after 255 rounds of fake attacks; the source's loop has no such limit and, for larger counts, goes on until memory runs out.
- MenuReplay.TurnPlaysBack: the game's menu is the one the writer assumes (highlight back on Attack after an attack, target ring opening at the first enemy slot); the real game's menu is not part of this model.
- The script operations the battle program does not use (reads, movies, savestates, disc checks).
- ScriptRunner.PhaseScriptVm.Run: stops after a given number of operations; the source's loop has no such limit. The results of `BattleOutcomes` hold after any number.
- Setting programs, running init scripts and activating the main program (the control messages and their acknowledgements), the boot of the emulator, process creation, waiting for readiness with timeouts.
- RunnerProtocol: writing an envelope and reading a result are atomic at their end; a job half written or half read counts as lost. A child answers each job it finishes once, as the worker's message loop does.
- Byte layout of the wire envelopes of jobs and results, the truncation of the epoch to 32 bits on the wire.
- RunPaths.Collector.Collect: the runner answers each submission at most once and only those, as `RunnerInvariants.NoSecondResult` and `RunnerInvariants.EverySubmissionOnce` prove of the protocol; the polling loop is fed a finite sequence of polls.
- FairCombos: the iterator's triples, like the source's vector, are values; the hash that scatters start offsets and strides is an arbitrary function.
- SeedSearch: the labels of catalogue entries; the singleton frames are kept as input pairs.
- The seed probe itself, TAS movies, the sandbox user interface, configuration files.
