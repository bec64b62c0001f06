# bpf-ninja, verified

A Dafny model of bpf-ninja's hard core and proofs about it. bpf-ninja rewrites BPF programs, decides by static
analysis what may be rewritten or observed, captures packets on every CPU, and reports completion only when it is
true. The model has five parts.

1. **The rewriter and its checkers.** `Machine` gives the BPF instruction set a meaning (RFC 9669; jump offsets as
   in section 4.3, two-slot immediates as in section 5.4). `Splice` is the rewriter, `Liveness` the offline
   register liveness, and `Simulation` proves that an accepted rewrite runs like the original. `Postlude` is the
   checker's symbolic walk over the instructions inserted after a helper; `PostludeSound` says what its acceptance
   means on every concrete path. `SpliceExact` and `PostludeExact` say exactly what the rewriter and the walk accept.
2. **Static analyses.** `Ctx*` track the program context through registers and stack slots, inside a function by a
   worklist and across functions by the call graph, up to soundness over whole runs; `CtxRefs`, `CtxBest`, `CtxTable`
   and `CtxReload` say how precise they are, `CtxExample` and `CtxFailure` give a program and a run in which the
   tracker is wrong. `ArgReads` finds argument registers a function never reads; `ReadPaths` says by paths what it and
   `Liveness` report, `OperandsExact` what their operand tables list. `FrameDepth`, `FrameExact` and `FrameSound`
   bound a function's use of its own frame. `CallGraph`/`StackDepth` compute the longest call chains; `TailCallWalk`
   is the kernel's tail-call walk.
3. **The gated hold protocol** (`Gated`): each fentry and each fexit is one atomic step on its CPU's state.
4. **Tag completion and draining** (`Barrier`, `Finalizer`): a transition system of producers, shard readers and
   the finalizer, in any interleaving; and the finalizer's own maps.
5. **Output and arithmetic** (`Merge`, `HookBlock`, `HookMerge`, `Comment`, `Wakeup`, over `Words`): the k-way merge,
   the on-disk block and its merge, the comment and its worst-case length, the branch-free wakeup flag.

`dafny verify dfyconfig.toml` checks everything. No file includes another; modules import each other by name.

## Premises

* Memory is split into regions (one per call frame, the context, kernel objects) and a pointer reaches only its
  region; helpers, ALU operations other than move, add and subtract, conditions and atomics are parameters of the
  machine (`Machine.Env`). Every theorem quantifies over them.
* The caller's stack audit, where the rewriter asks for one: no access of the original goes below the audited bound
  (`Agreement.StaysAbove`, for every step of the run considered).
* What the kernel verifier guarantees of the programs the context tracker reads is stated per step in
  `CtxKernel.Law` and per program in `CtxKernel.Verified`: own-frame accesses stay in the frame, stack pointers are
  stored whole and aligned and only into the function's own frame, a global function gets the context its prototype
  names, helpers write only data and only at or above the lowest frame offset they were given, a result points into
  the stack only as an alias of a waiting caller's buffer the call was given (an alias of the caller's own buffer is
  no stack pointer to the verifier; writes through it are `CtxKernel.AliasWrites`), a callback starts only
  at a function whose address the program takes. What a frame still holds from earlier activations is data to the
  next one (`CtxKernel.Refreshed`, `FrameSound.Begins`), so runs that reuse a frame full of old pointers are covered.
* In a loaded program a direct call has its target in the constant; a dump may carry it in the offset.
  `CtxTranslated` carries what is proved on such a dump over to the program.
* The tracker is not right about every such program: it looks for a callback only where it sees a function pointer,
  and calls one it was passed as an argument plain data. `CtxFailure.TrackerIsWrong` gives a program, whatever the
  proof pass concludes about it, and a run in which the slot named for the context holds zero. `CtxSound` proves the
  tracker right for every run of every program that meets the static condition `CtxRuns.Recognised`: after each call
  of a proved function that may run a callback and is given a pointer into the frame, the analysis claims nothing
  exact of the frame. `CtxExact.CallbackExact` shows that condition necessary and sufficient for the state after a
  call to survive whatever the callback writes, and `CtxExact.WhenNothingIsClaimed` spells it out on the state before
  the call: a function pointer is seen among R1-R5, or every exact slot lies above the lowest offset given.
* `Simulation.ArgsDead`: the offline liveness finds R3-R5 dead after the site; R1 is dead there by the site's shape.
* `Simulation.SameLayout`: the loader gives corresponding functions of the original and the rewritten program the
  same address.
* `PostludeSound.TestsZero`: JEQ and JNE compare with zero; `Returned` and `HookRuns`: the helper and the hook return
  with R6-R10 and the reserved spill slots as they were.
* `FrameSound.Honest`: nothing outside the program invents a pointer into the function's frame, and the helpers the
  pass lets a frame pointer into neither keep nor return it; `Entered`: no argument and nothing live points into the
  frame a function is given.
* A finalizer's grace period outlasts every invocation that was running when it began, as the kernel's does.
* The documentation of `checkHookOptions` says the options end with opt_endofopt; the code does not look at bytes
  after it, and `HookBlock.Shape` says so. The comment bound reserves the name `site` for the site value;
  `Comment.LayoutOk` says what room a longer name has, exactly so for a layout of just a site
  (`Comment.SiteBoundIsExact`). The program names its sites `site` or `info` only, which both meet it.

## Model

| member | source | states |
|---|---|---|
| Splice.SpillSlots | pkg/inject/inject.go:501-515 | two aligned 8-byte slots strictly below the audited mark and inside the 512-byte stack, refused exactly when they would leave it |
| Splice.Splice | pkg/inject/inject.go:517-582 | succeeds exactly when the site, the spill slots and every reference fit; the result is the input relocated with the six-slot call site after the load |
| Splice.Transform | pkg/inject/inject.go:295-326 | accepts exactly what passes the collision, reference and stack-bound checks and can be spliced; the result is the splice followed by the hook |
| SpliceExact.NextForgets | pkg/inject/inject.go:696-725 | the shape test on the instruction after the site passes exactly those that write one register and after which R1 is as if it had never been touched, whatever it held |
| SpliceExact.CarriedExactly | pkg/inject/inject.go:588-679 | a reference is refused exactly when it cannot be carried: no unique symbol, no boundary or function start, or a distance that no longer fits once the code has moved |
| SpliceExact.EdgeExactly | pkg/injectcheck/check.go:179-208 | the offline checker resolves exactly unresolved references to a unique symbol and distances to an instruction boundary, to the instruction they mean |
| SpliceExact.AcceptsExactly | pkg/inject/inject.go:295-326 | acceptance in elementary terms: a u32 load through R0 followed by such an instruction, room for two slots, no direct use below the audited bound, names in order, references that can be carried |
| SpliceExact.SiteFitsConstant | pkg/inject/inject.go:554 | whatever its number, the site is the 32-bit constant whose low word it is |
| SpliceExact.HookCombines | pkg/inject/inject.go:727-756 | the generated hook returns its two arguments combined by exclusive or and touches nothing else |
| Liveness.Pass | pkg/injectcheck/effects.go:455-476 | one sweep only grows the sets, stays below every solution, and reports whether anything changed |
| Liveness.Solve | pkg/injectcheck/effects.go:455-476 | the sweeps terminate, by total set size, at the least fixpoint of the liveness equations |
| Liveness.Compute | pkg/injectcheck/effects.go:387-480 | refuses exactly programs whose edges do not resolve, else returns that fixpoint for the program |
| Liveness.LiveStep | pkg/injectcheck/effects.go:387-480 | one step from states that agree on all live registers has the same control flow, stores, helper calls and result, calls and returns included |
| Liveness.LiveRun | pkg/injectcheck/effects.go:387-480 | the same over whole runs |
| ReadPaths.LiveExactly | pkg/injectcheck/effects.go:399-480 | live are exactly the registers some path reads before writing them, into called functions included |
| Agreement.StepTwins | pkg/injectcheck/effects.go:399-454 | an instruction that reads none of the differing registers keeps two runs together |
| Agreement.StepShadows | pkg/inject/inject.go:465-475 | a step the audit covers does not notice what lies below the audited bound |
| OperandsExact.ReadsMatter | pkg/injectcheck/effects.go:399-454 | every register an instruction is said to read can change what it does |
| OperandsExact.OthersKept | pkg/injectcheck/effects.go:399-454 | every register it is not said to write is kept |
| OperandsExact.LivenessReads | pkg/injectcheck/effects.go:399-454 | liveness reads just those, and more only at legacy loads and unary operations |
| OperandsExact.ArgumentReads | internal/ctxflow/pass.go:141-195 | so does the argument analysis |
| Simulation.AcceptedIsWoven | pkg/inject/inject.go:295-326 | acceptance gives the layout every later proof uses |
| Simulation.BoundaryMoves | pkg/inject/inject.go:517-582 | every instruction boundary of the input moves to its mapped slot, and no other slot maps to one |
| Simulation.ReferencesLand | pkg/inject/inject.go:588-679 | every relocated branch, call and callback reference lands on the mapped target, so jumps to the instruction after the site skip the insertion |
| Simulation.SymbolMoves | pkg/inject/inject.go:588-663 | symbolic references resolve to the moved symbol |
| Simulation.HookResolves | pkg/inject/inject.go:730-756 | the inserted call resolves to the appended hook |
| Simulation.StepMaps | pkg/inject/inject.go:517-582 | away from the site, one step of the original is one step of the result at the mapped point |
| Simulation.InsertionRuns | pkg/inject/inject.go:517-582 | the insertion runs through the hook and back in nine steps, restoring R0 and the loaded value |
| Simulation.SiteRegDead | pkg/inject/inject.go:696-725 | R1 is dead after an accepted site, by its shape alone |
| Simulation.SiteStep | pkg/injectcheck/effects.go:357-382 | the audited load corresponds to ten steps, the fifth of which starts the hook with the site in R1 and the loaded value in R2 |
| Simulation.OtherStep | pkg/inject/inject.go:517-582 | any other step keeps the two programs in correspondence although dead R1, R3, R4 and R5 and spilled bytes differ; R2 stays equal |
| Simulation.RunsTogether | pkg/inject/inject.go:517-582 | every original run is matched step for step from corresponding states, R0, R2 and R6-R10 equal throughout |
| Simulation.SpliceSimulates | pkg/inject/inject.go:295-326 | from the program's start every audited run is matched by the rewritten program: equal R0, R2, R6-R10, live R1 and R3-R5, frames, helper calls and memory from the audited bound up |
| Simulation.SameResult | pkg/inject/inject.go:295-326 | a run that halts halts there too with the same result and helper calls |
| ArgReads.Reads | internal/ctxflow/pass.go:43-136 | the memoised must-write analysis terminates through nested callees with a sound solution, the least one; it refuses only if some chain of static calls is recursive or ends in a function whose control can leave the program or meet an unresolved jump or call, and records only functions of which neither is true |
| ArgReads.Compute | internal/ctxflow/pass.go:43-136 | the registers a function may read before writing, among R1-R5, by the least sound solution; refused exactly when such a chain starts at the function |
| ReadPaths.ReportedExactly | internal/ctxflow/pass.go:43-195 | reported are exactly the argument registers some path from the function's start reads before writing them, into static callees included |
| ArgReads.FreeStep | internal/ctxflow/pass.go:141-195 | one step keeps two runs together that differ only in an unreported, unwritten register |
| ArgReads.FreeArgument | internal/ctxflow/pass.go:43-136 | noninterference over whole runs, across branches, joins, nested callees and the return |
| ArgReads.FreeArg | internal/ctxflow/pass.go:197-205 | the highest argument register not read, or none exactly when all are |
| ArgReads.FreeRegisterIsFree | internal/ctxflow/pass.go:197-205 | entered with any two values of a register the result leaves out, the function runs the same |
| FrameDepth.Count | pkg/inject/stackframe.go:65-71 | an offset outside the top 512 bytes ends precision; otherwise the depth grows to just cover it |
| FrameDepth.Visit | pkg/inject/stackframe.go:80-130 | one instruction of the pass: whether every alias is followed, the aliases after it, and the least depth covering it |
| FrameDepth.FrameDepthExact | pkg/inject/stackframe.go:17-137 | exact precisely when every alias can be followed and no alias is live where control joins; then the depth is the least one covering every access and pointer; otherwise at least the audited bound |
| FrameExact.FollowedExactly | pkg/inject/stackframe.go:80-137 | in elementary terms, which instructions end precision given the aliases before them |
| FrameExact.KnownAfter | pkg/inject/stackframe.go:80-137 | which registers alias the frame afterwards, and where: a whole copy, a constant shift, or nothing |
| FrameExact.NeededExactly | pkg/inject/stackframe.go:50-137 | the offsets an instruction needs covered: of its access, of the address it forms, of its arguments |
| FrameExact.ArithmeticExactly | pkg/inject/stackframe.go:103-125 | through arithmetic the pass follows, each alias is the register's exact value and nothing else becomes a pointer into the frame |
| FrameSound.JumpLandsUnaliased | pkg/inject/stackframe.go:31-48 | where control joins, no register but R10 aliases the stack |
| FrameSound.ForwardIsKnown | pkg/inject/stackframe.go:139-152 | the helpers trusted with a frame pointer are those whose definitions only access forward of it |
| FrameSound.ActivationStaysActive | pkg/inject/stackframe.go:17-152 | along every activation, callees and callbacks included and whatever earlier activations left in the frame, registers are as the pass says and no pointer into the frame escapes |
| FrameSound.ExactDepthIsSound | pkg/inject/stackframe.go:17-152 | when exact, no execution touches the frame below the depth, whatever earlier activations left there: directly, through an alias, or through a helper argument |
| CallGraph.TopoOrder | pkg/inject/stackdepth.go:127-161 | callers first, each function once; refused exactly on cyclic graphs |
| CallGraph.OrderedIsAcyclic | pkg/inject/stackdepth.go:125-161 | a graph with such an order has no cycle |
| StackDepth.PassOn | pkg/inject/stackdepth.go:191-239 | extending one caller's chains covers all its edges and keeps every recorded chain backed |
| StackDepth.RoundsUp | pkg/inject/stackdepth.go:28-41 | both roundings are the least multiple that holds the frame, the first at least one unit |
| StackDepth.TiesStay | pkg/inject/stackdepth.go:191-215 | extending keeps the longer chain, the earlier one on a tie |
| StackDepth.StackChains | pkg/inject/stackdepth.go:218-241 | refused exactly on recursion; otherwise the completed dynamic program |
| StackDepth.NoChainIsLonger | pkg/inject/stackdepth.go:191-241 | no caller chain, and no chain through a changed caller, exceeds the recorded bytes or frames |
| StackDepth.SpellsRealChain | pkg/inject/stackdepth.go:252-264 | the spelled chain is a real chain of its kind with exactly the recorded total |
| StackDepth.ReachIsMaximum | pkg/inject/stackdepth.go:209-241 | the dynamic program equals path enumeration: found exactly when a chain exists, and the totals are attained maxima |
| StackDepth.Names | pkg/inject/stackdepth.go:252-264 | following the caller links writes that chain out, root first |
| StackDepth.WithinLimit | pkg/inject/stackdepth.go:271-304 | if any real changed chain breaks a limit, by the sum of the rounded frames on it or its length, the test on the maxima fires |
| StackDepth.LimitsBroken | pkg/inject/stackdepth.go:271-304 | nothing is reported exactly when no changed chain breaks a limit: 256 bytes of callers' frames above a tail call, 512 bytes of all frames, 8 frames; each report names a real chain and its real total |
| TailCallWalk.FindTail | pkg/inject/tailcall_guard.go:16-28 | whether a function reaches a tail call, with the positive answers remembered |
| TailCallWalk.Walk | pkg/inject/tailcall_guard.go:39-51 | the walk with its unrestored flag marks a caller exactly when some leaf below it tail-calls |
| TailCallWalk.LosesTailCallReachability | pkg/inject/tailcall_guard.go:7-53 | true exactly when the entry reaches a tail call, does not tail-call itself, and every tail-calling function it reaches makes some call or callback reference |
| TailCallWalk.IntroducesLoss | pkg/inject/tailcall_guard.go:55-61 | reports exactly a loss the original did not have |
| CtxDomain.JoinIsLeast | internal/ctxflow/ctxflow.go:41-62 | the join of two states is their least upper bound |
| CtxDomain.HeightFalls | internal/ctxflow/ctxflow.go:17-39 | the lattice has finite height, the floor included |
| CtxDomain.FloorOver | internal/ctxflow/ctxflow.go:213-228 | the floor drops to the lowest frame offset among R1-R5, or to -512 for an unknown one |
| CtxMonotone.AfterMonotone | internal/ctxflow/ctxflow.go:113-245 | every transfer, calls and atomics included, is monotone |
| CtxWorklist.Merge | internal/ctxflow/prove.go:330-338 | a merge accounts for its state, keeps all others accounted for, stays below every solution, and makes progress or changes nothing |
| CtxWorklist.Analyze | internal/ctxflow/prove.go:326-411 | terminates with the least post-fixpoint, and refuses exactly when there is none |
| CtxProve.Callers | internal/ctxflow/prove.go:271-292 | all direct call sites of a function |
| CtxProve.Prove | internal/ctxflow/prove.go:111-201 | each proved function is eligible, solved, and a root or called only by proved functions that pass the context; each refusal has its reason; what stays open waits on an open caller |
| CtxRefs.EligibleExactly | internal/ctxflow/prove.go:119-149 | candidates have a context parameter in R1-R5, R1 for the entry, and are never used as a callback; the entry and global functions need no caller |
| CtxRefs.CalleeExactly | internal/ctxflow/prove.go:296-309 | what a call or function load refers to: its symbol, or the function starting at the slot its offset or constant means |
| CtxRefs.WriteFreeExactly | internal/ctxflow/prove.go:311-324 | a function is write-free exactly when no instruction stores off its own stack or calls |
| CtxRefs.ElsewhereExactly | internal/ctxflow/prove.go:271-284 | function pointers may come from elsewhere exactly when a function other than the entry loads one |
| CtxRefs.SuccessorsExactly | internal/ctxflow/prove.go:340-405 | which instructions the walk can follow, and all the places control may go |
| CtxRefs.InitialExactly | internal/ctxflow/prove.go:326-329 | a function starts with the context in its parameter and nothing else known |
| CtxMeaning.AluHolds | internal/ctxflow/ctxflow.go:140-160 | the kind of an ALU result describes the value |
| CtxMeaning.OwnLoadHolds | internal/ctxflow/ctxflow.go:161-169 | a load from the own frame yields what the slot is said to hold, and misaligned or narrow loads never yield a tracked pointer |
| CtxMeaning.StoreHolds | internal/ctxflow/ctxflow.go:113-135 | after a store through any kind of pointer, kept aliases included, every slot still holds what it is said to |
| CtxMeaning.WeakSurvives | internal/ctxflow/ctxflow.go:91-103 | slots joined with plain data survive any write of data above the floor |
| CtxTransfer.RegisterTransfer | internal/ctxflow/ctxflow.go:137-177 | moves, arithmetic, loads and constants |
| CtxTransfer.StoreTransfer | internal/ctxflow/ctxflow.go:181-189 | stores |
| CtxTransfer.AtomicTransfer | internal/ctxflow/ctxflow.go:181-201 | atomics, with the fetched value in R0 or the source |
| CtxBest.AluIsBest | internal/ctxflow/ctxflow.go:140-160 | the kind of an ALU result is right in every state the input allows, and is the least right kind exactly under the stated condition on operand kinds |
| CtxBest.LoadIsBest | internal/ctxflow/ctxflow.go:161-170 | so is the kind of a loaded value: a whole slot at a known offset gives just what is known of it |
| CtxBest.ConstantIsBest | internal/ctxflow/ctxflow.go:171-180 | a constant is data, a function's address a function pointer, and nothing less |
| CtxTable.StoreTable | internal/ctxflow/ctxflow.go:113-135 | every slot after a store |
| CtxTable.AtomicSlots | internal/ctxflow/ctxflow.go:181-201 | every slot after an atomic |
| CtxTable.AtomicRegs | internal/ctxflow/ctxflow.go:181-201 | every register after an atomic |
| CtxTable.HelperTable | internal/ctxflow/ctxflow.go:213-245 | every slot and register and the floor after a helper or kernel function |
| CtxTable.FunctionTable | internal/ctxflow/ctxflow.go:213-245 | and after a call into the program |
| CtxTable.AliasIsBest | internal/ctxflow/ctxflow.go:91-103 | what a slot becomes that data may be written over is the least kind right for it |
| CtxReload.SaveAndLoad | internal/ctxflow/ctxflow.go:113-170 | a context saved whole in any slot and loaded back to any register is the context again |
| CtxReload.CalleeIsProven | internal/ctxflow/prove.go:111-201 | for every slot and argument register, a static function called with a reloaded context is proved in every outcome |
| CtxReload.RegisterIsNamed | internal/ctxflow/prove.go:413-427 | reloaded to one of R6-R9, that register is named as the context's place |
| CtxCalls.CallSlots | internal/ctxflow/ctxflow.go:213-235 | the slots after a call hold of whatever the callee may have done to the frame |
| CtxCalls.CallRegs | internal/ctxflow/ctxflow.go:236-245 | R0 and R6-R9 after a call |
| CtxMeaning.ClaimlessSurvives | internal/ctxflow/ctxflow.go:91-103 | a state without exact claims survives any write of data |
| CtxExact.CallbackExact | internal/ctxflow/ctxflow.go:204-235 | the state after a helper call holds of every frame a callback may leave, whatever data it writes, exactly when it claims no exact slot |
| CtxExact.WhenNothingIsClaimed | internal/ctxflow/ctxflow.go:213-235 | which is when a function pointer is seen among the arguments, or else when every exact slot lies above the lowest offset given |
| CtxExample.CalleeProven | internal/ctxflow/prove.go:111-201 | on the sample program every outcome of the proof pass proves the static function, with these states around its helper call |
| CtxFailure.TrackerIsWrong | internal/ctxflow/ctxflow.go:204-235 | the sample program is verified, the pass names fp-24 as the context's place after the call, and a lawful run reaches that point with zero at fp-24 |
| CtxFailure.SampleIsNotRecognised | internal/ctxflow/ctxflow.go:204-235 | the condition of the soundness theorem fails of that program |
| CtxSteps.PlainStep | internal/ctxflow/prove.go:340-404 | a step inside a function keeps the whole-run invariant |
| CtxEnter.ExternalReturns | internal/ctxflow/prove.go:355-369 | so does a helper, kernel function or legacy load that returns, also with an alias of a caller's buffer |
| CtxPush.CallbackStarts | internal/ctxflow/ctxflow.go:204-235 | so does a helper that starts a callback, in a frame with any left-over bytes |
| CtxPush.CallPassesContext | internal/ctxflow/prove.go:137-186 | every call to a proved function passes the context |
| CtxPush.FunctionStarts | internal/ctxflow/prove.go:137-186 | a call into another function keeps the invariant, whatever its frame still holds, and a proved callee starts as analysed |
| CtxReturn.CallerContinues | internal/ctxflow/ctxflow.go:236-245 | a return finds the caller as its analysis says |
| CtxReturn.CallbackAgain | internal/ctxflow/ctxflow.go:204-212 | so does a callback run once more over its own old frame |
| CtxSound.StepKeepsInv | internal/ctxflow/prove.go:326-411 | every step of every function, helper and callback keeps the invariant of all live frames |
| CtxSound.HeldContextIsReal | internal/ctxflow/prove.go:413-427 | in every run of a program whose callbacks are recognised, at every instruction of a proved function, each register or slot the analysis calls the context holds the context |
| CtxSound.ProvedStartsWithContext | internal/ctxflow/prove.go:111-201 | in every such run, each call that enters a proved function does so with the context in its parameter |
| CtxTranslated.SameVerdicts | internal/ctxflow/prove.go:111-201 | verdicts about a dump with call targets in the offset are verdicts about the program it is of |
| CtxTranslated.DumpedContextIsReal | internal/ctxflow/prove.go:413-427 | what is proved on such a dump holds in every run of the program: each register or slot called the context holds it |
| CtxTranslated.DumpedStartsWithContext | internal/ctxflow/prove.go:111-201 | and each call that enters a function proved on the dump has the context in its parameter |
| CtxSound.HeldAt | internal/ctxflow/prove.go:413-427 | the lowest of R6-R9, else the shallowest slot, said to hold the context |
| Postlude.Tally | pkg/injectcheck/effects.go:65-76 | calls, jumps and conditions of a postlude |
| Postlude.Walk | pkg/injectcheck/effects.go:110-314 | the budgeted walk accepts only if every path is acceptable, and refuses only then or past its budget |
| Postlude.CheckAfter | pkg/injectcheck/effects.go:44-316 | acceptance means the save and restore, the branch and call structure, and every path; the path budget refuses no postlude of fewer than 2048 instructions |
| PostludeExact.StoreExactly | pkg/injectcheck/effects.go:136-153 | which stores pass and what they leave: the result's save and value copies, nothing else |
| PostludeExact.LoadExactly | pkg/injectcheck/effects.go:154-176 | which loads pass and what they leave |
| PostludeExact.AluExactly | pkg/injectcheck/effects.go:177-222 | which arithmetic passes and what is known of the result |
| PostludeExact.GenericExactly | pkg/injectcheck/effects.go:238-262 | R3-R5 refuse a call exactly when they are not the values the helper's kind asks for |
| PostludeExact.CallExactly | pkg/injectcheck/effects.go:223-272 | which hook calls pass: the planned hook, the saved context, every role, the generic values |
| PostludeExact.GuardExactly | pkg/injectcheck/effects.go:290-308 | which branches pass, and the arm each way leads to |
| PostludeExact.StructureExactly | pkg/injectcheck/effects.go:44-83 | the counts and the save and restore a postlude must have |
| PostludeSound.StartMatches | pkg/injectcheck/effects.go:84-109 | after the prelude and the helper, the symbolic start state describes the machine |
| PostludeSound.MoveIsSound | pkg/injectcheck/effects.go:126-314 | each instruction, branch and hook call keeps it described, R6-R10 and the saved context, key and map untouched |
| PostludeSound.CallIsPlanned | pkg/injectcheck/effects.go:223-262 | a hook call is the one planned for the arm decided so far: the result's own once the branch on it is behind, which a lookup's calls always have, and the site's `any` before it; with the saved context in R1 and every planned argument |
| PostludeSound.RoleHolds | pkg/injectcheck/effects.go:318-355 | a register that passes the argument check holds what its role means |
| PostludeSound.GenericHolds | pkg/injectcheck/effects.go:238-262 | the concrete R3-R5 of a generic hook: the saved key in R3 (zero for push, pop and peek), in R4 the result, value, zero or key by helper, the helper's map in R5; a tail call's dispatch values |
| PostludeSound.PostludeIsSafe | pkg/injectcheck/effects.go:44-316 | on every concrete path of an accepted site: R6-R10 unchanged, stores only in the reserved frame, at most one call, the planned one, whose R3-R5 are the helper's own key, value, result, zero or map as its kind asks; at the end R0 is the helper's result and exactly one call was made, unless the postlude branched on the result and the plan does not name the arm the result is on |
| Gated.HoldMap.Fentry | internal/program/gated.go:186-325 | the entry program: depth restart, invocation number, overflow and overwrite counting, the hold |
| Gated.HoldMap.Fexit | internal/program/gated.go:349-402 | the exit program: depth, the two identity checks, unpaired counting |
| Gated.PairsOwnImage | internal/program/gated.go:349-402 | an exit that passes both checks holds what its own entry wrote |
| Gated.StepKeepsWorld | internal/program/gated.go:186-402 | entries, exits and skipped exits keep the nesting invariant, through every restart and reuse of a frame address |
| Gated.PairingIsExact | internal/program/gated.go:349-402 | in every run, every paired exit gets the number, frame, image and packet number of its own invocation |
| Gated.PacketsHaveOwnNumbers | internal/program/gated.go:266-285 | in every run the packet counter equals the holds written, and packets held by different invocations have different numbers |
| Gated.RestartMeansOld | internal/program/gated.go:186-240 | the depth restarts, and is counted, exactly when the innermost invocation with a slot entered more than a jiffy ago |
| Gated.EntryCounts | internal/program/gated.go:258-295 | a match without a slot is an overflow, one that finds a hold left at its depth an overwrite |
| Gated.ExitCounts | internal/program/gated.go:349-402 | an exit consumes the hold at its depth, and pairs exactly when number and frame are its own |
| Gated.StepConserves | internal/program/gated.go:258-402 | each step keeps holds written = paired + unpaired + overwritten + still valid |
| Gated.RunConserves | internal/program/gated.go:258-402 | so does every run |
| Gated.ResidualHolds | internal/program/export_stats.go:73-87 | the scan counts the valid holds of all CPUs |
| Gated.ExportAddsUp | internal/program/export_stats.go:45-87 | with the residual scan the exported totals account for each hold exactly once |
| Gated.CalmRunLosesNothing | internal/program/gated.go:186-402 | with no skipped exit and no stale depth nothing is overwritten or unpaired |
| Barrier.StepKeeps | internal/program/tag_barrier.go:24-44 | every action of producers, readers and finalizer keeps the protocol invariant |
| Barrier.WatermarkCovers | internal/capture/session.go:81-97 | the watermark taken after the grace period covers every record of the tag |
| Barrier.GraceEnds | internal/program/tag_barrier.go:24-44 | nobody who could emit the tag outlives the grace period |
| Barrier.HandledInTime | cmd/bpf-ninja/main.go:1334-1426 | no record is dropped because its own tag was finalized |
| Barrier.FinalMeansComplete | cmd/bpf-ninja/finalize.go:145-193 | in every run, once a tag is final every record of it in any ring was written, limited or discarded on request |
| Barrier.FinalForever | internal/program/tag_barrier.go:24-44 | a final tag stays final and gains no record, whatever is re-added |
| Barrier.NeverOverclaims | internal/capture/capture.go:642-732 | in every run written, limited, discarded and malformed together never exceed consumed |
| Barrier.DrainIsComplete | internal/capture/session.go:59-76 | once every reader has left without an error, every ring is read to its end and consumed = written + limited + discarded |
| BarrierRun.CaptureCompletes | cmd/bpf-ninja/finalize.go:145-193 | the protocol can run to its end: some run writes a record, completes and merges its tag and drains every reader |
| Barrier.ReportIsTruthful | cmd/bpf-ninja/accounting.go:22-50 | in every run, with any kernel counters and failures, complete is reported exactly when nothing failed or was lost and every submitted record was consumed and written; limited or discarded only when every record is accounted for and some were; a drained capture that lost nothing is never reported incomplete |
| Finalizer.TickIsMonotone | cmd/bpf-ninja/finalize.go:145-193 | a tick only moves a tag forward: final, merged and failed tags stay so |
| Finalizer.TickMeans | cmd/bpf-ninja/finalize.go:145-193 | what one tick does to each entry of a tag, failed barriers and polls included |
| Finalizer.TagFinalizer.Register | cmd/bpf-ninja/finalize.go:73-84 | a shard's writer joins the registry, no other changes |
| Finalizer.TagFinalizer.Deregister | cmd/bpf-ninja/finalize.go:135-142 | and leaves it |
| Finalizer.TagFinalizer.Tick | cmd/bpf-ninja/finalize.go:153-185 | one tag's tick touches only that tag |
| Finalizer.TagFinalizer.Step | cmd/bpf-ninja/finalize.go:145-193 | a tick treats every known or live tag independently and lists, in order, exactly the closing tags that have not failed |
| Finalizer.TagFinalizer.MarkMerged | cmd/bpf-ninja/finalize.go:197-206 | any tag without a failure becomes merged; the maps stay in order exactly when it was final or had failed |
| Finalizer.TagFinalizer.Finalize | cmd/bpf-ninja/finalize.go:235-267 | for any tag, each writer is closed once; a close error is terminal, a merge error retryable, only success merges; the maps are out of order only after success on a tag that was not final |
| Finalizer.TagFinalizer.CloseAll | cmd/bpf-ninja/finalize.go:90-104 | every writer still registered is closed once and tags with a close error fail |
| Finalizer.ClaimKeeps | cmd/bpf-ninja/accounting.go:12-20 | one load or compare-and-swap of one claimer keeps the total granted equal to the counter and within the limit |
| Finalizer.GrantIsMost | cmd/bpf-ninja/accounting.go:12-20 | a claim grants all that was wanted or all that is left |
| Finalizer.ClaimsStayWithinLimit | cmd/bpf-ninja/accounting.go:12-20 | in every interleaving, the grants never total more than the limit |
| Merge.PopOldest | internal/output/merge.go:27-40 | the heap's contract: some oldest item and the rest |
| Merge.NextItem | internal/output/merge.go:232-244 | the next packet goes into the shard's one buffer, overwriting it |
| Merge.Popped | internal/output/merge.go:166-171 | a popped item's buffer still holds its packet |
| Merge.MergeShards | internal/output/merge.go:166-215 | refused exactly when a shard cannot be read to its end; otherwise each packet once, each shard's order kept, and time order whenever each shard has it |
| HookBlock.HookEpbSize | internal/output/record.go:14-26 | a multiple of four, at least 32, under the reader's cap for every packet and comment |
| HookBlock.Writer.WritePacket | internal/output/fastpcapng.go:283-316 | writes exactly the block without options on interface 0 |
| HookBlock.Writer.WritePacketId | internal/output/fastpcapng.go:228-265 | writes exactly the block with its id, reusing the scratch header |
| HookBlock.Writer.WriteHookPacket | internal/output/record.go:31-60 | writes exactly the block, or refuses a comment that does not fit the option length |
| HookBlock.ReadBlock | internal/output/hookmerge.go:81-102 | the next block of a stream, with its length in bounds, and what follows it |
| HookBlock.CheckOptions | internal/output/hookmerge.go:224-274 | accepts exactly an optional id, an optional comment and the end, and reports the id |
| HookBlock.ParseBlock | internal/output/hookmerge.go:158-182 | the fields and option bytes of a block, refused exactly when a field or the options are out of shape |
| HookBlock.OptionsRoundTrip | internal/output/hookmerge.go:224-274 | written options are accepted, with an id exactly when it is nonzero |
| HookBlock.BlockRoundTrip | internal/output/record.go:31-60 | for every packet, id and comment, reading back gives the same block, interface, timestamp, both lengths, bytes, id and comment, in the standard's codes, padded with zeros |
| HookMerge.Readers.Next | internal/output/hookmerge.go:155-182 | the next block of a shard, checked, with the id latch shared by all shards |
| HookMerge.MergeHooks | internal/output/hookmerge.go:153-203 | for shards of any bytes: refused exactly when a shard holds a block that is cut short or refused, or any two blocks of any shards disagree on carrying an id; otherwise every block once, each shard's order kept, in time order whenever each shard is |
| HookMerge.MergedReadsBack | internal/output/hookmerge.go:183-203 | the merged file reads back as the blocks in the order they were written |
| HookMerge.WrittenShardsMerge | internal/output/record.go:31-60 | shards of written packets read back whole and merge exactly when all packets of all shards have an id or none has |
| HookMerge.StampOfWritten | internal/output/hookmerge.go:180-181 | a written block is ordered by its packet's time, as a signed number |
| Comment.MemberSink.WalkMembers | internal/record/decode.go:254-288 | the shared walk renders, or counts, exactly the shown members in order |
| Comment.MemberSink.ShowBytes | internal/record/decode.go:194-229 | a key or value by its top-level shape |
| Comment.AppendComment | internal/record/decode.go:90-163 | the comment of a block, appended to any text |
| Comment.DecIntReads | internal/record/decode.go:56-65 | decimal text reads back as the number, signed exactly when negative |
| Comment.HexReads | internal/record/decode.go:73-76 | hexadecimal text reads back byte by byte |
| Comment.HexWordReads | internal/record/decode.go:66-72 | and word by word |
| CommentExact.NumberMeans | internal/record/decode.go:305-373 | an integer's text is the number its bits stand for, negative exactly when its type is signed and its top bit set |
| CommentExact.FieldSays | internal/record/decode.go:97-112 | a filter's field: not read, a pointer's nullness, or its number |
| CommentExact.HeadSays | internal/record/decode.go:114-132 | the site in decimal and the status in hexadecimal, or that they were not read |
| CommentExact.BytesSay | internal/record/decode.go:133-160 | a key or value cut to nothing, not read, or shown, with how much was kept |
| CommentExact.ItemSays | internal/record/decode.go:290-340 | one shown item names its bytes in decimal or hexadecimal, or is left out when they were not recorded |
| CommentExact.MemberShown | internal/record/decode.go:254-288 | which members are shown: integers and plain arrays or unions recorded whole, the plain members of structs, never pointers |
| CommentExact.ValueShown | internal/record/decode.go:194-229 | what is shown of a key or value, by its top-level shape, when anything of it was recorded |
| CommentExact.RoomIsTight | internal/record/decode.go:289-300 | the room counted for bytes is what they take, and that of an integer is what the greatest one takes |
| Comment.BoundComment | internal/record/decode.go:396-429 | the worst-case length, counted by the same walk |
| Comment.NumberLength | internal/record/decode.go:342-373 | every integer, bitfield, enum and boolean fits its room, signed minima included |
| Comment.CommentIsBounded | internal/record/decode.go:396-429 | for every layout and block the comment takes at most the bound, and a separator when it follows text |
| Comment.PrefixedIsBounded | internal/record/decode.go:388-390 | with the return prefix, at most the prefix's room more |
| Comment.SiteBoundIsExact | internal/record/decode.go:410-412 | for a layout of just a site, the bound holds of every block exactly when the shown name leaves room for the value |
| Comment.LongSiteNameOverflows | internal/record/decode.go:410-412 | a longer site name, which the program never gives, breaks the bound |
| Wakeup.XorBelow | internal/program/program.go:807-808 | an exclusive or is below a power of two exactly when the quotients by it agree |
| Wakeup.FlagIsCrossing | internal/program/program.go:791-817 | the branch-free sequence forces a wakeup exactly when the record crosses a multiple of a quarter ring |
| Wakeup.QuarterRingWakes | internal/program/program.go:774-817 | no run of submits adds a quarter ring to an unread ring without a forced wakeup |
| Wakeup.ShardRingSize | internal/program/sharded_ringbuf.go:27-30 | the largest power of two within the shard's share, at least 64 KiB |

## Left out

- Splice.Transform: does not include the extension-info check and runs without the stack-limit check, which `StackDepth` models on its own; request fields that only select the file and program are not part of this model.
- ArgReads.Reads: does not follow R11 or kernel functions beyond reading all arguments, because the modelled instruction set has R0-R10.
- CtxProve.Prove: leaves out the callback proof and the context-passing chains computed after it (internal/ctxflow/callback.go and `passes`); their input is the verdict modelled here.
- CtxAnalyze.After: the tracker's state is a value that each transfer replaces, where the source updates a struct in place before copying it into its map.
- Postlude.CheckAfter: leaves out marking a planned target as used, and takes the hook each inserted call resolves to as given.
- Barrier.DrainIsComplete: positions are record positions rather than ring bytes, and a poll reads one shard's acknowledgement and the error flag in one step.
- Gated.ResidualHolds: counters and invocation numbers are unbounded; 32- and 64-bit wrap-around of the counters is not modelled.
- StackDepth.LimitsBroken: returns every broken limit where the source reports the first by name.
- Merge.MergeShards: leaves out mapping interfaces by name between shards.
- HookMerge.MergeHooks: takes each stream after its header, whose comparison with the configured interface table is left out.
- Wakeup.QuarterRingWakes: covers one producer; two programs interleaving on one CPU can miss a crossing, as the source says.
- FrameDepth.FrameDepthExact: counts offsets from the program's start rather than the function's.
- Atomic load-acquire and store-release, may_goto and indirect calls; an indirect jump is refused or stuck.
- pkg/inject/readonly.go, whose meaning rests on verifier behaviour for pointers stored by subprograms.
- The map-lookup rewriter and its wrappers, the entry prologue check and the observer-hook shape check, which would add only straight-line members.
- Probe-read identity and prologue failures at a gated exit, which leave without a counter.
- BTF decoding, the command line, attaching, netlink, affinity, epoll and file handling.
