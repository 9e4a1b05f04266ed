# A verified model of the Pysolate runtime

This project models the parts of Pysolate whose correctness is hard to see from the code, and
proves what they are for. `dafny verify dfyconfig.toml` checks all of it.

- **Early reads** (`PythonAst`, `EarlyReadPass`, `EarlyReadLoops`, `RunFutures`, `GuestSemantics` and the
  proof in `EvalFrame`, `GroupProtocol`, `CallBudget`, `GroupExecution`, `EarlyReadCorrect`,
  `EarlyReadSwitch`, `EarlyReadTheorem`). The source-to-source pass over a small Python, a big-step
  semantics with exceptions and Host calls, and the proof that the pass preserves meaning. `EarlyReadLimits` and
  `EarlyReadBudget` give the exact conditions where the code differs from the plain promise, and
  `EarlyReadHidden` a program that hides the difference.
- **Durable replay** (`DurableStore`, `DurablePayload`, `DurableProtocol`, `DurableInvariant`,
  `DurableRuns`, `DurableSteps`, `DurableTheorems`, `DurableStatus`, `ReadAhead`, `DurableObjects`). One run
  under any history of attempts, crashes, replies, look-ups, waits, decisions and cancellations.
- **Executor** (`ExecutorModel`, `ExecutorInvariant`, `ExecutorSteps`, `ExecutorRuns`,
  `ExecutorObject`). Admission, slot reuse, fairness, completion and drain of concurrent attempts.
- **Tool catalog** (`ToolPaths`, `NamespaceTree`, `ToolCatalog`). The Host's collision check on sorted
  paths against the Guest's namespace builder.
- **Workspace** (`WorkspaceModel`, `WorkspaceNames`, `WorkspaceSums`, `WorkspaceIndex`,
  `WorkspaceRuns`, `WorkspaceScan`, `WorkspaceObject`). The quota filesystem: which names it takes, and its
  index against the host's tree, over every run of operations.
- **Simulator** (`SimModel`, `SimInvariant`, `SimSteps`, `SimRuns`, `SimTime`, `SimStart`, `SimTheorems`,
  `SimObject`). The discrete-event scheduling simulator: that it ends, with what results, and where the
  slot times go.
- **Data image** (`Leb128`, `DataSection`, `DataImage`, `CodeWalker`, `CodeCheck`, `CodeGrammar`,
  `CodeTheorems`, `CodeEncodings`, `ModuleShell`, `ModuleTransform`, `SeedImage`). The rewriter that takes
  the active data out of a WebAssembly module and the walker over its code, against the WebAssembly Core
  Specification 2.0, sections 5.2.2, 5.4, 5.5.13, 5.5.14 and 4.5.4.

Code that changes state step by step is a class or a method with loops here, proved equal to a
function on values; the properties are proved of that function, over every input or every history.

Assumptions that the properties rest on:

- Early tools read the Host's state and do not change it (`RunFutures`: a response is a function of the
  history of state-changing calls). A worker may run at any time before its future is resolved.
- A recorded Guest is deterministic: its next call is a function of the responses so far.
- One Guest makes its host calls one after the other; a store transaction is atomic; the claim of a
  run is exclusive and released by a crash.
- A WebAssembly module has at most one Memory section. The code checks segments against the memory
  seen before the Data section and computes the image size from the last one, so the claim about the
  memory needs this.
- Strings are compared by their characters as the code compares bytes.
- The host's tree, in the workspace, changes only through the workspace; the host writes only where it is
  told to, refuses to move a directory into itself, and refuses directories for writing and truncating.

Where code and promise differ: an early call with a keyword `handle`, `name` or `self` means something
else after the pass (`EarlyReadLimits`), and discarded prepares use up the call budget
(`EarlyReadBudget`). After a cancelled yield, Python goes on without a running slot (`ExecutorRuns`).
A write to the handle of a directory adds the directory's own size to the workspace's byte count, which
may then exceed the limit (`WorkspaceRuns`, `WorkspaceScan`); and a write that grows a file whose size cannot
be asked for afterwards leaves the count too low. No other operation upsets it.
A capture of the seed image that fails leaves bytes that a later one may show (`SeedImage`); the runner
itself never captures twice into one image.
`Queues` and `Options` are shared.

## Model

| member | source | states |
|---|---|---|
| `RunFutures.RunState.CallTool` | bridge.go:86-93 | The dispatch itself: an unknown tool is an error and nothing is sent; an early tool answers from the current history and leaves it, another tool extends it |
| `RunFutures.RunState.InvokeTool` | bridge.go:63-79 | Over the budget a call is an error and nothing is sent; otherwise it is counted once and dispatched once |
| `RunFutures.RunState.PrepareRead` | future.go:49-70 | A handle is given exactly when early reads are enabled, the tool is an early one, fewer than 64 futures are open and the budget is not used up; it is fresh, counts one call and records what the worker may see |
| `RunFutures.RunState.ResolveRead` | future.go:72-93 | Handle 0 and a future of another request call the tool; a future is used once; a matching one gives its worker's response, or an error if the run's context ends first |
| `EarlyReadLoops.FreshName` | guest/plm.py:91-95 | The loop returns the shortest extension of the base that is not in use, and adds it to the names |
| `EarlyReadLoops.StartOf` | guest/plm.py:116-116 | The place of a prepare is one past the last definition of a loaded name, and 0 when there is none |
| `EarlyReadLoops.CollectGroup` | guest/plm.py:110-129 | The collecting loop gathers for a group exactly the prepares, places, slots and replacements of the specification |
| `EarlyReadLoops.JoinGroup` | guest/plm.py:130-132 | The zip loop emits each prepare at its place and each replacement after it |
| `EarlyReadLoops.RewriteLoop` | guest/plm.py:100-143 | The `while` loop over a block computes `Rewrite`: groups, nested `if` and `try`, names and the changed flag |
| `EarlyReadLoops.RewriteStmtLoop` | guest/plm.py:135-141 | The recursive part: branches, handlers, `else` and `finally` are rewritten in the source's order of fresh names |
| `EarlyReadLoops.TransformProgram` | guest/plm.py:88-146 | The whole pass as it runs: an unsupported program is returned as it is; otherwise the rewritten program, with helper names only if something changed |
| `EarlyReadPass.PlaceOf` | guest/plm.py:115-125 | A prepare comes after every definition of a loaded name inside the group, and not later than its own statement |
| `EvalFrame.EvalSame` | guest/plm.py:18-37 | An expression evaluates alike in environments that agree on the names in it |
| `EarlyReadSwitch.BlockIgnoresFlag` | future.go:49-57 | A program with no name for the helper runs alike whether early reads are enabled or not |
| `EvalFrame.ThunkIsArguments` | guest/bootstrap.py:27-38 | The dictionary that a thunk builds is the keyword arguments that the resolve call passes |
| `GroupProtocol.CollectedIsCurrent` | future.go:82-92 | What a worker of a matching future answers is what a direct call would answer now: nothing changed the history since it was prepared |
| `GroupProtocol.PrepareStep` | guest/bootstrap.py:27-34 | One prepare keeps the invariant of a group: the slot holds 0 or a future of the very request that the resolve will make |
| `GroupProtocol.ResolveStep` | guest/bootstrap.py:37-38 | One resolve gives the outcome of the original call and keeps the invariant, also with handle 0 |
| `GroupExecution.GroupPreserved` | guest/plm.py:110-132 | A rewritten group has the original's outcome: the same bindings, the same exception at the same statement; when it does not raise, each early call has been dispatched exactly once and the table of futures is what it was before the group |
| `EarlyReadCorrect.BlockSimulated` | guest/plm.py:100-143 | A rewritten block simulates the original through groups, nested `if` and `try`, handlers, `else` and `finally` |
| `EarlyReadCorrect.RewriteAddsNames` | guest/plm.py:91-143 | Rewriting a block drops no name that was in use, and every name it adds extends the base of the slots of futures |
| `EarlyReadTheorem.InventedAreNew` | guest/plm.py:91-97 | The helper and slot names are no names of the program; they extend the reserved prefix, so with tool paths that the Host accepts they are no roots of tools either |
| `EarlyReadTheorem.EarlyReadsPreserveMeaning` | guest/plm.py:65-146 | Main theorem: for every program, manifest and inputs, running with early reads gives the same user bindings, the same exception or end, the same answer and the same sequence of state-changing Host calls as running without; needed only when the pass changes something: early calls with no keyword `handle`, `name` or `self`, and a budget that suffices (a path bound of 1024, or at most 960 calls without early reads, or fewer than 1024 with them) |
| `CallBudget.BlockUses` | bridge.go:63-71 | A block makes at most the number of calls on its longest path |
| `EarlyReadLimits.ReservedKeywordsExactly` | guest/bootstrap.py:37-38 | For a program of one early call whose read succeeds, the transformed program answers alike if and only if no keyword is `handle`, `name` or `self` |
| `EarlyReadHidden.ReservedKeywordHidden` | guest/bootstrap.py:37-38 | In a program that tries an early call, ignores what it raises and overwrites its variable, the call keeps its meaning with any keywords, reserved ones too, for every Host and all operators: for programs at large the condition on keywords is enough and not needed |
| `EarlyReadBudget.BudgetExactly` | future.go:49-57 | For a program of n attempts, each of which discards a prepare, and m writes, with 0 < n < 64, m > 0 and n + m <= 1024: early reads keep its meaning if and only if its path makes at most 1024 calls; discarded futures use up the budget |
| `EarlyReadBudget.ExampleIsValid` | future.go:49-57 | The family is not empty: a concrete manifest and program belong to it |
| `DurableObjects.Store.Create` | durable/store.go:224-274 | A run is created exactly when its id has 1 to 128 bytes, its definition fits in 64 MiB, its documents are valid and the id is new; otherwise the table is unchanged, and the error is the one of the first check that fails |
| `DurableObjects.Store.BeginCall` | durable/store.go:320-401 | The transaction does to one run what the specification says, leaves the other runs alone and keeps every run within its limits |
| `DurableObjects.Store.CompleteCall` | durable/store.go:403-444 | The first outcome wins; the other runs are unchanged and all stay within their limits |
| `DurableObjects.Store.EnsureWait` | durable/store.go:446-522 | An existing wait is authoritative; a new one parks its call and an active run |
| `DurableObjects.Store.ResolveWait` | durable/store.go:537-573 | A decision is stored once, the same one again is accepted, another one is a conflict; a waiting run becomes active |
| `DurableObjects.Store.SetState` | durable/store.go:598-635 | A terminal run accepts only what it already holds |
| `DurableObjects.SumPayload` | durable/store.go:767-796 | The loops sum up the run's row, its calls and its waits |
| `DurableObjects.NextSequence` | durable/store.go:368-376 | The loop finds one more than the largest sequence number |
| `DurableObjects.ReadRows` | durable/store.go:812-840 | The loop stops at the first gap or open row, after 64 rows or at 1 MiB, with the row that crosses the limit still read |
| `DurableObjects.AttemptJournal.Call` | durable/runner.go:630-677 | One call of the journal answers as `AskJournal` says and leaves the rows as they are or as `BeginCall` leaves them |
| `DurablePayload.BeginCallBounded` | durable/store.go:377-383 | A new call grows the recomputed payload by exactly the size that was admitted |
| `DurablePayload.CompleteCallBounded` | durable/store.go:430-436 | An outcome grows the recomputed payload by at most the increase that was admitted |
| `DurablePayload.EnsureWaitBounded` | durable/store.go:492-498 | A new wait grows the recomputed payload by exactly the size that was admitted |
| `DurablePayload.ResolveWaitBounded` | durable/store.go:558-564 | A decision grows the recomputed payload by exactly its size |
| `DurablePayload.SetStateBounded` | durable/store.go:624-630 | A status change grows the recomputed payload by at most the replacement increase |
| `DurablePayload.KeysAreUnique` | durable/store.go:650-656 | Operation keys and wait keys of different runs or numbers differ, whatever slashes a run id contains |
| `DurableInvariant.BeginExtends` | durable/store.go:364-400 | A call that the Guest makes now and that is not stored extends the path, or fails without a mismatch |
| `DurableInvariant.BeginFinds` | durable/store.go:339-363 | A call that the Guest makes again is found as it was stored |
| `DurableInvariant.CompleteKeeps` | durable/store.go:403-444 | Completing the open call keeps the stored calls the Guest's path |
| `DurableSteps.AskKeeps` | durable/runner.go:640-677 | Replay from the window never sees a mismatch |
| `DurableSteps.BeginKeeps` | durable/runner.go:678-703 | Reserving or finding a call, and the choice of a recovery, keep the invariant |
| `DurableSteps.LookUpKeeps` | durable/runner.go:722-745 | Each answer of a look-up keeps the invariant; a safe report pays for one more dispatch |
| `DurableSteps.CompletingKeeps` | durable/runner.go:712-720 | The attempt goes on with the outcome that is stored |
| `DurableSteps.StoreKeeps` | durable/runner.go:493-537 | What is stored as the result is what the Guest gives on the stored outcomes |
| `DurableTheorems.ApplyKeeps` | durable/runner.go:402-538 | Every action of an attempt, a crash, a reply, a decision or a cancellation keeps the invariant of the run |
| `DurableTheorems.StoredCallsAreThePath` | durable/runner.go:630-703 | After every history the stored calls are exactly the Guest's path on the stored outcomes, and only the last may be incomplete |
| `DurableTheorems.NoMismatch` | durable/runner.go:481-521 | With a deterministic Guest no attempt ever sees a history mismatch or a history that was not consumed |
| `DurableTheorems.ResultIsTheGuests` | durable/runner.go:493-537 | A completed or failed run holds what the Guest gives on all the stored outcomes, and so does every answer that was returned |
| `DurableTheorems.WaitingMeansUndecided` | durable/store.go:512-516 | An open run is waiting exactly when its last call has an undecided wait; every other wait is decided |
| `DurableTheorems.PayloadStaysBounded` | durable/store.go:733-796 | After every history the recomputed payload is at most 64 MiB |
| `DurableTheorems.DispatchesAreRationed` | durable/runner.go:678-745 | Over the whole history a wait tool is never called, a manual call once, a look-up call at most once more than it was reported safe |
| `DurableTheorems.RepeatsAreEqual` | durable/runner.go:678-720 | A call that is sent again has the same tool, arguments and operation key; different calls have different keys |
| `DurableTheorems.OnlyTheOpenCallIsSent` | durable/runner.go:678-720 | What is sent is the one open call at the end of the table; a completed call is never sent again |
| `DurableStatus.NothingIsTakenBack` | durable/store.go:598-635 | However a history goes on: terminal states, completed calls and decisions never change, a blocked run can only be cancelled, and once the run is over nothing is reserved |
| `ReadAhead.OneCall` | durable/runner.go:640-677 | For any tool and arguments, a call answered from the window is answered as the store would |
| `ReadAhead.ReadAheadRefines` | durable/runner.go:640-677 | A fresh journal with read-ahead gives the answers and mismatches of one that asks the store for every call, for every session of calls at growing points of any history |
| `ExecutorObject.Resolve` | durable/executor.go:76-103 | Limits are accepted exactly when they are consistent, with the defaults and the old name of the running limit |
| `ExecutorObject.RemoveFirst` | durable/executor.go:472-492 | The removal loops drop the first occurrence and keep the order |
| `ExecutorObject.Executor.constructor` | durable/executor.go:94-102 | A new executor is empty and satisfies the invariant |
| `ExecutorObject.Executor.Admit` | durable/executor.go:107-153 | The section does the step of the state machine: refuse, start at once, or queue |
| `ExecutorObject.Executor.Cancel` | durable/executor.go:224-243 | Cancelling drops a queued attempt and cancels the context of one that has started |
| `ExecutorObject.Executor.Abort` | durable/executor.go:266-277 | The end of the caller's context does the same |
| `ExecutorObject.Executor.Finish` | durable/executor.go:285-308 | A worker that returns gives its slots back, publishes its result and lets others in |
| `ExecutorObject.Executor.Schedule` | durable/executor.go:310-347 | The scheduling loop does what the recursive specification says |
| `ExecutorObject.Executor.Yield` | durable/executor.go:373-383 | A host call that waits gives the running slot away, or is refused |
| `ExecutorObject.Executor.Reacquire` | durable/executor.go:393-418 | A free slot is taken at once; otherwise the attempt waits at the end of the ready list |
| `ExecutorObject.Executor.GiveUp` | durable/executor.go:423-432 | An attempt whose context ends leaves the ready list |
| `ExecutorObject.Executor.Close` | durable/executor.go:246-258 | Closing refuses later attempts and drains when nothing is left |
| `ExecutorSteps.ScheduleKeeps` | durable/executor.go:310-347 | From any consistent state, scheduling ends with no usable slot idle |
| `ExecutorRuns.StepKeeps` | durable/executor.go:107-433 | Every step keeps the whole invariant of the executor |
| `ExecutorRuns.Accounting` | durable/executor.go:107-153 | In every reachable state the counters equal the counts of attempts by state, all limits hold, the lists and the map are exactly the attempts they are about, and nothing was closed twice |
| `ExecutorRuns.WorkConservation` | durable/executor.go:310-347 | A ready attempt waits only while all running slots are used, a queued one only while running or resident is full |
| `ExecutorRuns.NoOvertaking` | durable/executor.go:133-141 | A slot taken without waiting is taken from no ready and no admissible queued attempt |
| `ExecutorRuns.StartsInOrder` | durable/executor.go:329-346 | Attempts start in the order of acceptance, each once, and before all that are still queued |
| `ExecutorRuns.BoundedBypass` | durable/executor.go:311-327 | Between two starts at most 8 grants pass over an admission that is possible |
| `ExecutorRuns.CompletesOnce` | durable/executor.go:465-470 | An attempt has one result exactly when it is over, and keeps it however the history goes on |
| `ExecutorRuns.DrainsAtTheEnd` | durable/executor.go:506-511 | The drain closes exactly when the executor is closed and all attempts are over; nothing is accepted after the close |
| `ExecutorRuns.PythonHasASlot` | durable/executor.go:373-433 | Python runs outside a host call with a running slot, or its context has ended |
| `ExecutorRuns.PythonWithoutASlot` | durable/executor.go:384-391 | And the second case occurs: a context that ends while a token is awaited |
| `ToolPaths.NeighboursSuffice` | tool_provider.go:158-163 | In a sorted list of valid paths two neighbours collide if and only if any two paths collide |
| `ToolPaths.Between` | tool_provider.go:158-163 | What sorts between a path and one below it is below it too, because the dot sorts below every identifier character |
| `ToolPaths.ValidHasNothingBelowDot` | tool_provider.go:175-183 | Every character of a valid path is a dot or sorts above it |
| `ToolPaths.CoversIsPrefix` | guest/pysolate.py:64-80 | A path is another one or lies above it exactly when its parts are the first parts of the other |
| `NamespaceTree.InsertSucceeds` | guest/pysolate.py:64-80 | An insertion fails exactly when a tool is at or above the path or a namespace at it |
| `NamespaceTree.InsertAdds` | guest/pysolate.py:64-80 | An insertion adds one tool and the namespaces above it, and changes nothing else |
| `NamespaceTree.ConfigureExactly` | guest/pysolate.py:83-91 | The namespaces can be built, in this order, exactly when no path is another one or lies above it; then they hold exactly the tools |
| `ToolCatalog.SortStrings` | tool_provider.go:158-158 | The paths in order, with the permutation that leads there |
| `ToolCatalog.HasCollision` | tool_provider.go:158-163 | The loop over neighbours finds a collision exactly when two paths collide |
| `ToolCatalog.Normalize` | tool_provider.go:121-166 | A manifest is accepted exactly when every tool is well formed and no two paths collide; every tool has its path, and the Guest's list is in the order of names |
| `ToolCatalog.HostAndGuestAgree` | tool_provider.go:158-163 | For every order of the tools, the Guest's namespaces can be built exactly when the Host finds no conflict, and then every tool is found at its path |
| `Leb128.ReadULEB` | cow_data_image.go:318-338 | The reader accepts exactly the unsigned integers of the grammar, non-minimal forms included, with their value and end |
| `Leb128.ReadSLEB` | cow_data_image.go:340-370 | The reader accepts exactly the signed integers of the grammar at every width up to 64 |
| `Leb128.AppendULEB` | cow_data_image.go:372-378 | The loop appends the shortest encoding |
| `Leb128.RoundTrip` | cow_data_image.go:372-378 | Reading undoes writing, at every width the value fits in, with any bytes before and after |
| `DataImage.ReadI32Const` | cow_data_image.go:277-289 | An offset expression is an i32 constant followed by end |
| `DataImage.RewriteDataSection` | cow_data_image.go:193-275 | The rewrite succeeds exactly when the section parses and all active segments fit, and gives the emptied section and the active segments in order |
| `DataSection.RewrittenParses` | cow_data_image.go:250-266 | The rewritten section parses to the same segments with only active payloads emptied |
| `DataSection.ShellKeepsMemory` | cow_data_image.go:250-254 | Instantiating the emptied segments does not trap and changes nothing |
| `DataSection.OverlayIsInstantiation` | internal/cowmem/cow_linux.go:124-138 | Laying the active segments over a memory is what instantiating the original does |
| `CodeCheck.WalkInstruction` | cow_data_code.go:46-120 | One instruction is stepped over exactly when it decodes and names no active or missing segment |
| `CodeCheck.ValidateCode` | cow_data_code.go:8-135 | The walking loops accept exactly what decodes with all instructions allowed; the rows of `CodeTheorems` say, by the grammar, what that is |
| `CodeGrammar.DecodeIsRead` | cow_data_code.go:44-128 | A supported instruction and an end are decoded exactly where the fields of its encoding stand: opcode, then each immediate in any LEB form |
| `CodeTheorems.CodeAcceptedExactly` | cow_data_code.go:8-135 | An encoding of any list of functions, with their count, sizes, locals and instructions in any LEB forms, is accepted if and only if no `memory.init` or `data.drop` names an active or missing segment |
| `CodeTheorems.AcceptedIsTiled` | cow_data_code.go:8-135 | What is accepted is tiled, from the first byte to the last, by the count, the size and locals of each body and encodings of whole allowed instructions |
| `CodeTheorems.AcceptedExactly` | cow_data_code.go:8-135 | The accepted byte strings are exactly the encodings of lists of functions whose instructions are allowed |
| `CodeGrammar.EncodingDecodes` | cow_data_code.go:44-128 | A byte string decodes to one instruction and nothing else exactly when it is an encoding of that supported instruction |
| `CodeEncodings.InstructionsHaveEncodings` | cow_data_code.go:46-120 | An instruction has an encoding exactly when it is supported and its immediates are in range |
| `CodeEncodings.FunctionsHaveEncoding` | cow_data_code.go:8-30 | Every list of supported functions within the limits of the format has an encoding |
| `ModuleTransform.CountImportedMemories` | cow_data_image.go:69-113 | The loop counts the imported memories, and fails where an import does not parse |
| `ModuleTransform.ReadMemories` | cow_data_image.go:114-137 | The memory count, and the limits of a single memory with a maximum |
| `ModuleTransform.Transform` | cow_data_image.go:32-191 | The pass over the sections accepts and yields exactly what the specification of the transformation says |
| `SeedImage.Seed.CaptureSegments` | internal/cowmem/cow_linux.go:108-147 | Refused without an effect for a size that is no multiple of both page sizes, a closed image and a second capture; otherwise the file, cut or filled with zeros to the size, is overlaid by the segments in order, however short the single writes, or what fits before a failing segment is left behind |
| `SeedImage.FirstCaptureIsOriginalMemory` | internal/cowmem/cow_linux.go:108-147 | The active segments of an accepted module with at most one Memory section, captured into a new image, are the memory that instantiating the original gives |
| `SeedImage.RetryExactly` | internal/cowmem/cow_linux.go:115-138 | A capture after a failed one gives the image of a first capture if and only if it covers every byte other than zero that was left behind |
| `SeedImage.LeftBehind` | internal/cowmem/cow_linux.go:124-138 | And such bytes exist: a concrete failed capture shows through a later one |
| `ModuleShell.ShellParses` | cow_data_image.go:144-172 | The shell of an accepted module parses, section by section, to the module's sections with the Data section replaced |
| `ModuleShell.ShellSections` | cow_data_image.go:144-172 | Every other section keeps all its bytes; the Data section parses to its segments with only active payloads emptied |
| `ModuleShell.SeedIsOriginalMemory` | cow_data_image.go:173-191 | For every accepted module with at most one Memory section, the shell does not trap, and the overlay of the active segments is the memory that instantiating the original gives |
| `WorkspaceNames.CleanExactly` | runtime/workspace/fs.go:55-67 | A Guest's name is taken for a path if and only if the path is proper (parts, depth, length) and the name is its parts joined by slashes, with any number of slashes at its end; for the root, if that is allowed, exactly `.` with such slashes |
| `WorkspaceScan.ScanTree` | runtime/workspace/workspace.go:441-488 | The scan, in any order of the names, succeeds if and only if the tree is within the limits, and then makes an index that mirrors it |
| `WorkspaceObject.RootedFs.ValidateComponents` | runtime/workspace/fs.go:69-93 | The loop over the parts of a name finds the first one that is missing or no directory |
| `WorkspaceObject.RootedFs.HasOpenAtOrBelow` | runtime/workspace/fs.go:356-363 | The loop finds whether any file is open at or below a name |
| `WorkspaceObject.RootedFs.Open` | runtime/workspace/fs.go:95-154 | Opening refuses in the source's order, or has the host open the file and notes its creation, its truncation and the handle |
| `WorkspaceObject.RootedFs.MakeDirectory` | runtime/workspace/fs.go:156-188 | A directory is made and counted, or refused without an effect |
| `WorkspaceObject.RootedFs.MoveEntries` | runtime/workspace/fs.go:287-294 | The loop that rewrites the maps gives the renamed maps in whatever order it meets the names |
| `WorkspaceObject.RootedFs.Move` | runtime/workspace/fs.go:240-296 | Renaming refuses in the source's order, or moves every name at or below the old one |
| `WorkspaceObject.RootedFs.Remove` | runtime/workspace/fs.go:298-326 | Removing a file gives its count and its bytes back |
| `WorkspaceObject.RootedFs.RemoveDirectory` | runtime/workspace/fs.go:328-354 | Removing an empty directory gives its count back |
| `WorkspaceObject.RootedFs.CloseFile` | runtime/workspace/fs.go:391-405 | Closing a file once lowers the count of its name, and drops the count at zero |
| `WorkspaceObject.RootedFs.ReserveSize` | runtime/workspace/fs.go:478-493 | Room for a file to grow is taken exactly when the file and the total stay within their limits |
| `WorkspaceObject.RootedFs.ReconcileSize` | runtime/workspace/fs.go:506-519 | The true size replaces the reserved one in the map and in the total |
| `WorkspaceObject.RootedFs.WriteFile` | runtime/workspace/fs.go:415-440 | A write at the file offset or at the end: refused, or reserved, done by the host and reconciled |
| `WorkspaceObject.RootedFs.WriteFileAt` | runtime/workspace/fs.go:442-457 | The same for a write at a given offset |
| `WorkspaceObject.RootedFs.TruncateFile` | runtime/workspace/fs.go:459-476 | Only shorter; the total falls by the difference |
| `WorkspaceIndex.IndexMirrorsTree` | runtime/workspace/fs.go:15-27 | The invariant says: names, kinds and sizes are those of the host's tree, the file count is their number and the byte count their sum, within the limits |
| `WorkspaceRuns.OpenKeeps` | runtime/workspace/fs.go:95-154 | Opening, creating and truncating keep the invariant |
| `WorkspaceRuns.RenamesKeep` | runtime/workspace/fs.go:240-296 | Renaming keeps the invariant: sums and counts survive, parents stay directories, open files stay where they are |
| `WorkspaceRuns.WriteKeepsExactly` | runtime/workspace/fs.go:415-457 | A write to an open handle, of a file or a directory and whatever the host answers, keeps the invariant if and only if it is refused or what it did can be counted |
| `WorkspaceRuns.DirectoryWriteCounts` | runtime/workspace/fs.go:506-519 | A write to a directory's handle that passes the checks adds the directory's own size to the total; the limit then holds if and only if there was room for that |
| `WorkspaceScan.RootWriteExceeds` | runtime/workspace/fs.go:415-440 | Such a write exists: opening the root of an empty tree and writing nothing to it exceeds a limit smaller than the size of the directory |
| `WorkspaceRuns.RunKeepsExactly` | runtime/workspace/fs.go:95-519 | The index mirrors the host's tree within the limits throughout a run if and only if no write of the run passes the checks without being countable; whatever the host refuses or reports, and whatever handle is written |
| `WorkspaceRuns.RunStaysWithinLimits` | runtime/workspace/fs.go:478-519 | In every such run the host's tree itself stays within the limits for files, bytes and single files |
| `WorkspaceRuns.OpenNamesStay` | runtime/workspace/fs.go:262-264 | However such a run goes on, a file that is open is found at the name it was opened by |
| `SimObject.ValidateSimulation` | scheduling/sim.go:190-223 | The validation accepts exactly the task lists and bounds of the specification |
| `SimObject.Simulator.HandleEvent` | scheduling/sim.go:225-271 | One event has the specified effect, or is an error if it does not fit its task |
| `SimObject.Simulator.AdvanceTask` | scheduling/sim.go:273-297 | A task that holds no running slot completes, waits for admission, for a slot or for a tool, or sleeps |
| `SimObject.Simulator.PopEvent` | scheduling/sim.go:103-120 | The event taken is the earliest, and among equals the first that was pushed |
| `SimObject.Simulator.DrainAll` | scheduling/sim.go:316-349 | The loop starts tools and tasks in the specified order until nothing more can start |
| `SimObject.Simulator.ChooseRunnable` | scheduling/sim.go:351-381 | The loop over the candidates finds the best of them |
| `SimObject.Simulator.IsPreferred` | scheduling/sim.go:383-399 | The comparison of the three policies |
| `SimObject.Simulator.EnforceQueueLimit` | scheduling/sim.go:435-452 | The loop turns away the newest until the queue is within its limit |
| `SimObject.Simulator.MoveTime` | scheduling/sim.go:454-461 | The slot times grow by the used slots times the time that passes |
| `SimObject.Simulate` | scheduling/sim.go:153-188 | A simulation has a result exactly if its input is accepted; the result is where the turns of the main loop end, with nobody left, one result for each task and the slot times accounted for as promised |
| `SimSteps.AdvanceKeeps` | scheduling/sim.go:273-297 | A task between two places finds exactly one place, and counters and slot times stay right |
| `SimSteps.StartBestKeeps` | scheduling/sim.go:326-343 | Starting a task keeps the invariant and the limits |
| `SimRuns.HandleKeeps` | scheduling/sim.go:225-271 | No event of a reachable state is stale: handling succeeds, and what it adds comes later |
| `SimRuns.DrainKeeps` | scheduling/sim.go:316-349 | Draining ends with no usable slot idle |
| `SimTheorems.TurnKeeps` | scheduling/sim.go:169-184 | A turn of the main loop never fails, leaves less to do, and moves time strictly on if all events lie ahead, as they do after every turn |
| `SimTheorems.TimeMovesOn` | scheduling/sim.go:169-184 | Every turn but the first moves time strictly on |
| `SimTheorems.SimulationsEnd` | scheduling/sim.go:153-188 | Every accepted simulation ends after some number of turns, as promised: completed and rejected tasks are all tasks, each with one result, none completed before its phases can have run; tool slot time is exactly the tool calls that ran, running slot time exactly the CPU phases that ran with live I/O and at least CPU and tool calls without it |
| `SimTheorems.EveryEndIsAsPromised` | scheduling/sim.go:454-473 | Wherever the turns come to an end the slot times are those of the phases that ran, never more than the running slots allow; with no rejections they are the durations of all phases of all tasks, within the running slots times the makespan |
| `SimTheorems.LimitsAlwaysHold` | scheduling/sim.go:316-349 | After every turn all limits hold, the queue's included, and a slot is free only if nobody could use it |
| `SimTheorems.TheBestStarts` | scheduling/sim.go:351-399 | Who starts is strictly preferred by the policy to every other candidate |
| `SimTheorems.NewestIsLast` | scheduling/sim.go:439-445 | Who is turned away joined the queue last |

## Left out

- Early reads: object identity and aliasing of Python values, exception chaining and tracebacks, the
  `transformed` display text. In the meaning theorem the run's context does not end. Syntax trees are
  values, not nodes changed in place; operators, truth, exception matching and JSON encoding are abstract
  functions of the values.
- Durable: SQLite, SQL text, file locks and schema set-up; JSON and time formats; legacy tool snapshots;
  a store or context error inside an attempt, which ends it as a crash does; offline bundle replay.
- Executor: `Result` and `Wait`, which only copy a published result; `Stats`; observers and timing.
  Attempts are rows of a table, not heap objects.
- Catalog: provider discovery, and `configure` replacing module globals of an earlier execution. The
  Guest's nested namespaces are values that an insertion rebuilds, not dictionaries changed in place.
- Data image: the WebAssembly engine, memory mappings and sealing. Integers of the host are
  unbounded, which 64-bit hosts never reach here.
- Workspace: links, devices and renames behind the workspace's back; permissions, `Stat`, `Readdir` and
  inode numbers; the contents of files; a host that fails to change the append mode; UTF-8 validity. Open
  files are rows of a table, not objects, and names are lists of their parts.
- Simulator: resident byte-seconds, mean and p95 latency; the array of the heap, which holds the events in
  an order that makes no difference. Time is unbounded, and tasks are rows of a table, not objects.
- Recording: `invoke` handing a call to a recording's journal is modelled with the journal, in
  `DurableObjects`, not in `RunFutures`.
- HTTP services, command lines, adapters, benchmarks, plots and examples.
- RunFutures.RunState.InvokeTool: does not say what a recording's journal answers; that branch is
  `DurableObjects.AttemptJournal.Call`.
- WorkspaceNames.CleanExactly: does not ask for valid UTF-8, because names are sequences of characters.
- WorkspaceScan.ScanTree: does not refuse links, devices and other file types, because the model's tree has
  only files and directories.
- WorkspaceObject.RootedFs.ValidateComponents: does not refuse devices, symbolic links and hard links, for
  the same reason.
- WorkspaceObject.RootedFs.Open: does not set permission bits, and the host's look-up of a name fails only
  because it is missing.
- EarlyReadTheorem.EarlyReadsPreserveMeaning: its two conditions are enough for every program and exact only
  for the families of `EarlyReadLimits` and `EarlyReadBudget`. An exact condition for every program would
  have to say which paths its tests can take together and whether it looks at what differs, as
  `EarlyReadHidden` shows; no check of the program's text decides that.
