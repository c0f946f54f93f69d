# sandtrap, modelled

sandtrap takes Python source from code it does not trust, rewrites it so that every loop and every
function entry passes a checkpoint and every attribute goes through a gate, and executes the result
behind a policy, in this process or in a worker process. This project models the parts of it that
carry state or recursion and proves what they promise, for all inputs and over every sequence of
steps.

- **Rewriter and checkpoint** (`Python`, `Evaluation`, `Rewriter`, `Acceptance`, `Checkpoints`,
  `OneCheckpoint`, `Gating`, `GateNames`, `Reaching`, `Termination`, `MoreFuel`, `Preservation`,
  `RewriterTheorems`, `RewriterLimits`, `Unpacking`, `Steady`, `RewriterObject`, `Gates`). A small
  Python with an evaluator; the rewriting as a function; the tick counter and the policy's answers
  as part of what is evaluated. The gates are called by name, and a name may stand for something
  else. The evaluator's fuel is spent only by loop iterations and calls, and a result that did not
  run out of it is the same with any more of it. Three theorems: a rewritten program that leaves the
  checkpoint's name alone finishes under a tick limit, whatever it catches; no attribute is read or
  written that the policy does not allow; and with nothing to stop it, the program does what the
  source does. Where it does not is said exactly, and a class of programs told by their text always
  does.
- **Workspace module loader** (`Loader`, `LoaderBinding`, `LoaderImports`, `VfsLoader`). A cache
  filled by imports that execute bodies that import. Circular imports, bodies that fail and bodies
  that swallow failures.
- **Worker and parent** (`HostClock`, `Deadline`, `Protocol`, `Pauses`, `ProtocolTheorems`,
  `Reports`, `LateCalls`, `Escapes`, `Reliability`, `NestedCalls`, `Worker`, `Lifecycle`,
  `ProcessSandbox`).
  The two ends of the connection as a step system with threads that stop and start clocks; the
  deadline that moves with host time; workers started, checked, prepared by a hook and replaced.
- **Policy** (`Policy`, `PolicyDecisions`, `PolicyIndex`, `PolicyTransit`, `PolicyObject`). Five
  searches for the registration that covers a name, what is decided by it, and the indexes by object
  identity.
- **Keepers** (`Buffers`, `Scanner`, `Spool`, `Prints`). Bounded output, the scan for sandbox names,
  spooled results, rendered prints. Each equals a definition over everything that went in.
- **Lost writes** (`RemoteFile`, `LostWrites`). A buffered file over the parent's filesystem, from
  write to finalizer, and where a lost write is reported.
- **Search** (`Search`). The breadth-first search behind an import error's suggestion.

Time is counted in whole units of a clock that never goes back. What the operating system, the
pickler, the host's handlers and other threads do is a parameter of each step: any of them may fail
at any point the code allows for. A module's dotted name is the sequence of its parts.

## Where the code does not keep a promise

Each of these has a concrete case, and a lemma that says exactly when the promise is kept.

- The names of gates and temporaries are refused where they are assigned, and not as the names of
  functions and parameters. A checkpoint is a call by name: an accepted function with a parameter of
  that name makes its own argument the checkpoint, and the tick limit does not stop it
  (`Reaching.ParameterHidesGate`). Every checkpoint of an accepted program reaches the gate exactly
  when none of its parameters and `def`s has the gate's name (`Reaching.ReachesExactly`), and
  termination is proved for those.
- A single attribute target evaluates its object before its value; the rewritten statement agrees
  with Python exactly when evaluating the value leaves the object's name alone
  (`RewriterLimits.SingleTargetExactly`, `ObjectBeforeValue`). A tuple of targets with an attribute
  among them is unpacked by index, and agrees exactly when every tuple meets as many items as it has
  targets, or a value that yields none and fails on the first (`Unpacking.TupleTargetExactly`): a
  wrong length is not the `ValueError` of Python (`WrongLengthDiffers`). `o.a += e` becomes a plain
  addition, and agrees exactly when it extends no list (`AugAttrExactly`, `InPlaceDiffers`). A bare
  `except:` becomes `except Exception:`, and agrees exactly on errors that are `Exception`s, and on
  handlers that only raise the error again (`BareExceptExactly`, `BareExceptByText`,
  `BareExceptDiffers`).
- The module cache is closed under taking the parent name, whatever bodies do, exactly when no plain
  `x.py` stands beside a directory `x` of modules (`Loader.ClosedExactly`). Every module is bound on
  its parent, whatever bodies do, exactly when besides that no directory without an `__init__.py`
  lies in a package (`LoaderBinding.BoundExactly`): such a directory may be built twice, and what
  was bound on the first object is lost.
- A module that has loaded may be left without a module it imports: one of a circle of imports fails
  after another has loaded with it, is taken out of the cache, and the failure is swallowed further
  out (`LoaderImports.LosesImport`). After an import that is found, every loaded module has what it
  imports, but for names that were taken out again; nothing is where no body swallows a failure
  (`LoaderImports.FoundHasImports`).
- Two steps spoil the protocol. A call to the parent made by a finalizer after the answer was sent
  costs the next request: it is taken for the call's return (`LateCalls.LateCallCostsRequest`). An
  error that the parent's wait does not catch, such as a message that cannot be read back or an
  interrupt as a return is sent, raises out of the exec and leaves the worker at its request, whose
  answer is then read as the answer to the next one (`Escapes.EscapeMisleads`, `EscapeHappens`). A
  run is reliable all the way exactly when it takes neither (`Reliability.ReliableRunsExactly`).
- A finalizer's call made while another call waits for its return takes that return, and the outer
  call takes the inner one's: both raise, though both were served (`NestedCalls.NestHappens`). Calls
  go on with their own returns exactly when none is made inside another
  (`NestedCalls.CallsExactly`); answers stay with their requests either way.
- A start can leave its worker alive, uncounted and unprepared: when an error nothing catches goes
  out of the wait for the first message, or when a degraded worker is let in with a warning and
  warnings are raised. The next entry succeeds with that worker (`Lifecycle.ReachesStranded`). The
  promise about workers holds for a set of starts exactly when none of them does that
  (`Lifecycle.PromisedExactly`).
- A spooled value that fails with its file open, where closing the file raises too, leaves the file,
  and the error goes out of the whole namespace. A file that is made and cannot be opened, or cannot
  be removed, stays as well (`Spool.SpoolNamespace` says exactly which, `StrandsOnFullDisk`).
- A module that binds another registered module as an attribute gives it by traversal and refuses it
  to a from-import (`Policy.AliasedModuleDiffers`, `ModuleMemberExactly`).
- Registering a name again can leave the index stale (`PolicyIndex.StaleIndex`; `RegisterExactly`
  says when).
- A truncate past the end of a file counts as a change although nothing changes, so content whose
  failed save was raised is reported once more (`RemoteFile.ReportedExactly`, `ReportedTwice`).
- The docstring of `visit_ExceptHandler` counts `StTimeout` and `StCancelled` among the errors that
  `except Exception:` does not catch; both are `Exception`s, so it does. The model follows the code,
  and termination is proved with handlers that catch them.

## Model

| member | source | states |
|---|---|---|
| RewriterTheorems.Terminates | sandtrap/rewriter.py:538-565 | Every accepted program that binds the checkpoint's name nowhere, rewritten, finishes under a tick limit from every state in which the name stands for the gate, whatever its handlers catch and whatever the other gates' names stand for: the ticks left and one more are enough fuel, the counter never goes back and no more checkpoints pass than ticks were left. |
| RewriterTheorems.CallbackTerminates | sandtrap/gates.py:1047-1068 | A function of such a program called back after its execution ended gets one fresh budget for itself and all it calls, and finishes within it. |
| RewriterTheorems.RefusedFirst | sandtrap/gates.py:982-1002 | With no ticks left and the name standing for the gate, a loop or function body raises before anything of it takes effect. |
| RewriterTheorems.CheckpointExactly | sandtrap/gates.py:982-1002 | One checkpoint, by the ticks left: a cancelled execution is stopped uncounted; with a tick left that tick is taken off and the checkpoint returns, unless time or memory is up, each with its own error; with none left it is the tick limit that is raised. |
| RewriterTheorems.TicksExactly | sandtrap/gates.py:982-1002 | Over every run with nothing but the limit to stop it, one tick is taken off for each checkpoint passed, and a run that was stopped has passed exactly as many as there were ticks left. |
| RewriterTheorems.CallbackTicks | sandtrap/gates.py:1047-1068 | A callback outside an execution that was stopped has passed exactly the whole limit, wherever the counter stood. |
| RewriterTheorems.NestedTicks | sandtrap/gates.py:1047-1068 | A call inside an execution or a callback goes on with the counter as it is, and leaves the depth as it was. |
| Reaching.ReachesExactly | sandtrap/rewriter.py:545-551 | For every accepted program: every call of its functions and every statement of it, from every state in which the name stands for the gate, passes only checkpoints that reach the gate and leaves the name to it, exactly when no parameter and no `def` has that name. |
| Reaching.RunReaches | sandtrap/gates.py:270-275 | So in no run of such a program does a checkpoint miss the gate. |
| Reaching.ParameterHidesGate | sandtrap/rewriter.py:841-843 | A function with a parameter of the gate's name, called with `int`, is accepted and uses up any fuel, whatever the limit. |
| Reaching.BoundMisses | sandtrap/rewriter.py:567-571 | A function that binds the name by a parameter or a `def` misses the gate at its first checkpoint. |
| GateNames.KeepsAll | sandtrap/rewriter.py:160-173 | Statements that do not bind the name leave it standing for the gate, through everything they call, and miss no checkpoint. |
| Evaluation.ByName | sandtrap/rewriter.py:211-239 | What a gate expression comes to is what the call by name it is written as comes to. |
| RewriterTheorems.SourceMayNotFinish | sandtrap/rewriter.py:655-665 | The source itself, not rewritten, may use up any amount of fuel. |
| Checkpoints.RewriteChecks | sandtrap/rewriter.py:824-839 | In everything the rewriter writes, each loop body, function body and comprehension clause begins with a checkpoint. |
| OneCheckpoint.RewriteChecksOnce | sandtrap/rewriter.py:538-565 | And with one only: there is no checkpoint anywhere else, so an iteration, a call and an item cost one tick each. |
| Gating.RewriteGates | sandtrap/rewriter.py:723-733 | In everything the rewriter writes for an accepted program there is no attribute, attribute target or augmented attribute left, and every `def` is followed by the capture of its function. |
| Gating.DocstringStays | sandtrap/rewriter.py:552-564 | The docstring of a function is still the first thing in it. |
| Gating.PolicyAsked | sandtrap/gates.py:580-664 | In every run of every accepted program, rewritten, whatever the gates' names stand for: each attribute that is read is one the policy lets the code read of that object, and each that is written one it lets it write. |
| Gating.CallbackAsks | sandtrap/gates.py:1047-1068 | The same for a function called back later. |
| Gating.GateExactly | sandtrap/gates.py:580-664 | A gate reads and writes as Python does exactly what the policy allows; anything else is an `AttributeError` that changes nothing. |
| Acceptance.AcceptsExactly | sandtrap/rewriter.py:160-190 | A parsed program is accepted exactly when it loads no reserved name, `__builtins__` or `__import__`, and stores and declares `global` no reserved name and none of `exec`, `eval`, `compile` and `__import__`, at any depth. |
| Termination.EnoughAll | sandtrap/rewriter.py:810-839 | Checked statements that do not bind the checkpoint's name never run out of fuel when there is more of it than ticks, through loops, calls, comprehensions and handlers. |
| Termination.EnoughBody | sandtrap/rewriter.py:538-565 | The same for a body that begins with a checkpoint and one unit of fuel less: passing it has cost a tick. |
| Termination.EnoughWhile | sandtrap/rewriter.py:664-665 | The same for `while` loops, by the tick each iteration pays. |
| Termination.EnoughLoop | sandtrap/rewriter.py:824-839 | The same for the clauses of a comprehension. |
| MoreFuel.SameWithMoreFuel | sandtrap/rewriter.py:538-565 | A result that did not run out of fuel is the result with any more of it, so fuel is no part of what is said. |
| RewriterTheorems.MeaningPreserved | sandtrap/rewriter.py:349-415 | Every source result that finishes and keeps to the supported forms is matched by the rewritten program, unless a checkpoint or the policy refused. |
| RewriterTheorems.MeaningPreservedWithoutLimits | sandtrap/rewriter.py:282-289 | With nothing to refuse it, the rewritten program ends as the source does: same outcome, same variables and objects, same attribute reads and writes in the same order, so an augmented target's object and a chained value are evaluated once. |
| RewriterLimits.SingleTargetExactly | sandtrap/rewriter.py:360-379 | For `x.a = e`, whatever `x` stands for and however evaluating `e` ends, the two agree exactly when that leaves `x` alone: the same object, or one that takes no attribute just as the other, or an unknown name that nothing happened before. |
| RewriterLimits.ObjectFirstExactly | sandtrap/rewriter.py:360-379 | For `o.a = e` with any object and any value, the two agree exactly when in the source evaluating the object first comes to what evaluating the value first does. |
| RewriterLimits.ObjectBeforeValue | sandtrap/rewriter.py:360-379 | A program where they do not: `x.a = f()` with an `f` that rebinds `x`. |
| Unpacking.TupleTargetExactly | sandtrap/rewriter.py:241-274 | For a chain of targets or a tuple of them at any depth, of names and attributes of names, and any value, where the policy refuses nothing: the two agree exactly when the value raises, or every tuple that is come to meets as many items as it has targets, or a value that is no sequence with no unknown name before its first item. |
| Unpacking.EmitExactly | sandtrap/rewriter.py:241-274 | The same for one target and the value at the end of a path, state by state: the statements written tally with Python, or do not raise what it raises. |
| Unpacking.WrongLengthDiffers | sandtrap/rewriter.py:241-274 | A statement where they do not: `x.a, y = (None,)`. |
| Unpacking.EmitNeverValueError | sandtrap/rewriter.py:241-274 | Where the policy refuses nothing, unpacking by index never raises `ValueError`, at any depth and whatever is unpacked. |
| RewriterLimits.AugAttrExactly | sandtrap/rewriter.py:383-415 | For `o.a op= e`, however its operands end, the two agree exactly when no list is extended. |
| RewriterLimits.InPlaceDiffers | sandtrap/rewriter.py:408-413 | `x.a += ()` on a list: Python leaves the list, the rewritten statement raises. |
| RewriterLimits.BareExceptExactly | sandtrap/rewriter.py:810-822 | For the handlers of a `try` and any error, the two agree exactly when the error is an `Exception`, or no handler is bare, or the bare one only raises it again. |
| RewriterLimits.BareExceptByText | sandtrap/rewriter.py:819-821 | Told by the text, for an error that is no `Exception`: a bare handler that only raises it again agrees, and one in which nothing can raise does not. |
| RewriterLimits.BareExceptDiffers | sandtrap/rewriter.py:819-821 | From every state, an exit caught by a bare `except:` is not caught by the rewritten one. |
| Steady.SteadyFits | sandtrap/rewriter.py:349-415 | A program without attributes in tuples of targets, without `+=` on attributes, without bare `except:`, and whose single attribute targets have a constant for a value or a parameter for an object, stays in the supported fragment, from every state. |
| Steady.SteadyMeaningPreserved | sandtrap/rewriter.py:349-415 | Every such program ends, rewritten, exactly as it does itself, with no condition on the run. |
| RewriterTheorems.ReservedAreTmps | sandtrap/rewriter.py:139-142 | Of the reserved names a rewritten function binds its own temporaries and no others. |
| RewriterTheorems.TmpsApart | sandtrap/rewriter.py:139-142 | Temporaries with different numbers are different names. |
| RewriterTheorems.OwnExactly | sandtrap/rewriter.py:160-173 | An accepted body binds a reserved name exactly when one of its own `def`s has one. |
| Rewriter.BoundAll | sandtrap/rewriter.py:139-142 | A rewritten body binds what the source binds and the temporaries numbered from the counter on, each used by one statement. |
| Preservation.SimE | sandtrap/rewriter.py:723-733 | A rewritten expression comes to the source's value, state and attribute accesses. |
| Preservation.SimAugAttr | sandtrap/rewriter.py:383-415 | An augmented attribute, split over a temporary, reads and writes the object once, as the source does. |
| Preservation.SimEmitAll | sandtrap/rewriter.py:241-274 | The statements written for a chain of targets assign the one value to each, left to right, nested tuples included. |
| Preservation.SimTry | sandtrap/rewriter.py:810-822 | A rewritten `try` handles, goes on and finishes as the source does. |
| RewriterObject.RewriterObject.VisitModule | sandtrap/rewriter.py:282-289 | The visitors with their shared counter write exactly the rewriting of the program. |
| RewriterObject.RewriterObject.VisitStmt | sandtrap/rewriter.py:349-415 | One statement, and the counter after it. |
| RewriterObject.RewriterObject.VisitExpr | sandtrap/rewriter.py:723-733 | One expression, its parts visited in turn; what is written has no attribute in it but the gate's call (`Gating.RewriteGates`). |
| RewriterObject.RewriterObject.VisitClauses | sandtrap/rewriter.py:824-839 | The clauses of a comprehension, the checkpoint inserted before the filters of each. |
| RewriterObject.RewriterObject.EmitTargetAssign | sandtrap/rewriter.py:241-274 | The loop over a tuple target's items writes the decomposition. |
| RewriterObject.RewriterObject.InsertCheckpoint | sandtrap/rewriter.py:538-565 | The checkpoint is inserted at the head, after a docstring. |
| Gates.Gates.Checkpoint | sandtrap/gates.py:982-1002 | The counter box goes as the evaluator's meter does, and the error raised is the one it raises: the count, the limit and the order of the signals are those of `CheckpointExactly`. |
| Gates.Gates.EnterCallback | sandtrap/gates.py:1048-1052 | Entering a captured function resets the counter only outside an execution and only at depth zero. |
| Gates.Gates.LeaveCallback | sandtrap/gates.py:1060-1061 | Leaving it gives the caller its depth back. |
| Loader.Resolve | sandtrap/gates.py:346-402 | From every well-formed cache: a body starts only while its module is neither cached nor executing, whatever was importable stays the same module, what is found is cached, and missing changes nothing; the recursion ends. |
| Loader.Load | sandtrap/gates.py:376-402 | After a body that raises, neither its module is cached nor, for a package, any name below it. |
| Loader.Package | sandtrap/gates.py:404-426 | The package for a dotted name is cached, found or made bare, under the same invariant. |
| Loader.RunBody | sandtrap/gates.py:253-304 | A body of imports that fail, succeed or are swallowed keeps the invariant; when it comes to its end is `LoaderImports.BodyExactly`. |
| Loader.Chain | sandtrap/gates.py:428-439 | So does a dotted import. |
| Loader.RollbackOk | sandtrap/gates.py:391-397 | Roll-back takes out nothing that was there before the failed module started. |
| Loader.ParentsCached | sandtrap/gates.py:346-402 | With no plain module beside a directory of modules, the parent of every cached name is cached. |
| Loader.FailedLeavesNothing | sandtrap/gates.py:391-398 | An import that raises leaves neither the module nor anything below it. |
| Loader.ImportBinds | sandtrap/gates.py:400-402 | When the outermost import returns, every cached dotted module is the object bound under its leaf name on its cached parent. |
| Loader.DottedReaches | sandtrap/gates.py:428-439 | From the top package, a, b and c are reached by attributes, also when a parent's own body imported the child first. |
| Loader.ClosedExactly | sandtrap/gates.py:394-397 | Parents are always cached, for all bodies over a set of files, exactly when no plain `x.py` shadows a directory `x` of modules. |
| Loader.Orphan | sandtrap/gates.py:394-397 | Any shadowed directory gives bodies that leave an orphan. |
| LoaderBinding.BoundExactly | sandtrap/gates.py:404-426 | Everything cached is bound on its parent, for all bodies over a set of files, exactly when no plain module shadows a directory and no bare directory is in a package. |
| LoaderBinding.LeftUnbound | sandtrap/gates.py:417-425 | Any bare directory in a package whose body imports through it ends with a child that is cached and not bound. |
| LoaderBinding.OnMadePackage | sandtrap/gates.py:417-426 | No attribute is ever bound on an object still to be made, nor is one its value, and only what was made in between is bound in between. |
| LoaderBinding.BoundOnceLoaded | sandtrap/gates.py:380-402 | A module becomes an attribute of its parent once it has loaded, and of nothing else: while its body runs no attribute is that module, nor after it has failed. |
| LoaderImports.BodyExactly | sandtrap/gates.py:739-741 | A body comes to its end exactly when no action of it raises, and none imports, without swallowing, what is not found or raises where it stands. |
| LoaderImports.BodyHasImports | sandtrap/gates.py:739-741 | Then every name it imports without swallowing is cached. |
| LoaderImports.LoadExactly | sandtrap/gates.py:380-402 | A module loads exactly when nothing in its body, the package's before the plain module's, breaks it. |
| LoaderImports.ResolveExactly | sandtrap/gates.py:363-375 | What is cached is given back with nothing done for it, and only a name neither cached nor in a file is missing. |
| LoaderImports.ChainExactly | sandtrap/gates.py:428-439 | A dotted import that is found gives the top package and has cached the name; with the name cached and the top package gone it raises; it is missing exactly when the name is neither cached nor in a file. |
| LoaderImports.FoundHasImports | sandtrap/gates.py:346-402 | After an import from an empty cache that is found, every loaded module has in the cache each name it imports without swallowing, unless that name was taken out again; and with no body that swallows, always. |
| LoaderImports.LosesImport | sandtrap/gates.py:391-398 | For any circle of this kind the import is found and leaves a loaded module without the module it imported. |
| LoaderImports.LosesImportHappens | sandtrap/gates.py:391-398 | Files that make one. |
| VfsLoader.VfsLoader.ResolveModule | sandtrap/gates.py:346-402 | The method on the mutable cache does what the function does. |
| VfsLoader.VfsLoader.Build | sandtrap/gates.py:380-402 | Building, executing and binding or rolling back, in place. |
| VfsLoader.VfsLoader.Forget | sandtrap/gates.py:391-397 | The deleting loop removes exactly the module and, for a package, the names below. |
| VfsLoader.VfsLoader.GetPackage | sandtrap/gates.py:404-426 | The package step in place: cached, found, or a bare object bound on its parent. |
| VfsLoader.VfsLoader.EnsurePackageChain | sandtrap/gates.py:428-439 | The dotted import in place, whose value is the top package. |
| VfsLoader.VfsLoader.TopLevelImport | sandtrap/gates.py:346-439 | An import by top-level code: found, the whole chain is reachable; raised, nothing of it is cached; missing, nothing changed. |
| HostClock.RefundIsUnion | sandtrap/clock.py:65-80 | Over every sequence of overlapping calls, ending in any order, the clock's start has moved by the instants of finished pauses, and a pause has no holes. |
| HostClock.RefundOfRun | sandtrap/clock.py:65-80 | With no call out, the start has moved by exactly the size of the union of the calls' instants. |
| HostClock.HostClockObject.EnterCall | sandtrap/clock.py:65-71 | The first call in begins the pause. |
| HostClock.HostClockObject.ExitCall | sandtrap/clock.py:73-80 | The last call out refunds it; which call that is makes no difference. |
| HostClock.HostClockObject.Remaining | sandtrap/clock.py:82-86 | The time left is the timeout less the instants since the start that no call covers, and none while a call is out. |
| Deadline.AwaitResult | sandtrap/process/sandbox.py:1159-1233 | The wait gives up exactly when, with the clock running, the time that is not host time has reached timeout and grace, at no turn before, however many calls arrived. |
| Deadline.Take | sandtrap/process/sandbox.py:1211-1233 | One message moves the deadline by a pause that ends or a handler served while nothing is paused, and by nothing else. |
| Deadline.KeptStarts | sandtrap/process/sandbox.py:1211-1218 | The end of a pause adds exactly the pause's instants to what was refunded. |
| Deadline.KeptServes | sandtrap/process/sandbox.py:1219-1233 | A call served while nothing is paused adds exactly its handler's instants. |
| Deadline.KeptServesPaused | sandtrap/process/sandbox.py:1219-1233 | A call served during a pause adds nothing: no instant is refunded twice. |
| ProtocolTheorems.EachRequestOnce | sandtrap/process/sandbox.py:1126-1138 | Over every run without a spoiling step, outcomes are one for each request in order, a reply is the reply to its own request, what is still to be read is about the request the parent waits for, and the channel is empty when an exec has returned, and after one that raised unless its worker is dead; calls made inside others make no difference. |
| ProtocolTheorems.EachCallOnce | sandtrap/process/worker.py:81-121 | Over every run without a spoiling step and without a call inside another, every call gets exactly one return, with its own id and in order, also for values that cannot be serialized, and the worker never meets a message it does not wait for. |
| ProtocolTheorems.ServedInOrder | sandtrap/process/sandbox.py:1241-1293 | With calls inside others, too, calls are served once each and returned in the order they were made. |
| NestedCalls.CallsExactly | sandtrap/process/worker.py:91-101 | Over every run that is not spoilt, calls go on with their own returns, whatever follows, exactly when none is made inside another. |
| NestedCalls.NestConfuses | sandtrap/process/worker.py:101-109 | After a call made inside another there is a way on, from any state such a run reaches, in which one takes the return of the other. |
| NestedCalls.NestHappens | sandtrap/fs/remote.py:384-410 | A reachable case: both calls served, neither resumed by its own return, and the request answered by its own reply. |
| ProtocolTheorems.PausesInOrder | sandtrap/process/worker.py:354-390 | Over every run, spoilt or not, the pause messages of one execution alternate, are balanced before its answer, belong to the running request, and none is sent between two. |
| ProtocolTheorems.RecordedStep | sandtrap/process/worker.py:354-390 | Every step there can be, spoiling or not, keeps the requests in order and the worker's clocks and log in agreement with the running execution. |
| Reports.PauseTold | sandtrap/process/worker.py:360-389 | Over every run, spoilt or not, while an execution goes on and its clock is not just telling: the parent has been told of a pause that is not over exactly when more host calls have begun on the clock than have ended. |
| Reports.CallsAreTold | sandtrap/process/worker.py:360-369 | A host call on an idle clock of the running execution can begin and end, and the parent is sent a pause and its end. |
| Reports.AnswersWhen | sandtrap/process/worker.py:401-490 | With no call out, a request is answered once it has been executed, and before that only by an error. |
| Reports.ResumeExactly | sandtrap/process/worker.py:81-121 | The innermost call takes the message that comes, its own return or not, and the others go on waiting. |
| Reports.RepliesTrue | sandtrap/process/sandbox.py:1189-1210 | Over every run, spoilt or not, an outcome that is a reply is one the worker made, for that request and with that result. |
| Reports.ReturnsTrue | sandtrap/process/sandbox.py:1241-1290 | What comes back for a call is how it was served. |
| Reports.DeathLosesNothing | sandtrap/process/sandbox.py:1169-1178 | A worker's death is noticed only where it has not answered the request that waits: an answer sent before it died is read first. |
| ProtocolTheorems.Answerable | sandtrap/process/worker.py:392-503 | From every state in which a worker lives and the parent waits there is a way on that answers the request: the two never wait for each other. |
| Reliability.ReliableRunsExactly | sandtrap/process/sandbox.py:1159-1233 | Over every run of the two, every reply stays its own request's and every request that waits on a live worker can be answered, all the way, exactly when no late call is made and no error goes out of the wait with something under way. |
| Reliability.ReliableExactly | sandtrap/process/sandbox.py:1182-1188 | The same for one step from any state such a run reaches. |
| Escapes.EscapeMisleads | sandtrap/process/sandbox.py:1182-1188 | After an error out of the wait that leaves a live worker with something under way, there is a run in which the next request gets the reply to the one before. |
| Escapes.EscapeHappens | sandtrap/process/worker.py:87-107 | A reachable case: a call that cannot be read back, and the first execution's result as the answer to the second request. |
| ProtocolTheorems.GoodStep | sandtrap/process/worker.py:392-503 | Every step of either side or of any thread, but the two that spoil, keeps the coupling of the two ends, the clocks, the calls and the log. |
| Protocol.CoupledRead | sandtrap/process/sandbox.py:1183-1233 | Whatever the parent reads fits the request it waits for. |
| Protocol.CoupledTell | sandtrap/process/worker.py:360-368 | A thread's pause message never breaks the coupling, whichever execution its clock is of. |
| Protocol.ClockedThread | sandtrap/clock.py:65-80 | Entering, leaving and telling, by any thread, keep what the worker believes equal to what the running execution's clock last said. |
| Protocol.ServedServe | sandtrap/process/sandbox.py:1241-1293 | Each call served gives exactly one return, the call's own. |
| Protocol.TradedResume | sandtrap/process/worker.py:101-109 | With no call inside another, what the worker takes for a return is the return of its call. |
| Protocol.CoupledEscape | sandtrap/process/sandbox.py:1182-1188 | An error out of the wait, or out of sending a return, keeps the two ends in step exactly when nothing is under way, or the worker is dead. |
| Pauses.OrderlyAdd | sandtrap/process/worker.py:360-388 | A log in order stays so under an entry that fits: a pause of the running request that alternates, an answer with balanced pauses, a request not taken before. |
| LateCalls.LateCallCostsRequest | sandtrap/process/worker.py:495-503 | After a call made past the answer, no sequence of steps of a worker left alone answers the request it costs. |
| LateCalls.LateCallHappens | sandtrap/process/worker.py:495-503 | Such a call is possible after the first exec has returned. |
| Worker.Execution.Tell | sandtrap/process/worker.py:360-368 | The worker's record, updated under the send lock, goes as the step does: another execution's clock is not heard. |
| Worker.Execution.Begins | sandtrap/process/worker.py:371-374 | From its beginning an execution's own clock is the one that is heard. |
| Worker.Execution.Ends | sandtrap/process/worker.py:376-388 | As it ends the scope is cleared and a pause still open is balanced, in the one step. |
| Lifecycle.PromisedExactly | sandtrap/process/sandbox.py:811-992 | Over every sequence of entering, executing, crashing and shutting down, with any hook, any end and any starts of a given set, a live worker is ready, accepted and prepared, no ordinary execution reached another kind or came before its worker's hook had ended, no worker was counted or reached that did not report isolation that is not degraded where degraded isolation is not allowed, no hook began inside a hook and the generation counts the accepted workers: exactly when none of those starts strands a worker. |
| Lifecycle.PromisedRun | sandtrap/process/sandbox.py:811-945 | The half of it that keeps the promise. |
| Lifecycle.ReadyExactly | sandtrap/process/sandbox.py:811-992 | A worker that reports ready, by what it reports and the configuration alone: refused with no process left and the generation as it was, left behind by a warning that is raised, or counted and then given to the hook or ready. |
| Lifecycle.StartFails | sandtrap/process/sandbox.py:811-945 | Any other start fails and counts nothing, and leaves a worker only when the wait for its first message was broken off. |
| Lifecycle.HookExactly | sandtrap/process/sandbox.py:947-960 | A start hook that raises at any point, or leaves no live worker, fails the start and leaves none; else the worker is live and prepared. |
| Lifecycle.HookPasses | sandtrap/process/sandbox.py:947-960 | With a worker that reports isolation that is not degraded and a hook that only enters again or executes what is answered, however often, entering succeeds and the worker is counted and prepared. |
| Lifecycle.InsideHook | sandtrap/process/sandbox.py:811-817 | Inside a hook no worker is started: entering and executing find the live one or fail. |
| Lifecycle.ActExactly | sandtrap/process/sandbox.py:947-960 | Each thing a hook can do with the sandbox, and what it comes to. |
| Lifecycle.ExecExactly | sandtrap/process/sandbox.py:1097-1138 | An execution is refused when the sandbox is not entered, fails with its start, or reaches the live worker, which it loses when that died or did not answer. |
| Lifecycle.EnterExactly | sandtrap/process/sandbox.py:787-803 | Entering succeeds exactly with a live worker or a start that succeeds; after leaving there is no worker and executions are refused. |
| Lifecycle.Stranded | sandtrap/process/sandbox.py:906-917 | The half that breaks it: an error out of the wait for the first message, or a warning that is raised, leaves a live worker that is neither accepted nor prepared. |
| Lifecycle.ReachesStranded | sandtrap/process/sandbox.py:813-814 | The next entry then succeeds under any config and an execution reaches that worker. |
| Lifecycle.KeptHook | sandtrap/process/sandbox.py:947-960 | Whatever the hook does with the sandbox, a start that succeeds leaves a live prepared worker, and one that fails none. |
| Lifecycle.KeptActs | sandtrap/process/sandbox.py:816-820 | Executing, entering, shutting down and crashing inside the hook never start another worker. |
| Lifecycle.KeptVerify | sandtrap/process/sandbox.py:962-992 | A worker is accepted with the status it reported, and where degraded isolation is not allowed only one that reported its own as not degraded. |
| Lifecycle.KeptExec | sandtrap/process/sandbox.py:1097-1138 | An execution reaches a prepared worker, or the hook's own. |
| ProcessSandbox.ProcessSandbox.EnsureWorker | sandtrap/process/sandbox.py:811-945 | The method on the object's fields does what the function does. |
| ProcessSandbox.ProcessSandbox.VerifyIsolation | sandtrap/process/sandbox.py:939-992 | The status decides as the function does, which `ReadyExactly` says by the report alone. |
| ProcessSandbox.ProcessSandbox.RunHook | sandtrap/process/sandbox.py:947-960 | A start succeeds only when its hook came to its end and left a live worker; otherwise the worker is killed, too. |
| ProcessSandbox.ProcessSandbox.Execute | sandtrap/process/sandbox.py:1097-1138 | An exec is refused when not started, fails with a failed start, and otherwise reaches the live worker, unless the request cannot be sent, which may leave the worker as it is. |
| ProcessSandbox.ProcessSandbox.Open | sandtrap/process/sandbox.py:787-795 | A failed entry leaves the sandbox not started. |
| ProcessSandbox.ProcessSandbox.Close | sandtrap/process/sandbox.py:1034-1049 | After a shutdown there is no worker and no connection, and an exec is refused until the sandbox is entered again. |
| ProcessSandbox.ProcessSandbox.Drive | sandtrap/process/sandbox.py:787-1049 | Any sequence of uses of the object is the run the theorems are about, and keeps the promise when no start in it strands a worker. |
| Policy.TraversalMatchesImport | sandtrap/policy.py:791-842 | For an importable module and a member it has, submodules included and any excludes, attribute traversal allows it exactly when a from-import gives it. |
| Policy.SearchesAgree | sandtrap/policy.py:885-899 | The five searches select one registration for every name that may be imported, and it is recursive. |
| Policy.SearchesAgreeExactly | sandtrap/policy.py:951-991 | In general, those that stop at the nearest registered ancestor and those that pass over it agree exactly when it is recursive or nothing above it is. |
| Policy.FindsNearest | sandtrap/policy.py:924-949 | Two of the searches find the nearest registered ancestor and decide by it. |
| Policy.RecursiveSame | sandtrap/gates.py:814-829 | The gate's search finds what the member's does. |
| Policy.SameRegistration | sandtrap/policy.py:857-922 | The registration found for a module object is the one a from-import uses, so the gate gives the same privileges either way. |
| Policy.FirstClass | sandtrap/policy.py:862-878 | For a super object: the first registered class after its own along the method resolution order, and none only when no class there is registered. |
| Policy.Covering | sandtrap/policy.py:912-920 | For an instance: a recursive registration whose module covers its type's, and none only when there is none. |
| Policy.SubmoduleAgrees | sandtrap/policy.py:1024-1039 | A submodule has a registration exactly when it may be imported. |
| Policy.Decisions | sandtrap/policy.py:973-1041 | Without the searches: traversal asks that a member is not excluded and a module among them has a registration or a recursive parent; a from-import that its dotted name may be imported. |
| Policy.ModuleMemberExactly | sandtrap/policy.py:1032-1039 | For a member that is any module, the two agree exactly when it is excluded, or its parent's registration is recursive, or that module has a registration just when the dotted name is registered. |
| Policy.AliasedModuleDiffers | sandtrap/policy.py:833-841 | A policy and a world where they do not. |
| PolicyDecisions.AttrExactly | sandtrap/policy.py:791-855 | For every policy, object and name: under a registration a name is allowed exactly when it is configured or describes the object, or the include patterns take it, bare or under an owner, and it is not excluded and not an unregistered module under a registration that is not recursive, or they do not and its member has a registration. |
| PolicyDecisions.FindExactly | sandtrap/policy.py:857-922 | Which registration an object falls under: its own, its nearest registered ancestor's if that is recursive, or its type's. |
| PolicyDecisions.TypeExactly | sandtrap/policy.py:901-922 | Where the type decides: its class, the object's own, or the first recursive registration over its module. |
| PolicyDecisions.ImportExactly | sandtrap/policy.py:924-949 | A module may be imported exactly when it is registered, or its nearest registered ancestor is recursive and excludes neither its dotted name nor its last part. |
| PolicyDecisions.MemberExactly | sandtrap/policy.py:973-1041 | What a from-import gives, for every module and member name and all patterns. |
| PolicyDecisions.DescendExactly | sandtrap/policy.py:951-971 | Going down a dotted name finds an object exactly when a way of attributes, or else imports, leads to it part by part. |
| PolicyDecisions.ModuleExactly | sandtrap/policy.py:951-971 | The object of a name that may be imported: the one registered under it, or the end of such a way from the object of its nearest registered ancestor. |
| PolicyIndex.IndexedThroughout | sandtrap/policy.py:682-749 | Through any sequence of registrations the index agrees with a scan exactly when each registration is in order; a new name always is. |
| PolicyIndex.RegisterExactly | sandtrap/policy.py:737-749 | One registration keeps the index right exactly when its name is new, or no later name has its object and the name's old object is the same or has a later name. |
| PolicyIndex.StaleIndex | sandtrap/policy.py:737-749 | Three registrations after which the index and the scan give different registrations for one object. |
| PolicyIndex.RebuildIndexed | sandtrap/policy.py:626-632 | The rebuilt index agrees with the scan. |
| PolicyIndex.OneIndex | sandtrap/policy.py:611-632 | A right index is the rebuilt one, so dropping and rebuilding changes nothing. |
| PolicyTransit.LookupThere | sandtrap/policy.py:611-632 | In another process, under any injective change of identities, every lookup finds the same registration. |
| PolicyTransit.FindThere | sandtrap/policy.py:857-922 | So does the search for an object's registration, for modules, classes, instances and super objects. |
| PolicyTransit.AttrAllowedThere | sandtrap/policy.py:791-855 | Whether an attribute may be read is decided the same there, by the condition of `PolicyDecisions.AttrExactly`. |
| PolicyTransit.ResolveMemberThere | sandtrap/policy.py:973-1041 | So is what a from-import gives. |
| PolicyTransit.RightIsCanonical | sandtrap/policy.py:501-503 | A right index is what the agreement of the searches asks for. |
| PolicyObject.PolicyObject.RegisterCls | sandtrap/policy.py:682-697 | The dictionary and its index after a class is registered. |
| PolicyObject.PolicyObject.RegisterMod | sandtrap/policy.py:737-749 | The same for a module, valid after exactly when in order. |
| PolicyObject.PolicyObject.SetState | sandtrap/policy.py:626-632 | Loading gives a valid policy. |
| PolicyObject.PolicyObject.Index | sandtrap/policy.py:631-632 | The rebuilding loop gives the index in which the last registration of an object counts. |
| Buffers.CaptureTail | sandtrap/builtins.py:304-346 | Any sequence of writes reads back as the last `max` characters of everything written behind the marker, and as the whole text when it fits. |
| Buffers.CaptureEnds | sandtrap/builtins.py:358-382 | The same for both ends, with the exact number of characters left out. |
| Buffers.TailBuffer.Write | sandtrap/builtins.py:311-322 | One write: the text so far is what it was and the new text, and the trimming loop has turned at most twice for every write. |
| Buffers.TailBuffer.Trim | sandtrap/builtins.py:324-335 | Exactly the excess goes from the front, at one turn for each chunk dropped and one more. |
| Buffers.TailBuffer.GetValue | sandtrap/builtins.py:340-346 | Reads as the last `max` characters behind the marker, or as the whole text when none was dropped. |
| Buffers.EndsBuffer.Write | sandtrap/builtins.py:365-373 | The head takes the first half and nothing reaches the tail before it is full. |
| Buffers.EndsBuffer.GetValue | sandtrap/builtins.py:375-382 | Reads as the two ends around the exact number of characters left out, or as the whole text. |
| Buffers.KeptAndOmitted | sandtrap/builtins.py:358-382 | A text that fits is read whole; past the bound, what is read and what is left out make up the whole text, and the number is that of the characters left out. |
| Buffers.OmittedInjective | sandtrap/builtins.py:380-381 | The marker tells the number. |
| Scanner.LooksEnough | sandtrap/home.py:124-137 | The two places the scanner looks in are enough: a name spanning any number of short writes is found, and nothing else is. |
| Scanner.EndAdd | sandtrap/home.py:132-136 | The bytes kept between writes are the last ones of the whole stream. |
| Scanner.ContainsExactly | sandtrap/home.py:105-137 | What is looked for: a text that has the prefix somewhere in it. |
| Spool.Scanning.Write | sandtrap/home.py:124-137 | However the stream is cut, the flag says whether the bytes so far hold the name, and they pass through unchanged. |
| Spool.SpoolWriter.Write | sandtrap/process/spool.py:64-81 | The writer holds exactly the bytes written, in memory up to the limit and past it in one file. |
| Spool.SpoolWriter.WriteFails | sandtrap/process/spool.py:64-81 | A write that raises leaves no file, one the writer knows of, or one it never opened. |
| Spool.SpoolWriter.Finish | sandtrap/process/spool.py:83-88 | The entry has the true size and is inline exactly when the total is within the limit; there is none exactly when closing the file raises. |
| Spool.SpoolWriter.Discard | sandtrap/process/spool.py:90-98 | The directory is as it was before the value, exactly unless closing an open file raises, it cannot be removed, or the writer never opened it. |
| Spool.SpoolOne | sandtrap/process/spool.py:111-119 | A value is dropped exactly when pickling or a write raises, a sandbox object in it is refused or its file does not close; it leaves no file, exactly unless its file does not close, cannot be removed or was never opened. |
| Spool.Pickle | sandtrap/home.py:140-151 | The pickler's writes reach the writer whole and in order through the scanner. |
| Spool.StrandsOnFullDisk | sandtrap/process/spool.py:75-96 | The cases: a disk that is full as the file is begun and again as it is closed, and a file that is made and cannot be opened. |
| Spool.SpoolNamespace | sandtrap/process/spool.py:101-120 | Every value that can be sent has an entry with its bytes, the others are named in order, and the files added are those of the entries, one each, and those that could not be opened or removed; exactly unless discarding one raises. |
| Spool.SendableExactly | sandtrap/process/spool.py:101-120 | A value is sent exactly when pickling it came to its end, no refusing pickler has the prefix in the bytes and a file over the limit closes; its bytes are all that was written, and the other names are dropped. |
| Spool.SpooledNamespace.GetItem | sandtrap/process/spool.py:161-199 | A read gives what loading the bytes sent would have, now or again, and takes the file with it; a name never sent, a value that does not load and a closed directory each have their own answer. |
| Spool.SpooledNamespace.ReadAll | sandtrap/process/spool.py:161-199 | Reading any names in any order any number of times gives what the eager partition would. |
| Spool.SpooledNamespace.SizeOf | sandtrap/process/spool.py:156-159 | Sizes are known without reading. |
| Spool.SpooledNamespace.Has | sandtrap/process/spool.py:201-202 | So is membership. |
| Spool.SpooledNamespace.Finalize | sandtrap/process/spool.py:123-129 | After finalization none of its files remain, and no other file is touched. |
| Spool.SpooledNamespace.DirectoryRemoved | sandtrap/process/sandbox.py:1028-1032 | After the sandbox closed, what was read stays readable. |
| Prints.RenderPrint | sandtrap/prints.py:76-100 | A print makes one call for each value shown, at most `per_print` of them, and its text is the shown values and the marker within the budget. |
| Prints.CallsBounded | sandtrap/prints.py:84-96 | The bound on calls, for every renderer. |
| Prints.UncutExactly | sandtrap/prints.py:86-100 | For a renderer that keeps to its budget, the text is uncut exactly when a value is shown, nothing was printed or the bare marker fits. |
| Prints.ShownExactly | sandtrap/prints.py:83-96 | Each value shown is its rendering in the lesser of the share and the room left once those before it, a separator and the marker for those after it are in; the room is at least one, and eight after the first, and the first value not shown had less. |
| Prints.JoinAt | sandtrap/prints.py:100 | Each part stands at its place, in order, with one space between two. |
| Prints.RestCounted | sandtrap/prints.py:97-100 | The text has the values shown first and ends by counting the others. |
| Prints.PartsFit | sandtrap/prints.py:86-96 | What is shown leaves room for the marker that counts the rest. |
| Prints.MarkerInjective | sandtrap/prints.py:97-99 | The marker tells how many values are left out. |
| Prints.PrintRenderer.Append | sandtrap/prints.py:64-68 | All prints are counted and the first `limit` rendered. |
| RemoteFile.DroppedContent | sandtrap/fs/remote.py:384-412 | For every sequence of writes, truncates, flushes and closes and every refusal, a dropped file's content was pushed, or its failed save was raised, or it is reported once, unless the worker is shutting down or an error that is no `Exception` passes. |
| RemoteFile.ReportedExactly | sandtrap/fs/remote.py:346-412 | A report is made exactly when the file was left open, the push fails and the content was not raised before, or was and a truncate past its end came after. |
| RemoteFile.ReportedTwice | sandtrap/fs/remote.py:366-372 | The case of such a truncate. |
| RemoteFile.ToldMeans | sandtrap/fs/remote.py:346-360 | What the flag stands for, read from the history: a failed save with no change since. |
| RemoteFile.SavedMeans | sandtrap/fs/remote.py:351-382 | The parent has what the file held at the last explicit save that was taken. |
| RemoteFile.ContentMeans | sandtrap/fs/remote.py:366-372 | The file holds what its last change left. |
| RemoteFile.ClosedMeans | sandtrap/fs/remote.py:379-382 | A file is closed once a close has gone through, or any close of one that is not writable. |
| RemoteFile.FinalizerExactly | sandtrap/fs/remote.py:384-412 | The finalizer pushes exactly the content of an open file whose failed save was not raised, or was and a truncate past its end came after; an error that is no `Exception` comes out exactly when that push raises one. |
| RemoteFile.ReadOnlyQuiet | sandtrap/fs/remote.py:374-382 | A file not opened for writing is never pushed or reported. |
| RemoteFile.PushOnClose.WriteText | sandtrap/fs/remote.py:451-456 | Writing marks content that no failed save has reported. |
| RemoteFile.PushOnClose.TruncateTo | sandtrap/fs/remote.py:366-372 | Truncating, as the code compares sizes. |
| RemoteFile.PushOnClose.FlushNow | sandtrap/fs/remote.py:374-377 | A flush pushes, and a failed one is raised. |
| RemoteFile.PushOnClose.CloseNow | sandtrap/fs/remote.py:379-382 | A failed close leaves the file open. |
| RemoteFile.PushOnClose.Del | sandtrap/fs/remote.py:384-412 | The finalizer closes the file and says whether it reports. |
| LostWrites.EveryReportFromStart | sandtrap/lost_writes.py:67-84 | From the start, over every sequence of executions and losses, each report is in collectors and with the hook before together as often as it was made. |
| LostWrites.EveryReportOnce | sandtrap/lost_writes.py:67-84 | Over every sequence of executions and losses in any contexts, each report went to exactly one place: one collector, once, or the hook before. |
| LostWrites.EndedStays | sandtrap/lost_writes.py:54-58 | Once an execution has ended its losses stay as they are. |
| LostWrites.OwnInOrder | sandtrap/lost_writes.py:100-116 | A collector has the reports of its own context, in order, and no others. |
| LostWrites.RoutedExactly | sandtrap/lost_writes.py:67-84 | Every collector is open from the beginning to the end of its execution and holds exactly the reports made in its context in between, in order. |
| LostWrites.Settle | sandtrap/lost_writes.py:119-156 | The execution's losses, in order: the first is its error if it had none, and each other one note, or a line of stderr where the note is not shown. |
| LostWrites.AddNotes | sandtrap/lost_writes.py:139-155 | The loop adds one note for each loss in order, and one line of stderr where a note will not be seen. |
| LostWrites.LostWritesObject.TakeOffer | sandtrap/lost_writes.py:47-52 | A report is taken exactly while the collector is open, at the end of its list. |
| LostWrites.LostWritesObject.CloseAll | sandtrap/lost_writes.py:54-58 | After closing no report is taken, and the list returned is all that was. |
| Search.FindModuleFile | sandtrap/gates.py:306-344 | A hit is a match and no importable directory of less depth is one; nothing found with directories to spare means there is nothing; at most `max_dirs` are visited, on any directory graph. |
| Search.LookIn | sandtrap/gates.py:328-343 | One directory: whether it matches, and the importable directories in it. |
| Search.ReachableExactly | sandtrap/gates.py:333-343 | The directories looked in are those whose every name is listed, is an identifier, does not both start and end with two underscores, and leads to a directory. |
| Search.SuggestionLeadsBack | sandtrap/gates.py:528-547 | The dotted name offered for a hit under the root has a parent and maps back to that very file, and the resolver takes it there exactly when no package of that name stands beside it. |

## Left out

- A nested function sees its own variables and the globals, not those of the function around it.
- Lambdas, decorators, default arguments, classes, generators, `with`, async code, `del`, starred and subscript targets, annotated assignment, `nonlocal` and the redirect of `__import__`: outside the small Python. Lambda bodies get no checkpoint, and host code is not rewritten, so termination does not extend to them.
- Mutation of tree nodes in place: the rewriting gives new trees; the shared counter is modelled as a field.
- Temporaries are numbered in the order of the function table, where the code numbers them in the order of the text; only that the numbers differ is used.
- The rewriter does not look at the names of functions and parameters, so the theorems on meaning and on temporaries ask that those are not reserved, and the theorems on termination that they are not the checkpoint's.
- Python's recursion limit: calls may nest to any depth here.
- RewriterTheorems.MeaningPreserved: asks that the source result keeps to what the rewriter supports, which the evaluator records: object and value of a single attribute target commute, tuple values have the shape of their targets where an attribute is among them, `+=` on an attribute extends no list, and a bare `except:` is not left to catch an error that is no `Exception`. The `Exactly` lemmas of `RewriterLimits` and `Unpacking` are about these, one each, and `Steady` tells programs that meet them by their text.
- RewriterTheorems.MeaningPreservedWithoutLimits: asks the same of the source result.
- RewriterLimits.SingleTargetExactly: is about objects that are plain names; for any other object `ObjectFirstExactly` compares the two orders in the source.
- Unpacking.TupleTargetExactly: the attributes are of plain names, no tuple of targets is empty and the policy refuses nothing, since a refusal is no part of what Python does; the same holds of `EmitExactly` and `EmitNeverValueError`.
- Memory readings, the wall clock and the cancel flag inside a checkpoint are one arbitrary signal for each checkpoint.
- Loader bodies are imports, swallowed imports and raises; relative imports, `from` imports of members and the `main` proxy are not part of this model.
- Protocol: an RPC handler that itself calls `exec`, calls from several threads at once and a connection on which even the fallback error cannot be sent are outside.
- Protocol: messages carry a request number that the real ones do not; no step looks at it.
- Lifecycle: errors and interrupts are raised by the operations named in `Start` and `End`, not between any two statements; the spool directory is outside.
- Policy: attribute reads that execute code, member privileges themselves, functions, and the table of names allowed on unregistered objects, which is an arbitrary rule here.
- Policy.TraversalMatchesImport: include patterns are all "*" and nothing is configured; `ModuleMemberExactly` and `Decisions` share that.
- Spool: names of files are given, distinct and new; links and files that are not regular are outside, since only the worker writes to the directory.
- RemoteFile: where in the buffer a write lands is left to `io`; encoding errors are refused pushes.
- Search: names are compared as parts; a filesystem that is missing altogether gives no hit and is outside.
- Kernel isolation, platform dispatch, monkeypatched sockets and streams, the forkserver's broker, error messages and option validation: foreign calls or easy members.
