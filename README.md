# subproc — a Dafny model of the worker supervisor

`subproc` is a Go library for supervising workers: re-executed copies of the running program, each launched under a command name. This project models its core and proves properties of the model:

- the **manager** (`subProcManager`): a map from command name to the ordered list of workers started for it, with `Run`, `ParallelismRun`, `Kill`, `KillCmd`, `Killall`, `List` and `Stop`;
- the **worker** (`subproc`): it has an id, options, a status, a restart counter, a last error and a one-shot stop channel. The restart loop spawns the child again after every failure, waiting 2^restarts × 100ms, until an attempt succeeds, the worker is stopped, or the counter reaches `MaxInt32`;
- the **match options** (`MatchOptions`): a filter over id, command, status, error presence and match-all. It is a disjunction: one criterion is enough;
- the **command** (`Cmd`): `NewCmd` wires the options into the child's arguments, environment and stdio. `run` orders the pre-hook, the execution, the result decoding and the post-hook, and a deferred cleanup closes the result pipe and calls the final hook;
- the **command options** (`CmdOptions`): the defaults, then the functional options applied left to right, each writing one field.

The files are:

- `optional.dfy`: `Option`.
- `command_options.dfy`: module `CommandOptions`.
- `command.dfy`: module `Command`.
- `subproc.dfy`: module `Worker`.
- `match_options.dfy`: module `Matching`.
- `manager.dfy`: module `Manager`.

The manager and the worker are classes whose methods update fields in place. `Manager.SubProcManager.subprocs` is a `map<string, seq<Subproc>>`, and `done` is the closed flag. Each method's `ensures` ties the new map to a specification function of the old one, such as `Survivors`, `Killed` or `UuidSlot`. The class invariant `Valid` says that every worker sits under the command it was started for. Every public operation keeps it, and it is what `KillCmd` needs to leave other commands' lists untouched. Lemmas then state what those functions guarantee.

The worker's restart loop is `Worker.Subproc.Run`. It is proved against `Worker.Loop`, a function of a `Script`. A script gives the outcome of every attempt and at most one point where `Stop` is called. The stop channel is one-shot, so that one point covers every interleaving of a concurrent `Stop` with the loop. The ghost fields `history`, `waits` and `spawns` record what the loop did.

`(*Cmd).run` is `Command.Cmd.Run`. Its `World` input stands for everything the run cannot compute itself: opening the pipe, the result of each caller hook, the exec error, and what decoding the pipe gives. Its `events` trace records the hook calls, so properties such as "the final hook runs once, after both pipe ends are closed" become lemmas about `Command.RunSpec`.

Where the code and the design description disagree, the model follows the code:

- **A stopped worker still writes status.** The loop sets `Running` before the stop check inside `run` and `Exited` after it (subproc.go:84-88). A worker that is already stopped therefore goes `Running → Exited` and does not leave the loop without a transition.
- **Backoff timing.** The wait is computed from the counter before it is incremented (subproc.go:93), so the first wait is 100ms. The counter is only incremented by the loop's post-statement, so a stop during the wait leaves the counter unchanged (subproc.go:82, 94-96).
- **Pipe and final hook order.** The deferred closure closes both pipe ends and then calls `FinalHook` (command.go:48-55).
- **Which hooks `run` calls.** `run` calls `PreHook` and `PostHook`. The `StartBefore`/`StartAfter`/`WaitBefore`/`WaitAfter` hooks are stored but never called.
- **Extra files.** `run` replaces `ExtraFiles` with the pipe's writer alone (command.go:44-46). The caller's extra files are never appended.
- **Empty lists can stay in the map.** `ParallelismRun(0, cmd)` leaves `cmd` mapped to an empty list (subproc_manager.go:95). A later `kill` keeps such a key, so `Killall` and `Stop` can leave behind keys with empty lists. The map is empty afterwards only when no list was empty (`Manager.KillallEmpties`).
- **The manager's operations.** The manager has `Kill(ids)`, `KillCmd(cmds)` and `Killall()`. It has no kill, restart or list by predicate, no wait, and no "no such worker" error. `MatchOptions` is not used by the manager.
- **PreHook and PostHook.** `command.go` reads `PreHook`/`PostHook` fields, and `subproc_manager.go` calls a `PreHook` option. Neither is declared in `command_options.go`. The model adds both as options and fields, which are nil by default.
- **Hooks of supervised workers never run.** `subproc.run` calls the embedded `exec.Cmd`'s `Start` and `Wait` directly (subproc.go:58-77), not `(*Cmd).run`. The drain wrappers that `newSubProc` installs are therefore never called for a supervised worker. `Manager.SupervisedRunBalances` states what they would do on a run of `(*Cmd).run`.

## Model

| member | source | states |
|---|---|---|
| CommandOptions.Get | command_options.go:21-34 | reading a field yields an option that writes exactly that field |
| CommandOptions.Apply | command_options.go:46-116 | each setter stores its value in its own field, and every other field keeps its value |
| CommandOptions.LastFor | command_options.go:39-42 | the last option for a field, when there is one, writes that field and is one of the options given |
| CommandOptions.FieldsDetermine | command_options.go:21-34 | two bundles that agree on every field are equal |
| CommandOptions.LaterOptionOverrides | command_options.go:39-42 | of two options for the same field, the later one wins outright, whatever the earlier one stored |
| CommandOptions.LastOptionWins | command_options.go:39-42 | after applying the options, each field holds what the last option for it stored, or its starting value |
| CommandOptions.UntouchedFieldKeepsStart | command_options.go:39-42 | options that never write a field leave it at its starting value (the defaults are only copied) |
| CommandOptions.ApplyAllAppend | command_options.go:39-42 | applying `a + b` is applying `a`, then `b` on the result |
| CommandOptions.ApplyAllSnoc | command_options.go:39-42 | one more option is one more application, at the end |
| CommandOptions.TrailingHooksWin | command_options.go:39-42 | a pre-hook and a final-hook option appended last are the hooks the bundle ends up with, and the post-hook is untouched |
| CommandOptions.Build | command_options.go:39-42 | the loop over the options computes the left fold of the setters from the starting bundle |
| CommandOptions.NewCmdOption | command_options.go:38-44 | the result is the defaults with the options folded in; every field is the last option's value or the default's |
| Command.IndexOfComma | command.go:67-72 | the index of the first comma in a string, or its length when there is none |
| Command.IndexOfCommaAt | command.go:67-72 | in `a + b`, with no comma in `a` and `b` empty or starting with a comma, the first comma is at the length of `a` |
| Command.ParseSplitsAtFirstComma | command.go:67-72 | reading a composed error splits it at the first comma after the "Command Error: " prefix |
| Command.ReadDetailInvertsDetailText | command.go:65-72 | the text after the exec error reads back as the decoding's detail: the decode failure, the reported message, or none |
| Command.ParseInvertsCommandError | command.go:63-72 | for an exec error without a comma, the composed error determines both the exec error and the detail. The three shapes are "…, Failed to get result: …", "…, Message: …" and the bare "Command Error: …" |
| Command.FinalCallsAppend | command.go:48-55 | final-hook calls in a concatenated trace add up |
| Command.NoFinalCallInHooks | command.go:57-78 | calling a pre- or post-hook never calls the final hook |
| Command.NoFinalCallInFinalizers | command.go:52-54 | what the final hook does is not itself a final-hook call |
| Command.NoFinalCallsCounted | command.go:48-55 | a trace without final-hook calls counts zero |
| Command.BodyHasNoFinalCall | command.go:57-78 | before the deferred cleanup, `run` never calls the final hook |
| Command.OnlyFinalCallAt | command.go:48-55 | a trace with one final-hook call between call-free parts counts one, at that position only |
| Command.FinalHookOnce | command.go:48-55 | once the pipe is open, a set final hook is called exactly once and a nil one never. The call gets the error `run` returns and comes right after the writer, then the reader, end of the pipe is closed |
| Command.PipeFailureReturnsAtOnce | command.go:39-42 | when `os.Pipe` fails, `run` returns that error and does nothing else: no hook, no execution, no cleanup |
| Command.PreHookFailureSkipsExecution | command.go:57-61 | a failing pre-hook's error is returned and the command is never executed |
| Command.ExecutionNotInHooks | command.go:57-78 | hooks neither execute the command nor decode the pipe |
| Command.ExecutionNotInFinalizers | command.go:52-54 | nor does the final hook |
| Command.FailedChildComposesError | command.go:63-73 | a passing pre-hook and a failing child return the composed command error. The pipe is decoded and the post-hook is not called |
| Command.SucceededChildRunsPostHook | command.go:75-78 | a passing pre-hook and a child that exits 0 return the post-hook's error, or nil without one. The command was executed and the pipe is not decoded |
| Command.NotPostInHooks | command.go:57-61 | the pre-hook does not call the post-hook |
| Command.PostNotInHook | command.go:57-61 | no hook's events contain a post-hook call |
| Command.PostNotInFinalizer | command.go:52-54 | the final hook's events contain no post-hook call |
| Command.NotPostInCleanup | command.go:48-55 | the deferred cleanup calls no post-hook |
| Command.DrainBalanceAppend | subproc_manager.go:53-65 | the drain count of a concatenated trace is the sum of its parts' counts |
| Command.HookBalance | subproc_manager.go:53-59 | the manager's pre-hook wrapper joins the drain group once; a caller's hook does not touch it |
| Command.FinalizerBalance | subproc_manager.go:60-65 | the manager's final-hook wrapper leaves the drain group once; a caller's final hook does not touch it |
| Command.BodySplitsAtPreHook | command.go:57-78 | with a pre-hook, the body's trace is the pre-hook call and its events, then what follows it |
| Command.AfterPreHookIsQuiet | command.go:63-78 | after the pre-hook, the body neither joins nor leaves the drain group |
| Command.BodyJoinsOnce | command.go:57-78 | with the manager's pre-hook wrapper, the body joins the drain group once on every path |
| Command.CleanupLeavesOnce | command.go:48-55 | with the manager's final-hook wrapper, the cleanup leaves the drain group once |
| Command.DrainBalanced | command.go:38-79 | with the wrappers installed once, every path through `run` leaves the drain group as often as it joins it |
| Command.Cmd.constructor | command.go:22-25 | `reexec.Command(args...)` keeps the argument list and the options, with empty env, stdio, extra files and trace |
| Command.Cmd.Run | command.go:38-79 | the error and the trace are those of `RunSpec`. Once the pipe is open, the writer is the only extra file, and the cleanup runs on every return with the error the body settled on |
| Command.Cmd.Guarded | command.go:57-78 | each return path of the body sets the named result and the trace as `Body` says: a failing pre-hook, a failing child with the composed error, or the post-hook's result |
| Command.NewCmd | command.go:16-32 | the options are the defaults with the caller's options folded in, and the argument list is `[cmdStr]` followed by the options' arguments. Env and stdio are copied from the options, and nothing has run yet |
| Worker.Pow2 | subproc.go:93 | a power of two is at least 1 |
| Worker.Backoff | subproc.go:93 | every backoff wait is at least 100ms |
| Worker.BackoffDoubles | subproc.go:93 | the wait starts at 100ms and doubles with each restart |
| Worker.LoopUnfolds | subproc.go:82-101 | one unfolding of the restart loop: a round that fails and is not stopped is followed by the rest of the loop, and any other round ends it |
| Worker.TracksAdvance | subproc.go:82-101 | recording one round keeps the recorded prefix and the remaining loop equal to the whole run |
| Worker.TracksAtExit | subproc.go:82 | when the counter reaches `MaxInt32`, the recorded prefix is the whole run |
| Worker.LoopSettles | subproc.go:82-101 | the loop ends either in `Exited` with no error, or in `CrashLoopBackOff` with the last error after a stop during the wait or with the counter at `MaxInt32`. The counter only grows and never passes `MaxInt32` |
| Worker.LoopWaits | subproc.go:93-99 | the i-th wait is the backoff for counter value `restarts + i`, with one wait per increment plus the wait a stop interrupted |
| Worker.LoopWhenStopped | subproc.go:53-88 | a worker that is already stopped starts no child and writes `Running` then `Exited`, with no error and the counter untouched |
| Worker.NoAttemptAfterStop | subproc.go:87-96 | once `Stop` is called in round `j`, no later round begins: the counter grows by at most `j - k`, and at most one child per round is started |
| Worker.LoopExhausts | subproc.go:82 | never stopped and always failing, the loop ends only when the counter reaches `MaxInt32`, after `MaxInt32 - restarts` children, in `CrashLoopBackOff` |
| Worker.LoopHistoryLegal | subproc.go:81-102 | from `Creating` or `CrashLoopBackOff`, the loop writes the status only along Creating→Running→Exited→CrashLoopBackOff→Running |
| Worker.LoopEndsOnLastWrite | subproc.go:81-102 | the loop's last status write is the status it ends in |
| Worker.RoundLegal | subproc.go:83-91 | one round writes a legal history ending in the status it leaves; a round that goes on writes Running, Exited, CrashLoopBackOff |
| Worker.LegalAppend | subproc.go:81-102 | two legal histories joined by a legal write form a legal history |
| Worker.FirstAttemptSucceeds | subproc.go:81-89 | a fresh worker whose first child exits cleanly ends `Exited` after one attempt, with no error and no restart |
| Worker.StoppedDuringFourthBackoff | subproc.go:81-99 | a fresh worker that always fails and is stopped during its fourth wait makes four attempts and waits 100, 200, 400 and 800ms. It ends in `CrashLoopBackOff` with the counter at 3 and the last error |
| Worker.SecondToFourthRounds | subproc.go:81-99 | the same run from its second round: three more failures, the last one stopped during its wait |
| Worker.ThirdAndFourthRounds | subproc.go:81-99 | the same run from its third round |
| Worker.FourthRound | subproc.go:90-96 | the same run's fourth round: it fails and is stopped while waiting 800ms |
| Worker.FailedRoundGoesOn | subproc.go:82-99 | a failing, unstopped round records the error, writes `CrashLoopBackOff`, waits `Backoff(restarts)`, increments the counter by one and goes on |
| Worker.Subproc.constructor | subproc.go:41-51 | a new worker has the id `cmd + "-" + uuid`, status `Creating`, no restarts, no error, and is not stopped |
| Worker.Subproc.Stop | subproc.go:104-110 | after `Stop` the stop channel is closed, and nothing but that flag changes; on a closed channel the call is a no-op |
| Worker.Subproc.Options | subproc.go:125-131 | the worker's options applied to Go's zero `CmdOptions` |
| Worker.Subproc.Attempt | subproc.go:53-79 | a stopped worker returns nil without starting a child; otherwise one child is started and its outcome is returned |
| Worker.Subproc.RunRound | subproc.go:82-99 | one pass of the loop body moves the fields and the records exactly as `Round` says, and reports whether the loop returned |
| Worker.Subproc.Advance | subproc.go:82-101 | after each round, the records and the remaining loop still add up to the whole run |
| Worker.Subproc.Run | subproc.go:81-102 | the loop leaves the fields as `Loop` ends them and appends its status writes, waits and children to the records |
| Matching.Apply | subproc_manager_options.go:22-50 | each `With*` option overwrites its own field only; `WithMatchAll` sets the flag |
| Matching.NewMatchOptions | subproc_manager_options.go:13-20 | the zero options with the options folded in; with none, the zero options |
| Matching.LastIDsWin | subproc_manager_options.go:15-26 | a later `WithIDs` replaces the list an earlier one set instead of extending it |
| Matching.LastCmdsWin | subproc_manager_options.go:15-32 | the same for `WithCmds` |
| Matching.IDsUntouched | subproc_manager_options.go:15-17 | without a `WithIDs`, the ids stay as they started |
| Matching.StringInSlice | subproc_manager_options.go:75-82 | true exactly when the string occurs in the slice |
| Matching.Matches | subproc_manager_options.go:52-73 | matching a live worker through its getters gives `Match` on its view |
| Matching.MatchIsDisjunction | subproc_manager_options.go:52-73 | `Match` holds exactly when the worker meets at least one criterion that is set (both directions) |
| Matching.MatchMonotonic | subproc_manager_options.go:52-73 | setting more criteria can only enlarge the set of matched workers |
| Matching.AddingCriteriaEnlarges | subproc_manager_options.go:22-50 | `WithMatchAll`, `WithHasError(true)`, and a `WithIDs` or `WithCmds` that keeps the old entries, lose no match |
| Matching.NoErrorFlagAddsNothing | subproc_manager_options.go:40-44 | `WithHasError(false)` never makes a worker match |
| Matching.MatchAllAndNothing | subproc_manager_options.go:13-73 | with `WithMatchAll` every worker matches; with no option none does |
| Matching.MatchAllSticks | subproc_manager_options.go:46-50 | once set, no later option clears `MatchAll` |
| Manager.Lookup | subproc_manager.go:84 | reading a missing key gives the nil slice |
| Manager.Supervised | subproc_manager.go:51-66 | `newSubProc` keeps the caller's options and appends exactly two: the pre-hook and final-hook wrappers |
| Manager.CallerHooksStayUnwrapped | subproc_manager.go:46-49 | options a caller writes never produce the manager's wrappers |
| Manager.SupervisedHooks | subproc_manager.go:51-66 | the supervised bundle's pre-hook and final hook are the wrappers around the caller's own hooks, and its post-hook is the caller's |
| Manager.SupervisedRunBalances | subproc_manager.go:51-66 | one run of `(*Cmd).run` with a supervised worker's options leaves the drain group as often as it joins it, on every path |
| Manager.IdsDistinguishWorkers | subproc_manager.go:68 | with uuids of one length, two ids are equal exactly when both the commands and the uuids are |
| Manager.Survivors | subproc_manager.go:121-128 | the survivors are exactly the workers the closure rejects, and no longer than the list |
| Manager.SurvivorsAppend | subproc_manager.go:121-128 | survivors of a concatenation are the survivors of each part, in order |
| Manager.SurvivorsExtremes | subproc_manager.go:121-128 | a list with no matching worker survives whole; a list whose every worker matches is emptied |
| Manager.KilledOn | subproc_manager.go:121-137 | keys not yet swept keep their lists, and no key is added |
| Manager.KilledKeepsSurvivors | subproc_manager.go:117-137 | after `kill`, a key stays exactly when its list was empty or had a worker not matched, and it keeps exactly those workers, in order |
| Manager.KilledLeavesUnmatched | subproc_manager.go:117-137 | a command none of whose workers match keeps its list |
| Manager.KillallEmpties | subproc_manager.go:161-165 | `Killall` leaves only the keys that were mapped to empty lists, and an empty map when there were none |
| Manager.KillCmdDropsCommands | subproc_manager.go:150-159 | on a map keyed by command, `KillCmd` drops the listed commands that had workers and leaves every other list unchanged |
| Manager.KilledKeepsInvariants | subproc_manager.go:131-137 | `kill` preserves the invariants that no list is empty and that every worker sits under its own command |
| Manager.Min | subproc_manager.go:110-115 | `min` is one of its arguments and no larger than either |
| Manager.SubProcManager.constructor | subproc_manager.go:25-31 | a new manager is open and empty, and satisfies the invariant `Valid` (every worker sits under its own command) |
| Manager.SubProcManager.NewWorker | subproc_manager.go:45-73 | `newSubProc`, collection effect: a fresh, unstarted worker with the command, the supervised options and the next uuid |
| Manager.SubProcManager.Run | subproc_manager.go:33-43 | a closed manager returns the closed error and changes nothing. Otherwise exactly one fresh worker is appended to the command's list, and no other key or slot changes. It keeps the invariant |
| Manager.SubProcManager.ParallelismRun | subproc_manager.go:75-108 | closed: an error and no change. Negative size: a slicing panic and no change. Otherwise the list has exactly `parallelism` workers, each fresh, with the uuid `UuidSlot` assigns, and no other key changes. The old workers are stopped and nothing else is. It keeps the invariant |
| Manager.SubProcManager.ScaleUp | subproc_manager.go:86-106 | growth then reload: the new tail's uuids are minted first, every old slot gets a fresh worker, and every old worker is stopped |
| Manager.SubProcManager.ReloadGrown | subproc_manager.go:101-106 | the reload after growing: the old slots at the front get fresh workers with consecutive uuids and their old workers are stopped, while the grown tail is kept |
| Manager.SubProcManager.ScaleDown | subproc_manager.go:93-106 | shrink then reload: `size` fresh workers in order, and every old worker stopped, whether truncated or replaced |
| Manager.SubProcManager.Grow | subproc_manager.go:86-91 | `delta` fresh workers appended after the old list, with consecutive uuids |
| Manager.SubProcManager.Shrink | subproc_manager.go:93-99 | the list is cut to its first `size` workers, and every truncated worker is stopped |
| Manager.SubProcManager.Reload | subproc_manager.go:101-106 | each of the first `n` slots holds a fresh worker with consecutive uuids and the worker it held before is stopped; later slots are untouched |
| Manager.SubProcManager.Reseat | subproc_manager.go:103-105 | one reload step: the worker in slot `i` is stopped and replaced by a fresh one |
| Manager.SubProcManager.Remove | subproc_manager.go:131-137 | the worker at `i` is stopped and spliced out, and the key is deleted once its list is empty |
| Manager.SubProcManager.Sweep | subproc_manager.go:122-127 | the reverse walk over one list keeps exactly its unmatched workers in order, and stops exactly the matched ones |
| Manager.SubProcManager.Visit | subproc_manager.go:123-126 | one step of that walk keeps the map equal to the unvisited prefix followed by the survivors |
| Manager.SubProcManager.KillMatching | subproc_manager.go:117-129 | `kill` leaves the map `Killed` describes, and a worker is stopped afterwards exactly when it was already stopped or it matched |
| Manager.SubProcManager.SweepKey | subproc_manager.go:121-128 | one key of `kill`'s outer loop moves from untouched to swept |
| Manager.SubProcManager.Kill | subproc_manager.go:139-148 | removes and stops exactly the workers whose id is listed. It keeps the invariant |
| Manager.SubProcManager.KillCmd | subproc_manager.go:150-159 | removes and stops exactly the workers whose command is listed; every other command's list stays as it was, and a listed command keeps its key only if its list was already empty. It keeps the invariant |
| Manager.SubProcManager.Killall | subproc_manager.go:161-165 | removes and stops every worker. It keeps the invariant |
| Manager.SubProcManager.List | subproc_manager.go:167-175 | returns a map with the same keys and lists, and changes nothing |
| Manager.SubProcManager.Stop | subproc_manager.go:177-187 | the first call closes the manager and kills every worker; a later call changes nothing, and the manager stays closed. It keeps the invariant |
| Manager.KeysOf | subproc_manager.go:170-172 | the copy built so far holds exactly the keys visited, with their lists |
| Manager.SweepAdvances | subproc_manager.go:124-137 | visiting index `i` of the map removes the worker there when it matches, dropping the key when its list empties |
| Manager.SweepEnds | subproc_manager.go:121-128 | after the last index, the map holds the survivors, or lacks the key when a non-empty list lost every worker |
| Manager.KilledOnStep | subproc_manager.go:121-128 | sweeping one more key replaces its list by its survivors, or drops it when they are none |

## Left out

- Concurrency is not modelled. This covers `go sp.Run()`, the `sync.RWMutex`, the signal-forwarding watcher goroutine and `time.After`. Operations run one at a time, the stop channel is a boolean, and a concurrent `Stop` during a worker's loop is placed by `Worker.Script`.
- The `WaitGroup` is not modelled as a counter. The drain group appears only as `DrainJoined`/`DrainLeft` events in `(*Cmd).run`'s trace. `Stop`'s `wg.Wait` is a call that the model does not make.
- Starting the worker's loop in `newSubProc` is not modelled. `Manager.SubProcManager.NewWorker` returns the worker unstarted. The loop is `Worker.Subproc.Run`, on its own.
- Processes, `os.Pipe`, `reexec` and decoding the result pipe are inputs (`Command.World`), and so is the outcome of each child in `Worker.Script`. `command_result.go`, `export.go` and `subproc_options.go` are not part of this model.
- uuid generation is the manager's `uuid` oracle, handed out by a counter. Distinct uuids of one length, as uuid strings are, give distinct ids (`Manager.IdsDistinguishWorkers`).
- Worker.Backoff: is the unbounded integer 2^n·100 ms. Go's int64 `Duration` product `time.Duration(2^n) * 100 * time.Millisecond` (subproc.go:93) wraps from restarts = 37 on, which is not modelled. At 37 the wait comes out negative, so `time.After` fires at once.
- Worker.BackoffDoubles: holds for Go's `Duration` only up to restarts = 36, for the int64 wrap-around above. The float `math.Pow` conversion itself is exact there.
- Worker.Subproc.Attempt: of `run`, models only the stop check and the child's outcome. Building the `Cmd` and forwarding the interrupt signal are not modelled.
- The getters `ID`, `Cmd`, `Status`, `Restarts` and `Error` are plain field reads of `Worker.Subproc`.
- Slices are values (`seq`), so the aliasing of slice backing arrays is not modelled. In Go, `remove`'s `append(l[:i], l[i+1:]...)` and the list `List` hands out share memory with the manager's list.
- `Response`, `ExtraFiles` and the four start/wait hooks are stored options that `run` never reads.
- Command.NewCmd: `environment` is a `seq<string>`, so Go's nil slice and an empty slice are both `[]`. For `exec.Cmd` they differ: a nil `Env`, the default, makes the child inherit the parent's environment, and an empty one gives it none. The model does not distinguish them.
- Command.FailedChildComposesError: describes only runs that return. The parent keeps its own copy of the pipe's writer open until the deferred closure (command.go:44-55), and `exec.Cmd` does not close `ExtraFiles`. A child that exits non-zero without writing a result therefore leaves `getResult` (command.go:65) blocked in `Decode` forever. This happens when the child is killed by a signal, or exits before reporting. `Command.World.decoding` is always a returned value, so that hang is not modelled.
- Command.FinalHookOnce: for the same reason, it holds only for runs that return. In the hang above, the deferred closure never runs and the final hook is never called.
- Manager.SubProcManager.ParallelismRun: does not say the new workers are unstarted, only what they were configured with, their uuids and that they are fresh.
