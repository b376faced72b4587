# Ulauncher in Dafny

A model of the parts of the launcher whose behaviour is decided by order and timing: the life of
extension processes, the conversation with them, the calculator, the timers and lookups behind the
search window, and a few small algorithms with exact specifications. The methods have the form of
the program (classes whose methods change fields, loops, re-entrant calls); each is proved against
a value-level description of its effect, and the properties are proved of that description for
every input, every interleaving or every run.

Check the whole project with `dafny verify dfyconfig.toml` (Dafny 4.11).

## Files

| file | what it models |
|---|---|
| `ServiceMonitor.dfy` | a monitor over the history of an extension service: queues, holders, stop callbacks, live processes, stop requests, causes of exits and recorded failures; what every accepted history satisfies |
| `ServiceWorld.dfy` | the service state as one value, its invariants, and its elementary changes, each proved to keep them |
| `ExtensionService.dfy` | the service itself: mutually recursive methods with all their re-entrancy, the outside events, whole runs |
| `ExtensionRuntime.dfy` | one extension process: exit reported once, output passed on line by line |
| `Calculator.dfy`, `CalculatorRoundTrip.dfy`, `CalculatorNotation.dfy`, `CalculatorEvaluator.dfy` | tokens, trees, arithmetic, parser and minimal printer; the round trip; implicit products, unary plus and functions without parentheses, which the printer never prints; the fused evaluator over one moving cursor |
| `ResultBuffer.dfy`, `ExtensionApi.dfy`, `Launcher.dfy`, `StreamingRun.dfy`, `LoadingWaits.dfy`, `StreamingExamples.dfy` | the throttle buffer; the extension process with its threads and idle queue; core and extension mode; whole runs of all of them; waiting for a stopped extension; concrete surprises |
| `EventLoop.dfy`, `Scheduling.dfy` | the timer loop with entries made by several threads; contexts |
| `Lookups.dfy`, `CachedLookups.dfy`, `Repaint.dfy` | keyed lookups (paths, commands), cached lookups (recent files, bookmarks), coalesced repaints |
| `AppRankings.dfy` | the decaying launch scores |
| `Framing.dfy` | newline framing over partial writes and arbitrary reads |
| `Paths.dfy`, `FileUris.dfy` | path normalisation; file URIs over bytes |
| `Selection.dfy`, `ScreenTime.dfy`, `Install.dfy`, `Keywords.dfy` | row selection; time in the active state; installing with steps that fail; the keyword index |
| `Prelude.dfy` | `Option` |

## What holds, and where the code does less than one would expect

- Convergence holds of every run: an id with nothing in flight runs exactly the copy that resolves
  and is enabled. The one exemption is an id whose files another program changed and about which
  the service has not been told. It is also reached: finishing what an id waits for, whatever the
  outcomes, takes finitely many steps (`Settle`).
- An error is stored for an extension, or its preview given up, only right after a process of it
  ended that nobody had asked to end, or could not be started (`BlamedForFault`, `StoppedIffAsked`,
  `Run`). So a reload of an extension that should run ends with a new process of it, unless one of
  these happens meanwhile or a job changes its directory (`ReloadAndSettle`). A process that had
  already died unnoticed when it was asked to stop counts as crashed.
- A response reaches the callback only if it answers the newest request of the active extension.
  It belongs to the newest query or activation exactly when that one sent a request: a query that
  waits for a stopped extension, or finds none, leaves the request before it current, so a late
  answer to that request is shown as the answer to the new query (`AnswerBelongsIffAsked`).
- `_handle_response` drops the callback after calling it. If the effect sets a query that sends a
  request synchronously, the callback of that request is the one dropped, and the request is never
  answered (`CallbackArmedIffNotNested`, `UnarmedIsNeverAnswered`).
- The end of a loading wait clears whatever callback is set, also that of an activation sent
  meanwhile (`WaitEndsActivation`), and exactly such a request can be ended that way
  (`TimeoutEndsIffSentInWait`).
- A lookup's waiter has a completion coming exactly if the deferred completion of its load did not
  raise, as a look at a path without permission may. After that nobody wakes it, and a cache stays
  loading until it is invalidated or flushed.
- Collapsing and expanding a path returns it exactly if it is the home directory itself or does
  not end in white space, which expanding strips.
- The migration of launch counts says that the implied number of launches is recovered. It is
  three too low, and right only when there was no launch.
- A screen-time history is read without a check that its states chain. Time is counted twice
  exactly if the active state ends twice in a row, the first time after the start of the day and
  after its last start (`CountedRightIff`).
- A callback scheduled from another thread can fire before its loop handle is known. It still runs
  at most as often as it should, but the handle is then left uncancelled (`HandleFollowsIff`).
- The calculator's grammar has no tokens for a modulo whose right operand begins with a sign, a
  parenthesis or a name: `5 % -3` reads as `5%` minus `3`. The trees that can be written are
  characterised exactly.
- The end of an extension process is noticed once its connection or both its output streams are
  gone, and not before, even if it is dead.

## Model

| member | source | states |
|---|---|---|
| `ServiceWorld.Converged` | ulauncher/modes/extensions/extension_service.py:142-156 | In every state satisfying the service invariant, an id with no job active or queued, no stop in flight and no dispatch on the stack has a runtime if and only if its record resolves (preview first) and is enabled, and that process was spawned from exactly the copy that resolves now |
| `ServiceWorld.ExclusiveProcess` | ulauncher/modes/extensions/extension_service.py:282-329 | At all times a process of an id is live if and only if its runtime is set or a stop is in flight, and there is never a second one |
| `ServiceWorld.NoDeadlock` | ulauncher/modes/extensions/extension_service.py:163-201 | Whatever an id still has in flight, an outside event is due that moves it on: its job is working outside, or the process it waits for is still live |
| `ServiceMonitor.JobsNeverOverlap` | ulauncher/modes/extensions/extension_service.py:163-201 | Between two jobs of one id taking it, the first has released it |
| `ServiceMonitor.NoSpawnWhileHeld` | ulauncher/modes/extensions/extension_service.py:282-292 | No process of an id is spawned between a job taking the id and releasing it |
| `ServiceMonitor.OneProcessPerId` | ulauncher/modes/extensions/extension_service.py:282-294 | Two live processes of the same id are the same process |
| `ServiceMonitor.DirectoryFreeUntilEnded` | ulauncher/modes/extensions/extension_service.py:376-387 | From the stop callback of a job until its release, no live process of the id runs from the installed directory |
| `ServiceMonitor.JobsStartInOrder` | ulauncher/modes/extensions/extension_service.py:158-178 | The jobs that took an id, followed by those still queued, are the jobs that were queued, in order: first in, first out, none skipped |
| `ServiceMonitor.QueuedOnce` | ulauncher/modes/extensions/extension_service.py:158-161 | No job is in the queue history twice, so with the first-in-first-out order each starts at most once |
| `ServiceMonitor.ToldOnce` | ulauncher/modes/extensions/extension_service.py:360-374 | A stop callback runs at most once |
| `ServiceMonitor.ToldBeforeEnded` | ulauncher/modes/extensions/extension_service.py:360-374 | A job that asked to be told of the end of a process is told before it releases |
| `ServiceMonitor.StoppedIffAsked` | ulauncher/modes/extensions/extension_runtime.py:118-131 | In every accepted history a process ended as stopped if and only if it had been asked to end while alive; any other end is a crash |
| `ServiceMonitor.BlamedForFault` | ulauncher/modes/extensions/extension_service.py:296-314 | In every accepted history a failure is recorded for an id (its error stored, or its preview given up) only right after one of its processes ended that nobody had asked to end, or could not be started |
| `ExtensionService.Run` | ulauncher/modes/extensions/extension_service.py:88-130 | From an empty service over any disk, every sequence of toggles, job requests, reloads, previews, process deaths and exits, job completions, late releases and foreign disk changes ends in a history the monitor accepts and in convergence for every quiet id; an error stored at the end was there at the start, came from another program, or is recorded in the history |
| `ExtensionService.Service.Settle` | ulauncher/modes/extensions/extension_service.py:163-201 | Liveness: from any state of the invariant, finishing the outside steps an id waits for, however each turns out, ends after finitely many with nothing in flight and the id converged |
| `ExtensionService.Service.ReloadAndSettle` | ulauncher/modes/extensions/extension_service.py:412-425 | A reload of an id that should run, whatever is in flight for it, ends after finitely many outside steps with exactly the copy running that resolved at the reload, unless meanwhile a process of it crashed or could not be started, or a job changed its directory; and what runs then was started after the reload |
| `ExtensionService.Service.Perform` | ulauncher/modes/extensions/extension_service.py:88-130 | Every outside action has its effect (flag stored, job queued, exit recorded, preview replaced or ended, ...) and keeps the invariant; one that is not possible changes nothing |
| `ExtensionService.Service.BeginStop` | ulauncher/modes/extensions/extension_service.py:361-368 | The runtime becomes a stop in flight with at most the one callback, which waits for exactly the process that was running |
| `ExtensionService.Service.AfterProcess` | ulauncher/modes/extensions/extension_service.py:319-329 | The stop callbacks run once each; the id is reconciled after a stop and left alone after an error |
| `ExtensionService.Service.constructor` | ulauncher/modes/extensions/extension_service.py:116-129 | A new service has nothing in flight and satisfies the invariant over any disk |
| `ExtensionService.Service.ReleaseJob` | ulauncher/modes/extensions/extension_service.py:187-193 | The first release ends the job, lets the rest of the queue run and leaves the id settled with less work; a repeated release changes nothing |
| `ExtensionService.Service.RunNextJob` | ulauncher/modes/extensions/extension_service.py:163-180 | Running the queue leaves the id settled (reconciled when it drained); a nested call while the queue is being drained, or while a job is active, does nothing |
| `ExtensionService.Service.RunQueue` | ulauncher/modes/extensions/extension_service.py:163-177 | While it owns the queue, jobs are run until one stays in flight or the queue is empty; with a job already in flight nothing changes |
| `ExtensionService.Service.DrainQueue` | ulauncher/modes/extensions/extension_service.py:171-178 | The loop ends with a job in flight or an empty queue, has only moved the queue on, and works off what was queued meanwhile |
| `ExtensionService.Service.StartNextJob` | ulauncher/modes/extensions/extension_service.py:182-201 | The oldest queued job takes the id next; what it does leaves the id settled and the queue shorter |
| `ExtensionService.Service.RunJob` | ulauncher/modes/extensions/extension_service.py:203-260 | Whatever the job is and however it fails, the id is left settled: released, waiting for a stop, or working outside; after a restart the process that ran before does not run any more |
| `ExtensionService.Service.Stop` | ulauncher/modes/extensions/extension_service.py:360-374 | A stop with a callback leaves the callback either run or waiting for the live process, and no process that ran before is the runtime afterwards; without a process it runs at once and the job has released on return |
| `ExtensionService.Service.JoinStop` | ulauncher/modes/extensions/extension_service.py:360-374 | A stop while another is in flight only adds its callback to that one |
| `ExtensionService.Service.StopRuntime` | ulauncher/modes/extensions/extension_runtime.py:118-137 | A process that is dead already is left alone, to be reported as a crash later; a live one is asked to end as the next event, which makes its exit a stop, and may already be noticed before this returns; either way the id is settled or waits |
| `ExtensionService.Service.AskToEnd` | ulauncher/modes/extensions/extension_runtime.py:118-131 | A live process is asked to end as the next event, and the id is settled or waits for its exit |
| `ExtensionService.Service.StopExtension` | ulauncher/modes/extensions/extension_service.py:376-387 | A file job stops the installed copy and waits for it; a preview running instead survives and the callback runs at once |
| `ExtensionService.Service.TellAtOnce` | ulauncher/modes/extensions/extension_service.py:360-387 | With nothing to wait for the callback runs at once, and what it leaves behind is recorded in order: asked, told, (directory changed,) released |
| `ExtensionService.Service.FireCallback` | ulauncher/modes/extensions/extension_service.py:315-320 | A stop callback runs while no process runs from the directory, changes the directory if its job is a file job, and releases |
| `ExtensionService.Service.TellJob` | ulauncher/modes/extensions/extension_service.py:315-320 | The job is told, and if it is a file job then changes the directory; in the history these are the next events and nothing else happens |
| `ExtensionService.Service.SwapDirectory` | ulauncher/modes/extensions/extension_registry.py:32-60 | The directory changes only in the hands of the job that was told, while it is free of processes; nothing else of the id changes, and no error is stored |
| `ExtensionService.Service.Reconcile` | ulauncher/modes/extensions/extension_service.py:142-156 | The id is brought to run exactly what should run, unless a job or stop in flight will do so, in which case nothing changes |
| `ExtensionService.Service.StartExtension` | ulauncher/modes/extensions/extension_service.py:282-294 | A stored error is cleared; a process is started only if none runs, stops or is held by a job, and the id is settled |
| `ExtensionService.Service.Launch` | ulauncher/modes/extensions/extension_service.py:299-358 | However launching fails, the failure is handled like an exit and the id is settled |
| `ExtensionService.Service.LaunchFree` | ulauncher/modes/extensions/extension_service.py:282-358 | An id that nothing holds is launched from the record just resolved, and is no longer exempt from convergence |
| `ExtensionService.Service.ExitHandler` | ulauncher/modes/extensions/extension_service.py:296-329 | After an exit or a failed start the id is settled, its stop callbacks have run, and the exit is recorded first, with its cause |
| `ExtensionService.Service.EndProcess` | ulauncher/modes/extensions/extension_service.py:296-320 | The bookkeeping up to the stop callbacks: the process is gone, its error is recorded, the callbacks are taken out once, and they may run because the directory is free |
| `ExtensionService.Service.TakeCallbacks` | ulauncher/modes/extensions/extension_service.py:315-320 | The callbacks are taken into a fresh list before any is run, so none can run twice |
| `ExtensionService.Service.SaveError` | ulauncher/modes/extensions/extension_service.py:304-314 | Right after a crash or a failed start the failure is recorded, and an error stored with the installed copy; a failed preview is given up and a restart queued behind whatever is busy |
| `ExtensionService.Service.DropPreview` | ulauncher/modes/extensions/extension_service.py:304-314 | A preview that failed is no longer the preview, and a restart of its id is queued; the installed copy gets no error |
| `ExtensionService.Service.EnqueueJob` | ulauncher/modes/extensions/extension_service.py:158-161 | A job is appended with the next serial, and runs at once unless the id is busy, in which case nothing else changes |
| `ExtensionService.Service.StopPreview` | ulauncher/modes/extensions/extension_service.py:470-485 | Without a preview nothing happens; otherwise it is given up and a restart of its id is queued |
| `ExtensionService.Service.ToggleEnabled` | ulauncher/modes/extensions/extension_service.py:208-210 | The flag is stored and a stored error dropped; if a job or a stop is in flight nothing else changes, else the id is reconciled; the flag stays as stored unless a job changed the directory meanwhile |
| `ExtensionService.Service.RequestJob` | ulauncher/modes/extensions/extension_service.py:212-248 | An install, update or uninstall joins the queue of its id as the next event |
| `ExtensionService.Service.ProcessExit` | ulauncher/modes/extensions/extension_service.py:296-329 | The exit is the next event, as a stop exactly if the process had been asked to end and as a crash otherwise; the invariant is kept, a job that waited for it can finish, and no error is stored, for any id, that is not recorded in the history |
| `ExtensionService.Service.ProcessDies` | ulauncher/modes/extensions/extension_runtime.py:118-124 | A death nobody has noticed yet changes nothing but what a later request to stop the process will find |
| `ExtensionService.Service.JobStep` | ulauncher/modes/extensions/extension_service.py:219-248 | When outside work completes, the job has released or waits for the process to stop |
| `ExtensionService.Service.LateRelease` | ulauncher/modes/extensions/extension_service.py:187-193 | A release by a job that already released changes nothing at all |
| `ExtensionService.Service.DiskChanged` | ulauncher/modes/extensions/extension_service.py:412-425 | A change by another program keeps the invariant; the id is exempt from convergence until the service is told |
| `ExtensionService.Service.Reload` | ulauncher/modes/extensions/extension_service.py:412-425 | Every id named is no longer exempt from convergence |
| `ExtensionService.Service.ReloadOne` | ulauncher/modes/extensions/extension_service.py:412-425 | A restart is queued for an id that resolves or was ever run, and what runs afterwards is new or still has a restart queued; an unknown id is left alone |
| `ExtensionService.Service.PreviewExt` | ulauncher/modes/extensions/extension_service.py:452-468 | The preview replaces any other, whose id is restarted first, and a restart of the previewed id is queued; the preview can only be lost by failing |
| `ExtensionService.Service.EndPreview` | ulauncher/modes/extensions/extension_service.py:470-485 | Afterwards there is no preview, and a restart of its id was queued |
| `ExtensionService.Service.StartExtensions` | ulauncher/modes/extensions/extension_service.py:131-136 | Starting every id found keeps the invariant, and on a fresh service without a preview none of them is exempt from convergence afterwards |
| `ExtensionRuntime.Run` | ulauncher/modes/extensions/extension_runtime.py:205-251 | In every run of one process the exit is reported at most once, only when the process is gone, as a stop exactly if a stop request found it alive; and once the process and the connection (or both output streams) are gone, one more look reports it |
| `ExtensionRuntime.Runtime.Stop` | ulauncher/modes/extensions/extension_runtime.py:118-131 | A dead process is left untouched; a live one is marked as aborted, disconnected, and an exit check is under way or done |
| `ExtensionRuntime.Runtime.Kill` | ulauncher/modes/extensions/extension_runtime.py:133-137 | Half a second later a process still alive gets the kill signal |
| `ExtensionRuntime.Runtime.CloseController` | ulauncher/modes/extensions/extension_runtime.py:67-75 | Closing the connection starts an exit check, also when it is closed from inside the exit report |
| `ExtensionRuntime.Runtime.ScheduleExitCheck` | ulauncher/modes/extensions/extension_runtime.py:205-210 | A check already under way or done is not started again, and an exit check is under way or done exactly if the connection or both streams are gone |
| `ExtensionRuntime.Runtime.PollExit` | ulauncher/modes/extensions/extension_runtime.py:212-221 | A look either finds the process alive or has made the one report |
| `ExtensionRuntime.Runtime.HandleExit` | ulauncher/modes/extensions/extension_runtime.py:223-251 | Exactly one report is made although closing the connection re-enters the exit check |
| `ExtensionRuntime.Runtime.ReadOutput` | ulauncher/modes/extensions/extension_runtime.py:152-176 | What was passed on is exactly the complete non-empty lines of all bytes read so far; at the end of the stream also the unterminated last line |
| `ExtensionRuntime.Runtime.SplitLines` | ulauncher/modes/extensions/extension_runtime.py:172-176 | The lines cut off and the rest kept are what reading byte by byte gives |
| `ExtensionRuntime.Runtime.EndStream` | ulauncher/modes/extensions/extension_runtime.py:183-189 | A stream is ended once, and the last one to end starts an exit check |
| `ExtensionRuntime.EveryLineIsPassedOn` | ulauncher/modes/extensions/extension_runtime.py:152-181 | However the text of some lines is cut into chunks, each line is passed on once and in order, the unterminated last one included |
| `CalculatorRoundTrip.ParsePrint` | ulauncher/modes/launcher/calculator.py:192-292 | Parsing the minimal-parenthesis tokens of any representable tree gives the tree back, over all precedences, associativities, postfixes and the percent or modulo lookahead |
| `CalculatorRoundTrip.ParseableIffRepresentable` | ulauncher/modes/launcher/calculator.py:192-297 | A tree is the parse of some token list if and only if it is representable: what stands after a binary modulo begins with a number, or its left side ends in a percent sign |
| `CalculatorRoundTrip.PrintParsed` | ulauncher/modes/launcher/calculator.py:192-297 | What any token list parses to prints to tokens with the same parse |
| `CalculatorRoundTrip.EvaluatePrint` | ulauncher/modes/launcher/calculator.py:192-297 | Evaluating the printed tokens gives the value of the tree |
| `CalculatorRoundTrip.ModuloOfSignMisreads` | ulauncher/modes/launcher/calculator.py:154-176 | The smallest tree outside the fragment: 5 modulo -3 is read as 5% - 3 |
| `CalculatorRoundTrip.FinishAny` | ulauncher/modes/launcher/calculator.py:166-181 | The postfixes after a primary give a representable tree, and a percent sign is left only where modulo may follow |
| `CalculatorNotation.ImplicitIsProduct` | ulauncher/modes/launcher/calculator.py:204-214 | An implicit product is a product: in any token list, writing a star before a parenthesis, a function or pi that follows the end of an operand changes nothing in what the list parses to |
| `CalculatorNotation.ImplicitInTerm` | ulauncher/modes/launcher/calculator.py:204-214 | Wherever the loop of a term meets such a token it goes on exactly as if a star stood before it, also after two percent signs, where only the context tells a postfix from a modulo |
| `CalculatorNotation.StarIsProductOrError` | ulauncher/modes/launcher/calculator.py:138-144 | Anywhere else a star before such a token leaves the parse as it is or makes the list unparseable |
| `CalculatorNotation.EvaluateImplicitProduct` | ulauncher/modes/launcher/calculator.py:204-214 | The printed tokens of any representable tree followed by any other in parentheses have a value exactly if both trees have one, and then it is the product of the two |
| `CalculatorNotation.PlusIsNothing` | ulauncher/modes/launcher/calculator.py:229-237 | A plus sign written where an operand is expected, in any token list, changes nothing in what the list parses to |
| `CalculatorNotation.ReadBareCall` | ulauncher/modes/launcher/calculator.py:265-279 | In any token list a function name without a parenthesis takes the whole signed or raised operand after it as its argument, and then postfixes of its own |
| `CalculatorNotation.EvaluateBareCall` | ulauncher/modes/launcher/calculator.py:183-190 | A function name followed by the printed tokens of an operand has the value of the function at the value of the operand |
| `Calculator.ProductLaws` | ulauncher/modes/launcher/calculator.py:204-227 | Multiplication is commutative, has 1 as its unit and repeats addition |
| `Calculator.QuotientLaws` | ulauncher/modes/launcher/calculator.py:215-224 | Division fails exactly for zero, and otherwise undoes multiplication both ways |
| `Calculator.Remainder` | ulauncher/modes/launcher/calculator.py:215-226 | Modulo fails exactly for zero; otherwise it is the left operand less a whole multiple of the right, between zero and the right operand and of its sign |
| `CalculatorEvaluator.EvaluateArithmetic` | ulauncher/modes/launcher/calculator.py:120-297 | The fused parser and evaluator returns a value exactly when all tokens parse, every step of evaluating the tree succeeds, and it is that value |
| `CalculatorEvaluator.Factorial` | ulauncher/modes/launcher/calculator.py:146-152 | The loop computes n! for whole n from 0 to 170 and rejects everything else |
| `CalculatorEvaluator.Evaluator.FinishValue` | ulauncher/modes/launcher/calculator.py:178-181 | Value and cursor after the postfixes are those of the tree parser, or there is no value |
| `CalculatorEvaluator.Evaluator.ParseCallValue` | ulauncher/modes/launcher/calculator.py:183-190 | A function call has the value of its tree and the cursor of its parse |
| `CalculatorEvaluator.Evaluator.ParsePrimaryValue` | ulauncher/modes/launcher/calculator.py:254-292 | Evaluating while parsing agrees with the tree at a primary, errors included; success moves the cursor on |
| `CalculatorEvaluator.Evaluator.ParsePowerValue` | ulauncher/modes/launcher/calculator.py:239-252 | The same for powers, which associate to the right and take a signed exponent |
| `CalculatorEvaluator.Evaluator.ParseUnaryValue` | ulauncher/modes/launcher/calculator.py:229-237 | The same for signs, which bind looser than powers |
| `CalculatorEvaluator.Evaluator.ParseTermValue` | ulauncher/modes/launcher/calculator.py:204-227 | The same for products, quotients, modulo and implicit multiplication, to the left; the loop ends because every round moves on; that an implicit factor is multiplied is `CalculatorNotation.ImplicitInTerm` |
| `CalculatorEvaluator.Evaluator.ParseExpressionValue` | ulauncher/modes/launcher/calculator.py:192-202 | The same for sums |
| `CalculatorEvaluator.TermRestStrict` | ulauncher/modes/launcher/calculator.py:204-227 | Once an operand of a product has no value, no continuation of the tokens gives one, so stopping early is right |
| `CalculatorEvaluator.ExprRestStrict` | ulauncher/modes/launcher/calculator.py:192-202 | The same for sums |
| `CalculatorEvaluator.FinishStrict` | ulauncher/modes/launcher/calculator.py:166-181 | A postfix never gives a value to what has none |
| `Calculator.ParseExpr` | ulauncher/modes/launcher/calculator.py:192-202 | A successful parse has moved the cursor strictly forward and stayed within the tokens |
| `Calculator.ParsePrimary` | ulauncher/modes/launcher/calculator.py:254-292 | The same for a primary, which makes the mutual recursion well-founded |
| `ResultBuffer.ThrottleRefinesFold` | ulauncher/internals/result_buffer.py:27-65 | After a reset, under every interleaving of batches and timer firings, what is painted is the fold of a prefix of the batches, exactly those up to the last firing or closing batch, and a batch not yet painted has the timer armed |
| `ResultBuffer.EnqueuedTracks` | ulauncher/internals/result_buffer.py:37-49 | One more batch keeps the buffer in step with the fold; an unfinished one paints nothing, a closing one catches up |
| `ResultBuffer.FlushedTracks` | ulauncher/internals/result_buffer.py:56-65 | A paint brings every batch received on screen and leaves nothing buffered |
| `ResultBuffer.ResultsModel.SetResults` | ulauncher/ui/results_model.py:65-75 | The list is extended by an appending update and replaced by any other |
| `ResultBuffer.ResultBuffer.Enqueue` | ulauncher/internals/result_buffer.py:37-49 | Buffer, flags, timer and screen afterwards are those of the value model |
| `ResultBuffer.ResultBuffer.ThrottledPaint` | ulauncher/internals/result_buffer.py:51-54 | A firing paints if the timer was armed, as in the value model |
| `ResultBuffer.ResultBuffer.Paint` | ulauncher/internals/result_buffer.py:56-65 | A paint empties the buffer onto the screen, as in the value model |
| `ResultBuffer.ResultBuffer.Reset` | ulauncher/internals/result_buffer.py:27-35 | A reset drops buffer and timer and forgets the stream, but keeps what is on screen |
| `ExtensionApi.BatchesReplay` | ulauncher/api/extension.py:239-255 | Folding the batches sent for a generator gives what its author means (a result appends, a list replaces), with and without the closing batch |
| `ExtensionApi.StreamResponse` | ulauncher/api/extension.py:220-255 | The loop sends one batch per item and a closing one; superseded at item i it sends the i batches before and no closing one |
| `ExtensionApi.EveryRunIsSound` | ulauncher/api/extension.py:128-292 | In every run of an extension process, under every interleaving of events, threads and the idle queue, the invariants behind the next rows hold |
| `ExtensionApi.PendingIffNewest` | ulauncher/api/extension.py:128-141 | In every run of a process the debounced request is r if and only if r came with the newest input heard since the last dispatch or the start of the process, as read off the moves |
| `ExtensionApi.NewestIsDispatched` | ulauncher/api/extension.py:128-155 | When the delay ends, exactly that newest input is dispatched, under the next input number: it gets a handler thread or its answer, and no other request does; without one nothing happens |
| `ExtensionApi.OthersAreHandled` | ulauncher/api/extension.py:128-190 | An event that is no input gets its handler thread or its answer when it is heard, and leaves the pending input alone |
| `ExtensionApi.HandledIff` | ulauncher/api/extension.py:128-190 | In every run a request that was heard has been handled if and only if it was no input, or was still the newest input when a delay ended |
| `ExtensionApi.NothingSentForOlderInput` | ulauncher/api/extension.py:257-266 | Once input n has been dispatched, no response to an input before n is ever written |
| `ExtensionApi.InputNeverActs` | ulauncher/api/extension.py:206-218 | In every run no response to an input event acts on the launcher, whatever its handler returned |
| `ExtensionApi.IdsCountUp` | ulauncher/api/extension.py:277-292 | The rows sent since the cache changed owner carry the ids 0, 1, 2, ... and each id names the instance it was sent with |
| `ExtensionApi.CacheSurvives` | ulauncher/api/extension.py:284-286 | The cache only grows, and restarts exactly when another request renders a response or the process restarts |
| `ExtensionApi.ScriptReplays` | ulauncher/api/extension.py:220-255 | A prefix of the responses to a stream shows exactly what was yielded so far, and only the closing one is terminal |
| `ExtensionApi.Extension.TriggerEvent` | ulauncher/api/extension.py:128-141 | An input event replaces the one that waits for the debounce delay; any other event is handled at once |
| `ExtensionApi.Extension.DoTriggerEvent` | ulauncher/api/extension.py:143-190 | A dispatched input gets a new number, and an event nobody listens to is answered if it asks for an answer |
| `ExtensionApi.Extension.StreamItem` | ulauncher/api/extension.py:245-252 | An item yielded by a thread is queued as a batch, or ends the thread if it is superseded |
| `ExtensionApi.Extension.StreamEnd` | ulauncher/api/extension.py:254-255 | The end of a generator queues its closing batch |
| `ExtensionApi.Extension.Return` | ulauncher/api/extension.py:206-218 | A handler that returns a value queues one response; an effect an input handler may not return is replaced |
| `ExtensionApi.Extension.SendResponse` | ulauncher/api/extension.py:257-275 | A response is dropped exactly if its input is superseded; rendered rows get ids first |
| `ExtensionApi.Extension.AssignResultIds` | ulauncher/api/extension.py:277-292 | The loop stamps each row with the next free id and caches it under that id, in a cache emptied for a new request |
| `ExtensionApi.Extension.ConvertActivation` | ulauncher/api/extension.py:109-116 | An activation gets the instance cached under its id, or fails if there is none |
| `Launcher.Launcher.SetQuery` | ulauncher/core.py:151-184 | A new query resets the buffer, picks its mode and hands the query over, as in the value model |
| `Launcher.Launcher.HandleQuery` | ulauncher/modes/extensions/extension_mode.py:75-105 | No extension gives one row, a stopped one is waited for, a running one is asked; each leaves the state of the value model |
| `Launcher.Launcher.SendRequest` | ulauncher/modes/extensions/extension_mode.py:201-218 | A request gets the next number and its callback replaces any other, unless the extension is not running |
| `Launcher.Launcher.ActivateResult` | ulauncher/core.py:290-326 | An activation drops the buffer and shows actions, does nothing, or sends a request |
| `Launcher.ActionsAreShown` | ulauncher/core.py:290-326 | The actions of a row replace the list on screen, nothing buffered before can paint over them, and no extension is asked |
| `Launcher.UnansweredQueryShows` | ulauncher/core.py:151-184 | A query that no mode takes, or whose keyword has no extension, is answered with its rows at once, nothing buffered before can paint over them, and no extension is asked |
| `Launcher.ActivationKeepsScreen` | ulauncher/core.py:290-326 | Any other activation leaves the list on screen as it is, and asks an extension exactly if there is one to ask and it is running |
| `Launcher.Launcher.HandleMessage` | ulauncher/modes/extensions/extension_mode.py:220-239 | A response is passed on exactly if it comes from the active extension, answers the newest request, and a callback is set |
| `Launcher.Launcher.HandleResponse` | ulauncher/modes/extensions/extension_mode.py:264-279 | The callback gets the effect and is dropped unless it is an unfinished batch, even if the effect has set another one meanwhile |
| `Launcher.Launcher.FinishLoading` | ulauncher/modes/extensions/extension_mode.py:125-130 | The end of a wait answers whatever callback is set, once |
| `Launcher.Launcher.Errored` | ulauncher/modes/extensions/extension_mode.py:61-67 | A failure of the active extension ends the wait with one row, or drops the callback |
| `Launcher.Launcher.ModeCallback` | ulauncher/core.py:338-365 | An effect for a mode no longer current is ignored; rows go to the buffer |
| `StreamingRun.RunIsFine` | ulauncher/modes/extensions/extension_mode.py:201-279 | In every run of the core, the mode, any number of extension processes and the mailboxes between them, the joint invariant holds |
| `StreamingRun.PaintedIsFold` | ulauncher/internals/result_buffer.py:27-65 | At any time what is painted since the newest query or activation is the fold of the batches answered to it, and batches not yet painted have the timer armed |
| `StreamingRun.StreamReachesScreen` | ulauncher/api/extension.py:220-255 | While the newest request is a streaming one, the screen shows exactly what its generator yielded up to some item; once the closing batch has arrived it shows all the items ever yielded and nothing follows. If the end of a loading wait has cut the request short, the list it ended with is shown instead, and nothing follows that |
| `StreamingRun.AnswerBelongsIffAsked` | ulauncher/modes/extensions/extension_mode.py:201-239 | In every run, a response that passes the filter answers a request sent by the very step that started the newest query or activation if and only if that step asked a running extension: a query that led to one, or an activation sent to one. Otherwise the request is an earlier one |
| `StreamingRun.StepAsks` | ulauncher/modes/extensions/extension_mode.py:201-218 | Exactly the queries, activations and queries set by a response start something new; exactly those that reach a running extension use a new request number; a request is late exactly if an activation sends it while the loading timer runs |
| `StreamingRun.NothingAfterTheEnd` | ulauncher/modes/extensions/extension_mode.py:276-279 | Nothing is delivered after the terminal response of the newest request, whether or not it was sent during a loading wait |
| `StreamingRun.CallbackArmedIffNotNested` | ulauncher/modes/extensions/extension_mode.py:264-279 | A request just sent can be answered if and only if it was not sent from inside the handling of a response |
| `StreamingRun.UnarmedIsNeverAnswered` | ulauncher/modes/extensions/extension_mode.py:264-279 | Otherwise nothing answers it until the next query or activation |
| `StreamingRun.ShownRowsResolve` | ulauncher/api/extension.py:109-116 | Activating a row on screen hands the handler the very instance it produced, as long as no other request rendered in between and no loading wait has replaced the list |
| `StreamingExamples.LateAnswerEndsTheWait` | ulauncher/modes/extensions/extension_mode.py:91-99 | From any state: a query waiting for a stopped extension is ended by a late answer to the request before it, whose rows are shown |
| `StreamingExamples.LateAnswerEndsTheWaitRun` | ulauncher/modes/extensions/extension_mode.py:234-239 | The shortest such run from the start |
| `StreamingExamples.OldStreamExtendsMissedQuery` | ulauncher/modes/extensions/extension_mode.py:84-89 | From any state: after a query without an extension, the next batch of the old stream is painted behind its one row |
| `StreamingExamples.NestedQueryLosesItsCallback` | ulauncher/modes/extensions/extension_mode.py:275-279 | From any state: a query set by the response to an activation is sent, but its callback is dropped |
| `StreamingExamples.WaitEndsActivation` | ulauncher/modes/extensions/extension_mode.py:125-130 | From any state: the end of a loading wait empties the list and drops the callback of an activation sent meanwhile |
| `LoadingWaits.LoadingIffWaitPending` | ulauncher/modes/extensions/extension_mode.py:75-130 | In every run the loading timer runs if and only if some query led to a stopped extension and no step since was a timeout, a failure of the active extension, or another query for an extension |
| `LoadingWaits.TimeoutEndsIffSentInWait` | ulauncher/modes/extensions/extension_mode.py:125-130 | A request whose callback is set can be ended by the loading timeout if and only if it was sent by an activation while such a wait was pending; otherwise the timer does not run |
| `LoadingWaits.CutIffWaitEnded` | ulauncher/modes/extensions/extension_mode.py:61-67 | The end of a wait has answered the newest query or activation, with these rows, if and only if some step since that one started was a timeout, or a failure of the active extension during a wait, while a callback was set |
| `LoadingWaits.EndOfWaitShows` | ulauncher/modes/extensions/extension_mode.py:61-67 | After that the screen shows no rows (timeout) or the one failure row, and no callback is set, until the next query or activation |
| `EventLoop.AlwaysOnePlace` | ulauncher/utils/eventloop.py:77-138 | Under every interleaving of threads and the loop, every entry ever made is in exactly one of: its maker's hands, the pending list, the heap, running, done |
| `EventLoop.RunsAreTimely` | ulauncher/utils/eventloop.py:117-138 | Nothing runs before it is due or after it was cancelled, a one-shot runs at most once, and the first run is due exactly the delay after the call |
| `EventLoop.IntervalIsKept` | ulauncher/utils/eventloop.py:117-138 | Between two runs of an entry with none in between its callback came back exactly once, and the second run is due exactly the interval after that; so it starts at least the interval after the first started |
| `EventLoop.BirthsAreCalls` | ulauncher/utils/eventloop.py:77-85 | Every entry goes back to a call of the run, with its thread, time and interval, and its delay or zero if that was negative |
| `EventLoop.RunsInSubmissionOrder` | ulauncher/utils/eventloop.py:36-47 | Entries one thread made with equal delays run in the order they were made, through the pending list or not, unless the earlier was cancelled |
| `EventLoop.IntervalsGoOn` | ulauncher/utils/eventloop.py:117-138 | A repeating entry nobody cancels is never lost: it is always queued, handed over, or running |
| `EventLoop.SleepIsExact` | ulauncher/utils/eventloop.py:117-138 | The wait the loop is given ends when the next live entry is due |
| `EventLoop.MiniLoop.CallLater` | ulauncher/utils/eventloop.py:77-85 | A call from the loop's thread goes on the heap, one from another thread on the pending list |
| `EventLoop.MiniLoop.PullPending` | ulauncher/utils/eventloop.py:109-115 | Everything pending moves to the heap and nothing else changes |
| `EventLoop.MiniLoop.RunDueTimers` | ulauncher/utils/eventloop.py:117-138 | The loop performs a legal sequence of elementary steps whatever the callbacks do, and ends with nothing due and the exact time to sleep |
| `EventLoop.MiniLoop.RunCallback` | ulauncher/utils/eventloop.py:117-138 | Whatever the callback does, its return is logged with the time, and an interval nobody cancelled is put back due the interval after that |
| `Scheduling.EveryHistoryIsSound` | ulauncher/utils/scheduling.py:79-136 | After every history of firings, cancellations and the two assignments of scheduling, from whatever thread, a one-shot has run at most once, and the loop's handle is cancelled only if the context is |
| `Scheduling.HandleFollowsIff` | ulauncher/utils/scheduling.py:186-197 | Once the context is cancelled, the loop's handle is cancelled too if and only if the cancelling step found the cleanup set (a cancellation) or the handle named (a firing), or a firing came after the handle was named |
| `Scheduling.OwnThreadHandleFollows` | ulauncher/utils/scheduling.py:186-197 | Scheduled on the loop's own thread, the handle is cancelled exactly when the context is |
| `Scheduling.EarlyFiringMissesHandle` | ulauncher/utils/scheduling.py:191-197 | Scheduled from another thread, a one-shot can fire before its handle has a name: it is over, but the handle is never cancelled and a cleanup stays set |
| `Scheduling.NeverAfterCancel` | ulauncher/utils/scheduling.py:103-117 | Once cancelled, by anyone or by its own end, a callback never runs again |
| `Scheduling.IntervalRunsEveryTime` | ulauncher/utils/scheduling.py:119-136 | An interval nobody cancels runs at every firing and stays scheduled, at whatever point scheduling is complete |
| `Scheduling.IntervalStops` | ulauncher/utils/scheduling.py:119-136 | The first firing after which the stop test holds, or during which the callback cancels its own context, is the last one that runs, whatever happens afterwards |
| `Scheduling.Context.Assign` | ulauncher/utils/scheduling.py:196-197 | The handle gets its name first, then becomes the cleanup |
| `Scheduling.Context.Cancel` | ulauncher/utils/scheduling.py:103-114 | Cancelling runs the cleanup once and is idempotent |
| `Scheduling.Context.RunOnce` | ulauncher/utils/scheduling.py:119-136 | A cancelled context runs nothing; otherwise it is kept exactly if it repeats, was not cancelled by its callback, and does not stop |
| `Scheduling.Context.Fire` | ulauncher/utils/scheduling.py:186-197 | One firing of the loop has the effect of one run of the context |
| `Lookups.RowsAnswerTheQuery` | ulauncher/modes/launcher/paths.py:352-398 | In every interleaving of searches, invalidations, flushes and completions, the rows a search is given were computed for its query, and no load was applied twice |
| `Lookups.WaiterIsAwaitedIffNotRaised` | ulauncher/modes/launcher/paths.py:367-421 | A waiting caller has a completion of the current load coming if and only if that completion did not raise |
| `Lookups.LostWakeUpStaysLost` | ulauncher/modes/launcher/paths.py:401-421 | After a raise the same query can be asked for any number of times and nobody is ever woken |
| `Lookups.LostWakeUp` | ulauncher/modes/launcher/paths.py:343-350 | The shortest such run: the deferred look at a path raises, and the query asked again is never answered |
| `Lookups.CompletionWakes` | ulauncher/modes/launcher/paths.py:352-364 | The awaited completion calls the waiter once with the rows in place; one of an older load changes nothing |
| `Lookups.AskerIsAnswered` | ulauncher/modes/launcher/paths.py:401-421 | Whoever asks about an unanswered query is the one waiting from then on; a new query is loaded once, and the completion of the current load calls that asker with the answer in place, while no other completion calls anybody |
| `Lookups.FlushResolves` | ulauncher/modes/launcher/paths.py:423-427 | A flush that finds an answer resolves the query at once and wakes the waiter, and the completion still on its way then changes nothing; one that raises leaves query and waiter alone |
| `Lookups.Lookup.EnsureLookup` | ulauncher/modes/launcher/paths.py:401-421 | Asking starts one load for a new query and only replaces the waiter for the same one |
| `Lookups.Lookup.InvalidateLookup` | ulauncher/modes/launcher/paths.py:375-381 | Afterwards no completion on its way can change anything |
| `Lookups.Lookup.FlushLookup` | ulauncher/modes/launcher/paths.py:423-427 | A flush completes the current load at once |
| `Lookups.Lookup.RunCompletion` | ulauncher/modes/launcher/commands.py:207-222 | A completion applies only with the current load id |
| `CachedLookups.WaiterIsAwaitedIffNotRaised` | ulauncher/modes/launcher/recents.py:234-312 | The same exact condition for the recent-file and bookmark caches |
| `CachedLookups.RaisedLoadBlocksTheCache` | ulauncher/modes/launcher/bookmarks.py:210-235 | A load that raised leaves the cache loading: nothing is started and nobody called until it is invalidated or flushed |
| `CachedLookups.CallerIsAnswered` | ulauncher/modes/launcher/recents.py:234-312 | Whoever asks for an empty cache is the one waiting from then on; it is loaded once, and the completion of that load, or a flush, fills it and calls that caller, while no other completion calls anybody |
| `CachedLookups.Cache.EnsureLoaded` | ulauncher/modes/launcher/bookmarks.py:230-235 | A loaded cache is left as it is and nobody is called, a loading one only keeps the caller, an empty one starts one load |
| `CachedLookups.Cache.Apply` | ulauncher/modes/launcher/recents.py:250-258 | A load of an older id changes nothing; the current one fills the cache and wakes the caller |
| `CachedLookups.Cache.InvalidateCache` | ulauncher/modes/launcher/recents.py:234-241 | The cache is emptied and loads on their way become stale |
| `Repaint.RepaintsUseTheNewestPlan` | ulauncher/modes/launcher/mode.py:134-153 | Every repaint uses the newest plan, and none runs after the query was cleared or the popup closed until a new query is planned |
| `Repaint.AnswerReachesScreen` | ulauncher/modes/launcher/mode.py:94-153 | For the plan in force the path's answer is on screen, a repaint is scheduled, its completion is coming, or that completion raised |
| `Repaint.LauncherMode.HandleQuery` | ulauncher/modes/launcher/mode.py:76-132 | A query replaces the plan and asks the lookups it needs; a repaint already scheduled stays so, and will use the new plan |
| `Repaint.LauncherMode.ScheduleRepaint` | ulauncher/modes/launcher/mode.py:134-139 | Completions between two idle moments lead to one repaint, and to none while repaints are not accepted |
| `Repaint.LauncherMode.RunRepaint` | ulauncher/modes/launcher/mode.py:141-153 | A repaint paints the newest plan if there is an active one |
| `Repaint.LauncherMode.FlushLookups` | ulauncher/modes/launcher/mode.py:155-169 | A flush leaves the rows of the query at hand |
| `Repaint.LauncherMode.RejectAsyncPaint` | ulauncher/modes/launcher/mode.py:171-194 | Closing the popup drops plan, schedule and loads on their way |
| `Repaint.LauncherMode.DropTypedAsyncPaint` | ulauncher/modes/launcher/mode.py:196-218 | Clearing the query drops plan and schedule |
| `AppRankings.LaunchesAreRecovered` | ulauncher/modes/apps/app_rankings.py:35-50 | From empty, after N launches of any apps in any order, N is recovered from the scores alone and their sum is (N + 3) / 4 |
| `AppRankings.ScoreIsWorth` | ulauncher/modes/apps/app_rankings.py:12-15 | Closed form after any history: score * N(N+1)(N+2) is the sum of j(j+1)(j+2) over the app's launches j |
| `AppRankings.LeftAlone` | ulauncher/modes/apps/app_rankings.py:43-50 | An app left alone for k launches keeps its score times the ratio of the weights before and after |
| `AppRankings.LeftAloneExactly` | ulauncher/modes/apps/app_rankings.py:43-50 | With the program's decay that ratio is N(N+1)(N+2) / ((N+k)(N+k+1)(N+k+2)) |
| `AppRankings.LeftAloneRecorded` | ulauncher/modes/apps/app_rankings.py:43-50 | The same for the scores as stored |
| `AppRankings.BumpRaisesAndKeepsOrder` | ulauncher/modes/apps/app_rankings.py:43-50 | A launch strictly raises that app's score and keeps the order of every two others |
| `AppRankings.NewAppOvertakes` | ulauncher/modes/apps/app_rankings.py:12-15 | A new app opened k times overtakes one holding all N launches if and only if (N+k)(N+k+1)(N+k+2)(N+k+3) > 2N(N+1)(N+2)(N+3) |
| `AppRankings.RankedDescending` | ulauncher/modes/apps/app_rankings.py:38-41 | The ranking is in descending order of score |
| `AppRankings.MigrationLosesThree` | ulauncher/utils/migrate.py:51-57 | Migrated scores imply a count three too low (none below three), so it is right if and only if there was no launch |
| `AppRankings.Rankings.Bump` | ulauncher/modes/apps/app_rankings.py:43-51 | The loop leaves every other score faded, the app's raised, and the cached ranking dropped |
| `AppRankings.Rankings.GetAppIds` | ulauncher/modes/apps/app_rankings.py:38-41 | The ranking returned is that of the current scores, cached or not |
| `Framing.DeliveredAsSent` | ulauncher/utils/socket_msg_controller.py:106-131 | However the bytes of any messages and of one unfinished message are cut into reads, exactly the messages are delivered in order and the buffer holds what follows the last newline |
| `Framing.ChunkingIsIrrelevant` | ulauncher/utils/socket_msg_controller.py:106-131 | Reading in chunks is reading the joined bytes |
| `Framing.WireReads` | ulauncher/utils/socket_msg_controller.py:75-92 | What was written for a list of messages reads as that list, whatever came before |
| `Framing.WireSnoc` | ulauncher/utils/socket_msg_controller.py:75-92 | Messages written one by one make up the wire of all |
| `Framing.SocketMsgController.Send` | ulauncher/utils/socket_msg_controller.py:75-92 | Over every pattern of partial writes the whole framed message is written, or a prefix and the connection is reported closed |
| `Framing.SocketMsgController.ReadAvailable` | ulauncher/utils/socket_msg_controller.py:106-131 | The lines delivered and the rest kept are what reading byte by byte gives; an end or error closes once |
| `Framing.SocketMsgController.TriggerClose` | ulauncher/utils/socket_msg_controller.py:53-60 | The close callback is called at most once |
| `Paths.NormalizeAbsolute` | ulauncher/modes/launcher/paths.py:35-47 | The loop computes the walk through the segments of the path; the laws of that walk are the next rows |
| `Paths.NormalizedEntry` | ulauncher/modes/launcher/paths.py:35-47 | The segments of a directory entry, normalised, are those of its directory, normalised, followed by its name |
| `Paths.NormalizedParent` | ulauncher/modes/launcher/paths.py:42-45 | For every absolute directory and entry name, going to the entry and up again is the directory, normalised |
| `Paths.NormalizedRoot` | ulauncher/modes/launcher/paths.py:42-45 | Going up from the root stays there, however the root is written |
| `Paths.NormalizedDotDot` | ulauncher/modes/launcher/paths.py:42-45 | "/.." is the root |
| `Paths.NormalizedStays` | ulauncher/modes/launcher/paths.py:40-41 | A "." segment and a repeated or trailing slash lead nowhere |
| `Paths.NormalizedIsClean` | ulauncher/modes/launcher/paths.py:35-47 | The result is absolute and has no empty, "." or ".." segment |
| `Paths.NormalizedIsIdempotent` | ulauncher/modes/launcher/paths.py:35-47 | Normalising twice is normalising once |
| `Paths.NormalizedComposes` | ulauncher/modes/launcher/paths.py:35-47 | Normalising a directory first does not change where a path relative to it leads |
| `Paths.CollapseExpand` | ulauncher/modes/launcher/paths.py:50-99 | For normal paths collapsing the home directory and expanding gives the path back if and only if it is home itself or does not end in white space |
| `Paths.ExpandedDots` | ulauncher/modes/launcher/paths.py:50-67 | "~" and "." are the home directory, normalised, and so at the front of a longer path |
| `Paths.ExpandedParent` | ulauncher/modes/launcher/paths.py:50-67 | ".." is the directory above the home directory, and so at the front of a longer path |
| `Paths.TrailingBlankIsLost` | ulauncher/modes/launcher/paths.py:50-67 | A file whose name ends in a blank is not found again |
| `FileUris.PathOfUri` | ulauncher/modes/launcher/paths.py:114-132 | The path of the URI of any absolute path is that path |
| `FileUris.UnquoteQuote` | ulauncher/modes/launcher/paths.py:102-116 | Unquoting quoted text gives it back, slashes quoted or not |
| `FileUris.PathIsAbsolute` | ulauncher/modes/launcher/paths.py:118-132 | Whatever path a URI stands for is absolute and well-formed text |
| `FileUris.CanonicalIsIdempotent` | ulauncher/modes/launcher/paths.py:135-162 | Canonicalising any URI twice is canonicalising it once |
| `FileUris.CanonicalForm` | ulauncher/modes/launcher/paths.py:114-162 | The canonical form of a URI that stands for a path is "file://" and then that path, in which only unreserved bytes, slashes and escapes of other bytes occur |
| `FileUris.CanonicalKeepsPath` | ulauncher/modes/launcher/paths.py:118-162 | The canonical form of any URI stands for the same path as the URI, or like it for none |
| `FileUris.CanonicalIffSamePath` | ulauncher/modes/launcher/paths.py:118-162 | Two URIs that stand for paths have the same canonical form if and only if the paths are the same |
| `FileUris.EncodedAuthorityForm` | ulauncher/modes/launcher/paths.py:135-153 | Encoding a URI with an authority changes nothing but its path, which is in quoted form afterwards if it can be decoded |
| `FileUris.EncodedPath` | ulauncher/modes/launcher/paths.py:135-153 | The encoded path of such a URI decodes to the same text |
| `FileUris.MarksAreIgnored` | ulauncher/modes/launcher/paths.py:118-119 | A query or a fragment does not change the path a URI stands for |
| `FileUris.HostDecides` | ulauncher/modes/launcher/paths.py:120-126 | A URI with an authority stands for a path exactly if that is localhost in any case, and then for the same path as without it |
| `FileUris.EncodeAuthorityIsStable` | ulauncher/modes/launcher/paths.py:135-153 | Encoding the path of a URI with an authority twice is encoding it once |
| `FileUris.EncodedHasNoPath` | ulauncher/modes/launcher/paths.py:156-162 | A URI that stands for no path stands for none after encoding, so both canonicalisations take the same branch |
| `FileUris.Utf8AtSlash` | ulauncher/modes/launcher/paths.py:135-142 | A slash never lies inside a character, so cutting a path at slashes and decoding the parts is decoding the path |
| `Selection.NextActivatableIndex` | ulauncher/modes/launcher/selection_math.py:49-83 | The row returned is selectable, -1 exactly if there is none; for one step it is the nearest in that direction round the ends, for a page the nearest to the clamped target |
| `Selection.Step` | ulauncher/modes/launcher/selection_math.py:54-64 | One step finds the first selectable row in its direction, round the ends |
| `Selection.DownIsNext` | ulauncher/modes/launcher/selection_math.py:49-83 | Down goes from the k-th selectable row to the next, from the last to the first |
| `Selection.UpIsPrevious` | ulauncher/modes/launcher/selection_math.py:49-83 | Up undoes Down |
| `Selection.WalkGoesRound` | ulauncher/modes/launcher/selection_math.py:49-83 | i steps from the k-th of m selectable rows lead to the (k + i)-th, counted round |
| `Selection.CycleVisitsEach` | ulauncher/modes/launcher/selection_math.py:49-83 | m steps visit each selectable row exactly once and return |
| `Selection.RepaintKeepsSelection` | ulauncher/modes/launcher/paint_selection.py:98-125 | After a repaint a selectable row is selected unless there is none, and one with the previous id (the first) if the list still has it |
| `Selection.RepaintFallsBack` | ulauncher/modes/launcher/paint_selection.py:98-125 | With the previous id gone, the first selectable row that reads the same is selected; with that gone too, the row at the previous index if it is selectable, and otherwise, as at a first painting, the first selectable row |
| `Selection.SameListSameRow` | ulauncher/modes/launcher/paint_selection.py:60-125 | Repainting the same list keeps the row if and only if no row above it could be mistaken for it |
| `ScreenTime.ParseHistory` | ulauncher/modes/launcher/time_limits.py:135-157 | The history is taken over whole if it is in order and only has real changes, and dropped otherwise |
| `ScreenTime.ActiveSecondsToday` | ulauncher/modes/launcher/time_limits.py:111-132 | The loop computes the tally of the history from the start of the day |
| `ScreenTime.ScreenTimeIsActiveTime` | ulauncher/modes/launcher/time_limits.py:111-132 | For every readable history the seconds counted are the measure of active time between the start of the day and now, plus a surplus that is never negative |
| `ScreenTime.CountedRightIff` | ulauncher/modes/launcher/time_limits.py:111-157 | The seconds counted are that measure if and only if no two changes in a row end the active state with the first of them later than the start of the day and than every earlier start of the active state |
| `ScreenTime.ChainedIsCountedOnce` | ulauncher/modes/launcher/time_limits.py:135-157 | Every history whose changes follow each other is of that kind |
| `ScreenTime.ActiveAtMostToday` | ulauncher/modes/launcher/time_limits.py:111-132 | The seconds counted are never negative; they are at most those the day has lasted if and only if what is counted twice fits into the inactive time, in particular if nothing is counted twice |
| `ScreenTime.GrowsWithTheClock` | ulauncher/modes/launcher/time_limits.py:111-132 | Without a change the seconds counted grow with the clock at slope one in the active state and zero otherwise, for every readable history |
| `ScreenTime.ActiveAndInactive` | ulauncher/modes/launcher/time_limits.py:111-132 | The seconds counted in the active state and in the inactive one are together the day so far if and only if neither counts anything twice |
| `ScreenTime.UnchainedCountsTwice` | ulauncher/modes/launcher/time_limits.py:135-157 | A readable history counted twice: thirty seconds are reported where twenty were active |
| `Install.Directories.SwapDir` | ulauncher/modes/extensions/extension_registry.py:32-60 | Success means the new files are in place and no backup is left; on failure the old files are in place or in the backup; success exactly if the moves needed succeeded, stale backups notwithstanding |
| `Install.Installation.Run` | ulauncher/modes/extensions/extension_registry.py:219-274 | A run that no further event can continue, which comes after at most three events, has told the caller exactly once; before that nothing is told; success is told exactly if every step succeeded |
| `Install.Installation.Handle` | ulauncher/modes/extensions/extension_registry.py:241-274 | Each step either goes on or settles; state is saved only after a successful swap |
| `Install.Installation.SwapAndFinish` | ulauncher/modes/extensions/extension_registry.py:249-266 | The swap settles the installation as done exactly if it and the saving of the state succeed |
| `Install.Installation.Fail` | ulauncher/modes/extensions/extension_registry.py:241-244 | A failure is reported once and leaves the installed files alone |
| `Install.Installation.constructor` | ulauncher/modes/extensions/extension_registry.py:219-246 | An installation whose staging directory cannot be made is settled at once with an error |
| `Keywords.KeywordCache.LoadTriggers` | ulauncher/core.py:115-149 | After any partial or forced reload in any order no keyword belongs to two modes, every entry is in its mode's trigger list, untouched modes keep theirs, and every keyword of a reloaded mode belongs to somebody |
| `Keywords.KeywordCache.LoadMode` | ulauncher/core.py:127-149 | A reloaded mode gets exactly those of its keywords nobody claimed, each for the first trigger that has it |
| `Keywords.KeywordCache.Select` | ulauncher/core.py:168-174 | The mode selected is the one that owns the keyword, in whatever order the modes are looked through |
| `Keywords.PickIsOrderFree` | ulauncher/core.py:168-174 | Two orders of the same modes select the same mode |
| `Keywords.SettledIsDisjoint` | ulauncher/core.py:127-139 | At the end of a reload every keyword has one owner, and no claimed keyword is lost |

## Left out

- Qt, QML, D-Bus, X11, Wayland, subprocesses, git, pip, HTTP and the file system itself: process exits, timers, clocks and the outcome of every such step are arbitrary events or parameters.
- The text rewriting before the calculator (`normalize_math`, the tokenizer, number words, units, colours): the calculator starts from tokens.
- Floating point: numbers, scores and times are reals, so rounding, overflow and infinities do not occur; the calculator's functions and powers are an arbitrary partial function.
- The Qt backend of the scheduler and file-descriptor watches: the timer loop is the one of extension processes.
- Reading the fields of result rows: selection starts from rows with their keys.
- Update checks, the uninstall flow, the stock web triggers, highlighting, application matching and ranking of search results: each would add easy members.
- ExtensionService.Service.RunJob: a job that raises after it has handed its callbacks over is not modelled, nor are user callbacks that call the service again; a job that cannot remove files itself releases without touching them.
- ExtensionService.Service.SwapDirectory: what is installed after a change of the directory is arbitrary; which files move is in `Install`.
- ExtensionService.Service.StopRuntime: when a process ends is left to the outside world; the polling that notices it is in `ExtensionRuntime`.
- ExtensionService.Service.DiskChanged: until the service is told, an id whose files another program changed is only promised exclusive access, not convergence.
- ExtensionService.Service.PreviewExt: the directory of a preview is taken to differ from the installed one, and the preview log is left out.
- ExtensionService.Service.constructor: process states are values in a map, so two names for one state object are not modelled.
- ExtensionRuntime.Runtime.HandleExit: a report is a stop or an error; how the error is classified by text and uptime is left out.
- ExtensionApi.EveryRunIsSound: one listener per event; one-off messages without a request number, custom-action stores and preferences are left out; the idle queue is first in, first out.
- StreamingRun.RunIsFine: malformed messages, the visibility of the window, the query history, effects that keep the window open and bundles of effects are left out.
- Launcher.Launcher.SetQuery: what another mode answers to its query comes as a separate event, not within the call.
- EventLoop.MiniLoop.RunDueTimers: the heap is an ordered list, and the call ends after any number of rounds the caller allows; the clock never goes back.
- Lookups.RowsAnswerTheQuery: what a path or command turns out to be is arbitrary, and so are the rows made of it.
- Repaint.AnswerReachesScreen: of the lookups only the one for paths is followed through; the others only ask for repaints.
- Framing.SocketMsgController.ReadAvailable: lines that are not JSON are delivered like any other, where the program logs and skips them.
- AppRankings.LaunchesAreRecovered: the stored file is not modelled, and apps are numbers.
- FileUris.CanonicalIsIdempotent: URIs are the UTF-8 bytes of well-formed text (no lone surrogates), and only ASCII letters are lowered; URIs of other schemes are left out.
- ScreenTime.ParseHistory: the JSON types of the fields are taken for granted, and local midnight is a parameter.
- Install.Installation.Run: the download, dependency and stop steps are taken to call exactly one of their callbacks once.
- Keywords.KeywordCache.LoadTriggers: a mode that raises while listing its triggers is left out.
