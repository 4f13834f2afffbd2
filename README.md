# ACID properties demo, modelled in Dafny

The application teaches the four ACID properties of database transactions with four
interactive pages. Each page plays a scripted scenario one step at a time, narrates each
step, logs it and lets the user pause, continue or stop the run:

- **Atomicity** (`atomicity.dfy`) transfers an amount from Raj (account A, 500) to Anand
  (account B, 200). A run either succeeds, and the commit writes both balances, or it
  crashes at the credit, and the rollback restores the working copy.
- **Consistency** (`consistency.dfy`) checks a withdrawal from a balance of 1000 against
  four rules: non-negative balance, a minimum balance of 50, a daily limit of 500 and a
  positive amount. It then approves and debits, or rejects.
- **Durability** (`durability.dfy`) writes a new order to memory, then to the write-ahead
  log (WAL), then to disk. There are three scenarios: a normal write, a crash before the WAL
  write (the order is lost) and a crash after it (the order is replayed from the WAL).
- **Isolation** (`isolation.dfy`) runs two transactions, T1 and T2, over one shared value
  under a chosen isolation level: Read Uncommitted, Read Committed, Repeatable Read or
  Serializable. It flags the dirty read that only the lowest level allows.

Shared modules:

- `sequencer.dfy` holds the step sequencer that every page repeats: `waitForResume` and
  `smartDelay`, two polling loops over a pause flag and an abort flag.
  - The user's presses are a finite schedule of actions (`Idle`, `TogglePause`, `Reset`),
    one per 100 ms timer. The `Controls` class holds this schedule, the two flags and a
    clock that counts timers.
  - If the schedule runs out while the run is paused, the run would wait forever in the
    application. The model ends it there as `Suspended(k)`: paused after step `k`.
- `journal.dfy` holds the log and narration panels.
- `text.dfy` holds the decimal rendering of numbers and the `HH:MM:SS` time stamp.

Each page is a class:

- a single `state` record gathers the page's state hooks;
- the `ctl` object holds the pause and abort refs.

The scripted runs are proved against script functions such as `SuccessAfter(amount, k)`,
`AfterWalAfter(draft, k)` or `After(level, k)`: the state once step `k` has run. Every run
method states:

- it ends aborted exactly when the abort flag is up, and then the page shows its reset
  state;
- a finished run shows the whole script;
- a suspended run shows the script up to the step after which it was paused;
- a run whose schedule holds no Reset is never aborted;
- a run the user leaves alone completes in exactly one settling timer plus 50 timers per
  step wait.

Lemmas about the script functions state what each scenario demonstrates.

## Model

| member | source | states |
|---|---|---|
| Text.NatToString | src/app/atomicity/page.tsx:137-142 | the decimal form of an amount is a non-empty string of digits with no leading zero, one digit exactly below 10 |
| Text.ParseNatToString | src/app/atomicity/page.tsx:137-142 | reading the digits back gives the number, so the rendering is injective |
| Text.IntToString | src/app/atomicity/page.tsx:137-142 | the decimal form of an integer is non-empty and starts with a minus sign exactly when the integer is negative |
| Text.ParseIntToString | src/app/atomicity/page.tsx:137-142 | the decimal form of any integer is a well-formed integer literal that reads back as that integer |
| Text.PadStart | src/app/atomicity/page.tsx:59 | padding gives at least the requested length, keeps the string as its suffix, and fills only with the pad character |
| Text.TwoDigits | src/app/atomicity/page.tsx:59 | a clock field below 100 is exactly two digits that read back as the field |
| Text.FormatTime | src/app/atomicity/page.tsx:57-60 | the time stamp has 8 characters with colons at positions 2 and 5, and its three two-digit fields read back as hours, minutes and seconds |
| Journal.FindStep | src/app/atomicity/page.tsx:120-126 | the result is the first narrator message of the step, or none when no message belongs to the step |
| Journal.FindAppended | src/app/atomicity/page.tsx:66-71 | a message appended for a step not yet narrated becomes that step's first message |
| Sequencer.Apply | src/app/atomicity/page.tsx:93-118 | a Reset raises the abort flag and drops the pause, a toggle flips the pause, and an idle timer changes nothing |
| Sequencer.Resume | src/app/atomicity/page.tsx:75-79 | `waitForResume` consumes one action per poll; it stops when unpaused or aborted, or is stalled with an empty schedule while still paused |
| Sequencer.ResumeSuffix | src/app/atomicity/page.tsx:75-79 | what `waitForResume` leaves is exactly the schedule after the actions it consumed |
| Sequencer.ResumeAborts | src/app/atomicity/page.tsx:75-79 | `waitForResume` ends aborted exactly when it started aborted or consumed a Reset |
| Sequencer.Unpause | src/app/atomicity/page.tsx:84 | the pause check at the top of a pass waits only when paused; it keeps the same accounting as `waitForResume` |
| Sequencer.DelayEnds | src/app/atomicity/page.tsx:81-91 | `smartDelay` ends aborted, or with its elapsed time reached, or stalled while paused; elapsed has grown by 100 per advancing poll, and the schedule only shrinks |
| Sequencer.CompletedWaitTicks | src/app/atomicity/page.tsx:81-91 | a wait that ends neither aborted nor stalled has advanced exactly as many polls as its length needs at 100 ms each |
| Sequencer.StepDelayTicks | src/app/atomicity/page.tsx:31 | the 5000 ms step wait is 50 advancing polls when it completes |
| Sequencer.QuietWait | src/app/atomicity/page.tsx:81-91 | with nobody touching the controls, an unpaused wait runs to its end without aborting and keeps its flags |
| Sequencer.NoResetNoAbort | src/app/atomicity/page.tsx:81-91 | only a Reset raises the abort flag: a wait whose schedule holds none never ends aborted |
| Sequencer.ResumeIdles | src/app/atomicity/page.tsx:75-79 | idle polls in a paused `waitForResume` change nothing but its poll count |
| Sequencer.PauseFreezes | src/app/atomicity/page.tsx:84 | polls spent paused leave elapsed, the flags and later actions unchanged: pause freezes progress |
| Sequencer.ResumeKeepsElapsed | src/app/atomicity/page.tsx:81-91 | continuing a paused wait resumes from the elapsed time it had reached, not from zero |
| Sequencer.ResumeStopsAtReset | src/app/atomicity/page.tsx:75-79 | a paused `waitForResume` consumes nothing past the first Reset |
| Sequencer.ResetEndsWait | src/app/atomicity/page.tsx:81-91 | abort ends a wait at the next poll: no wait consumes more than one action past a Reset, and a wait that reaches the Reset ends aborted |
| Sequencer.ResetDuringPause | src/app/atomicity/page.tsx:75-91 | the case of `ResetEndsWait` where the pass begins paused |
| Sequencer.ResetAfterResume | src/app/atomicity/page.tsx:81-91 | the case of `ResetEndsWait` after the pause wait of one pass |
| Sequencer.Controls.constructor | src/app/atomicity/page.tsx:54-55 | both refs start false; the clock starts at 0 with the whole schedule pending |
| Sequencer.Controls.Poll | src/app/atomicity/page.tsx:77 | one `delay(100)`: the next action is applied to the flags, consumed, and one timer is counted |
| Sequencer.Controls.Toggle | src/app/atomicity/page.tsx:115-118 | `togglePause` flips the pause flag only |
| Sequencer.Controls.Abort | src/app/atomicity/page.tsx:93-95 | a reset raises abort and drops pause, and nothing else changes |
| Sequencer.Controls.Arm | src/app/atomicity/page.tsx:130-131 | the settling `delay(100)` after a run's reset clears abort and counts one timer |
| Sequencer.Controls.WaitForResume | src/app/atomicity/page.tsx:75-79 | the loop leaves flags, pending schedule and clock as `Resume` says, and reports a stall |
| Sequencer.Controls.StepWait | src/app/atomicity/page.tsx:81-91 | the 5000 ms step wait keeps a schedule without Reset calm; with nobody touching the controls it completes in exactly 50 timers |
| Sequencer.Controls.SmartDelay | src/app/atomicity/page.tsx:81-91 | the loop ends with the flags, elapsed time, pending schedule and clock the `Delay` function gives |
| Atomicity.DebitLineShowsAmount | src/app/atomicity/page.tsx:139 | the debit line's amount, between the currency sign and " from Raj", reads back as the amount |
| Atomicity.CreditLineShowsAmount | src/app/atomicity/page.tsx:140 | the credit line's amount, between the currency sign and " to Anand", reads back as the amount |
| Atomicity.Patched | src/app/atomicity/page.tsx:239 | merging a patch into a step keeps its id; each field the patch carries replaces the step's own, and each field it leaves out is kept |
| Atomicity.UpdateStepsOnly | src/app/atomicity/page.tsx:155 | a step update keeps the list's length and every id, patches exactly the steps with the given id, and leaves every other step unchanged |
| Atomicity.NarratedAppends | src/app/atomicity/page.tsx:66-71 | a narrator message is appended last, becomes the highlighted one, and leaves the earlier ones unchanged |
| Atomicity.StepIcon | src/app/atomicity/page.tsx:265-272 | the hourglass icon is shown exactly for a pending step |
| Atomicity.StepIconInjective | src/app/atomicity/page.tsx:265-272 | each step status has its own icon |
| Atomicity.SuccessAllOrNothing | src/app/atomicity/page.tsx:128-192 | at every step of the success run both committed balances are untouched until the commit and both moved after it, and they always sum to 700 |
| Atomicity.SuccessWorkingCopy | src/app/atomicity/page.tsx:159-187 | the debit lands on the working copy at step 2 and the credit at step 3; the commit copies the working balances into the committed ones |
| Atomicity.SuccessSteps | src/app/atomicity/page.tsx:136-187 | the success run keeps four steps with ids 1 to 4 in order, and step i is marked done from script step i on |
| Atomicity.SuccessNonNegative | src/app/atomicity/page.tsx:319-321 | with an amount the slider offers, no balance of the success run goes negative |
| Atomicity.CrashNeverCommits | src/app/atomicity/page.tsx:194-263 | the crash run never changes a committed balance nor the credit's working balance |
| Atomicity.CrashSteps | src/app/atomicity/page.tsx:211-249 | the crash run keeps four steps with ids 1 to 4 in order; steps 1-2 succeed, step 3 fails, step 4 rolls back, each at its own script step |
| Atomicity.CrashRestores | src/app/atomicity/page.tsx:235-258 | after the restore every balance is back at its start, and the step list shows the failure and the rollback |
| Atomicity.CrashHoldsDebit | src/app/atomicity/page.tsx:225-258 | the debit is held in the working copy exactly from the debit step until the restore |
| Atomicity.Page.constructor | src/app/atomicity/page.tsx:34-55 | the page first renders with the slider at 100, the initial balances and pending steps |
| Atomicity.Page.SetTransferAmount | src/app/atomicity/page.tsx:317-322 | the slider, enabled only while no run is on, changes the amount alone |
| Atomicity.Page.ResetSimulation | src/app/atomicity/page.tsx:93-113 | reset aborts, drops the pause and restores every field but the slider |
| Atomicity.Page.TogglePause | src/app/atomicity/page.tsx:115-118 | flips the pause flag only |
| Atomicity.Page.ReplayFromStep | src/app/atomicity/page.tsx:120-126 | highlights the first message of the step when one exists, and otherwise changes nothing |
| Atomicity.Page.AddLog | src/app/atomicity/page.tsx:62-64 | appends one log line of the given level |
| Atomicity.Page.AddNarratorMessage | src/app/atomicity/page.tsx:66-71 | appends the message and highlights it |
| Atomicity.Page.ClearLogs | src/app/atomicity/page.tsx:466 | empties the log panel and nothing else |
| Atomicity.Page.Wait | src/app/atomicity/page.tsx:149 | the step wait and abort check: aborted exactly when the flag is up, and the page is then reset; otherwise the state is unchanged; a stall suspends after the given step |
| Atomicity.Page.Start | src/app/atomicity/page.tsx:129-131 | a run begins with a reset and one settling timer that clears abort |
| Atomicity.Page.Intro | src/app/atomicity/page.tsx:132-147 | the run is marked running, the step list names the amount, and step 0 is narrated |
| Atomicity.Page.BeginStep | src/app/atomicity/page.tsx:151-157 | step 1 marks "Begin Transaction" done and logs it |
| Atomicity.Page.DebitStep | src/app/atomicity/page.tsx:159-167 | step 2 debits the working copy of account A and marks the debit done |
| Atomicity.Page.CreditStep | src/app/atomicity/page.tsx:169-177 | step 3 credits the working copy of account B and marks the credit done |
| Atomicity.Page.CommitStep | src/app/atomicity/page.tsx:179-187 | step 4 writes both committed balances and marks the commit done |
| Atomicity.Page.FailureStep | src/app/atomicity/page.tsx:235-241 | step 3 of the crash marks the credit failed with a connection timeout |
| Atomicity.Page.RollbackStep | src/app/atomicity/page.tsx:243-249 | step 4 of the crash turns the commit card into a rollback |
| Atomicity.Page.RestoreStep | src/app/atomicity/page.tsx:251-258 | step 5 of the crash gives the debit back to the working copy |
| Atomicity.Page.FinalStep | src/app/atomicity/page.tsx:189-191 | the closing message is narrated and the run stops |
| Atomicity.Page.SuccessIntro | src/app/atomicity/page.tsx:132-149 | from the reset page, the success run reaches script step 0 |
| Atomicity.Page.SuccessBegin | src/app/atomicity/page.tsx:151-157 | the success run moves from step 0 to step 1 |
| Atomicity.Page.SuccessDebit | src/app/atomicity/page.tsx:159-167 | the success run moves from step 1 to step 2 |
| Atomicity.Page.SuccessCredit | src/app/atomicity/page.tsx:169-177 | the success run moves from step 2 to step 3 |
| Atomicity.Page.SuccessCommit | src/app/atomicity/page.tsx:179-187 | the success run moves from step 3 to step 4 |
| Atomicity.Page.SuccessFinal | src/app/atomicity/page.tsx:189-191 | the success run moves from step 4 to its end |
| Atomicity.Page.RunSuccess | src/app/atomicity/page.tsx:128-192 | the page ends reset (exactly when aborted), at the whole success script, or at the step after which it was paused; no Reset means no abort; left alone it completes in 251 timers |
| Atomicity.Page.CrashIntro | src/app/atomicity/page.tsx:194-215 | from the reset page, the crash run reaches script step 0 |
| Atomicity.Page.CrashBegin | src/app/atomicity/page.tsx:217-223 | the crash run moves from step 0 to step 1 |
| Atomicity.Page.CrashDebit | src/app/atomicity/page.tsx:225-233 | the crash run moves from step 1 to step 2 |
| Atomicity.Page.CrashFailure | src/app/atomicity/page.tsx:235-241 | the crash run moves from step 2 to the failure |
| Atomicity.Page.CrashRollback | src/app/atomicity/page.tsx:243-249 | the crash run moves from the failure to the rollback |
| Atomicity.Page.CrashRestore | src/app/atomicity/page.tsx:251-258 | the crash run moves from the rollback to the restore |
| Atomicity.Page.CrashFinal | src/app/atomicity/page.tsx:260-262 | the crash run moves from the restore to its end |
| Atomicity.Page.RunCrash | src/app/atomicity/page.tsx:194-263 | as `RunSuccess`, over the six steps of the crash script; left alone it completes in 301 timers |
| Consistency.AllPassIff | src/app/consistency/page.tsx:50-55 | the four rules hold together exactly when the amount is positive and at most 500 |
| Consistency.CheckedResults | src/app/consistency/page.tsx:120-140 | checking n rules leaves n results in table order; a failed rule does not stop the later ones; a result is "OK" exactly when its rule held, and otherwise carries its error message |
| Consistency.CheckedAppends | src/app/consistency/page.tsx:137-138 | each pass of the loop appends its rule's result to those before it |
| Consistency.RuleResultSays | src/app/consistency/page.tsx:123-137 | rule i's result has id i + 1 and the rule's verdict, and says "OK" exactly when the rule passed |
| Consistency.CheckedKeepsBalance | src/app/consistency/page.tsx:115-140 | checking rules leaves the balance at 1000 and the status idle, with one narration and one log line per rule plus the opening |
| Consistency.Decision | src/app/consistency/page.tsx:144-155 | the withdrawal is approved exactly when the amount is positive and at most 500; the balance then drops by the amount, and otherwise it stays and the status is rejected |
| Consistency.ApprovedKeepsMinimum | src/app/consistency/page.tsx:50-55 | an approved withdrawal leaves at least the minimum balance of 50 |
| Consistency.MinimumImpliesNonNegative | src/app/consistency/page.tsx:51-52 | the minimum-balance rule implies the non-negative rule |
| Consistency.ValidButton | src/app/consistency/page.tsx:188 | the "Valid" withdrawal of 200 passes every rule and leaves 800 |
| Consistency.InvalidButton | src/app/consistency/page.tsx:192 | the "Invalid" withdrawal of 1100 breaks the first three rules, passes the fourth, and leaves 1000 |
| Consistency.Page.constructor | src/app/consistency/page.tsx:37-48 | the page first renders with the balance at 1000 and empty panels |
| Consistency.Page.ResetDemo | src/app/consistency/page.tsx:90-101 | reset aborts, drops the pause and restores the page |
| Consistency.Page.TogglePause | src/app/consistency/page.tsx:103-106 | flips the pause flag only |
| Consistency.Page.AddLog | src/app/consistency/page.tsx:62-64 | appends one log line of the given level |
| Consistency.Page.AddNarratorMessage | src/app/consistency/page.tsx:66-70 | appends the message and highlights it |
| Consistency.Page.SelectMessage | src/app/consistency/page.tsx:316 | a click on a message highlights it |
| Consistency.Page.Wait | src/app/consistency/page.tsx:80-88 | the step wait: the page is reset exactly when aborted and otherwise unchanged; a schedule without Reset stays calm; left alone it takes 50 timers |
| Consistency.Page.CheckRule | src/app/consistency/page.tsx:121-132 | evaluates rule i on the amount and the balance of 1000, narrates it and logs it |
| Consistency.Page.RecordResult | src/app/consistency/page.tsx:137-138 | pushes rule i's result onto the results so far and shows them |
| Consistency.Page.ValidateTransaction | src/app/consistency/page.tsx:108-156 | the page ends reset (exactly when aborted), decided, or with the rules checked up to the pause; no Reset means no abort; left alone it completes in 251 timers |
| Durability.SplitAtJoined | src/app/durability/page.tsx:107 | splitting at the first separator recovers the text before it when that text holds none |
| Durability.NoCommaInNumber | src/app/durability/page.tsx:107 | a rendered number holds no comma |
| Durability.ValuesRoundTrip | src/app/durability/page.tsx:106-108 | the values tuple of a statement reads back as its id, customer, product and amount when the names hold no quote |
| Durability.FieldsRoundTrip | src/app/durability/page.tsx:107 | the part of the values tuple after the id reads back as the customer, the product and the amount when the names hold no quote |
| Durability.QuoteMakesValuesAmbiguous | src/app/durability/page.tsx:106-108 | with a quote in a name, two different orders print the same statement |
| Durability.RemoveId | src/app/durability/page.tsx:182 | the filter never lengthens the table |
| Durability.SetStatusOnly | src/app/durability/page.tsx:134 | a status update keeps the length of the table and every other row, and changes only the status of the rows with the id |
| Durability.RemoveIdKeeps | src/app/durability/page.tsx:182 | the filter keeps exactly the rows with another id |
| Durability.RemoveIdInOrder | src/app/durability/page.tsx:182 | the filter drops a single row exactly when it has the id, and filtering a concatenation concatenates the filtered parts, so kept rows stay in order |
| Durability.NewRowUpdates | src/app/durability/page.tsx:29-32 | on the seeded table plus the new row, a status update touches only the new row and the filter takes it out again |
| Durability.NormalLifecycle | src/app/durability/page.tsx:110-151 | in a normal write, row 1003 appears at step 1 and moves from memory to the WAL to disk; the WAL holds the statement from its write to the checkpoint; the next id is 1004 at the end |
| Durability.BeforeWalLoses | src/app/durability/page.tsx:153-188 | a crash before the WAL write never writes the WAL; the order is in memory only until the loss step, which leaves the seeded table and shows the recovery panel |
| Durability.AfterWalLifecycle | src/app/durability/page.tsx:190-246 | a crash after the WAL write moves row 1003 from memory to the WAL, then to lost, then to disk; the WAL holds the statement until recovery completes |
| Durability.WalKeepsOrder | src/app/durability/page.tsx:213-245 | once the statement is in the WAL, the order is at every later step either in the WAL or on disk; it is lost at the restart and on disk after the replay |
| Durability.WalHoldsOrder | src/app/durability/page.tsx:117-118 | the WAL entry reads back as the form's order with id 1003 when the names hold no quote |
| Durability.InsertSQLShowsDraft | src/app/durability/page.tsx:106-108 | the previewed statement reads back as the page's next id and the form's three values when the names hold no quote |
| Durability.Page.constructor | src/app/durability/page.tsx:35-48 | the page first renders with the two seeded orders, an empty WAL, next id 1003 and the default form |
| Durability.Page.SetDraft | src/app/durability/page.tsx:295-320 | the three form inputs, disabled during a run, change the draft alone |
| Durability.Page.ResetDemo | src/app/durability/page.tsx:86-99 | reset aborts, drops the pause and restores the table, the WAL and the id, keeping the form |
| Durability.Page.TogglePause | src/app/durability/page.tsx:101-104 | flips the pause flag only |
| Durability.Page.AddLog | src/app/durability/page.tsx:58-60 | appends one log line of the given level |
| Durability.Page.AddNarratorMessage | src/app/durability/page.tsx:62-66 | appends the message and highlights it |
| Durability.Page.SelectMessage | src/app/durability/page.tsx:475 | a click on a message highlights it |
| Durability.Page.Wait | src/app/durability/page.tsx:76-84 | the step wait and abort check: the page is reset exactly when aborted and otherwise unchanged; a stall suspends after the given step |
| Durability.Page.Start | src/app/durability/page.tsx:111-113 | a run begins with a reset and one settling timer that clears abort |
| Durability.Page.Announce | src/app/durability/page.tsx:114-123 | step 0 records the scenario, marks the run on, narrates and logs the statement |
| Durability.Page.WriteToMemory | src/app/durability/page.tsx:125-130 | step 1 appends the new order in memory |
| Durability.Page.NormalWal | src/app/durability/page.tsx:132-137 | the statement enters the WAL and the row is marked as in the WAL |
| Durability.Page.NormalDisk | src/app/durability/page.tsx:139-143 | the row is marked on disk |
| Durability.Page.NormalCheckpoint | src/app/durability/page.tsx:145-150 | the checkpoint empties the WAL, sets the next id to 1004 and ends the run |
| Durability.Page.RunNormalWrite | src/app/durability/page.tsx:110-151 | the page ends reset (exactly when aborted), at the whole normal script, or at the step after which it was paused; no Reset means no abort; left alone it completes in 201 timers |
| Durability.Page.BeforeWalCrash | src/app/durability/page.tsx:176-179 | the crash is narrated and logged |
| Durability.Page.BeforeWalLoss | src/app/durability/page.tsx:181-187 | memory is cleared: the new row is removed, the recovery panel shows and the run ends |
| Durability.Page.RunCrashBeforeWal | src/app/durability/page.tsx:153-188 | as `RunNormalWrite`, over the three steps of its script; left alone it completes in 151 timers |
| Durability.Page.AfterWalWrite | src/app/durability/page.tsx:213-219 | the statement enters the WAL and the row is marked as in the WAL |
| Durability.Page.AfterWalCrash | src/app/durability/page.tsx:221-226 | the crash marks the row lost |
| Durability.Page.AfterWalRestart | src/app/durability/page.tsx:228-231 | the restart checks the WAL |
| Durability.Page.AfterWalReplay | src/app/durability/page.tsx:233-237 | the replay marks the row on disk |
| Durability.Page.AfterWalRecovered | src/app/durability/page.tsx:239-245 | recovery empties the WAL, shows the recovery panel, sets the next id to 1004 and ends the run |
| Durability.Page.AfterWalRecovery | src/app/durability/page.tsx:226-245 | from the crash, the restart, replay and recovery run to their end, stop at the step after which they were paused, or reset exactly when aborted |
| Durability.Page.RunCrashAfterWal | src/app/durability/page.tsx:190-246 | as `RunNormalWrite`, over the six steps of its script; left alone it completes in 301 timers |
| Isolation.UpdateTransactionMerges | src/app/isolation/page.tsx:83-85 | the update keeps the length and every id; the named transaction takes each field the update carries and keeps the others; the other transaction is unchanged |
| Isolation.UpdateFirst | src/app/isolation/page.tsx:83-85 | on the page's pair, an update of T1 changes T1 alone |
| Isolation.UpdateSecond | src/app/isolation/page.tsx:83-85 | on the page's pair, an update of T2 changes T2 alone |
| Isolation.OnlyReadUncommittedFails | src/app/isolation/page.tsx:151-260 | the verdict is tagged "PROBLEM: " exactly for Read Uncommitted, and "SUCCESS: " exactly for the other levels |
| Isolation.ReadUncommittedDirtyRead | src/app/isolation/page.tsx:116-153 | T2 reads the 200 T1 wrote while T1 is still writing; the anomaly is flagged from then on; T1's rollback puts the value back to 100, so T2 read a value that was never committed |
| Isolation.ReadCommittedHidesWrite | src/app/isolation/page.tsx:154-187 | T2 reads the committed 100 while T1's 200 is uncommitted; the value becomes 200 only at T1's commit; no anomaly |
| Isolation.RepeatableReadKeepsSnapshot | src/app/isolation/page.tsx:188-222 | T2's snapshot of 100 stays 100 after T1 commits 200; no anomaly |
| Isolation.SerializableWaits | src/app/isolation/page.tsx:223-261 | T2 is blocked while T1 holds the lock, and reads 150 only after T1 has written it and committed; no anomaly |
| Isolation.AnomalyOnlyWhenDirty | src/app/isolation/page.tsx:109-264 | the anomaly is flagged exactly in Read Uncommitted, from its dirty read on |
| Isolation.Page.constructor | src/app/isolation/page.tsx:32-45 | the page first renders at Read Uncommitted with the value 100 and both transactions waiting |
| Isolation.Page.ResetDemo | src/app/isolation/page.tsx:87-102 | reset aborts, drops the pause and restores the value and both transactions, keeping the level |
| Isolation.Page.SelectLevel | src/app/isolation/page.tsx:316-317 | a level button, disabled during a run, selects the level and resets |
| Isolation.Page.TogglePause | src/app/isolation/page.tsx:104-107 | flips the pause flag only |
| Isolation.Page.AddLog | src/app/isolation/page.tsx:55-57 | appends one log line with its level and transaction tag |
| Isolation.Page.AddNarratorMessage | src/app/isolation/page.tsx:59-63 | appends the message and highlights it |
| Isolation.Page.SelectMessage | src/app/isolation/page.tsx:435 | a click on a message highlights it |
| Isolation.Page.UpdateTransaction | src/app/isolation/page.tsx:83-85 | the transactions become the merge by id |
| Isolation.Page.SetShared | src/app/isolation/page.tsx:32 | sets the shared value alone |
| Isolation.Page.Wait | src/app/isolation/page.tsx:73-81 | the step wait and abort check: the page is reset exactly when aborted and otherwise unchanged; a stall suspends after the given step |
| Isolation.Page.Open | src/app/isolation/page.tsx:113-120 | step 0 of a level: the run is on and the opening is narrated |
| Isolation.Page.Close | src/app/isolation/page.tsx:151-263 | step 5 of a level: the verdict is set, the closing message narrated and the run ends |
| Isolation.Page.UncommittedWrite | src/app/isolation/page.tsx:122-127 | T1 writes 200 without committing |
| Isolation.Page.UncommittedBegin | src/app/isolation/page.tsx:130-133 | T2 starts reading |
| Isolation.Page.UncommittedRead | src/app/isolation/page.tsx:136-140 | T2 reads the uncommitted 200 and the dirty read is flagged |
| Isolation.Page.UncommittedRollback | src/app/isolation/page.tsx:143-149 | T1 rolls back to 100 and waits; T2 commits |
| Isolation.Page.CommittedWrite | src/app/isolation/page.tsx:160-164 | T1 writes without committing |
| Isolation.Page.CommittedRead | src/app/isolation/page.tsx:166-171 | T2 reads the committed 100 |
| Isolation.Page.CommittedCheck | src/app/isolation/page.tsx:173-175 | the hidden write is narrated |
| Isolation.Page.CommittedCommit | src/app/isolation/page.tsx:177-183 | T1 commits 200 and T2 sees 200 |
| Isolation.Page.RepeatableSnapshot | src/app/isolation/page.tsx:194-199 | T2 reads 100 first, its snapshot |
| Isolation.Page.RepeatableWrite | src/app/isolation/page.tsx:201-208 | T1 writes 200 and commits |
| Isolation.Page.RepeatableAgain | src/app/isolation/page.tsx:210-212 | T2's second read is narrated |
| Isolation.Page.RepeatableReread | src/app/isolation/page.tsx:214-218 | T2 still sees 100 and commits |
| Isolation.Page.SerialLock | src/app/isolation/page.tsx:229-234 | T1 takes the lock and reads 100 |
| Isolation.Page.SerialBlock | src/app/isolation/page.tsx:236-241 | T2 is blocked |
| Isolation.Page.SerialCommit | src/app/isolation/page.tsx:243-250 | T1 writes 150 and commits |
| Isolation.Page.SerialRead | src/app/isolation/page.tsx:252-257 | T2 reads 150 and commits |
| Isolation.Page.PlayReadUncommitted | src/app/isolation/page.tsx:116-153 | the Read Uncommitted branch ends at its whole script, at the step after which it was paused, or reset exactly when aborted; left alone it takes 250 timers |
| Isolation.Page.PlayReadCommitted | src/app/isolation/page.tsx:154-187 | the same, for the Read Committed branch |
| Isolation.Page.PlayRepeatableRead | src/app/isolation/page.tsx:188-222 | the same, for the Repeatable Read branch |
| Isolation.Page.PlaySerializable | src/app/isolation/page.tsx:223-261 | the same, for the Serializable branch |
| Isolation.Page.RunDemo | src/app/isolation/page.tsx:109-264 | on the selected level the page ends reset (exactly when aborted), at the whole script, or at the step after which it was paused; no Reset means no abort; left alone it completes in 251 timers |

## Left out

- Presentation is not modelled: the style and colour helpers, the status badges, the
  narrator panel's visibility, `isPaused` (the React copy of the pause ref), and all JSX layout.
- The wording of log lines and narrator messages is not modelled. A log line keeps its level
  (and on the isolation page its transaction tag). A narrator message keeps its step index and
  its category. The atomicity step cards keep their texts, as datatypes rendered by
  `TitleText` and `DescriptionText`.
- Log time stamps come from the wall clock, which is left out. `FormatTime` models the format
  for given hours, minutes and seconds.
- `Date.now()` message ids are left out. The highlighted message is modelled by its position in
  the narration.
- Timers are left out as real time. Each `delay(100)` is one poll that consumes one action of
  the user's schedule. A pause that is never lifted ends the model's run as `Suspended`; the
  application would keep polling forever.
- Atomicity.Page.RunSuccess, Atomicity.Page.RunCrash: these promise the script's log, so
  they assume that the log panel's Clear button (`ClearLogs`) is not pressed during a run.
  The button stays on screen whenever the log is not empty. One press mid-run leaves fewer
  log lines than the script, and only Pause/Continue and Stop presses are in the schedule.
- Atomicity.Page.RunSuccess, Atomicity.Page.RunCrash, Consistency.Page.ValidateTransaction,
  Durability.Page.RunNormalWrite, Durability.Page.RunCrashBeforeWal,
  Durability.Page.RunCrashAfterWal, Durability.Page.AfterWalRecovery, Isolation.Page.RunDemo,
  Isolation.Page.PlayReadUncommitted, Isolation.Page.PlayReadCommitted,
  Isolation.Page.PlayRepeatableRead, Isolation.Page.PlaySerializable: these promise the
  script's highlighted message, so they assume no click on a narrator message during a run.
  Such a click (`ReplayFromStep`, `SelectMessage`) moves the highlight, for example while the
  run is paused.
- Atomicity.Page.SetTransferAmount, Durability.Page.SetDraft, Isolation.Page.SelectLevel:
  these are not modelled as presses during the 100 ms settling timer at the start of a run,
  although the page still enables them then. A level click at that moment resets the page
  and changes its level, while the run goes on with the level it captured.
- Overlapping runs are not modelled: a start pressed again within the 100 ms after a reset.
  Presses are possible only through the schedule, during waits.
- The reset handler runs in the model at the end of the wait in which the Reset was pressed. In
  the application it runs at the press itself. The difference cannot be seen, because a run
  changes nothing after it notices the abort.
- The display name of an isolation transaction is fixed by its id and is not modelled.
- The amount inputs are modelled as integers. `Number(...)` parsing of the text
  (`NaN`, decimals) is left out.
- src/app/page.tsx, the layout and the components under src/components are not part of
  this model.
- The atomicity step cards write the rupee sign as the three characters stored in the page's
  source file. The model keeps those characters.
- The durability preview (`getInsertSQL`) names the page's `nextId`, which is 1004 after a
  completed run. Every run itself inserts order 1003, because it resets first. The model keeps
  both as written (`InsertSQL`, `RunSQL`).
