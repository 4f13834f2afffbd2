/** The atomicity page: a transfer from Raj (account A) to Anand (account B) run as a
    four-step transaction, once to the commit and once into a failure and a rollback. The
    committed balances are what the page calls the database; the temporary balances are the
    transaction's working copy. */
module Atomicity {
  import opened Journal
  import opened Sequencer
  import Text

  const INITIAL_ACCOUNT_A: int := 500
  const INITIAL_ACCOUNT_B: int := 200

  /** The rupee sign as the page's source file stores it: the three characters its UTF-8
      bytes read as when taken for Windows-1252. */
  const RUPEE_AS_STORED: string := "\U{E2}\U{201A}\U{B9}"

  datatype StepStatus = Pending | Succeeded | Failed | RolledBack

  /** The heading of a step card. */
  datatype Title = BeginTitle | DebitTitle | CreditTitle | CommitTitle | RollbackTitle

  /** The line under a step card's heading; the debit and credit lines name the amount once a
      run has started. */
  datatype Description = TxStarted | DebitLine(amount: Option<int>) | CreditLine(amount: Option<int>)
                       | CommitLine | ConnectionTimeout | Reverting

  datatype Step = Step(id: nat, title: Title, description: Description, status: StepStatus)

  /** The fields a `{ ...s, field: value }` spread overrides; `None` keeps the old value. */
  datatype StepPatch = StepPatch(title: Option<Title>, description: Option<Description>, status: Option<StepStatus>)

  datatype SimulationType = SuccessRun | CrashRun

  /** Everything the page holds in state, save presentation (`isPaused`, `showNarrator`). */
  datatype PageState = PageState(transferAmount: int, accountA: int, accountB: int, tempA: int, tempB: int,
                       steps: seq<Step>, logs: seq<LogEntry>, narration: seq<Narration>,
                       currentStep: nat, simulation: Option<SimulationType>, running: bool,
                       active: Option<nat>)

  function TitleText(t: Title): string {
    match t
    case BeginTitle => "Begin Transaction"
    case DebitTitle => "Debit Account A"
    case CreditTitle => "Credit Account B"
    case CommitTitle => "Commit Transaction"
    case RollbackTitle => "Rollback"
  }

  /** The text the page shows for a description; an amount is written in decimal. */
  function DescriptionText(d: Description): string {
    match d
    case TxStarted => "TX_START initiated"
    case DebitLine(None) => "Subtract from Raj"
    case DebitLine(Some(a)) => "Subtract " + RUPEE_AS_STORED + Text.IntToString(a) + " from Raj"
    case CreditLine(None) => "Add to Anand"
    case CreditLine(Some(a)) => "Add " + RUPEE_AS_STORED + Text.IntToString(a) + " to Anand"
    case CommitLine => "TX_COMMIT - Save all changes"
    case ConnectionTimeout => "ERROR: Connection timeout"
    case Reverting => "Reverting all changes..."
  }

  /** The debit line of a run states its amount: the digits between the currency sign and
      " from Raj" read back as the amount. */
  lemma DebitLineShowsAmount(a: int)
    ensures var s := DescriptionText(DebitLine(Some(a)));
      |s| > 21 && Text.IsIntLiteral(s[12..|s| - 9]) && Text.ParseInt(s[12..|s| - 9]) == a
  {
    var s := DescriptionText(DebitLine(Some(a)));
    var n := Text.IntToString(a);
    assert s == "Subtract " + RUPEE_AS_STORED + n + " from Raj";
    assert s[12..|s| - 9] == n;
    Text.ParseIntToString(a);
  }

  /** The credit line of a run states its amount the same way. */
  lemma CreditLineShowsAmount(a: int)
    ensures var s := DescriptionText(CreditLine(Some(a)));
      |s| > 16 && Text.IsIntLiteral(s[7..|s| - 9]) && Text.ParseInt(s[7..|s| - 9]) == a
  {
    var s := DescriptionText(CreditLine(Some(a)));
    var n := Text.IntToString(a);
    assert s == "Add " + RUPEE_AS_STORED + n + " to Anand";
    assert s[7..|s| - 9] == n;
    Text.ParseIntToString(a);
  }

  /** The four steps of the transaction, all pending, with the given debit and credit lines. */
  function Plan(amount: Option<int>): seq<Step>
  {
    [Step(1, BeginTitle, TxStarted, Pending),
     Step(2, DebitTitle, DebitLine(amount), Pending),
     Step(3, CreditTitle, CreditLine(amount), Pending),
     Step(4, CommitTitle, CommitLine, Pending)]
  }

  /** The page as `resetSimulation` leaves it; the slider keeps its amount. */
  function Initial(amount: int): PageState
  {
    PageState(amount, INITIAL_ACCOUNT_A, INITIAL_ACCOUNT_B, INITIAL_ACCOUNT_A, INITIAL_ACCOUNT_B,
         Plan(None), [], [], 0, None, false, None)
  }

  /** A step with a patch merged in: each field the patch carries replaces the step's own,
      and the id and every other field are kept. */
  function Patched(s: Step, p: StepPatch): (r: Step)
    ensures r.id == s.id
    ensures (p.title.Some? ==> r.title == p.title.value) && (p.title.None? ==> r.title == s.title)
    ensures (p.description.Some? ==> r.description == p.description.value) &&
            (p.description.None? ==> r.description == s.description)
    ensures (p.status.Some? ==> r.status == p.status.value) && (p.status.None? ==> r.status == s.status)
  {
    Step(s.id,
         if p.title.Some? then p.title.value else s.title,
         if p.description.Some? then p.description.value else s.description,
         if p.status.Some? then p.status.value else s.status)
  }

  function MarkStatus(status: StepStatus): StepPatch {
    StepPatch(None, None, Some(status))
  }

  /** The step list with the patch merged into every step that has the given id. */
  function UpdateSteps(steps: seq<Step>, id: nat, p: StepPatch): seq<Step>
  {
    seq(|steps|, i requires 0 <= i < |steps| => if steps[i].id == id then Patched(steps[i], p) else steps[i])
  }

  /** A step update keeps the list's length and order, patches exactly the steps with the
      given id, and leaves every other step as it was. */
  lemma UpdateStepsOnly(steps: seq<Step>, id: nat, p: StepPatch)
    ensures var r := UpdateSteps(steps, id, p);
      |r| == |steps| &&
      (forall i :: 0 <= i < |steps| ==> r[i].id == steps[i].id) &&
      (forall i :: 0 <= i < |steps| && steps[i].id != id ==> r[i] == steps[i]) &&
      (forall i :: 0 <= i < |steps| && steps[i].id == id ==> r[i] == Patched(steps[i], p))
  {
  }

  function Logged(v: PageState, level: Level): PageState {
    v.(logs := v.logs + [LogEntry(level, None)])
  }

  /** `addNarratorMessage`: the message is appended and becomes the highlighted one. */
  function Narrated(v: PageState, stepIndex: nat, kind: Kind): PageState {
    v.(narration := v.narration + [Narration(stepIndex, kind)], active := Some(|v.narration|))
  }

  /** The message just narrated is the last one and the highlighted one, and the earlier ones
      stay as they were. */
  lemma NarratedAppends(v: PageState, stepIndex: nat, kind: Kind)
    ensures var r := Narrated(v, stepIndex, kind);
      |r.narration| == |v.narration| + 1 && r.narration[..|v.narration|] == v.narration &&
      r.active == Some(|v.narration|) && r.narration[|v.narration|] == Narration(stepIndex, kind) &&
      (FindStep(v.narration, stepIndex).None? ==> FindStep(r.narration, stepIndex) == r.active)
  {
    var r := Narrated(v, stepIndex, kind);
    assert r.narration[..|v.narration|] == v.narration;
    if FindStep(v.narration, stepIndex).None? {
      FindAppended(v.narration, Narration(stepIndex, kind));
    }
  }

  /** The introduction of a run: the step list now names the amount, and step 0 is
      narrated. */
  function AfterIntro(v: PageState, amount: int, simulation: SimulationType, kind: Kind): PageState {
    Narrated(v.(running := true, simulation := Some(simulation), steps := Plan(Some(amount)), currentStep := 0), 0, kind)
  }

  /** Step 1 of both runs: the transaction starts. */
  function AfterBegin(v: PageState): PageState {
    Logged(Narrated(v.(currentStep := 1), 1, InfoKind), Info).(steps := UpdateSteps(v.steps, 1, MarkStatus(Succeeded)))
  }

  /** Step 2 of both runs: the debit, on the working copy only. */
  function AfterDebit(v: PageState, amount: int): PageState {
    Logged(Logged(Narrated(v.(currentStep := 2), 2, InfoKind), Success), Success)
      .(tempA := INITIAL_ACCOUNT_A - amount, steps := UpdateSteps(v.steps, 2, MarkStatus(Succeeded)))
  }

  /** Step 3 of the success run: the credit, on the working copy only. */
  function AfterCredit(v: PageState, amount: int): PageState {
    Logged(Logged(Narrated(v.(currentStep := 3), 3, SuccessKind), Success), Success)
      .(tempB := INITIAL_ACCOUNT_B + amount, steps := UpdateSteps(v.steps, 3, MarkStatus(Succeeded)))
  }

  /** Step 4 of the success run: the commit writes both committed balances. */
  function AfterCommit(v: PageState, amount: int): PageState {
    Logged(Narrated(v.(currentStep := 4), 4, SuccessKind), Success)
      .(steps := UpdateSteps(v.steps, 4, MarkStatus(Succeeded)),
        accountA := INITIAL_ACCOUNT_A - amount, accountB := INITIAL_ACCOUNT_B + amount)
  }

  /** Step 3 of the crash run: the credit fails. */
  function AfterFailure(v: PageState): PageState {
    Logged(Narrated(v.(currentStep := 3), 3, ErrorKind), Critical)
      .(steps := UpdateSteps(v.steps, 3, StepPatch(None, Some(ConnectionTimeout), Some(Failed))))
  }

  /** Step 4 of the crash run: the commit step turns into the rollback. */
  function AfterRollbackNotice(v: PageState): PageState {
    Logged(Narrated(v.(currentStep := 4), 4, WarningKind), Warn)
      .(steps := UpdateSteps(v.steps, 4, StepPatch(Some(RollbackTitle), Some(Reverting), Some(RolledBack))))
  }

  /** Step 5 of the crash run: the debit is taken back from the working copy. */
  function AfterRestore(v: PageState): PageState {
    Logged(Logged(Narrated(v.(currentStep := 5), 5, InfoKind), Info), Success).(tempA := INITIAL_ACCOUNT_A)
  }

  /** The closing message of a run; the run is over. */
  function AfterFinal(v: PageState, stepIndex: nat): PageState {
    Narrated(v, stepIndex, SuccessKind).(running := false)
  }

  /** What the success run has done once its step `k` ran, from the reset page (step 0 is
      the introduction, step 5 the closing message). */
  function SuccessAfter(amount: int, k: nat): PageState
    requires k <= 5
  {
    if k == 0 then AfterIntro(Initial(amount), amount, SuccessRun, InfoKind)
    else
      var v := SuccessAfter(amount, k - 1);
      if k == 1 then AfterBegin(v)
      else if k == 2 then AfterDebit(v, amount)
      else if k == 3 then AfterCredit(v, amount)
      else if k == 4 then AfterCommit(v, amount)
      else AfterFinal(v, 5)
  }

  /** What the crash run has done once its step `k` ran, from the reset page (step 3 is the
      failure, step 4 the rollback, step 5 the restore, step 6 the closing message). */
  function CrashAfter(amount: int, k: nat): PageState
    requires k <= 6
  {
    if k == 0 then AfterIntro(Initial(amount), amount, CrashRun, WarningKind)
    else
      var v := CrashAfter(amount, k - 1);
      if k == 1 then AfterBegin(v)
      else if k == 2 then AfterDebit(v, amount)
      else if k == 3 then AfterFailure(v)
      else if k == 4 then AfterRollbackNotice(v)
      else if k == 5 then AfterRestore(v)
      else AfterFinal(v, 6)
  }

  /** `getStepIcon`. */
  function StepIcon(status: StepStatus): (r: string)
    ensures r == "hourglass_empty" <==> status == Pending
  {
    match status
    case Succeeded => "check"
    case Failed => "close"
    case RolledBack => "undo"
    case Pending => "hourglass_empty"
  }

  /** Each status has an icon of its own. */
  lemma StepIconInjective(s: StepStatus, t: StepStatus)
    ensures StepIcon(s) == StepIcon(t) ==> s == t
  {
  }

  /** The amounts the slider offers: 10 to 500 in steps of 10. */
  predicate SliderAmount(a: int) {
    10 <= a <= 500 && a % 10 == 0
  }

  /** The success run only ever changes which step list it shows and where money is; its
      committed balances are either both untouched or both moved, and always sum to 700. */
  lemma {:induction false} SuccessAllOrNothing(amount: int, k: nat)
    requires k <= 5
    ensures var v := SuccessAfter(amount, k);
      v.accountA + v.accountB == INITIAL_ACCOUNT_A + INITIAL_ACCOUNT_B &&
      (if k < 4 then v.accountA == INITIAL_ACCOUNT_A && v.accountB == INITIAL_ACCOUNT_B
       else v.accountA == INITIAL_ACCOUNT_A - amount && v.accountB == INITIAL_ACCOUNT_B + amount)
  {
    if k == 1 { SuccessAllOrNothing(amount, 0); }
    else if k == 2 { SuccessAllOrNothing(amount, 1); }
    else if k == 3 { SuccessAllOrNothing(amount, 2); }
    else if k == 4 { SuccessAllOrNothing(amount, 3); }
    else if k == 5 { SuccessAllOrNothing(amount, 4); }
  }

  /** The working copy of the success run: the debit lands at step 2 and the credit at step
      3, so from step 3 on the working balances again add up to 700, and the commit copies
      them into the committed balances. */
  lemma {:induction false} SuccessWorkingCopy(amount: int, k: nat)
    requires k <= 5
    ensures var v := SuccessAfter(amount, k);
      v.tempA == (if k < 2 then INITIAL_ACCOUNT_A else INITIAL_ACCOUNT_A - amount) &&
      v.tempB == (if k < 3 then INITIAL_ACCOUNT_B else INITIAL_ACCOUNT_B + amount) &&
      (k >= 3 ==> v.tempA + v.tempB == INITIAL_ACCOUNT_A + INITIAL_ACCOUNT_B) &&
      (k >= 4 ==> v.accountA == v.tempA && v.accountB == v.tempB)
  {
    SuccessAllOrNothing(amount, k);
    if k == 1 { SuccessWorkingCopy(amount, 0); }
    else if k == 2 { SuccessWorkingCopy(amount, 1); }
    else if k == 3 { SuccessWorkingCopy(amount, 2); }
    else if k == 4 { SuccessWorkingCopy(amount, 3); }
    else if k == 5 { SuccessWorkingCopy(amount, 4); }
  }

  /** In the success run each step is marked done by the step that names it, and stays so. */
  lemma {:induction false} SuccessSteps(amount: int, k: nat)
    requires k <= 5
    ensures var v := SuccessAfter(amount, k);
      |v.steps| == 4 &&
      v.steps[0].id == 1 && v.steps[1].id == 2 && v.steps[2].id == 3 && v.steps[3].id == 4 &&
      v.steps[0].status == (if k >= 1 then Succeeded else Pending) &&
      v.steps[1].status == (if k >= 2 then Succeeded else Pending) &&
      v.steps[2].status == (if k >= 3 then Succeeded else Pending) &&
      v.steps[3].status == (if k >= 4 then Succeeded else Pending)
  {
    if k == 1 { SuccessSteps(amount, 0); }
    else if k == 2 { SuccessSteps(amount, 1); }
    else if k == 3 { SuccessSteps(amount, 2); }
    else if k == 4 { SuccessSteps(amount, 3); }
    else if k == 5 { SuccessSteps(amount, 4); }
  }

  /** With an amount the slider offers, no balance of the success run goes negative. */
  lemma SuccessNonNegative(amount: int, k: nat)
    requires SliderAmount(amount) && k <= 5
    ensures var v := SuccessAfter(amount, k);
      v.accountA >= 0 && v.accountB >= 0 && v.tempA >= 0 && v.tempB >= 0
  {
    SuccessAllOrNothing(amount, k);
    SuccessWorkingCopy(amount, k);
  }

  /** The crash run never writes the committed balances. */
  lemma {:induction false} CrashNeverCommits(amount: int, k: nat)
    requires k <= 6
    ensures var v := CrashAfter(amount, k);
      v.accountA == INITIAL_ACCOUNT_A && v.accountB == INITIAL_ACCOUNT_B && v.tempB == INITIAL_ACCOUNT_B
  {
    if k == 1 { CrashNeverCommits(amount, 0); }
    else if k == 2 { CrashNeverCommits(amount, 1); }
    else if k == 3 { CrashNeverCommits(amount, 2); }
    else if k == 4 { CrashNeverCommits(amount, 3); }
    else if k == 5 { CrashNeverCommits(amount, 4); }
    else if k == 6 { CrashNeverCommits(amount, 5); }
  }

  /** The step list of the crash run keeps its four ids, in order, and a step's status
      changes only at the step that names it. */
  lemma {:induction false} CrashSteps(amount: int, k: nat)
    requires k <= 6
    ensures var v := CrashAfter(amount, k);
      |v.steps| == 4 &&
      v.steps[0].id == 1 && v.steps[1].id == 2 && v.steps[2].id == 3 && v.steps[3].id == 4 &&
      v.steps[0].status == (if k >= 1 then Succeeded else Pending) &&
      v.steps[1].status == (if k >= 2 then Succeeded else Pending) &&
      v.steps[2].status == (if k >= 3 then Failed else Pending) &&
      v.steps[3].status == (if k >= 4 then RolledBack else Pending)
  {
    if k == 1 { CrashSteps(amount, 0); }
    else if k == 2 { CrashSteps(amount, 1); }
    else if k == 3 { CrashSteps(amount, 2); }
    else if k == 4 { CrashSteps(amount, 3); }
    else if k == 5 { CrashSteps(amount, 4); }
    else if k == 6 { CrashSteps(amount, 5); }
  }

  /** After the restore step the crash run is back where it started on every balance: the
      debit held in the working copy is returned, step 3 shows the failure and step 4 the
      rollback. */
  lemma CrashRestores(amount: int)
    ensures var v := CrashAfter(amount, 5);
      v.tempA == INITIAL_ACCOUNT_A && v.tempB == INITIAL_ACCOUNT_B &&
      v.accountA == INITIAL_ACCOUNT_A && v.accountB == INITIAL_ACCOUNT_B && |v.steps| == 4 &&
      v.steps[2].status == Failed && v.steps[2].description == ConnectionTimeout &&
      v.steps[3].status == RolledBack && v.steps[3].title == RollbackTitle
  {
    CrashNeverCommits(amount, 5);
    CrashSteps(amount, 5);
    var v4 := CrashAfter(amount, 4);
    var v3 := CrashAfter(amount, 3);
    CrashSteps(amount, 3);
    assert v3.steps[2].description == ConnectionTimeout;
    assert v4.steps[2] == v3.steps[2];
  }

  /** Between its debit and its restore, the crash run holds the debited amount in the
      working copy only. */
  lemma {:induction false} CrashHoldsDebit(amount: int, k: nat)
    requires k <= 6
    ensures CrashAfter(amount, k).tempA == if 2 <= k < 5 then INITIAL_ACCOUNT_A - amount else INITIAL_ACCOUNT_A
  {
    if k == 1 { CrashHoldsDebit(amount, 0); }
    else if k == 2 { CrashHoldsDebit(amount, 1); }
    else if k == 3 { CrashHoldsDebit(amount, 2); }
    else if k == 4 { CrashHoldsDebit(amount, 3); }
    else if k == 5 { CrashHoldsDebit(amount, 4); }
    else if k == 6 { CrashHoldsDebit(amount, 5); }
  }

  /** The atomicity page. The transaction is scripted; the user's Pause/Continue and Stop
      presses during the waits come from the schedule held by `ctl`. */
  class Page {
    /** The page's state hooks, gathered in one record. */
    var state: PageState
    const ctl: Controls

    /** The page as first rendered: the slider at 100 and the initial balances. */
    constructor (schedule: seq<Action>)
      ensures state == Initial(100)
      ensures fresh(ctl) && ctl.signals == Signals(false, false) && ctl.pending == schedule
    {
      state := Initial(100);
      ctl := new Controls(schedule);
    }

    /** The slider, enabled only while no run is going on. */
    method SetTransferAmount(amount: int)
      requires SliderAmount(amount) && !state.running
      modifies this
      ensures state == old(state).(transferAmount := amount)
    {
      state := state.(transferAmount := amount);
    }

    /** `resetSimulation`: abort the run, drop the pause, restore every field but the slider. */
    method ResetSimulation()
      modifies this, ctl
      ensures state == Initial(old(state.transferAmount))
      ensures ctl.signals == Signals(false, true) && ctl.pending == old(ctl.pending) && ctl.clock == old(ctl.clock)
    {
      ctl.Abort();
      state := state.(accountA := INITIAL_ACCOUNT_A, accountB := INITIAL_ACCOUNT_B,
                      tempA := INITIAL_ACCOUNT_A, tempB := INITIAL_ACCOUNT_B,
                      steps := Plan(None), logs := [], narration := [], running := false,
                      currentStep := 0, simulation := None, active := None);
    }

    /** `togglePause`. */
    method TogglePause()
      modifies ctl
      ensures ctl.signals == old(ctl.signals).(paused := !old(ctl.signals).paused)
      ensures ctl.pending == old(ctl.pending) && ctl.clock == old(ctl.clock)
    {
      ctl.Toggle();
    }

    /** `replayFromStep`: highlight the first message of that step, if there is one. */
    method ReplayFromStep(stepIndex: nat)
      modifies this
      ensures var found := FindStep(old(state.narration), stepIndex);
        state == if found.Some? then old(state).(active := found) else old(state)
    {
      var found := FindStep(state.narration, stepIndex);
      if found.Some? {
        state := state.(active := found);
      }
    }

    /** `addLog`; the time stamp is left out. */
    method AddLog(level: Level)
      modifies this
      ensures state == Logged(old(state), level)
    {
      state := state.(logs := state.logs + [LogEntry(level, None)]);
    }

    /** `addNarratorMessage`. */
    method AddNarratorMessage(stepIndex: nat, kind: Kind)
      modifies this
      ensures state == Narrated(old(state), stepIndex, kind)
    {
      state := state.(narration := state.narration + [Narration(stepIndex, kind)], active := Some(|state.narration|));
    }

    /** The log panel's Clear button. */
    method ClearLogs()
      modifies this
      ensures state == old(state).(logs := [])
    {
      state := state.(logs := []);
    }

    /** `await smartDelay(STEP_DELAY); if (abortRef.current) return;` after step `after` of a
        run. A Stop pressed during the wait has run `resetSimulation`, whose restore the page
        then shows, and the run ends; a pause never resumed leaves the run suspended. */
    method Wait(after: nat) returns (halt: Option<Outcome>)
      modifies this, ctl
      ensures halt == None || halt == Some(Aborted) || halt == Some(Suspended(after))
      ensures halt == Some(Aborted) <==> ctl.signals.aborted
      ensures halt == Some(Aborted) ==> state == Initial(old(state.transferAmount))
      ensures halt != Some(Aborted) ==> state == old(state)
      ensures halt == Some(Suspended(after)) ==> ctl.signals.paused && ctl.pending == []
      ensures Calm(old(ctl.signals), old(ctl.pending)) ==> Calm(ctl.signals, ctl.pending)
      ensures Still(old(ctl.signals), old(ctl.pending)) ==>
        halt == None && Still(ctl.signals, ctl.pending) && ctl.clock == old(ctl.clock) + 50
    {
      var stalled := ctl.StepWait();
      if ctl.signals.aborted {
        state := Initial(state.transferAmount);
        return Some(Aborted);
      }
      if stalled {
        return Some(Suspended(after));
      }
      halt := None;
    }

    /** The start of every run: reset, let the reset settle, clear the abort flag. */
    method Start()
      modifies this, ctl
      ensures state == Initial(old(state.transferAmount))
      ensures ctl.signals == Signals(false, false) && ctl.pending == old(ctl.pending) && ctl.clock == old(ctl.clock) + 1
      ensures Reset !in old(ctl.pending) ==> Calm(ctl.signals, ctl.pending)
      ensures Quiet(old(ctl.pending)) ==> Still(ctl.signals, ctl.pending)
    {
      ResetSimulation();
      ctl.Arm();
    }

    /** The introduction of a run (`setIsRunning(true)` through the first narration). */
    method Intro(amount: int, simulation: SimulationType, kind: Kind)
      modifies this
      ensures state == AfterIntro(old(state), amount, simulation, kind)
    {
      state := state.(running := true, simulation := Some(simulation), steps := Plan(Some(amount)), currentStep := 0);
      AddNarratorMessage(0, kind);
    }

    /** Step 1 of both runs. */
    method BeginStep()
      modifies this
      ensures state == AfterBegin(old(state))
    {
      state := state.(currentStep := 1);
      AddNarratorMessage(1, InfoKind);
      AddLog(Info);
      state := state.(steps := UpdateSteps(state.steps, 1, MarkStatus(Succeeded)));
    }

    /** Step 2 of both runs. */
    method DebitStep(amount: int)
      modifies this
      ensures state == AfterDebit(old(state), amount)
    {
      state := state.(currentStep := 2);
      AddNarratorMessage(2, InfoKind);
      AddLog(Success);
      state := state.(tempA := INITIAL_ACCOUNT_A - amount);
      AddLog(Success);
      state := state.(steps := UpdateSteps(state.steps, 2, MarkStatus(Succeeded)));
    }

    /** Step 3 of the success run. */
    method CreditStep(amount: int)
      modifies this
      ensures state == AfterCredit(old(state), amount)
    {
      state := state.(currentStep := 3);
      AddNarratorMessage(3, SuccessKind);
      AddLog(Success);
      state := state.(tempB := INITIAL_ACCOUNT_B + amount);
      AddLog(Success);
      state := state.(steps := UpdateSteps(state.steps, 3, MarkStatus(Succeeded)));
    }

    /** Step 4 of the success run. */
    method CommitStep(amount: int)
      modifies this
      ensures state == AfterCommit(old(state), amount)
    {
      state := state.(currentStep := 4);
      AddNarratorMessage(4, SuccessKind);
      AddLog(Success);
      state := state.(steps := UpdateSteps(state.steps, 4, MarkStatus(Succeeded)));
      state := state.(accountA := INITIAL_ACCOUNT_A - amount);
      state := state.(accountB := INITIAL_ACCOUNT_B + amount);
    }

    /** Step 3 of the crash run. */
    method FailureStep()
      modifies this
      ensures state == AfterFailure(old(state))
    {
      state := state.(currentStep := 3);
      AddNarratorMessage(3, ErrorKind);
      AddLog(Critical);
      state := state.(steps := UpdateSteps(state.steps, 3, StepPatch(None, Some(ConnectionTimeout), Some(Failed))));
    }

    /** Step 4 of the crash run. */
    method RollbackStep()
      modifies this
      ensures state == AfterRollbackNotice(old(state))
    {
      state := state.(currentStep := 4);
      AddNarratorMessage(4, WarningKind);
      AddLog(Warn);
      state := state.(steps := UpdateSteps(state.steps, 4, StepPatch(Some(RollbackTitle), Some(Reverting), Some(RolledBack))));
    }

    /** Step 5 of the crash run. */
    method RestoreStep()
      modifies this
      ensures state == AfterRestore(old(state))
    {
      state := state.(currentStep := 5);
      AddNarratorMessage(5, InfoKind);
      AddLog(Info);
      state := state.(tempA := INITIAL_ACCOUNT_A);
      AddLog(Success);
    }

    /** The closing message of a run. */
    method FinalStep(stepIndex: nat)
      modifies this
      ensures state == AfterFinal(old(state), stepIndex)
    {
      AddNarratorMessage(stepIndex, SuccessKind);
      state := state.(running := false);
    }

    /* The steps of `runSuccessSimulation`, each stated against the script `SuccessAfter`. */

    method SuccessIntro(amount: int)
      modifies this
      requires state == Initial(amount)
      ensures state == SuccessAfter(amount, 0) && state.transferAmount == amount
    {
      Intro(amount, SuccessRun, InfoKind);
    }

    method SuccessBegin(amount: int)
      modifies this
      requires state == SuccessAfter(amount, 0) && state.transferAmount == amount
      ensures state == SuccessAfter(amount, 1) && state.transferAmount == amount
    {
      BeginStep();
    }

    method SuccessDebit(amount: int)
      modifies this
      requires state == SuccessAfter(amount, 1) && state.transferAmount == amount
      ensures state == SuccessAfter(amount, 2) && state.transferAmount == amount
    {
      DebitStep(amount);
    }

    method SuccessCredit(amount: int)
      modifies this
      requires state == SuccessAfter(amount, 2) && state.transferAmount == amount
      ensures state == SuccessAfter(amount, 3) && state.transferAmount == amount
    {
      CreditStep(amount);
    }

    method SuccessCommit(amount: int)
      modifies this
      requires state == SuccessAfter(amount, 3) && state.transferAmount == amount
      ensures state == SuccessAfter(amount, 4) && state.transferAmount == amount
    {
      CommitStep(amount);
    }

    method SuccessFinal(amount: int)
      modifies this
      requires state == SuccessAfter(amount, 4) && state.transferAmount == amount
      ensures state == SuccessAfter(amount, 5)
    {
      FinalStep(5);
    }

    /** `runSuccessSimulation`: the run ends where the user's schedule stops it, and the page
        then shows the script up to that step, or the reset page after a Stop. */
    method RunSuccess() returns (outcome: Outcome)
      modifies this, ctl
      ensures outcome.Aborted? <==> ctl.signals.aborted
      ensures outcome.Aborted? ==> state == Initial(old(state.transferAmount))
      ensures outcome.Completed? ==> state == SuccessAfter(old(state.transferAmount), 5)
      ensures outcome.Suspended? ==> outcome.after < 5 && state == SuccessAfter(old(state.transferAmount), outcome.after)
      ensures Reset !in old(ctl.pending) ==> !outcome.Aborted?
      ensures Quiet(old(ctl.pending)) ==> outcome.Completed? && ctl.clock == old(ctl.clock) + 251
    {
      Start();
      var amount := state.transferAmount;
      SuccessIntro(amount);
      var halt := Wait(0);
      if halt.Some? { return halt.value; }
      SuccessBegin(amount);
      halt := Wait(1);
      if halt.Some? { return halt.value; }
      SuccessDebit(amount);
      halt := Wait(2);
      if halt.Some? { return halt.value; }
      SuccessCredit(amount);
      halt := Wait(3);
      if halt.Some? { return halt.value; }
      SuccessCommit(amount);
      halt := Wait(4);
      if halt.Some? { return halt.value; }
      SuccessFinal(amount);
      outcome := Completed;
    }

    /* The steps of `runCrashSimulation`, each stated against the script `CrashAfter`. */

    method CrashIntro(amount: int)
      modifies this
      requires state == Initial(amount)
      ensures state == CrashAfter(amount, 0) && state.transferAmount == amount
    {
      Intro(amount, CrashRun, WarningKind);
    }

    method CrashBegin(amount: int)
      modifies this
      requires state == CrashAfter(amount, 0) && state.transferAmount == amount
      ensures state == CrashAfter(amount, 1) && state.transferAmount == amount
    {
      BeginStep();
    }

    method CrashDebit(amount: int)
      modifies this
      requires state == CrashAfter(amount, 1) && state.transferAmount == amount
      ensures state == CrashAfter(amount, 2) && state.transferAmount == amount
    {
      DebitStep(amount);
    }

    method CrashFailure(amount: int)
      modifies this
      requires state == CrashAfter(amount, 2) && state.transferAmount == amount
      ensures state == CrashAfter(amount, 3) && state.transferAmount == amount
    {
      FailureStep();
    }

    method CrashRollback(amount: int)
      modifies this
      requires state == CrashAfter(amount, 3) && state.transferAmount == amount
      ensures state == CrashAfter(amount, 4) && state.transferAmount == amount
    {
      RollbackStep();
    }

    method CrashRestore(amount: int)
      modifies this
      requires state == CrashAfter(amount, 4) && state.transferAmount == amount
      ensures state == CrashAfter(amount, 5) && state.transferAmount == amount
    {
      RestoreStep();
    }

    method CrashFinal(amount: int)
      modifies this
      requires state == CrashAfter(amount, 5) && state.transferAmount == amount
      ensures state == CrashAfter(amount, 6)
    {
      FinalStep(6);
    }

    /** `runCrashSimulation`: as `RunSuccess`, over the crash script. */
    method RunCrash() returns (outcome: Outcome)
      modifies this, ctl
      ensures outcome.Aborted? <==> ctl.signals.aborted
      ensures outcome.Aborted? ==> state == Initial(old(state.transferAmount))
      ensures outcome.Completed? ==> state == CrashAfter(old(state.transferAmount), 6)
      ensures outcome.Suspended? ==> outcome.after < 6 && state == CrashAfter(old(state.transferAmount), outcome.after)
      ensures Reset !in old(ctl.pending) ==> !outcome.Aborted?
      ensures Quiet(old(ctl.pending)) ==> outcome.Completed? && ctl.clock == old(ctl.clock) + 301
    {
      Start();
      var amount := state.transferAmount;
      CrashIntro(amount);
      var halt := Wait(0);
      if halt.Some? { return halt.value; }
      CrashBegin(amount);
      halt := Wait(1);
      if halt.Some? { return halt.value; }
      CrashDebit(amount);
      halt := Wait(2);
      if halt.Some? { return halt.value; }
      CrashFailure(amount);
      halt := Wait(3);
      if halt.Some? { return halt.value; }
      CrashRollback(amount);
      halt := Wait(4);
      if halt.Some? { return halt.value; }
      CrashRestore(amount);
      halt := Wait(5);
      if halt.Some? { return halt.value; }
      CrashFinal(amount);
      outcome := Completed;
    }
  }
}
