/** The consistency page: a withdrawal from a balance of 1000 is checked against four
    constraints, one after the other, and is applied only if every one of them holds. */
module Consistency {
  import opened Journal
  import opened Sequencer

  const INITIAL_BALANCE: int := 1000

  /** A row of the constraints table; its check is `Check` at the row's position. */
  datatype ConstraintRule = ConstraintRule(id: nat, name: string, description: string, errorMessage: string)

  /** The constraints table, in the order the validator walks it. */
  const CONSTRAINTS: seq<ConstraintRule> := [
    ConstraintRule(1, "Non-Negative Balance", "Account balance cannot go below zero", "Insufficient funds"),
    ConstraintRule(2, "Minimum Balance", "Must maintain \U{20B9}50 minimum", "Minimum balance \U{20B9}50 required"),
    ConstraintRule(3, "Daily Limit", "Max \U{20B9}500 per withdrawal", "Exceeds \U{20B9}500 daily limit"),
    ConstraintRule(4, "Valid Amount", "Amount must be positive", "Invalid amount")
  ]

  /** `constraints[i].check(amount, balance)`. */
  predicate Check(i: nat, amount: int, balance: int)
    requires i < |CONSTRAINTS|
  {
    if i == 0 then balance - amount >= 0
    else if i == 1 then balance - amount >= 50
    else if i == 2 then amount <= 500
    else amount > 0
  }

  datatype ValidationResult = ValidationResult(ruleId: nat, passed: bool, message: string)

  datatype TransactionStatus = Idle | Approved | Rejected

  /** Everything the page holds in state, save presentation (`isPaused`, `showNarrator`). */
  datatype PageState = PageState(balance: int, validating: bool, results: seq<ValidationResult>,
                                 logs: seq<LogEntry>, status: TransactionStatus,
                                 narration: seq<Narration>, active: Option<nat>)

  /** The page as first rendered, and as `resetDemo` leaves it. */
  function Initial(): PageState {
    PageState(INITIAL_BALANCE, false, [], [], TransactionStatus.Idle, [], None)
  }

  function Logged(v: PageState, level: Level): PageState {
    v.(logs := v.logs + [LogEntry(level, None)])
  }

  function Narrated(v: PageState, stepIndex: nat, kind: Kind): PageState {
    v.(narration := v.narration + [Narration(stepIndex, kind)], active := Some(|v.narration|))
  }

  /** The result the validator records for rule `i`. */
  function RuleResult(i: nat, amount: int): ValidationResult
    requires i < |CONSTRAINTS|
  {
    var passed := Check(i, amount, INITIAL_BALANCE);
    ValidationResult(CONSTRAINTS[i].id, passed, if passed then "OK" else CONSTRAINTS[i].errorMessage)
  }

  /** Whether the first `n` rules all hold for the withdrawal. */
  predicate PassedUpTo(amount: int, n: nat)
    requires n <= |CONSTRAINTS|
  {
    n == 0 || (PassedUpTo(amount, n - 1) && Check(n - 1, amount, INITIAL_BALANCE))
  }

  /** The introduction of a validation. */
  function Introduced(): PageState {
    Logged(Narrated(Initial().(validating := true), 0, InfoKind), Info)
  }

  /** The narration and the log line of rule `i`. */
  function RuleNarrated(v: PageState, amount: int, i: nat): PageState
    requires i < |CONSTRAINTS|
  {
    if Check(i, amount, INITIAL_BALANCE) then Logged(Narrated(v, i + 1, SuccessKind), Success)
    else Logged(Narrated(v, i + 1, ErrorKind), Error)
  }

  /** One pass of the validator's loop: narrate and log rule `i`, then show the results so far. */
  function RuleStep(v: PageState, amount: int, i: nat): PageState
    requires i < |CONSTRAINTS|
  {
    RuleNarrated(v, amount, i).(results := v.results + [RuleResult(i, amount)])
  }

  /** The page once the first `n` rules have been checked. */
  function Checked(amount: int, n: nat): PageState
    requires n <= |CONSTRAINTS|
  {
    if n == 0 then Introduced() else RuleStep(Checked(amount, n - 1), amount, n - 1)
  }

  /** The decision after the loop: approve and debit, or reject and leave the balance. */
  function Decided(amount: int): PageState {
    var v := Checked(amount, |CONSTRAINTS|);
    var w := if PassedUpTo(amount, |CONSTRAINTS|)
             then Logged(Narrated(v, 5, SuccessKind), Success).(status := Approved, balance := INITIAL_BALANCE - amount)
             else Logged(Narrated(v, 5, ErrorKind), Warn).(status := Rejected);
    w.(validating := false)
  }

  /** The rules together say: the amount is positive and at most 500. */
  lemma AllPassIff(amount: int)
    ensures PassedUpTo(amount, |CONSTRAINTS|) <==> 0 < amount <= 500
  {
    assert PassedUpTo(amount, 1) == (INITIAL_BALANCE - amount >= 0);
    assert PassedUpTo(amount, 2) == (INITIAL_BALANCE - amount >= 0 && INITIAL_BALANCE - amount >= 50);
    assert PassedUpTo(amount, 3) == (PassedUpTo(amount, 2) && amount <= 500);
    assert PassedUpTo(amount, 4) == (PassedUpTo(amount, 3) && amount > 0);
  }

  /** Checking every rule leaves one result per rule, in table order; a failed rule does not
      stop the ones after it; a result says "OK" exactly when its rule held, and otherwise
      carries that rule's error message. */
  lemma {:induction false} CheckedResults(amount: int, n: nat)
    requires n <= |CONSTRAINTS|
    ensures var rs := Checked(amount, n).results;
      |rs| == n &&
      forall i :: 0 <= i < n ==>
        rs[i].ruleId == i + 1 && rs[i].passed == Check(i, amount, INITIAL_BALANCE) &&
        (rs[i].message == "OK" <==> rs[i].passed) &&
        (!rs[i].passed ==> rs[i].message == CONSTRAINTS[i].errorMessage)
  {
    if n > 0 {
      CheckedResults(amount, n - 1);
      RuleResultSays(n - 1, amount);
      CheckedAppends(amount, n);
    }
  }

  /** Each pass of the validator's loop appends its rule's result. */
  lemma CheckedAppends(amount: int, n: nat)
    requires 0 < n <= |CONSTRAINTS|
    ensures Checked(amount, n).results == Checked(amount, n - 1).results + [RuleResult(n - 1, amount)]
  {
  }

  /** The result of one rule: its id, its verdict, and "OK" or its error message. */
  lemma RuleResultSays(i: nat, amount: int)
    requires i < |CONSTRAINTS|
    ensures var r := RuleResult(i, amount);
      r.ruleId == i + 1 && r.passed == Check(i, amount, INITIAL_BALANCE) &&
      (r.message == "OK" <==> r.passed) && (!r.passed ==> r.message == CONSTRAINTS[i].errorMessage)
  {
    assert CONSTRAINTS[i].errorMessage != "OK";
  }

  /** Checking rules changes nothing but the panels and the results: the balance stays and
      the status stays idle. */
  lemma {:induction false} CheckedKeepsBalance(amount: int, n: nat)
    requires n <= |CONSTRAINTS|
    ensures var v := Checked(amount, n);
      v.balance == INITIAL_BALANCE && v.status == TransactionStatus.Idle && v.validating &&
      |v.narration| == n + 1 && |v.logs| == n + 1
  {
    if n > 0 {
      CheckedKeepsBalance(amount, n - 1);
    }
  }

  /** The balance moves only on approval, and then by exactly the amount. */
  lemma Decision(amount: int)
    ensures var v := Decided(amount);
      !v.validating && |v.results| == |CONSTRAINTS| &&
      (v.status == Approved <==> 0 < amount <= 500) &&
      (v.status == Approved ==> v.balance == INITIAL_BALANCE - amount) &&
      (v.status != Approved ==> v.status == Rejected && v.balance == INITIAL_BALANCE)
  {
    AllPassIff(amount);
    CheckedKeepsBalance(amount, |CONSTRAINTS|);
    CheckedResults(amount, |CONSTRAINTS|);
  }

  /** An approved withdrawal keeps the minimum balance. */
  lemma ApprovedKeepsMinimum(amount: int)
    requires Decided(amount).status == Approved
    ensures Decided(amount).balance >= 50 && 0 < amount <= 500
  {
    Decision(amount);
  }

  /** The minimum-balance rule is the stronger of the two balance rules. */
  lemma MinimumImpliesNonNegative(amount: int, balance: int)
    ensures Check(1, amount, balance) ==> Check(0, amount, balance)
  {
  }

  /** The "Valid" button: 200 passes every rule and leaves 800. */
  lemma ValidButton()
    ensures Decided(200).status == Approved && Decided(200).balance == 800
    ensures forall i :: 0 <= i < |CONSTRAINTS| ==> Checked(200, |CONSTRAINTS|).results[i].passed
  {
    Decision(200);
    CheckedResults(200, |CONSTRAINTS|);
  }

  /** The "Invalid" button: 1100 breaks the first three rules, passes the fourth, and leaves
      the balance at 1000. */
  lemma InvalidButton()
    ensures var rs := Checked(1100, |CONSTRAINTS|).results;
      |rs| == 4 && !rs[0].passed && !rs[1].passed && !rs[2].passed && rs[3].passed
    ensures Decided(1100).status == Rejected && Decided(1100).balance == INITIAL_BALANCE
  {
    Decision(1100);
    CheckedResults(1100, |CONSTRAINTS|);
  }

  /** The consistency page; the user's Pause/Continue and Reset presses come from `ctl`. */
  class Page {
    var state: PageState
    const ctl: Controls

    constructor (schedule: seq<Action>)
      ensures state == Initial()
      ensures fresh(ctl) && ctl.signals == Signals(false, false) && ctl.pending == schedule
    {
      state := Initial();
      ctl := new Controls(schedule);
    }

    /** `resetDemo`: abort any validation, clear the pause, restore the page. */
    method ResetDemo()
      modifies this, ctl
      ensures state == Initial()
      ensures ctl.signals == Signals(false, true) && ctl.pending == old(ctl.pending) && ctl.clock == old(ctl.clock)
    {
      ctl.Abort();
      state := state.(balance := INITIAL_BALANCE, results := [], logs := [], status := TransactionStatus.Idle,
                      narration := [], validating := false, active := None);
    }

    /** `togglePause`. */
    method TogglePause()
      modifies ctl
      ensures ctl.signals == old(ctl.signals).(paused := !old(ctl.signals).paused)
      ensures ctl.pending == old(ctl.pending) && ctl.clock == old(ctl.clock)
    {
      ctl.Toggle();
    }

    method AddLog(level: Level)
      modifies this
      ensures state == Logged(old(state), level)
    {
      state := state.(logs := state.logs + [LogEntry(level, None)]);
    }

    method AddNarratorMessage(stepIndex: nat, kind: Kind)
      modifies this
      ensures state == Narrated(old(state), stepIndex, kind)
    {
      state := state.(narration := state.narration + [Narration(stepIndex, kind)], active := Some(|state.narration|));
    }

    /** A click on narrator message `i`: it becomes the highlighted one. */
    method SelectMessage(i: nat)
      requires i < |state.narration|
      modifies this
      ensures state == old(state).(active := Some(i))
    {
      state := state.(active := Some(i));
    }

    /** `await smartDelay(STEP_DELAY)`; a Reset pressed during the wait has run `resetDemo`. */
    method Wait() returns (stalled: bool)
      modifies this, ctl
      ensures ctl.signals.aborted ==> state == Initial()
      ensures !ctl.signals.aborted ==> state == old(state)
      ensures stalled ==> ctl.signals.paused && !ctl.signals.aborted && ctl.pending == []
      ensures Calm(old(ctl.signals), old(ctl.pending)) ==> Calm(ctl.signals, ctl.pending)
      ensures Still(old(ctl.signals), old(ctl.pending)) ==>
        !stalled && Still(ctl.signals, ctl.pending) && ctl.clock == old(ctl.clock) + 50
    {
      stalled := ctl.StepWait();
      if ctl.signals.aborted {
        state := Initial();
      }
    }

    /** Rule `i` is checked, narrated and logged. */
    method CheckRule(amount: int, i: nat) returns (passed: bool)
      requires i < |CONSTRAINTS|
      modifies this
      ensures passed == Check(i, amount, INITIAL_BALANCE)
      ensures state == RuleNarrated(old(state), amount, i)
    {
      passed := Check(i, amount, INITIAL_BALANCE);
      if passed {
        AddNarratorMessage(i + 1, SuccessKind);
        AddLog(Success);
      } else {
        AddNarratorMessage(i + 1, ErrorKind);
        AddLog(Error);
      }
    }

    /** Rule `i`'s result is pushed onto the local results and shown. */
    method RecordResult(results: seq<ValidationResult>, amount: int, i: nat, passed: bool) returns (r: seq<ValidationResult>)
      requires i < |CONSTRAINTS| && passed == Check(i, amount, INITIAL_BALANCE)
      modifies this
      ensures r == results + [RuleResult(i, amount)]
      ensures state == old(state).(results := r)
    {
      var constraint := CONSTRAINTS[i];
      r := results + [ValidationResult(constraint.id, passed, if passed then "OK" else constraint.errorMessage)];
      state := state.(results := r);
    }

    /** `validateTransaction(amount, isValid)`: the page ends as the user's schedule leaves
        it, after every rule has been checked and the decision taken, after fewer rules if
        paused for good, or reset after a Reset. `isValid` plays no part. */
    method ValidateTransaction(amount: int, isValid: bool) returns (outcome: Outcome)
      modifies this, ctl
      ensures outcome.Aborted? <==> ctl.signals.aborted
      ensures outcome.Aborted? ==> state == Initial()
      ensures outcome.Completed? ==> state == Decided(amount)
      ensures outcome.Suspended? ==> outcome.after <= |CONSTRAINTS| && state == Checked(amount, outcome.after)
      ensures Reset !in old(ctl.pending) ==> !outcome.Aborted?
      ensures Quiet(old(ctl.pending)) ==> outcome.Completed? && ctl.clock == old(ctl.clock) + 251
    {
      ghost var calm, still, clock0 := Reset !in ctl.pending, Quiet(ctl.pending), ctl.clock;
      ResetDemo();
      ctl.Arm();
      state := state.(validating := true);
      AddNarratorMessage(0, InfoKind);
      AddLog(Info);
      var stalled := Wait();
      if ctl.signals.aborted { return Aborted; }
      if stalled { return Suspended(0); }

      var allPassed := true;
      var results: seq<ValidationResult> := [];
      for i := 0 to |CONSTRAINTS|
        invariant ctl.signals.aborted ==> state == Initial()
        invariant !ctl.signals.aborted ==> state == Checked(amount, i) && results == state.results
        invariant allPassed == PassedUpTo(amount, i)
        invariant calm ==> Calm(ctl.signals, ctl.pending)
        invariant still ==> Still(ctl.signals, ctl.pending) && ctl.clock == clock0 + 51 + 50 * i
      {
        if ctl.signals.aborted { return Aborted; }
        var passed := CheckRule(amount, i);
        if !passed {
          allPassed := false;
        }
        results := RecordResult(results, amount, i, passed);
        stalled := Wait();
        if stalled { return Suspended(i + 1); }
      }

      if ctl.signals.aborted { return Aborted; }

      if allPassed {
        AddNarratorMessage(5, SuccessKind);
        AddLog(Success);
        state := state.(status := Approved, balance := INITIAL_BALANCE - amount);
      } else {
        AddNarratorMessage(5, ErrorKind);
        AddLog(Warn);
        state := state.(status := Rejected);
      }
      state := state.(validating := false);
      outcome := Completed;
    }
  }
}
