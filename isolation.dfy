/** The isolation page: two transactions, T1 and T2, on one shared value, played out in a
    fixed schedule for each of four isolation levels. */
module Isolation {
  import opened Journal
  import opened Sequencer

  datatype IsolationLevel = ReadUncommitted | ReadCommitted | RepeatableRead | Serializable

  datatype TxStatus = Waiting | Reading | Writing | Committed | Blocked

  /** The two transaction ids, `"T1"` and `"T2"`. */
  datatype TxId = T1 | T2

  /** A transaction; its display `name` is fixed by its id and is not part of the model. */
  datatype Transaction = Transaction(id: TxId, status: TxStatus, readValue: Option<int>)

  /** A `Partial<Transaction>` as the scripts pass them: a new status, a new read value
      (which may be `null`), or both. */
  datatype TxUpdate = TxUpdate(status: Option<TxStatus>, readValue: Option<Option<int>>)

  const INITIAL_VALUE: int := 100

  /** The two transactions, under their fixed ids and names. */
  function Pair(s1: TxStatus, r1: Option<int>, s2: TxStatus, r2: Option<int>): seq<Transaction> {
    [Transaction(T1, s1, r1), Transaction(T2, s2, r2)]
  }

  /** Everything the page holds in state, save presentation (`isPaused`, `showNarrator`). */
  datatype PageState = PageState(shared: int, isolation: IsolationLevel, running: bool,
                                 txs: seq<Transaction>, logs: seq<LogEntry>, narration: seq<Narration>,
                                 active: Option<nat>, result: Option<Verdict>, anomaly: Option<Anomaly>)

  /** The page as `resetDemo` leaves it; the selected level is kept. */
  function Initial(level: IsolationLevel): PageState {
    PageState(INITIAL_VALUE, level, false, Pair(Waiting, None, Waiting, None), [], [], None, None, None)
  }

  /** The value an optional field of an update gives, `d` when the update leaves it out. */
  function Pick<T>(o: Option<T>, d: T): T {
    if o.Some? then o.value else d
  }

  /** A transaction with an update merged in: each field the update carries replaces its own. */
  function Merge(tx: Transaction, u: TxUpdate): Transaction {
    tx.(status := Pick(u.status, tx.status), readValue := Pick(u.readValue, tx.readValue))
  }

  /** `updateTransaction`: the update merged into every transaction with the given id. */
  function UpdateTransaction(txs: seq<Transaction>, id: TxId, u: TxUpdate): seq<Transaction> {
    seq(|txs|, i requires 0 <= i < |txs| => if txs[i].id == id then Merge(txs[i], u) else txs[i])
  }

  /** The update keeps the list's length and every id; a transaction with the given
      id takes each field the update carries and keeps the others; every other transaction
      is left as it was. */
  lemma UpdateTransactionMerges(txs: seq<Transaction>, id: TxId, u: TxUpdate)
    ensures var r := UpdateTransaction(txs, id, u);
      |r| == |txs| &&
      (forall i :: 0 <= i < |txs| ==> r[i].id == txs[i].id) &&
      (forall i :: 0 <= i < |txs| && txs[i].id != id ==> r[i] == txs[i]) &&
      (forall i :: 0 <= i < |txs| && txs[i].id == id ==>
        (u.status.Some? ==> r[i].status == u.status.value) &&
        (u.status.None? ==> r[i].status == txs[i].status) &&
        (u.readValue.Some? ==> r[i].readValue == u.readValue.value) &&
        (u.readValue.None? ==> r[i].readValue == txs[i].readValue))
  {
  }

  /** On the page's two transactions, an update by id touches exactly the one it names. */
  lemma UpdateFirst(s1: TxStatus, r1: Option<int>, s2: TxStatus, r2: Option<int>, u: TxUpdate)
    ensures UpdateTransaction(Pair(s1, r1, s2, r2), T1, u) == Pair(Pick(u.status, s1), Pick(u.readValue, r1), s2, r2)
  {
  }

  lemma UpdateSecond(s1: TxStatus, r1: Option<int>, s2: TxStatus, r2: Option<int>, u: TxUpdate)
    ensures UpdateTransaction(Pair(s1, r1, s2, r2), T2, u) == Pair(s1, r1, Pick(u.status, s2), Pick(u.readValue, r2))
  {
  }

  function ToStatus(s: TxStatus): TxUpdate { TxUpdate(Some(s), None) }
  function ToRead(s: TxStatus, value: int): TxUpdate { TxUpdate(Some(s), Some(Some(value))) }

  // ---------------------------------------------------------------------------------------
  // The four scripts

  function Logged(v: PageState, level: Level, tx: Option<string>): PageState {
    v.(logs := v.logs + [LogEntry(level, tx)])
  }

  function Narrated(v: PageState, stepIndex: nat, kind: Kind): PageState {
    v.(narration := v.narration + [Narration(stepIndex, kind)], active := Some(|v.narration|))
  }

  function Updated(v: PageState, id: TxId, u: TxUpdate): PageState {
    v.(txs := UpdateTransaction(v.txs, id, u))
  }

  /** The transaction tag of a log line. */
  const TAG1: Option<string> := Some("T1")
  const TAG2: Option<string> := Some("T2")

  /** The category of a level's opening and closing narrator messages. */
  function OpeningKind(level: IsolationLevel): Kind {
    if level == ReadUncommitted then WarningKind else InfoKind
  }

  function ClosingKind(level: IsolationLevel): Kind {
    if level == ReadUncommitted then ErrorKind else SuccessKind
  }

  /** The `demoResult` a run ends with, one per level. */
  datatype Verdict = UncommittedData | NoDirtyReads | ConsistentSnapshot | RanSequentially

  /** The anomaly a run can flag; it shows as "Dirty Read". */
  datatype Anomaly = DirtyRead

  function VerdictOf(level: IsolationLevel): Verdict {
    match level
      case ReadUncommitted => UncommittedData
      case ReadCommitted => NoDirtyReads
      case RepeatableRead => ConsistentSnapshot
      case Serializable => RanSequentially
  }

  /** The text of a verdict: a "PROBLEM: " or "SUCCESS: " tag and an explanation. */
  function VerdictText(v: Verdict): string {
    match v
      case UncommittedData => "PROBLEM: " + "T2 read uncommitted data. This is why Read Uncommitted is rarely used!"
      case NoDirtyReads => "SUCCESS: " + "No dirty reads. T2 only saw committed values."
      case ConsistentSnapshot => "SUCCESS: " + "T2 saw consistent data (100) even though T1 changed it to 200."
      case RanSequentially => "SUCCESS: " + "Transactions ran sequentially. Safest but slowest."
  }

  /** Only the Read Uncommitted run reports a problem; every other level reports success. */
  lemma OnlyReadUncommittedFails(level: IsolationLevel)
    ensures "PROBLEM: " <= VerdictText(VerdictOf(level)) <==> level == ReadUncommitted
    ensures "SUCCESS: " <= VerdictText(VerdictOf(level)) <==> level != ReadUncommitted
  {
    var t := VerdictText(VerdictOf(level));
    if level == ReadUncommitted {
      assert t[0] == 'P';
      assert "SUCCESS: "[0] == 'S';
    } else {
      assert t[0] == 'S';
      assert "PROBLEM: "[0] == 'P';
    }
  }

  /** Step 1 to 4 of Read Uncommitted: a write, a read, the dirty read, the rollback. */
  function ReadUncommittedStep(v: PageState, k: nat): PageState {
    if k == 1 then
      Logged(Logged(Updated(Narrated(v, 1, InfoKind), T1, ToStatus(Writing)), Info, TAG1), Info, TAG1).(shared := 200)
    else if k == 2 then
      Logged(Updated(Narrated(v, 2, InfoKind), T2, ToStatus(Reading)), Info, TAG2)
    else if k == 3 then
      Logged(Updated(Narrated(v, 3, ErrorKind), T2, TxUpdate(None, Some(Some(200)))), Error, TAG2)
        .(anomaly := Some(DirtyRead))
    else
      var w := Logged(Narrated(v, 4, ErrorKind), Error, TAG1).(shared := 100);
      Updated(Updated(w, T1, TxUpdate(Some(Waiting), Some(None))), T2, ToStatus(Committed))
  }

  /** Step 1 to 4 of Read Committed: a write, a committed read, the check, the commit. */
  function ReadCommittedStep(v: PageState, k: nat): PageState {
    if k == 1 then
      Logged(Updated(Narrated(v, 1, InfoKind), T1, ToStatus(Writing)), Info, TAG1)
    else if k == 2 then
      Logged(Logged(Updated(Narrated(v, 2, InfoKind), T2, ToRead(Reading, 100)), Info, TAG2), Success, TAG2)
    else if k == 3 then
      Narrated(v, 3, SuccessKind)
    else
      var w := Logged(Narrated(v, 4, SuccessKind).(shared := 200), Success, TAG1);
      Updated(Updated(w, T1, ToStatus(Committed)), T2, ToRead(Committed, 200))
  }

  /** Step 1 to 4 of Repeatable Read: the snapshot read, a committed write, the re-read. */
  function RepeatableReadStep(v: PageState, k: nat): PageState {
    if k == 1 then
      Logged(Logged(Updated(Narrated(v, 1, InfoKind), T2, ToRead(Reading, 100)), Info, TAG2), Success, TAG2)
    else if k == 2 then
      var w := Logged(Updated(Narrated(v, 2, InfoKind), T1, ToStatus(Writing)), Info, TAG1).(shared := 200);
      Updated(Logged(w, Success, TAG1), T1, ToStatus(Committed))
    else if k == 3 then
      Narrated(v, 3, InfoKind)
    else
      Updated(Logged(Narrated(v, 4, SuccessKind), Success, TAG2), T2, ToStatus(Committed))
  }

  /** Step 1 to 4 of Serializable: T1 locks, T2 blocks, T1 commits, T2 reads. */
  function SerializableStep(v: PageState, k: nat): PageState {
    if k == 1 then
      Logged(Logged(Updated(Narrated(v, 1, InfoKind), T1, ToRead(Reading, 100)), Info, TAG1), Success, TAG1)
    else if k == 2 then
      Logged(Logged(Updated(Narrated(v, 2, WarningKind), T2, ToStatus(Blocked)), Info, TAG2), Warn, TAG2)
    else if k == 3 then
      var w := Updated(Narrated(v, 3, InfoKind), T1, ToStatus(Writing)).(shared := 150);
      Updated(Logged(Logged(w, Info, TAG1), Success, TAG1), T1, ToStatus(Committed))
    else
      var w := Updated(Narrated(v, 4, SuccessKind), T2, ToRead(Reading, 150));
      Updated(Logged(w, Success, TAG2), T2, ToStatus(Committed))
  }

  /** `runDemo` on `level` after its step `k`: the opening, four steps, the verdict. */
  function After(level: IsolationLevel, k: nat): PageState
    requires k <= 5
  {
    if k == 0 then Logged(Narrated(Initial(level).(running := true), 0, OpeningKind(level)), Info, None)
    else
      var v := After(level, k - 1);
      if k == 5 then Narrated(v, 5, ClosingKind(level)).(result := Some(VerdictOf(level)), running := false)
      else match level
        case ReadUncommitted => ReadUncommittedStep(v, k)
        case ReadCommitted => ReadCommittedStep(v, k)
        case RepeatableRead => RepeatableReadStep(v, k)
        case Serializable => SerializableStep(v, k)
  }

  /** Read Uncommitted: T2 reads the 200 T1 wrote while T1 is still writing, the anomaly is
      flagged from then on, and T1's rollback puts the value back to 100 with T1 waiting:
      T1 never commits, so T2 read a value that was never committed. */
  lemma {:induction false} ReadUncommittedDirtyRead(k: nat)
    requires k <= 5
    ensures var v := After(ReadUncommitted, k);
      v.isolation == ReadUncommitted &&
      v.shared == (if 1 <= k <= 3 then 200 else 100) &&
      v.anomaly == (if k >= 3 then Some(DirtyRead) else None) &&
      (k == 0 ==> v.txs == Pair(Waiting, None, Waiting, None)) &&
      (k == 1 ==> v.txs == Pair(Writing, None, Waiting, None)) &&
      (k == 2 ==> v.txs == Pair(Writing, None, Reading, None)) &&
      (k == 3 ==> v.txs == Pair(Writing, None, Reading, Some(200))) &&
      (k >= 4 ==> v.txs == Pair(Waiting, None, Committed, Some(200)))
  {
    if k == 1 { ReadUncommittedDirtyRead(0); UpdateFirst(Waiting, None, Waiting, None, ToStatus(Writing)); }
    else if k == 2 { ReadUncommittedDirtyRead(1); UpdateSecond(Writing, None, Waiting, None, ToStatus(Reading)); }
    else if k == 3 {
      ReadUncommittedDirtyRead(2);
      UpdateSecond(Writing, None, Reading, None, TxUpdate(None, Some(Some(200))));
    } else if k == 4 {
      ReadUncommittedDirtyRead(3);
      UpdateFirst(Writing, None, Reading, Some(200), TxUpdate(Some(Waiting), Some(None)));
      UpdateSecond(Waiting, None, Reading, Some(200), ToStatus(Committed));
    } else if k == 5 { ReadUncommittedDirtyRead(4); }
  }

  /** Read Committed: T2's read returns the committed 100 while T1's 200 is uncommitted; the
      value becomes 200 only at T1's commit, and T2 then sees 200. No anomaly is flagged. */
  lemma {:induction false} ReadCommittedHidesWrite(k: nat)
    requires k <= 5
    ensures var v := After(ReadCommitted, k);
      v.isolation == ReadCommitted && v.anomaly == None &&
      v.shared == (if k >= 4 then 200 else 100) &&
      (k == 0 ==> v.txs == Pair(Waiting, None, Waiting, None)) &&
      (k == 1 ==> v.txs == Pair(Writing, None, Waiting, None)) &&
      (2 <= k <= 3 ==> v.txs == Pair(Writing, None, Reading, Some(100))) &&
      (k >= 4 ==> v.txs == Pair(Committed, None, Committed, Some(200)))
  {
    if k == 1 { ReadCommittedHidesWrite(0); UpdateFirst(Waiting, None, Waiting, None, ToStatus(Writing)); }
    else if k == 2 { ReadCommittedHidesWrite(1); UpdateSecond(Writing, None, Waiting, None, ToRead(Reading, 100)); }
    else if k == 3 { ReadCommittedHidesWrite(2); }
    else if k == 4 {
      ReadCommittedHidesWrite(3);
      UpdateFirst(Writing, None, Reading, Some(100), ToStatus(Committed));
      UpdateSecond(Committed, None, Reading, Some(100), ToRead(Committed, 200));
    } else if k == 5 { ReadCommittedHidesWrite(4); }
  }

  /** Repeatable Read: T2's snapshot read of 100 stays 100 after T1 commits 200; the later
      step changes only T2's status. No anomaly is flagged. */
  lemma {:induction false} RepeatableReadKeepsSnapshot(k: nat)
    requires k <= 5
    ensures var v := After(RepeatableRead, k);
      v.isolation == RepeatableRead && v.anomaly == None &&
      v.shared == (if k >= 2 then 200 else 100) &&
      (k == 0 ==> v.txs == Pair(Waiting, None, Waiting, None)) &&
      (k == 1 ==> v.txs == Pair(Waiting, None, Reading, Some(100))) &&
      (2 <= k <= 3 ==> v.txs == Pair(Committed, None, Reading, Some(100))) &&
      (k >= 4 ==> v.txs == Pair(Committed, None, Committed, Some(100)))
  {
    if k == 1 { RepeatableReadKeepsSnapshot(0); UpdateSecond(Waiting, None, Waiting, None, ToRead(Reading, 100)); }
    else if k == 2 {
      RepeatableReadKeepsSnapshot(1);
      UpdateFirst(Waiting, None, Reading, Some(100), ToStatus(Writing));
      UpdateFirst(Writing, None, Reading, Some(100), ToStatus(Committed));
    } else if k == 3 { RepeatableReadKeepsSnapshot(2); }
    else if k == 4 { RepeatableReadKeepsSnapshot(3); UpdateSecond(Committed, None, Reading, Some(100), ToStatus(Committed)); }
    else if k == 5 { RepeatableReadKeepsSnapshot(4); }
  }

  /** Serializable: T2 is blocked while T1 holds the lock, and reads 150 only after T1 has
      written 150 and committed. No anomaly is flagged. */
  lemma {:induction false} SerializableWaits(k: nat)
    requires k <= 5
    ensures var v := After(Serializable, k);
      v.isolation == Serializable && v.anomaly == None &&
      v.shared == (if k >= 3 then 150 else 100) &&
      (k == 0 ==> v.txs == Pair(Waiting, None, Waiting, None)) &&
      (k == 1 ==> v.txs == Pair(Reading, Some(100), Waiting, None)) &&
      (k == 2 ==> v.txs == Pair(Reading, Some(100), Blocked, None)) &&
      (k == 3 ==> v.txs == Pair(Committed, Some(100), Blocked, None)) &&
      (k >= 4 ==> v.txs == Pair(Committed, Some(100), Committed, Some(150)))
  {
    if k == 1 { SerializableWaits(0); UpdateFirst(Waiting, None, Waiting, None, ToRead(Reading, 100)); }
    else if k == 2 { SerializableWaits(1); UpdateSecond(Reading, Some(100), Waiting, None, ToStatus(Blocked)); }
    else if k == 3 {
      SerializableWaits(2);
      UpdateFirst(Reading, Some(100), Blocked, None, ToStatus(Writing));
      UpdateFirst(Writing, Some(100), Blocked, None, ToStatus(Committed));
    } else if k == 4 {
      SerializableWaits(3);
      UpdateSecond(Committed, Some(100), Blocked, None, ToRead(Reading, 150));
      UpdateSecond(Committed, Some(100), Reading, Some(150), ToStatus(Committed));
    } else if k == 5 { SerializableWaits(4); }
  }

  /** The anomaly flag is raised by Read Uncommitted alone, and there from its dirty read on. */
  lemma AnomalyOnlyWhenDirty(level: IsolationLevel, k: nat)
    requires k <= 5
    ensures After(level, k).anomaly.Some? <==> level == ReadUncommitted && k >= 3
  {
    match level
      case ReadUncommitted => ReadUncommittedDirtyRead(k);
      case ReadCommitted => ReadCommittedHidesWrite(k);
      case RepeatableRead => RepeatableReadKeepsSnapshot(k);
      case Serializable => SerializableWaits(k);
  }

  // ---------------------------------------------------------------------------------------
  // The page

  /** The isolation page; the user's Pause/Continue and Reset presses come from `ctl`. */
  class Page {
    var state: PageState
    const ctl: Controls

    constructor (schedule: seq<Action>)
      ensures state == Initial(ReadUncommitted)
      ensures fresh(ctl) && ctl.signals == Signals(false, false) && ctl.pending == schedule
    {
      state := Initial(ReadUncommitted);
      ctl := new Controls(schedule);
    }

    /** `resetDemo`: abort any run, clear the pause, restore the value and both transactions. */
    method ResetDemo()
      modifies this, ctl
      ensures state == Initial(old(state.isolation))
      ensures ctl.signals == Signals(false, true) && ctl.pending == old(ctl.pending) && ctl.clock == old(ctl.clock)
    {
      ctl.Abort();
      state := state.(shared := INITIAL_VALUE, txs := Pair(Waiting, None, Waiting, None), logs := [], narration := [],
                      result := None, anomaly := None, running := false, active := None);
    }

    /** A click on a level button, disabled while a run is on: select it and reset. */
    method SelectLevel(level: IsolationLevel)
      requires !state.running
      modifies this, ctl
      ensures state == Initial(level)
      ensures ctl.signals == Signals(false, true) && ctl.pending == old(ctl.pending) && ctl.clock == old(ctl.clock)
    {
      state := state.(isolation := level);
      ResetDemo();
    }

    /** `togglePause`. */
    method TogglePause()
      modifies ctl
      ensures ctl.signals == old(ctl.signals).(paused := !old(ctl.signals).paused)
      ensures ctl.pending == old(ctl.pending) && ctl.clock == old(ctl.clock)
    {
      ctl.Toggle();
    }

    method AddLog(level: Level, tx: Option<string>)
      modifies this
      ensures state == Logged(old(state), level, tx)
    {
      state := state.(logs := state.logs + [LogEntry(level, tx)]);
    }

    method AddNarratorMessage(stepIndex: nat, kind: Kind)
      modifies this
      ensures state == Narrated(old(state), stepIndex, kind)
    {
      state := state.(narration := state.narration + [Narration(stepIndex, kind)], active := Some(|state.narration|));
    }

    /** A click on narrator message `i`: it becomes the highlighted one. */
    method SelectMessage(i: nat)
      requires i < |state.narration|
      modifies this
      ensures state == old(state).(active := Some(i))
    {
      state := state.(active := Some(i));
    }

    method UpdateTransaction(id: TxId, u: TxUpdate)
      modifies this
      ensures state == Updated(old(state), id, u)
    {
      state := Updated(state, id, u);
    }

    method SetShared(value: int)
      modifies this
      ensures state == old(state).(shared := value)
    {
      state := state.(shared := value);
    }

    /** `await smartDelay(STEP_DELAY); if (abortRef.current) return;` after step `after`. */
    method Wait(after: nat) returns (halt: Option<Outcome>)
      modifies this, ctl
      ensures halt == None || halt == Some(Aborted) || halt == Some(Suspended(after))
      ensures halt == Some(Aborted) <==> ctl.signals.aborted
      ensures halt == Some(Aborted) ==> state == Initial(old(state.isolation))
      ensures halt != Some(Aborted) ==> state == old(state)
      ensures halt == Some(Suspended(after)) ==> ctl.signals.paused && ctl.pending == []
      ensures Calm(old(ctl.signals), old(ctl.pending)) ==> Calm(ctl.signals, ctl.pending)
      ensures Still(old(ctl.signals), old(ctl.pending)) ==>
        halt == None && Still(ctl.signals, ctl.pending) && ctl.clock == old(ctl.clock) + 50
    {
      var stalled := ctl.StepWait();
      if ctl.signals.aborted {
        state := Initial(state.isolation);
        return Some(Aborted);
      }
      if stalled {
        return Some(Suspended(after));
      }
      halt := None;
    }

    /** Step 0 of every level. */
    method Open(level: IsolationLevel)
      modifies this
      requires state == Initial(level)
      ensures state == After(level, 0)
    {
      state := state.(running := true);
      AddNarratorMessage(0, OpeningKind(level));
      AddLog(Info, None);
    }

    /** Step 5 of every level, and the end of `runDemo`. */
    method Close(level: IsolationLevel)
      modifies this
      requires state == After(level, 4)
      ensures state == After(level, 5)
    {
      AddNarratorMessage(5, ClosingKind(level));
      state := state.(result := Some(VerdictOf(level)));
      state := state.(running := false);
    }

    /* The Read Uncommitted branch, step by step against `After`. */

    method UncommittedWrite()
      modifies this
      requires state == After(ReadUncommitted, 0)
      ensures state == After(ReadUncommitted, 1)
    {
      AddNarratorMessage(1, InfoKind);
      UpdateTransaction(T1, ToStatus(Writing));
      AddLog(Info, TAG1);
      AddLog(Info, TAG1);
      SetShared(200);
    }

    method UncommittedBegin()
      modifies this
      requires state == After(ReadUncommitted, 1)
      ensures state == After(ReadUncommitted, 2)
    {
      AddNarratorMessage(2, InfoKind);
      UpdateTransaction(T2, ToStatus(Reading));
      AddLog(Info, TAG2);
    }

    method UncommittedRead()
      modifies this
      requires state == After(ReadUncommitted, 2)
      ensures state == After(ReadUncommitted, 3)
    {
      AddNarratorMessage(3, ErrorKind);
      UpdateTransaction(T2, TxUpdate(None, Some(Some(200))));
      AddLog(Error, TAG2);
      state := state.(anomaly := Some(DirtyRead));
    }

    method UncommittedRollback()
      modifies this
      requires state == After(ReadUncommitted, 3)
      ensures state == After(ReadUncommitted, 4)
    {
      AddNarratorMessage(4, ErrorKind);
      AddLog(Error, TAG1);
      SetShared(100);
      UpdateTransaction(T1, TxUpdate(Some(Waiting), Some(None)));
      UpdateTransaction(T2, ToStatus(Committed));
    }

    /* The Read Committed branch. */

    method CommittedWrite()
      modifies this
      requires state == After(ReadCommitted, 0)
      ensures state == After(ReadCommitted, 1)
    {
      AddNarratorMessage(1, InfoKind);
      UpdateTransaction(T1, ToStatus(Writing));
      AddLog(Info, TAG1);
    }

    method CommittedRead()
      modifies this
      requires state == After(ReadCommitted, 1)
      ensures state == After(ReadCommitted, 2)
    {
      AddNarratorMessage(2, InfoKind);
      UpdateTransaction(T2, ToRead(Reading, 100));
      AddLog(Info, TAG2);
      AddLog(Success, TAG2);
    }

    method CommittedCheck()
      modifies this
      requires state == After(ReadCommitted, 2)
      ensures state == After(ReadCommitted, 3)
    {
      AddNarratorMessage(3, SuccessKind);
    }

    method CommittedCommit()
      modifies this
      requires state == After(ReadCommitted, 3)
      ensures state == After(ReadCommitted, 4)
    {
      AddNarratorMessage(4, SuccessKind);
      SetShared(200);
      AddLog(Success, TAG1);
      UpdateTransaction(T1, ToStatus(Committed));
      UpdateTransaction(T2, ToRead(Committed, 200));
    }

    /* The Repeatable Read branch. */

    method RepeatableSnapshot()
      modifies this
      requires state == After(RepeatableRead, 0)
      ensures state == After(RepeatableRead, 1)
    {
      AddNarratorMessage(1, InfoKind);
      UpdateTransaction(T2, ToRead(Reading, 100));
      AddLog(Info, TAG2);
      AddLog(Success, TAG2);
    }

    method RepeatableWrite()
      modifies this
      requires state == After(RepeatableRead, 1)
      ensures state == After(RepeatableRead, 2)
    {
      AddNarratorMessage(2, InfoKind);
      UpdateTransaction(T1, ToStatus(Writing));
      AddLog(Info, TAG1);
      SetShared(200);
      AddLog(Success, TAG1);
      UpdateTransaction(T1, ToStatus(Committed));
    }

    method RepeatableAgain()
      modifies this
      requires state == After(RepeatableRead, 2)
      ensures state == After(RepeatableRead, 3)
    {
      AddNarratorMessage(3, InfoKind);
    }

    method RepeatableReread()
      modifies this
      requires state == After(RepeatableRead, 3)
      ensures state == After(RepeatableRead, 4)
    {
      AddNarratorMessage(4, SuccessKind);
      AddLog(Success, TAG2);
      UpdateTransaction(T2, ToStatus(Committed));
    }

    /* The Serializable branch. */

    method SerialLock()
      modifies this
      requires state == After(Serializable, 0)
      ensures state == After(Serializable, 1)
    {
      AddNarratorMessage(1, InfoKind);
      UpdateTransaction(T1, ToRead(Reading, 100));
      AddLog(Info, TAG1);
      AddLog(Success, TAG1);
    }

    method SerialBlock()
      modifies this
      requires state == After(Serializable, 1)
      ensures state == After(Serializable, 2)
    {
      AddNarratorMessage(2, WarningKind);
      UpdateTransaction(T2, ToStatus(Blocked));
      AddLog(Info, TAG2);
      AddLog(Warn, TAG2);
    }

    method SerialCommit()
      modifies this
      requires state == After(Serializable, 2)
      ensures state == After(Serializable, 3)
    {
      AddNarratorMessage(3, InfoKind);
      UpdateTransaction(T1, ToStatus(Writing));
      SetShared(150);
      AddLog(Info, TAG1);
      AddLog(Success, TAG1);
      UpdateTransaction(T1, ToStatus(Committed));
    }

    method SerialRead()
      modifies this
      requires state == After(Serializable, 3)
      ensures state == After(Serializable, 4)
    {
      AddNarratorMessage(4, SuccessKind);
      UpdateTransaction(T2, ToRead(Reading, 150));
      AddLog(Success, TAG2);
      UpdateTransaction(T2, ToStatus(Committed));
    }

    /** The `read_uncommitted` branch of `runDemo`. */
    method PlayReadUncommitted() returns (outcome: Outcome)
      modifies this, ctl
      requires state == Initial(ReadUncommitted)
      ensures outcome.Aborted? <==> ctl.signals.aborted
      ensures outcome.Aborted? ==> state == Initial(ReadUncommitted)
      ensures outcome.Completed? ==> state == After(ReadUncommitted, 5)
      ensures outcome.Suspended? ==> outcome.after < 5 && state == After(ReadUncommitted, outcome.after)
      ensures Calm(old(ctl.signals), old(ctl.pending)) ==> !outcome.Aborted?
      ensures Still(old(ctl.signals), old(ctl.pending)) ==> outcome.Completed? && ctl.clock == old(ctl.clock) + 250
    {
      Open(ReadUncommitted);
      var halt := Wait(0);
      if halt.Some? { return halt.value; }
      UncommittedWrite();
      halt := Wait(1);
      if halt.Some? { return halt.value; }
      UncommittedBegin();
      halt := Wait(2);
      if halt.Some? { return halt.value; }
      UncommittedRead();
      halt := Wait(3);
      if halt.Some? { return halt.value; }
      UncommittedRollback();
      halt := Wait(4);
      if halt.Some? { return halt.value; }
      Close(ReadUncommitted);
      outcome := Completed;
    }

    /** The `read_committed` branch of `runDemo`. */
    method PlayReadCommitted() returns (outcome: Outcome)
      modifies this, ctl
      requires state == Initial(ReadCommitted)
      ensures outcome.Aborted? <==> ctl.signals.aborted
      ensures outcome.Aborted? ==> state == Initial(ReadCommitted)
      ensures outcome.Completed? ==> state == After(ReadCommitted, 5)
      ensures outcome.Suspended? ==> outcome.after < 5 && state == After(ReadCommitted, outcome.after)
      ensures Calm(old(ctl.signals), old(ctl.pending)) ==> !outcome.Aborted?
      ensures Still(old(ctl.signals), old(ctl.pending)) ==> outcome.Completed? && ctl.clock == old(ctl.clock) + 250
    {
      Open(ReadCommitted);
      var halt := Wait(0);
      if halt.Some? { return halt.value; }
      CommittedWrite();
      halt := Wait(1);
      if halt.Some? { return halt.value; }
      CommittedRead();
      halt := Wait(2);
      if halt.Some? { return halt.value; }
      CommittedCheck();
      halt := Wait(3);
      if halt.Some? { return halt.value; }
      CommittedCommit();
      halt := Wait(4);
      if halt.Some? { return halt.value; }
      Close(ReadCommitted);
      outcome := Completed;
    }

    /** The `repeatable_read` branch of `runDemo`. */
    method PlayRepeatableRead() returns (outcome: Outcome)
      modifies this, ctl
      requires state == Initial(RepeatableRead)
      ensures outcome.Aborted? <==> ctl.signals.aborted
      ensures outcome.Aborted? ==> state == Initial(RepeatableRead)
      ensures outcome.Completed? ==> state == After(RepeatableRead, 5)
      ensures outcome.Suspended? ==> outcome.after < 5 && state == After(RepeatableRead, outcome.after)
      ensures Calm(old(ctl.signals), old(ctl.pending)) ==> !outcome.Aborted?
      ensures Still(old(ctl.signals), old(ctl.pending)) ==> outcome.Completed? && ctl.clock == old(ctl.clock) + 250
    {
      Open(RepeatableRead);
      var halt := Wait(0);
      if halt.Some? { return halt.value; }
      RepeatableSnapshot();
      halt := Wait(1);
      if halt.Some? { return halt.value; }
      RepeatableWrite();
      halt := Wait(2);
      if halt.Some? { return halt.value; }
      RepeatableAgain();
      halt := Wait(3);
      if halt.Some? { return halt.value; }
      RepeatableReread();
      halt := Wait(4);
      if halt.Some? { return halt.value; }
      Close(RepeatableRead);
      outcome := Completed;
    }

    /** The last branch of `runDemo`, Serializable. */
    method PlaySerializable() returns (outcome: Outcome)
      modifies this, ctl
      requires state == Initial(Serializable)
      ensures outcome.Aborted? <==> ctl.signals.aborted
      ensures outcome.Aborted? ==> state == Initial(Serializable)
      ensures outcome.Completed? ==> state == After(Serializable, 5)
      ensures outcome.Suspended? ==> outcome.after < 5 && state == After(Serializable, outcome.after)
      ensures Calm(old(ctl.signals), old(ctl.pending)) ==> !outcome.Aborted?
      ensures Still(old(ctl.signals), old(ctl.pending)) ==> outcome.Completed? && ctl.clock == old(ctl.clock) + 250
    {
      Open(Serializable);
      var halt := Wait(0);
      if halt.Some? { return halt.value; }
      SerialLock();
      halt := Wait(1);
      if halt.Some? { return halt.value; }
      SerialBlock();
      halt := Wait(2);
      if halt.Some? { return halt.value; }
      SerialCommit();
      halt := Wait(3);
      if halt.Some? { return halt.value; }
      SerialRead();
      halt := Wait(4);
      if halt.Some? { return halt.value; }
      Close(Serializable);
      outcome := Completed;
    }

    /** `runDemo` on the selected level: the page ends as the user's schedule leaves it, at
        the end of the branch, at the step a pause never lifted stopped it, or reset after a
        Reset. */
    method RunDemo() returns (outcome: Outcome)
      modifies this, ctl
      ensures outcome.Aborted? <==> ctl.signals.aborted
      ensures outcome.Aborted? ==> state == Initial(old(state.isolation))
      ensures outcome.Completed? ==> state == After(old(state.isolation), 5)
      ensures outcome.Suspended? ==> outcome.after < 5 && state == After(old(state.isolation), outcome.after)
      ensures Reset !in old(ctl.pending) ==> !outcome.Aborted?
      ensures Quiet(old(ctl.pending)) ==> outcome.Completed? && ctl.clock == old(ctl.clock) + 251
    {
      ResetDemo();
      ctl.Arm();
      match state.isolation {
        case ReadUncommitted => outcome := PlayReadUncommitted();
        case ReadCommitted => outcome := PlayReadCommitted();
        case RepeatableRead => outcome := PlayRepeatableRead();
        case Serializable => outcome := PlaySerializable();
      }
    }
  }
}
