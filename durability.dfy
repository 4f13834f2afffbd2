/** The durability page: a new order is written to memory, then to the write-ahead log (WAL),
    then to the database file, and two runs crash on the way, once before the WAL write and
    once after it. */
module Durability {
  import opened Journal
  import opened Sequencer
  import Text

  /** Where a row of the orders table currently lives. */
  datatype OrderStatus = Memory | InWal | OnDisk | Lost

  datatype OrderRecord = OrderRecord(id: int, customer: string, product: string, amount: int, status: OrderStatus)

  /** The three inputs of the new-order form. */
  datatype Draft = Draft(customer: string, product: string, amount: int)

  datatype CrashType = NoCrash | BeforeWal | AfterWal

  /** The id every run gives the new order. */
  const ORDER_ID: int := 1003

  const INITIAL_ORDERS: seq<OrderRecord> := [
    OrderRecord(1001, "Priya", "Laptop", 75000, OnDisk),
    OrderRecord(1002, "Vikram", "Mouse", 1200, OnDisk)
  ]

  /** The form as first rendered. */
  const INITIAL_DRAFT: Draft := Draft("Arjun", "Keyboard", 3500)

  /** Everything the page holds in state, save presentation (`isPaused`, `showNarrator`). */
  datatype PageState = PageState(orders: seq<OrderRecord>, draft: Draft, running: bool,
                                 wal: seq<string>, logs: seq<LogEntry>, narration: seq<Narration>,
                                 active: Option<nat>, showRecovery: bool, crashType: CrashType,
                                 nextId: int)

  /** The page as `resetDemo` leaves it; the form keeps what the user typed. */
  function Initial(d: Draft): PageState {
    PageState(INITIAL_ORDERS, d, false, [], [], [], None, false, NoCrash, 1003)
  }

  // ---------------------------------------------------------------------------------------
  // The INSERT statements

  /** The values tuple of a statement: the id, the two names in single quotes and the amount,
      separated by commas, in parentheses. */
  function Values(id: int, customer: string, product: string, amount: int): string {
    "(" + Text.IntToString(id) + "," + Fields(customer, product, amount) + ")"
  }

  /** The part of a tuple after the id's comma: the two names, each in single quotes, and the
      amount, separated by a comma and a space. */
  function Fields(customer: string, product: string, amount: int): string {
    " '" + customer + "', '" + product + "', " + Text.IntToString(amount)
  }

  /** The statement a run executes and writes to the WAL. */
  function RunSQL(d: Draft): string {
    "INSERT INTO orders VALUES " + Values(ORDER_ID, d.customer, d.product, d.amount)
  }

  /** `getInsertSQL`: the statement the form previews, with the page's `nextId`. */
  function InsertSQL(v: PageState): string {
    "INSERT INTO orders (id, customer, product, amount) VALUES " +
      Values(v.nextId, v.draft.customer, v.draft.product, v.draft.amount)
  }

  /** The text before and after the first `c` in `s`. */
  function SplitAt(s: string, c: char): Option<(string, string)> {
    if s == [] then None
    else if s[0] == c then Some(([], s[1..]))
    else match SplitAt(s[1..], c)
      case None => None
      case Some(p) => Some(([s[0]] + p.0, p.1))
  }

  lemma {:induction false} SplitAtJoined(x: string, c: char, y: string)
    requires c !in x
    ensures SplitAt(x + [c] + y, c) == Some((x, y))
  {
    if x != [] {
      assert (x + [c] + y)[1..] == x[1..] + [c] + y;
      SplitAtJoined(x[1..], c, y);
      assert [x[0]] + x[1..] == x;
    } else {
      assert (x + [c] + y)[1..] == y;
    }
  }

  /** Reads the four values back out of a `Values` tuple. */
  function ParseValues(s: string): Option<(int, string, string, int)> {
    if |s| < 2 || s[0] != '(' || s[|s| - 1] != ')' then None
    else match SplitAt(s[1..|s| - 1], ',')
      case None => None
      case Some(p1) =>
        if !Text.IsIntLiteral(p1.0) then None
        else match ParseFields(p1.1)
          case None => None
          case Some(f) => Some((Text.ParseInt(p1.0), f.0, f.1, f.2))
  }

  /** Reads the customer, the product and the amount that follow the id in a tuple. */
  function ParseFields(r1: string): Option<(string, string, int)> {
    if |r1| < 2 || r1[..2] != " '" then None
    else match SplitAt(r1[2..], '\'')
      case None => None
      case Some(p2) =>
        var r2 := p2.1;
        if |r2| < 3 || r2[..3] != ", '" then None
        else match SplitAt(r2[3..], '\'')
          case None => None
          case Some(p3) =>
            var r3 := p3.1;
            if |r3| < 2 || r3[..2] != ", " || !Text.IsIntLiteral(r3[2..]) then None
            else Some((p2.0, p3.0, Text.ParseInt(r3[2..])))
  }

  lemma NoCommaInNumber(i: int)
    ensures ',' !in Text.IntToString(i)
  {
    var s := Text.IntToString(i);
    var n := Text.NatToString(if i < 0 then -i else i);
    assert Text.AllDigits(n);
    if i < 0 {
      assert s == "-" + n;
      assert forall k :: 0 <= k < |s| ==> s[k] == '-' || Text.IsDigit(s[k]);
    }
  }

  /** The statement fixes the order's values, in order: they are read back from it, as long
      as the two names hold no quote. */
  lemma ValuesRoundTrip(id: int, customer: string, product: string, amount: int)
    requires '\'' !in customer && '\'' !in product
    ensures ParseValues(Values(id, customer, product, amount)) == Some((id, customer, product, amount))
  {
    var s := Values(id, customer, product, amount);
    var ids := Text.IntToString(id);
    var r1 := Fields(customer, product, amount);
    var inner := ids + "," + r1;
    assert s == "(" + inner + ")";
    Unwrap(inner);
    NoCommaInNumber(id);
    SplitAtJoined(ids, ',', r1);
    Text.ParseIntToString(id);
    FieldsRoundTrip(customer, product, amount);
  }

  lemma Unwrap(x: string)
    ensures var s := "(" + x + ")"; |s| == |x| + 2 && s[1..|s| - 1] == x
  {
  }

  /** The part of a tuple after the id reads back as the two names and the amount. */
  lemma FieldsRoundTrip(customer: string, product: string, amount: int)
    requires '\'' !in customer && '\'' !in product
    ensures ParseFields(Fields(customer, product, amount)) == Some((customer, product, amount))
  {
    var amounts := Text.IntToString(amount);
    var r3 := ", " + amounts;
    var r2 := ", '" + product + "'" + r3;
    var r1 := " '" + customer + "'" + r2;
    assert r1 == Fields(customer, product, amount);
    assert r1[2..] == customer + ['\''] + r2;
    SplitAtJoined(customer, '\'', r2);
    assert r2[3..] == product + ['\''] + r3;
    SplitAtJoined(product, '\'', r3);
    assert r1[..2] == " '" && r2[..3] == ", '" && r3[..2] == ", " && r3[2..] == amounts;
    Text.ParseIntToString(amount);
  }

  /** A quote in a name lets two different orders print the same statement. */
  lemma QuoteMakesValuesAmbiguous()
    ensures Values(ORDER_ID, "a', 'b", "c", 1) == Values(ORDER_ID, "a", "b', 'c", 1)
  {
  }

  // ---------------------------------------------------------------------------------------
  // Rows

  /** The run's new order, with the given status. */
  function NewOrder(d: Draft, status: OrderStatus): OrderRecord {
    OrderRecord(ORDER_ID, d.customer, d.product, d.amount, status)
  }

  /** The table with every row of the given id moved to the given status. */
  function SetStatus(orders: seq<OrderRecord>, id: int, status: OrderStatus): seq<OrderRecord> {
    seq(|orders|, i requires 0 <= i < |orders| => if orders[i].id == id then orders[i].(status := status) else orders[i])
  }

  /** The table without the rows of the given id. */
  function RemoveId(orders: seq<OrderRecord>, id: int): (r: seq<OrderRecord>)
    ensures |r| <= |orders|
  {
    if orders == [] then []
    else if orders[0].id == id then RemoveId(orders[1..], id)
    else [orders[0]] + RemoveId(orders[1..], id)
  }

  /** Updating one row's status changes no other row, nor the length of the table. */
  lemma SetStatusOnly(orders: seq<OrderRecord>, id: int, status: OrderStatus)
    ensures var r := SetStatus(orders, id, status);
      |r| == |orders| &&
      (forall i :: 0 <= i < |orders| && orders[i].id != id ==> r[i] == orders[i]) &&
      (forall i :: 0 <= i < |orders| && orders[i].id == id ==> r[i].status == status && r[i].(status := orders[i].status) == orders[i])
  {
  }

  /** The filter keeps exactly the rows with another id, in their order. */
  lemma {:induction false} RemoveIdKeeps(orders: seq<OrderRecord>, id: int)
    ensures forall o :: o in RemoveId(orders, id) <==> o in orders && o.id != id
  {
    if orders != [] {
      RemoveIdKeeps(orders[1..], id);
      assert orders == [orders[0]] + orders[1..];
    }
  }

  /** The filter works row by row: a row of the given id is dropped, any other row is kept,
      and the filter of a concatenation is the concatenation of the filters, so the kept rows
      stay in their order. */
  lemma {:induction false} RemoveIdInOrder(xs: seq<OrderRecord>, ys: seq<OrderRecord>, id: int)
    ensures RemoveId(xs + ys, id) == RemoveId(xs, id) + RemoveId(ys, id)
    ensures forall o :: RemoveId([o], id) == if o.id == id then [] else [o]
  {
    if xs != [] {
      assert (xs + ys)[1..] == xs[1..] + ys;
      RemoveIdInOrder(xs[1..], ys, id);
    } else {
      assert xs + ys == ys;
    }
    forall o ensures RemoveId([o], id) == if o.id == id then [] else [o] {
      assert [o][1..] == [];
    }
  }

  /** A row with the new id added to the seeded table: its status can be set in place, and
      the filter takes it out again. */
  lemma NewRowUpdates(d: Draft, s: OrderStatus, t: OrderStatus)
    ensures SetStatus(INITIAL_ORDERS + [NewOrder(d, s)], ORDER_ID, t) == INITIAL_ORDERS + [NewOrder(d, t)]
    ensures RemoveId(INITIAL_ORDERS + [NewOrder(d, s)], ORDER_ID) == INITIAL_ORDERS
  {
    var xs := INITIAL_ORDERS + [NewOrder(d, s)];
    assert xs[1..] == [xs[1], xs[2]] && xs[1..][1..] == [xs[2]] && xs[1..][1..][1..] == [];
    assert RemoveId([xs[2]], ORDER_ID) == [];
  }

  // ---------------------------------------------------------------------------------------
  // The three scripts

  function Logged(v: PageState, level: Level): PageState {
    v.(logs := v.logs + [LogEntry(level, None)])
  }

  function Narrated(v: PageState, stepIndex: nat, kind: Kind): PageState {
    v.(narration := v.narration + [Narration(stepIndex, kind)], active := Some(|v.narration|))
  }

  /** Step 0 of every run: announce the statement. */
  function Intro(d: Draft, crash: CrashType, kind: Kind): PageState {
    var v := Initial(d).(running := true, crashType := crash);
    Logged(Narrated(v, 0, kind), Info)
  }

  /** Step 1 of every run: the new row is written to memory. */
  function ToMemory(v: PageState): PageState {
    Logged(Narrated(v, 1, InfoKind).(orders := v.orders + [NewOrder(v.draft, Memory)]), Info)
  }

  /** The normal write after its step `k`: memory, WAL, disk, checkpoint. */
  function NormalAfter(d: Draft, k: nat): PageState
    requires k <= 4
  {
    if k == 0 then Intro(d, NoCrash, InfoKind)
    else
      var v := NormalAfter(d, k - 1);
      if k == 1 then ToMemory(v)
      else if k == 2 then
        Logged(Narrated(v, 2, SuccessKind).(wal := [RunSQL(d)], orders := SetStatus(v.orders, ORDER_ID, InWal)), Success)
      else if k == 3 then
        Logged(Narrated(v, 3, SuccessKind).(orders := SetStatus(v.orders, ORDER_ID, OnDisk)), Success)
      else
        Logged(Narrated(v, 4, SuccessKind).(wal := []), Success).(nextId := 1004, running := false)
  }

  /** The crash before the WAL write after its step `k`: memory, crash, loss. */
  function BeforeWalAfter(d: Draft, k: nat): PageState
    requires k <= 3
  {
    if k == 0 then Intro(d, BeforeWal, WarningKind)
    else
      var v := BeforeWalAfter(d, k - 1);
      if k == 1 then ToMemory(v)
      else if k == 2 then Logged(Narrated(v, 2, ErrorKind), Error)
      else
        Logged(Logged(Narrated(v, 3, ErrorKind).(orders := RemoveId(v.orders, ORDER_ID)), Warn), Error)
          .(showRecovery := true, running := false)
  }

  /** The crash after the WAL write after its step `k`: memory, WAL, crash, restart, replay,
      recovery. */
  function AfterWalAfter(d: Draft, k: nat): PageState
    requires k <= 6
  {
    if k == 0 then Intro(d, AfterWal, WarningKind)
    else
      var v := AfterWalAfter(d, k - 1);
      if k == 1 then ToMemory(v)
      else if k == 2 then
        Logged(Logged(Narrated(v, 2, SuccessKind).(wal := [RunSQL(d)], orders := SetStatus(v.orders, ORDER_ID, InWal)), Success), Success)
      else if k == 3 then
        Logged(Logged(Narrated(v, 3, ErrorKind), Error).(orders := SetStatus(v.orders, ORDER_ID, Lost)), Warn)
      else if k == 4 then Logged(Narrated(v, 4, InfoKind), Info)
      else if k == 5 then
        Logged(Narrated(v, 5, SuccessKind), Success).(orders := SetStatus(v.orders, ORDER_ID, OnDisk))
      else
        Logged(Narrated(v, 6, SuccessKind).(wal := []), Success).(showRecovery := true, nextId := 1004, running := false)
  }

  /** The status of the new row in the normal write after step `k`. */
  function NormalStatus(k: nat): OrderStatus {
    if k <= 1 then Memory else if k == 2 then InWal else OnDisk
  }

  /** The normal write: row 1003 appears at step 1 and moves memory, WAL, disk; the seeded
      rows stay on disk; the WAL holds the statement from the WAL step until the checkpoint;
      the next id is 1004 at the end. */
  lemma {:induction false} NormalLifecycle(d: Draft, k: nat)
    requires k <= 4
    ensures var v := NormalAfter(d, k);
      v.draft == d &&
      v.orders == (if k == 0 then INITIAL_ORDERS else INITIAL_ORDERS + [NewOrder(d, NormalStatus(k))]) &&
      v.wal == (if 2 <= k < 4 then [RunSQL(d)] else []) &&
      v.nextId == (if k == 4 then 1004 else 1003) && (v.running <==> k < 4)
  {
    if k == 1 { NormalLifecycle(d, 0); }
    else if k == 2 { NormalLifecycle(d, 1); NewRowUpdates(d, Memory, InWal); }
    else if k == 3 { NormalLifecycle(d, 2); NewRowUpdates(d, InWal, OnDisk); }
    else if k == 4 { NormalLifecycle(d, 3); }
  }

  /** The crash before the WAL write never writes the WAL, and after the loss step the table
      is the seeded one again. */
  lemma {:induction false} BeforeWalLoses(d: Draft, k: nat)
    requires k <= 3
    ensures var v := BeforeWalAfter(d, k);
      v.draft == d && v.wal == [] && v.nextId == 1003 &&
      v.orders == (if k == 0 || k == 3 then INITIAL_ORDERS else INITIAL_ORDERS + [NewOrder(d, Memory)]) &&
      (v.showRecovery <==> k == 3)
  {
    if k == 1 { BeforeWalLoses(d, 0); }
    else if k == 2 { BeforeWalLoses(d, 1); }
    else if k == 3 { BeforeWalLoses(d, 2); NewRowUpdates(d, Memory, Memory); }
  }

  /** The status of the new row in the crash after the WAL write after step `k`. */
  function AfterWalStatus(k: nat): OrderStatus {
    if k <= 1 then Memory else if k == 2 then InWal else if k <= 4 then Lost else OnDisk
  }

  /** The crash after the WAL write: row 1003 moves memory, WAL, lost, disk, and the WAL
      holds the statement from its write until the recovery is complete. */
  lemma {:induction false} AfterWalLifecycle(d: Draft, k: nat)
    requires k <= 6
    ensures var v := AfterWalAfter(d, k);
      v.draft == d &&
      v.orders == (if k == 0 then INITIAL_ORDERS else INITIAL_ORDERS + [NewOrder(d, AfterWalStatus(k))]) &&
      v.wal == (if 2 <= k < 6 then [RunSQL(d)] else []) &&
      v.nextId == (if k == 6 then 1004 else 1003) && (v.showRecovery <==> k == 6)
  {
    if k == 1 { AfterWalLifecycle(d, 0); }
    else if k == 2 { AfterWalLifecycle(d, 1); NewRowUpdates(d, Memory, InWal); }
    else if k == 3 { AfterWalLifecycle(d, 2); NewRowUpdates(d, InWal, Lost); }
    else if k == 4 { AfterWalLifecycle(d, 3); }
    else if k == 5 { AfterWalLifecycle(d, 4); NewRowUpdates(d, Lost, OnDisk); }
    else if k == 6 { AfterWalLifecycle(d, 5); }
  }

  /** Write-ahead logging at work: once the statement is in the WAL, the order is never gone
      for good; it is in the WAL or on disk at every later step, and it is replayed to disk
      while the WAL still holds it. */
  lemma WalKeepsOrder(d: Draft, k: nat)
    requires 2 <= k <= 6
    ensures var v := AfterWalAfter(d, k);
      v.wal == [RunSQL(d)] || NewOrder(d, OnDisk) in v.orders
    ensures NewOrder(d, Lost) in AfterWalAfter(d, 4).orders && NewOrder(d, OnDisk) in AfterWalAfter(d, 5).orders &&
      AfterWalAfter(d, 5).wal == [RunSQL(d)]
  {
    AfterWalLifecycle(d, k);
    AfterWalLifecycle(d, 4);
    AfterWalLifecycle(d, 5);
  }

  /** The statement in the WAL is the form's order, read back field by field. */
  lemma WalHoldsOrder(d: Draft)
    requires '\'' !in d.customer && '\'' !in d.product
    ensures var s := RunSQL(d); var n := |"INSERT INTO orders VALUES "|;
      |s| >= n && ParseValues(s[n..]) == Some((ORDER_ID, d.customer, d.product, d.amount))
  {
    var s := RunSQL(d);
    assert s[|"INSERT INTO orders VALUES "|..] == Values(ORDER_ID, d.customer, d.product, d.amount);
    ValuesRoundTrip(ORDER_ID, d.customer, d.product, d.amount);
  }

  /** The preview names the page's next id and the form's three values, in that order. */
  lemma InsertSQLShowsDraft(v: PageState)
    requires '\'' !in v.draft.customer && '\'' !in v.draft.product
    ensures var s := InsertSQL(v); var n := |"INSERT INTO orders (id, customer, product, amount) VALUES "|;
      |s| >= n && ParseValues(s[n..]) == Some((v.nextId, v.draft.customer, v.draft.product, v.draft.amount))
  {
    var s := InsertSQL(v);
    assert s[|"INSERT INTO orders (id, customer, product, amount) VALUES "|..] ==
      Values(v.nextId, v.draft.customer, v.draft.product, v.draft.amount);
    ValuesRoundTrip(v.nextId, v.draft.customer, v.draft.product, v.draft.amount);
  }

  // ---------------------------------------------------------------------------------------
  // The page

  /** The durability page; the user's Pause/Continue and Reset presses come from `ctl`. */
  class Page {
    var state: PageState
    const ctl: Controls

    constructor (schedule: seq<Action>)
      ensures state == Initial(INITIAL_DRAFT)
      ensures fresh(ctl) && ctl.signals == Signals(false, false) && ctl.pending == schedule
    {
      state := Initial(INITIAL_DRAFT);
      ctl := new Controls(schedule);
    }

    /** The three inputs of the form, disabled while a run is on. */
    method SetDraft(d: Draft)
      requires !state.running
      modifies this
      ensures state == old(state).(draft := d)
    {
      state := state.(draft := d);
    }

    /** `resetDemo`: abort any run, clear the pause, restore the table, the WAL and the id. */
    method ResetDemo()
      modifies this, ctl
      ensures state == Initial(old(state.draft))
      ensures ctl.signals == Signals(false, true) && ctl.pending == old(ctl.pending) && ctl.clock == old(ctl.clock)
    {
      ctl.Abort();
      state := state.(orders := INITIAL_ORDERS, wal := [], logs := [], narration := [], crashType := NoCrash,
                      showRecovery := false, running := false, active := None, nextId := 1003);
    }

    /** `togglePause`. */
    method TogglePause()
      modifies ctl
      ensures ctl.signals == old(ctl.signals).(paused := !old(ctl.signals).paused)
      ensures ctl.pending == old(ctl.pending) && ctl.clock == old(ctl.clock)
    {
      ctl.Toggle();
    }

    method AddLog(level: Level)
      modifies this
      ensures state == Logged(old(state), level)
    {
      state := state.(logs := state.logs + [LogEntry(level, None)]);
    }

    method AddNarratorMessage(stepIndex: nat, kind: Kind)
      modifies this
      ensures state == Narrated(old(state), stepIndex, kind)
    {
      state := state.(narration := state.narration + [Narration(stepIndex, kind)], active := Some(|state.narration|));
    }

    /** A click on narrator message `i`: it becomes the highlighted one. */
    method SelectMessage(i: nat)
      requires i < |state.narration|
      modifies this
      ensures state == old(state).(active := Some(i))
    {
      state := state.(active := Some(i));
    }

    /** `await smartDelay(STEP_DELAY); if (abortRef.current) return;` after step `after`. */
    method Wait(after: nat) returns (halt: Option<Outcome>)
      modifies this, ctl
      ensures halt == None || halt == Some(Aborted) || halt == Some(Suspended(after))
      ensures halt == Some(Aborted) <==> ctl.signals.aborted
      ensures halt == Some(Aborted) ==> state == Initial(old(state.draft))
      ensures halt != Some(Aborted) ==> state == old(state)
      ensures halt == Some(Suspended(after)) ==> ctl.signals.paused && ctl.pending == []
      ensures Calm(old(ctl.signals), old(ctl.pending)) ==> Calm(ctl.signals, ctl.pending)
      ensures Still(old(ctl.signals), old(ctl.pending)) ==>
        halt == None && Still(ctl.signals, ctl.pending) && ctl.clock == old(ctl.clock) + 50
    {
      var stalled := ctl.StepWait();
      if ctl.signals.aborted {
        state := Initial(state.draft);
        return Some(Aborted);
      }
      if stalled {
        return Some(Suspended(after));
      }
      halt := None;
    }

    /** The start of every run: reset, let the reset settle, clear the abort flag. */
    method Start()
      modifies this, ctl
      ensures state == Initial(old(state.draft))
      ensures ctl.signals == Signals(false, false) && ctl.pending == old(ctl.pending) && ctl.clock == old(ctl.clock) + 1
      ensures Reset !in old(ctl.pending) ==> Calm(ctl.signals, ctl.pending)
      ensures Quiet(old(ctl.pending)) ==> Still(ctl.signals, ctl.pending)
    {
      ResetDemo();
      ctl.Arm();
    }

    /** Step 0 of a run. */
    method Announce(crash: CrashType, kind: Kind)
      modifies this
      requires state == Initial(state.draft)
      ensures state == Intro(old(state.draft), crash, kind) && state.draft == old(state.draft)
    {
      state := state.(running := true, crashType := crash);
      AddNarratorMessage(0, kind);
      AddLog(Info);
    }

    /** Step 1 of a run. */
    method WriteToMemory()
      modifies this
      ensures state == ToMemory(old(state)) && state.draft == old(state.draft)
    {
      AddNarratorMessage(1, InfoKind);
      var newOrder := NewOrder(state.draft, Memory);
      state := state.(orders := state.orders + [newOrder]);
      AddLog(Info);
    }

    /* `runNormalWrite`, step by step against `NormalAfter`. */

    method NormalWal(d: Draft, sql: string)
      modifies this
      requires state == NormalAfter(d, 1) && state.draft == d && sql == RunSQL(d)
      ensures state == NormalAfter(d, 2) && state.draft == d
    {
      AddNarratorMessage(2, SuccessKind);
      state := state.(wal := [sql]);
      state := state.(orders := SetStatus(state.orders, ORDER_ID, InWal));
      AddLog(Success);
    }

    method NormalDisk(d: Draft)
      modifies this
      requires state == NormalAfter(d, 2) && state.draft == d
      ensures state == NormalAfter(d, 3) && state.draft == d
    {
      AddNarratorMessage(3, SuccessKind);
      state := state.(orders := SetStatus(state.orders, ORDER_ID, OnDisk));
      AddLog(Success);
    }

    method NormalCheckpoint(d: Draft)
      modifies this
      requires state == NormalAfter(d, 3) && state.draft == d
      ensures state == NormalAfter(d, 4)
    {
      AddNarratorMessage(4, SuccessKind);
      state := state.(wal := []);
      AddLog(Success);
      state := state.(nextId := 1004);
      state := state.(running := false);
    }

    /** `runNormalWrite`: the page ends as the user's schedule leaves it, at the end of the
        script, at the step a pause never lifted stopped it, or reset after a Reset. */
    method RunNormalWrite() returns (outcome: Outcome)
      modifies this, ctl
      ensures outcome.Aborted? <==> ctl.signals.aborted
      ensures outcome.Aborted? ==> state == Initial(old(state.draft))
      ensures outcome.Completed? ==> state == NormalAfter(old(state.draft), 4)
      ensures outcome.Suspended? ==> outcome.after < 4 && state == NormalAfter(old(state.draft), outcome.after)
      ensures Reset !in old(ctl.pending) ==> !outcome.Aborted?
      ensures Quiet(old(ctl.pending)) ==> outcome.Completed? && ctl.clock == old(ctl.clock) + 201
    {
      Start();
      var d := state.draft;
      var sql := RunSQL(d);
      Announce(NoCrash, InfoKind);
      var halt := Wait(0);
      if halt.Some? { return halt.value; }
      WriteToMemory();
      halt := Wait(1);
      if halt.Some? { return halt.value; }
      NormalWal(d, sql);
      halt := Wait(2);
      if halt.Some? { return halt.value; }
      NormalDisk(d);
      halt := Wait(3);
      if halt.Some? { return halt.value; }
      NormalCheckpoint(d);
      outcome := Completed;
    }

    /* `runCrashBeforeWAL`, step by step against `BeforeWalAfter`. */

    method BeforeWalCrash(d: Draft)
      modifies this
      requires state == BeforeWalAfter(d, 1) && state.draft == d
      ensures state == BeforeWalAfter(d, 2) && state.draft == d
    {
      AddNarratorMessage(2, ErrorKind);
      AddLog(Error);
    }

    method BeforeWalLoss(d: Draft)
      modifies this
      requires state == BeforeWalAfter(d, 2) && state.draft == d
      ensures state == BeforeWalAfter(d, 3)
    {
      AddNarratorMessage(3, ErrorKind);
      state := state.(orders := RemoveId(state.orders, ORDER_ID));
      AddLog(Warn);
      AddLog(Error);
      state := state.(showRecovery := true);
      state := state.(running := false);
    }

    /** `runCrashBeforeWAL`: as `RunNormalWrite`, over its own script. */
    method RunCrashBeforeWal() returns (outcome: Outcome)
      modifies this, ctl
      ensures outcome.Aborted? <==> ctl.signals.aborted
      ensures outcome.Aborted? ==> state == Initial(old(state.draft))
      ensures outcome.Completed? ==> state == BeforeWalAfter(old(state.draft), 3)
      ensures outcome.Suspended? ==> outcome.after < 3 && state == BeforeWalAfter(old(state.draft), outcome.after)
      ensures Reset !in old(ctl.pending) ==> !outcome.Aborted?
      ensures Quiet(old(ctl.pending)) ==> outcome.Completed? && ctl.clock == old(ctl.clock) + 151
    {
      Start();
      var d := state.draft;
      Announce(BeforeWal, WarningKind);
      var halt := Wait(0);
      if halt.Some? { return halt.value; }
      WriteToMemory();
      halt := Wait(1);
      if halt.Some? { return halt.value; }
      BeforeWalCrash(d);
      halt := Wait(2);
      if halt.Some? { return halt.value; }
      BeforeWalLoss(d);
      outcome := Completed;
    }

    /* `runCrashAfterWAL`, step by step against `AfterWalAfter`. */

    method AfterWalWrite(d: Draft, sql: string)
      modifies this
      requires state == AfterWalAfter(d, 1) && state.draft == d && sql == RunSQL(d)
      ensures state == AfterWalAfter(d, 2) && state.draft == d
    {
      AddNarratorMessage(2, SuccessKind);
      state := state.(wal := [sql]);
      state := state.(orders := SetStatus(state.orders, ORDER_ID, InWal));
      AddLog(Success);
      AddLog(Success);
    }

    method AfterWalCrash(d: Draft)
      modifies this
      requires state == AfterWalAfter(d, 2) && state.draft == d
      ensures state == AfterWalAfter(d, 3) && state.draft == d
    {
      AddNarratorMessage(3, ErrorKind);
      AddLog(Error);
      state := state.(orders := SetStatus(state.orders, ORDER_ID, Lost));
      AddLog(Warn);
    }

    method AfterWalRestart(d: Draft)
      modifies this
      requires state == AfterWalAfter(d, 3) && state.draft == d
      ensures state == AfterWalAfter(d, 4) && state.draft == d
    {
      AddNarratorMessage(4, InfoKind);
      AddLog(Info);
    }

    method AfterWalReplay(d: Draft)
      modifies this
      requires state == AfterWalAfter(d, 4) && state.draft == d
      ensures state == AfterWalAfter(d, 5) && state.draft == d
    {
      AddNarratorMessage(5, SuccessKind);
      AddLog(Success);
      state := state.(orders := SetStatus(state.orders, ORDER_ID, OnDisk));
    }

    method AfterWalRecovered(d: Draft)
      modifies this
      requires state == AfterWalAfter(d, 5) && state.draft == d
      ensures state == AfterWalAfter(d, 6)
    {
      AddNarratorMessage(6, SuccessKind);
      state := state.(wal := []);
      AddLog(Success);
      state := state.(showRecovery := true);
      state := state.(nextId := 1004);
      state := state.(running := false);
    }

    /** `runCrashAfterWAL`: as `RunNormalWrite`, over its own script. */
    method RunCrashAfterWal() returns (outcome: Outcome)
      modifies this, ctl
      ensures outcome.Aborted? <==> ctl.signals.aborted
      ensures outcome.Aborted? ==> state == Initial(old(state.draft))
      ensures outcome.Completed? ==> state == AfterWalAfter(old(state.draft), 6)
      ensures outcome.Suspended? ==> outcome.after < 6 && state == AfterWalAfter(old(state.draft), outcome.after)
      ensures Reset !in old(ctl.pending) ==> !outcome.Aborted?
      ensures Quiet(old(ctl.pending)) ==> outcome.Completed? && ctl.clock == old(ctl.clock) + 301
    {
      Start();
      var d := state.draft;
      var sql := RunSQL(d);
      Announce(AfterWal, WarningKind);
      var halt := Wait(0);
      if halt.Some? { return halt.value; }
      WriteToMemory();
      halt := Wait(1);
      if halt.Some? { return halt.value; }
      AfterWalWrite(d, sql);
      halt := Wait(2);
      if halt.Some? { return halt.value; }
      AfterWalCrash(d);
      outcome := AfterWalRecovery(d);
    }

    /** The second half of `runCrashAfterWAL`: restart, replay from the WAL, recovery. */
    method AfterWalRecovery(d: Draft) returns (outcome: Outcome)
      modifies this, ctl
      requires state == AfterWalAfter(d, 3) && state.draft == d
      ensures outcome.Aborted? <==> ctl.signals.aborted
      ensures outcome.Aborted? ==> state == Initial(d)
      ensures outcome.Completed? ==> state == AfterWalAfter(d, 6)
      ensures outcome.Suspended? ==> 3 <= outcome.after < 6 && state == AfterWalAfter(d, outcome.after)
      ensures Calm(old(ctl.signals), old(ctl.pending)) ==> !outcome.Aborted?
      ensures Still(old(ctl.signals), old(ctl.pending)) ==> outcome.Completed? && ctl.clock == old(ctl.clock) + 150
    {
      var halt := Wait(3);
      if halt.Some? { return halt.value; }
      AfterWalRestart(d);
      halt := Wait(4);
      if halt.Some? { return halt.value; }
      AfterWalReplay(d);
      halt := Wait(5);
      if halt.Some? { return halt.value; }
      AfterWalRecovered(d);
      outcome := Completed;
    }
  }
}
