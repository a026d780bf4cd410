/** One operation shared between the application and the kernel: a counted cell that holds the
    data of the operation and the completions that arrived. */
module Operations {
  import opened Wrappers

  /** A completion; the final one says that no more follow. */
  datatype Cqe = Cqe(id: nat, more: bool)

  /** What became of a completion. */
  datatype Event = Completed(c: Cqe) | Updated(c: Cqe) | Cleaned(c: Cqe)

  datatype Cell = Cell(
    alive: bool,               // the cell is allocated
    handle: bool,              // the application has its handle
    entry: bool,               // an entry not submitted yet has one
    kernel: bool,              // the kernel has one, until the final completion
    single: bool,              // the operation has one result; otherwise it is a stream
    data: bool,                // the data is in the cell
    complete: bool,            // the final completion has arrived
    completions: seq<Cqe>,     // arrived and not handled yet
    arrived: seq<Cqe>,         // all that arrived, in order
    log: seq<Event>,           // what was done with them
    ended: bool,               // the result was returned, or the stream ended
    waker: bool)               // a waker is stored, to be woken by the next completion

  function NewCell(single: bool): Cell {
    Cell(true, true, true, false, single, true, false, [], [], [], false, false)
  }

  /** The number of handles. */
  function Handles(o: Cell): nat {
    (if o.handle then 1 else 0) + (if o.entry then 1 else 0) + if o.kernel then 1 else 0
  }

  function AllCleaned(cs: seq<Cqe>): seq<Event> {
    seq(|cs|, i requires 0 <= i < |cs| => Cleaned(cs[i]))
  }

  /** Without a handle the cell is freed: data left in it cleans up what arrived. */
  function Settle(o: Cell): Cell {
    if Handles(o) > 0 || !o.alive then o
    else o.(alive := false, data := false, completions := [],
            log := o.log + if o.data then AllCleaned(o.completions) else [])
  }

  datatype Op =
    | Submit             // the entry is pushed to the submission queue: its handle is the kernel's
    | DropEntry          // the entry is dropped before that
    | Arrive(c: Cqe)     // the kernel completes, and the reactor reaps it
    | Poll               // the future or stream is polled once the entry is submitted
    | DropHandle         // the future or stream is dropped

  /** A future is not polled again after its result; a stream may be after its end. */
  predicate Enabled(o: Cell, op: Op) {
    match op
    case Submit => o.entry
    case DropEntry => o.entry && !o.handle
    case Arrive(_) => o.kernel
    case Poll => o.handle && !o.entry && (o.single ==> !o.ended)
    case DropHandle => o.handle
  }

  function Answers(cs: seq<Cqe>): seq<Event> {
    seq(|cs|, i requires 0 <= i < |cs| => if i == |cs| - 1 then Completed(cs[i]) else Updated(cs[i]))
  }

  /** The result of a future: once complete, all that arrived goes to the data, the last
      as its result. */
  function PollFuture(o: Cell): Cell {
    if !o.complete then o.(waker := true)
    else o.(data := false, completions := [], log := o.log + Answers(o.completions), ended := true)
  }

  /** The next item of a stream is made of the newest completion. */
  function PollStream(o: Cell): Cell {
    if o.completions != [] then
      var last := |o.completions| - 1;
      o.(completions := o.completions[..last], log := o.log + [Updated(o.completions[last])])
    else o.(ended := o.complete, waker := o.waker || !o.complete)
  }

  function DoArrive(o: Cell, c: Cqe): Cell {
    Settle(o.(completions := o.completions + [c], arrived := o.arrived + [c],
              complete := o.complete || !c.more, kernel := c.more, waker := false))
  }

  function Step(o: Cell, op: Op): Cell
    requires Enabled(o, op)
  {
    match op
    case Submit => o.(entry := false, kernel := true)
    case DropEntry => Settle(o.(entry := false))
    case Arrive(c) => DoArrive(o, c)
    case Poll => if o.single then PollFuture(o) else PollStream(o)
    case DropHandle => Settle(o.(handle := false))
  }

  // ----- the invariant --------------------------------------------------------------

  /** How often a completion was handled. */
  function Handled(log: seq<Event>, c: Cqe): nat {
    multiset(log)[Completed(c)] + multiset(log)[Updated(c)] + multiset(log)[Cleaned(c)]
  }

  /** Every completion that arrived is waiting in the cell, or was handled, once. */
  ghost predicate Accounted(o: Cell) {
    forall c :: multiset(o.arrived)[c] == multiset(o.completions)[c] + Handled(o.log, c)
  }

  /** All completions but the final one announce more. */
  predicate Announced(o: Cell) {
    && (forall i :: 0 <= i < |o.arrived| ==> o.arrived[i].more == (i < |o.arrived| - 1 || !o.complete))
    && (o.complete ==> o.arrived != [])
  }

  /** A poll would not be pending. */
  predicate HasAnswer(o: Cell) {
    o.complete || (!o.single && o.completions != [])
  }

  predicate Owned(o: Cell) {
    && (o.alive <==> Handles(o) > 0)
    && !(o.entry && o.kernel)
    && (o.entry ==> o.arrived == [])
    && (o.kernel ==> !o.complete && o.data)
    && (!o.data ==> o.completions == [])
    && (o.alive && !o.data ==> o.single && o.complete && o.ended)
    && (o.handle && o.ended ==> o.complete && o.completions == [])
    && (o.alive && o.single && o.data ==> o.completions == o.arrived && !o.ended)
    && (o.handle && !o.entry && !o.kernel ==> o.complete)
    && (o.waker ==> !HasAnswer(o))
  }

  ghost predicate Inv(o: Cell) {
    Owned(o) && Announced(o) && Accounted(o)
  }

  // ----- every step keeps it --------------------------------------------------------

  lemma CleanedOnce(cs: seq<Cqe>, c: Cqe)
    ensures Handled(AllCleaned(cs), c) == multiset(cs)[c]
  {
    if cs != [] {
      var k := |cs| - 1;
      CleanedOnce(cs[..k], c);
      assert cs == cs[..k] + [cs[k]];
      assert AllCleaned(cs) == AllCleaned(cs[..k]) + [Cleaned(cs[k])];
    }
  }

  lemma UpdatedOnce(cs: seq<Cqe>, c: Cqe)
    ensures var u := seq(|cs|, i requires 0 <= i < |cs| => Updated(cs[i]));
            Handled(u, c) == multiset(cs)[c]
  {
    if cs != [] {
      var k := |cs| - 1;
      UpdatedOnce(cs[..k], c);
      assert cs == cs[..k] + [cs[k]];
      assert seq(|cs|, i requires 0 <= i < |cs| => Updated(cs[i]))
          == seq(k, i requires 0 <= i < k => Updated(cs[..k][i])) + [Updated(cs[k])];
    }
  }

  lemma AnsweredOnce(cs: seq<Cqe>, c: Cqe)
    ensures Handled(Answers(cs), c) == multiset(cs)[c]
  {
    if cs != [] {
      var k := |cs| - 1;
      UpdatedOnce(cs[..k], c);
      assert cs == cs[..k] + [cs[k]];
      assert Answers(cs) == seq(k, i requires 0 <= i < k => Updated(cs[..k][i])) + [Completed(cs[k])];
    }
  }

  lemma HandledAppend(a: seq<Event>, b: seq<Event>, c: Cqe)
    ensures Handled(a + b, c) == Handled(a, c) + Handled(b, c)
  {
  }

  lemma SettleAccounts(o: Cell)
    requires Accounted(o) && (o.data || o.completions == [])
    ensures Accounted(Settle(o))
  {
    forall c ensures multiset(Settle(o).arrived)[c] == multiset(Settle(o).completions)[c] + Handled(Settle(o).log, c) {
      assert multiset(o.arrived)[c] == multiset(o.completions)[c] + Handled(o.log, c);
      CleanedOnce(o.completions, c);
      HandledAppend(o.log, AllCleaned(o.completions), c);
    }
  }

  lemma ArriveKeeps(o: Cell, c: Cqe)
    requires Inv(o) && o.kernel
    ensures Inv(DoArrive(o, c))
  {
    var a := o.(completions := o.completions + [c], arrived := o.arrived + [c],
                complete := o.complete || !c.more, kernel := c.more, waker := false);
    forall x ensures multiset(a.arrived)[x] == multiset(a.completions)[x] + Handled(a.log, x) {
      assert multiset(o.arrived)[x] == multiset(o.completions)[x] + Handled(o.log, x);
    }
    SettleAccounts(a);
  }

  lemma PollFutureKeeps(o: Cell)
    requires Inv(o) && Enabled(o, Poll) && o.single
    ensures Inv(PollFuture(o))
    ensures o.complete ==> o.data && o.completions != [] && !o.completions[|o.completions| - 1].more
    ensures o.complete ==> forall i :: 0 <= i < |o.completions| - 1 ==> o.completions[i].more
  {
    if o.complete {
      var p := PollFuture(o);
      forall c ensures multiset(p.arrived)[c] == multiset(p.completions)[c] + Handled(p.log, c) {
        assert multiset(o.arrived)[c] == multiset(o.completions)[c] + Handled(o.log, c);
        AnsweredOnce(o.completions, c);
        HandledAppend(o.log, Answers(o.completions), c);
      }
    }
  }

  lemma PollStreamKeeps(o: Cell)
    requires Inv(o) && Enabled(o, Poll) && !o.single
    ensures Inv(PollStream(o))
  {
    if o.completions != [] {
      var p := PollStream(o);
      var k := |o.completions| - 1;
      assert o.completions == o.completions[..k] + [o.completions[k]];
      forall c ensures multiset(p.arrived)[c] == multiset(p.completions)[c] + Handled(p.log, c) {
        assert multiset(o.arrived)[c] == multiset(o.completions)[c] + Handled(o.log, c);
        HandledAppend(o.log, [Updated(o.completions[k])], c);
      }
    }
  }

  lemma StepKeeps(o: Cell, op: Op)
    requires Inv(o) && Enabled(o, op)
    ensures Inv(Step(o, op))
  {
    match op
    case Submit => assert Accounted(Step(o, op));
    case DropEntry => SettleAccounts(o.(entry := false));
    case Arrive(c) => ArriveKeeps(o, c);
    case Poll => if o.single { PollFutureKeeps(o); } else { PollStreamKeeps(o); }
    case DropHandle => SettleAccounts(o.(handle := false));
  }

  // ----- whole runs -----------------------------------------------------------------

  predicate Allowed(o: Cell, ops: seq<Op>)
    decreases |ops|
  {
    ops == [] || (Enabled(o, ops[0]) && Allowed(Step(o, ops[0]), ops[1..]))
  }

  function Run(o: Cell, ops: seq<Op>): Cell
    requires Allowed(o, ops)
    decreases |ops|
  {
    if ops == [] then o else Run(Step(o, ops[0]), ops[1..])
  }

  lemma {:induction false} RunKeeps(o: Cell, ops: seq<Op>)
    requires Inv(o) && Allowed(o, ops)
    ensures Inv(Run(o, ops))
    decreases |ops|
  {
    if ops == [] {
    } else {
      StepKeeps(o, ops[0]);
      RunKeeps(Step(o, ops[0]), ops[1..]);
    }
  }

  /** While the kernel, or an entry on its way to it, refers to the cell, the cell is
      allocated and holds the data; the data is gone only after the final completion or when
      nobody refers to the cell. */
  lemma KernelKeepsData(single: bool, ops: seq<Op>)
    requires Allowed(NewCell(single), ops)
    ensures var o := Run(NewCell(single), ops);
            && (o.kernel || o.entry ==> o.alive && o.data && !o.complete)
            && (!o.data ==> o.complete || Handles(o) == 0)
            && (o.alive <==> Handles(o) > 0)
  {
    RunKeeps(NewCell(single), ops);
  }

  /** Every completion is handled at most once, and exactly once when the cell is gone. */
  lemma EveryCompletionOnce(single: bool, ops: seq<Op>, c: Cqe)
    requires Allowed(NewCell(single), ops)
    ensures var o := Run(NewCell(single), ops);
            && Handled(o.log, c) <= multiset(o.arrived)[c]
            && (!o.alive ==> Handled(o.log, c) == multiset(o.arrived)[c])
  {
    RunKeeps(NewCell(single), ops);
    var o := Run(NewCell(single), ops);
    assert multiset(o.arrived)[c] == multiset(o.completions)[c] + Handled(o.log, c);
    if !o.alive {
      assert !o.data by { GoneHasNoData(NewCell(single), ops); }
    }
  }

  lemma {:induction false} GoneHasNoData(o: Cell, ops: seq<Op>)
    requires Inv(o) && Allowed(o, ops) && (!o.alive ==> !o.data)
    ensures !Run(o, ops).alive ==> !Run(o, ops).data
    decreases |ops|
  {
    if ops != [] {
      StepKeeps(o, ops[0]);
      GoneHasNoData(Step(o, ops[0]), ops[1..]);
    }
  }

  /** No completion goes unheard: when a poll would not be pending, no waker left by one that
      was is still waiting to be woken; and while one waits nothing is there to be had. */
  lemma PendingIsWoken(single: bool, ops: seq<Op>)
    requires Allowed(NewCell(single), ops)
    ensures var o := Run(NewCell(single), ops); HasAnswer(o) ==> !o.waker
    ensures var o := Run(NewCell(single), ops);
            Enabled(o, Poll) ==> (Step(o, Poll).waker <==> !HasAnswer(o))
  {
    RunKeeps(NewCell(single), ops);
    RunKeepsKind(NewCell(single), ops);
  }

  lemma SettleKeepsKind(o: Cell)
    ensures Settle(o).single == o.single
  {
  }

  lemma StepKeepsKind(o: Cell, op: Op)
    requires Enabled(o, op)
    ensures Step(o, op).single == o.single
  {
    match op
    case DropEntry => SettleKeepsKind(o.(entry := false));
    case DropHandle => SettleKeepsKind(o.(handle := false));
    case Arrive(c) =>
      SettleKeepsKind(o.(completions := o.completions + [c], arrived := o.arrived + [c],
                         complete := o.complete || !c.more, kernel := c.more, waker := false));
    case _ =>
  }

  lemma {:induction false} RunKeepsKind(o: Cell, ops: seq<Op>)
    requires Allowed(o, ops)
    ensures Run(o, ops).single == o.single
    decreases |ops|
  {
    if ops != [] {
      StepKeepsKind(o, ops[0]);
      RunKeepsKind(Step(o, ops[0]), ops[1..]);
    }
  }

  /** While the handle of a stream is held, all that was done with completions is to make items
      of them. */
  predicate OnlyItems(o: Cell) {
    !o.single && o.handle ==> forall e :: e in o.log ==> e.Updated?
  }

  lemma StepMakesItems(o: Cell, op: Op)
    requires Enabled(o, op) && OnlyItems(o)
    ensures OnlyItems(Step(o, op))
  {
  }

  lemma {:induction false} RunMakesItems(o: Cell, ops: seq<Op>)
    requires Allowed(o, ops) && OnlyItems(o)
    ensures OnlyItems(Run(o, ops))
    decreases |ops|
  {
    if ops != [] {
      StepMakesItems(o, ops[0]);
      RunMakesItems(Step(o, ops[0]), ops[1..]);
    }
  }

  /** A stream that has ended got its final completion, and handed out every completion as an
      item, each as often as it arrived. */
  lemma StreamEndsLast(ops: seq<Op>, c: Cqe)
    requires Allowed(NewCell(false), ops)
    ensures var o := Run(NewCell(false), ops);
            o.handle && o.ended ==> o.complete && multiset(o.log)[Updated(c)] == multiset(o.arrived)[c]
  {
    RunKeeps(NewCell(false), ops);
    RunKeepsKind(NewCell(false), ops);
    RunMakesItems(NewCell(false), ops);
    var o := Run(NewCell(false), ops);
    assert multiset(o.arrived)[c] == multiset(o.completions)[c] + Handled(o.log, c);
    if o.handle {
      assert Completed(c) !in o.log && Cleaned(c) !in o.log;
    }
  }

  /** The data was updated with all completions but the last, in order, and completed with that. */
  predicate FedInOrder(log: seq<Event>, cs: seq<Cqe>) {
    && |log| == |cs|
    && (forall i :: 0 <= i < |cs| - 1 ==> log[i] == Updated(cs[i]))
    && (cs != [] ==> log[|cs| - 1] == Completed(cs[|cs| - 1]))
  }

  /** A future whose result was returned was fed what arrived, in order; before that nothing was
      done with what arrived. */
  predicate FedLast(o: Cell) {
    o.single ==> if o.ended then o.complete && !o.data && FedInOrder(o.log, o.arrived)
                 else o.alive ==> o.log == []
  }

  lemma StepFeedsLast(o: Cell, op: Op)
    requires Inv(o) && Enabled(o, op) && FedLast(o)
    ensures FedLast(Step(o, op))
  {
  }

  lemma {:induction false} RunFeedsLast(o: Cell, ops: seq<Op>)
    requires Inv(o) && Allowed(o, ops) && FedLast(o)
    ensures FedLast(Run(o, ops))
    decreases |ops|
  {
    if ops != [] {
      StepKeeps(o, ops[0]);
      StepFeedsLast(o, ops[0]);
      RunFeedsLast(Step(o, ops[0]), ops[1..]);
    }
  }

  /** A future that has returned its result got its final completion, completed its data with that
      and before updated it with all others, in the order in which they arrived; and nothing was
      done with a completion until then. */
  lemma FutureEndsLast(ops: seq<Op>)
    requires Allowed(NewCell(true), ops)
    ensures var o := Run(NewCell(true), ops);
            && (o.ended ==> o.arrived != [] && !o.arrived[|o.arrived| - 1].more && FedInOrder(o.log, o.arrived))
            && (o.alive && !o.ended ==> o.log == [] && o.completions == o.arrived)
  {
    RunKeeps(NewCell(true), ops);
    RunKeepsKind(NewCell(true), ops);
    RunFeedsLast(NewCell(true), ops);
  }

  // ----- the cell as the source keeps it --------------------------------------------

  class RawOp {
    var refcount: nat
    var completions: seq<Cqe>
    var complete: bool
    var data: bool
    var waker: bool
    ghost var calls: seq<Event>   // the calls made on the data
    ghost var cell: Cell

    ghost predicate Matches()
      reads this
    {
      && refcount == Handles(cell) && completions == cell.completions && complete == cell.complete
      && data == cell.data && waker == cell.waker && calls == cell.log
    }

    ghost predicate Valid()
      reads this
    {
      Inv(cell) && Matches()
    }

    /** The handle of the application, and a clone of it for the entry. */
    constructor (single: bool)
      ensures Valid() && cell == NewCell(single)
    {
      refcount, completions, complete, data, waker := 2, [], false, true, false;
      calls, cell := [], NewCell(single);
    }

    /** The entry goes to the submission queue, and its handle with it. */
    method Submit()
      requires Valid() && cell.entry
      modifies this
      ensures Valid() && Enabled(old(cell), Op.Submit) && cell == Step(old(cell), Op.Submit)
    {
      StepKeeps(cell, Op.Submit);
      cell := Step(cell, Op.Submit);
    }

    /** A handle is dropped, the last one destroys the cell. */
    method DropRef(ghost o: Cell)
      requires refcount == Handles(o) + 1 && completions == o.completions && complete == o.complete
      requires data == o.data && waker == o.waker && calls == o.log && o.alive && (!o.data ==> o.completions == [])
      modifies this
      ensures cell == Settle(o) && Matches()
    {
      refcount := refcount - 1;
      if refcount == 0 {
        Destroy();
      }
      cell := Settle(o);
    }

    /** What arrived and was not handled is cleaned up by the data. Without data there must
        be nothing left. */
    method Destroy()
      requires refcount == 0 && (!data ==> completions == [])
      modifies this
      ensures completions == [] && !data && complete == old(complete) && waker == old(waker) && refcount == 0
      ensures calls == old(calls) + if old(data) then AllCleaned(old(completions)) else []
    {
      if data {
        data := false;
        ghost var all, n := completions, 0;
        while completions != []
          invariant n <= |all| && completions == all[n..] && calls == old(calls) + AllCleaned(all)[..n]
          invariant complete == old(complete) && waker == old(waker) && refcount == 0 && !data
          decreases |completions|
        {
          calls := calls + [Cleaned(completions[0])];
          completions := completions[1..];
          n := n + 1;
        }
      } else {
        assert completions == [];
      }
    }

    /** A completion arrives, and wakes the waker stored; the final one takes the handle of
        the kernel with it. */
    method Complete(c: Cqe) returns (woken: bool)
      requires Valid() && cell.kernel
      modifies this
      ensures Valid() && Enabled(old(cell), Arrive(c)) && cell == Step(old(cell), Arrive(c))
      ensures woken == old(waker)
    {
      ArriveKeeps(cell, c);
      assert !complete;
      ghost var o := cell.(completions := cell.completions + [c], arrived := cell.arrived + [c],
                           complete := cell.complete || !c.more, kernel := c.more, waker := false);
      completions := completions + [c];
      woken, waker := waker, false;
      if !c.more {
        complete := true;
        DropRef(o);
      } else {
        cell := DoArrive(cell, c);
      }
    }

    method DropHandle()
      requires Valid() && cell.handle
      modifies this
      ensures Valid() && Enabled(old(cell), Op.DropHandle) && cell == Step(old(cell), Op.DropHandle)
    {
      StepKeeps(cell, Op.DropHandle);
      DropRef(cell.(handle := false));
    }

    method DropEntry()
      requires Valid() && cell.entry && !cell.handle
      modifies this
      ensures Valid() && Enabled(old(cell), Op.DropEntry) && cell == Step(old(cell), Op.DropEntry)
    {
      StepKeeps(cell, Op.DropEntry);
      DropRef(cell.(entry := false));
    }

    /** The data taken out of the cell is fed all that arrived, the last as its result. */
    method Feed(results: seq<Cqe>)
      requires results != [] && !results[|results| - 1].more
      requires forall i :: 0 <= i < |results| - 1 ==> results[i].more
      modifies this`calls
      ensures calls == old(calls) + Answers(results)
    {
      var last := |results| - 1;
      var i := 0;
      while i < last
        invariant i <= last && calls == old(calls) + Answers(results)[..i]
      {
        assert results[i].more;
        calls := calls + [Updated(results[i])];
        i := i + 1;
      }
      calls := calls + [Event.Completed(results[last])];
      assert Answers(results)[..last] + [Event.Completed(results[last])] == Answers(results);
    }

    /** The future: once complete, what arrived is taken, and the data with it. */
    method TryComplete() returns (r: Option<Cqe>)
      requires Valid() && Enabled(cell, Poll) && cell.single
      modifies this
      ensures Valid() && Enabled(old(cell), Poll) && cell == Step(old(cell), Poll)
      ensures r.Some? == old(complete)
      ensures r.Some? ==> |old(completions)| > 0 && r.value == old(completions)[|old(completions)| - 1] && !r.value.more
    {
      PollFutureKeeps(cell);
      if !complete {
        waker := true;
        cell := PollFuture(cell);
        return None;
      }
      var results := completions;
      completions := [];
      data := false;
      Feed(results);
      r := Some(results[|results| - 1]);
      cell := PollFuture(cell);
    }

    /** The newest completion becomes an item. */
    method NextItem() returns (c: Cqe)
      requires Valid() && Enabled(cell, Poll) && !cell.single && completions != []
      modifies this
      ensures Valid() && cell == PollStream(old(cell)) && c == old(completions)[|old(completions)| - 1]
      ensures calls == old(calls) + [Updated(c)] && completions == old(completions)[..|old(completions)| - 1]
    {
      PollStreamKeeps(cell);
      var last := |completions| - 1;
      c := completions[last];
      completions := completions[..last];
      calls := calls + [Updated(c)];
      cell := PollStream(cell);
    }

    /** The stream: its next item, its end, or neither yet. */
    method PollNext() returns (item: Option<Cqe>, end: bool)
      requires Valid() && Enabled(cell, Poll) && !cell.single
      modifies this
      ensures Valid() && cell == PollStream(old(cell))
      ensures item.Some? == (old(completions) != []) && end == (old(completions) == [] && old(complete))
      ensures item.Some? ==>
                && |old(completions)| > 0 && item.value == old(completions)[|old(completions)| - 1]
                && calls == old(calls) + [Updated(item.value)]
                && completions == old(completions)[..|old(completions)| - 1]
      ensures item.None? ==> calls == old(calls) && waker == (old(waker) || !end)
    {
      item, end := None, false;
      if completions != [] {
        var c := NextItem();
        item := Some(c);
      } else {
        PollStreamKeeps(cell);
        end := complete;
        if !end {
          waker := true;
        }
        cell := PollStream(cell);
      }
    }
  }
}
