/** A task cell: flags and reference count, the future or its result, and the waker of the
    join handle. What the source asserts in a transition is required here; the runtime shows
    that it always holds. */
module TaskCells {
  import opened Wrappers
  import opened TaskModel

  /** The flags and the reference count, as they are stored in the cell. */
  datatype Flags = Flags(notified: bool, running: bool, complete: bool, join: bool, cancelled: bool, refcount: nat)

  datatype Cell = Cell(state: Flags, slot: Slot, waker: Option<Waker>)

  function AsTask(c: Cell): Task {
    var s := c.state;
    Task(s.notified, s.running, s.complete, s.join, s.cancelled, c.slot, c.waker)
  }

  datatype PreparePollResult = PollNow | AlreadyComplete | AlreadyCancelled
  datatype CompletePollResult = PollDone | NotifiedDuringPoll | CancelledDuringPoll
  datatype CompleteTaskResult = NotifyJoinHandle | DropOutput
  datatype NotifyResult = DoNothing | SubmitTask

  /** The state of a task, copied out of its cell for an update. */
  class State {
    var notified: bool
    var running: bool
    var complete: bool
    var joinHandle: bool
    var cancelled: bool
    var refcount: nat

    /** The state of a new task: notified, with a join handle and a runnable. */
    constructor New()
      ensures Get() == Flags(true, false, false, true, false, 2)
    {
      notified, running, complete, joinHandle, cancelled := true, false, false, true, false;
      refcount := 2;
    }

    constructor (s: Flags)
      ensures Get() == s
    {
      notified, running, complete, joinHandle, cancelled := s.notified, s.running, s.complete, s.join, s.cancelled;
      refcount := s.refcount;
    }

    function Get(): Flags
      reads this
    {
      Flags(notified, running, complete, joinHandle, cancelled, refcount)
    }

    method PreparePoll() returns (r: PreparePollResult)
      requires refcount > 0 && notified && !running
      modifies this
      ensures r == if old(complete) then AlreadyComplete else if old(cancelled) then AlreadyCancelled else PollNow
      ensures Get() == if old(complete) then old(Get()) else old(Get()).(running := true, notified := false)
    {
      if complete {
        return AlreadyComplete;
      }
      running := true;
      notified := false;
      if cancelled {
        return AlreadyCancelled;
      }
      return PollNow;
    }

    method CompletePoll() returns (r: CompletePollResult)
      requires refcount > 0 && running
      modifies this
      ensures r == if old(cancelled) then CancelledDuringPoll
                   else if old(notified) then NotifiedDuringPoll else PollDone
      ensures Get() == if old(cancelled) then old(Get()) else old(Get()).(running := false)
    {
      if cancelled {
        return CancelledDuringPoll;
      }
      running := false;
      if notified {
        return NotifiedDuringPoll;
      }
      return PollDone;
    }

    method CompleteTask() returns (r: CompleteTaskResult)
      requires refcount > 0 && running && !complete
      modifies this
      ensures r == if old(joinHandle) then NotifyJoinHandle else DropOutput
      ensures Get() == old(Get()).(complete := true, running := false)
    {
      complete := true;
      running := false;
      return if joinHandle then NotifyJoinHandle else DropOutput;
    }

    /** Returns whether the cell is to be freed. */
    method DropRef() returns (last: bool)
      requires refcount > 0 && (refcount == 1 ==> !joinHandle)
      modifies this
      ensures Get() == old(Get()).(refcount := old(refcount) - 1) && last == (old(refcount) == 1)
    {
      refcount := refcount - 1;
      last := refcount == 0;
    }

    method CloneRef()
      requires refcount > 0
      modifies this
      ensures Get() == old(Get()).(refcount := old(refcount) + 1)
    {
      refcount := refcount + 1;
    }

    method Notify() returns (r: NotifyResult)
      requires refcount > 0
      modifies this
      ensures r == if old(complete || notified || running) then DoNothing else SubmitTask
      ensures Get() == if old(complete) then old(Get()) else old(Get()).(notified := true)
    {
      if complete || notified {
        return DoNothing;
      }
      notified := true;
      return if running then DoNothing else SubmitTask;
    }

    /** Returns whether the task had completed before. */
    method Shutdown() returns (done: bool)
      requires refcount > 0 && !running
      modifies this
      ensures done == old(complete)
      ensures Get() == old(Get()).(cancelled := true, complete := true)
    {
      cancelled := true;
      done := complete;
      complete := true;
    }

    method Abort() returns (r: NotifyResult)
      requires refcount > 0 && joinHandle
      modifies this
      ensures r == if old(cancelled || complete || running || notified) then DoNothing else SubmitTask
      ensures Get() == if old(cancelled || complete) then old(Get())
                       else old(Get()).(cancelled := true, notified := true)
    {
      if cancelled || complete {
        return DoNothing;
      }
      cancelled := true;
      if running {
        notified := true;
        return DoNothing;
      }
      if notified {
        return DoNothing;
      }
      notified := true;
      return SubmitTask;
    }

    method DropJoinHandle()
      requires refcount > 0 && joinHandle
      modifies this
      ensures Get() == old(Get()).(join := false)
    {
      joinHandle := false;
    }
  }

  // ----- updates of a cell: the state is copied out, changed and put back -----------

  function Recounted(c: Cell, n: nat): Cell {
    c.(state := c.state.(refcount := n))
  }

  method IncrementCount(c: Cell) returns (r: Cell)
    requires c.state.refcount > 0
    ensures r == Recounted(c, c.state.refcount + 1)
  {
    var s := new State(c.state);
    s.CloneRef();
    r := c.(state := s.Get());
  }

  method DecrementCount(c: Cell) returns (r: Cell, last: bool)
    requires c.state.refcount > 0 && (c.state.refcount == 1 ==> !c.state.join)
    ensures r == Recounted(c, c.state.refcount - 1) && last == (c.state.refcount == 1)
  {
    var s := new State(c.state);
    last := s.DropRef();
    r := c.(state := s.Get());
  }

  method MarkNotified(c: Cell) returns (r: Cell, what: NotifyResult)
    requires c.state.refcount > 0
    ensures what == if c.state.complete || c.state.notified || c.state.running then DoNothing else SubmitTask
    ensures r == if c.state.complete then c else c.(state := c.state.(notified := true))
  {
    var s := new State(c.state);
    what := s.Notify();
    r := c.(state := s.Get());
  }

  method PreparePollIn(c: Cell) returns (r: Cell, what: PreparePollResult)
    requires c.state.refcount > 0 && c.state.notified && !c.state.running
    ensures what == if c.state.complete then AlreadyComplete
                    else if c.state.cancelled then AlreadyCancelled else PollNow
    ensures r == if c.state.complete then c else c.(state := c.state.(running := true, notified := false))
  {
    var s := new State(c.state);
    what := s.PreparePoll();
    r := c.(state := s.Get());
  }

  method CompletePollIn(c: Cell) returns (r: Cell, what: CompletePollResult)
    requires c.state.refcount > 0 && c.state.running
    ensures what == if c.state.cancelled then CancelledDuringPoll
                    else if c.state.notified then NotifiedDuringPoll else PollDone
    ensures r == if c.state.cancelled then c else c.(state := c.state.(running := false))
  {
    var s := new State(c.state);
    what := s.CompletePoll();
    r := c.(state := s.Get());
  }

  method CompleteTaskIn(c: Cell) returns (r: Cell, what: CompleteTaskResult)
    requires c.state.refcount > 0 && c.state.running && !c.state.complete
    ensures what == if c.state.join then NotifyJoinHandle else DropOutput
    ensures r == c.(state := c.state.(complete := true, running := false))
  {
    var s := new State(c.state);
    what := s.CompleteTask();
    r := c.(state := s.Get());
  }

  method ShutdownIn(c: Cell) returns (r: Cell, done: bool)
    requires c.state.refcount > 0 && !c.state.running
    ensures done == c.state.complete
    ensures r == c.(state := c.state.(cancelled := true, complete := true))
  {
    var s := new State(c.state);
    done := s.Shutdown();
    r := c.(state := s.Get());
  }

  method AbortIn(c: Cell) returns (r: Cell, what: NotifyResult)
    requires c.state.refcount > 0 && c.state.join
    ensures what == if c.state.cancelled || c.state.complete || c.state.running || c.state.notified
                    then DoNothing else SubmitTask
    ensures r == if c.state.cancelled || c.state.complete then c
                 else c.(state := c.state.(cancelled := true, notified := true))
  {
    var s := new State(c.state);
    what := s.Abort();
    r := c.(state := s.Get());
  }

  method DropJoinHandleIn(c: Cell) returns (r: Cell)
    requires c.state.refcount > 0 && c.state.join
    ensures r == c.(state := c.state.(join := false))
  {
    var s := new State(c.state);
    s.DropJoinHandle();
    r := c.(state := s.Get());
  }
}
