/** The notification list that applies backpressure to the submission queue: waiters are
    fired first come first served, and a fired waiter that is dropped passes its permit on. */
module Notifies {
  import opened Bags

  type Id = nat

  datatype Stage = Unregistered | Linked | Fired | Completed

  datatype Gate = Gate(
    stages: map<Id, Stage>,  // the waiters that exist
    waiters: seq<Id>,        // those linked, in order
    wakers: map<Id, nat>,    // the wakers they left
    next: Id,
    registered: seq<Id>,     // every waiter ever linked, in order
    cancelled: set<Id>,      // those dropped while linked
    fired: seq<Id>,          // those fired, in order
    woken: seq<nat>,         // the wakers woken by firing, in order
    issued: nat,             // permits handed out by notifying
    completed: nat,          // permits with which a wait completed
    discarded: nat)          // permits of dropped waiters that nobody was there to take

  const NewGate := Gate(map[], [], map[], 0, [], {}, [], [], 0, 0, 0)

  function Min(a: nat, b: nat): nat {
    if a <= b then a else b
  }

  /** The waker a waiter left, if any. */
  function WakerOf(wakers: map<Id, nat>, i: Id): seq<nat> {
    if i in wakers then [wakers[i]] else []
  }

  /** The first waiter is fired: its waker is taken and woken. */
  function Fire(g: Gate): Gate
    requires g.waiters != []
  {
    var i := g.waiters[0];
    g.(stages := g.stages[i := Fired], waiters := g.waiters[1..], fired := g.fired + [i],
       wakers := g.wakers - {i}, woken := g.woken + WakerOf(g.wakers, i))
  }

  function FireUpTo(g: Gate, n: nat): Gate
    decreases |g.waiters|
  {
    if n == 0 || g.waiters == [] then g else FireUpTo(Fire(g), n - 1)
  }

  function Issued(g: Gate, n: nat): Gate {
    g.(issued := g.issued + n)
  }

  function DoNotify(g: Gate, n: nat): Gate {
    Issued(FireUpTo(g, n), Min(n, |g.waiters|))
  }

  function DoWait(g: Gate): Gate {
    g.(stages := g.stages[g.next := Unregistered], next := g.next + 1)
  }

  function DoPoll(g: Gate, i: Id, k: nat): Gate
    requires i in g.stages
  {
    match g.stages[i]
    case Unregistered =>
      g.(stages := g.stages[i := Linked], waiters := g.waiters + [i], registered := g.registered + [i],
         wakers := g.wakers[i := k])
    case Linked => g.(wakers := g.wakers[i := k])
    case Fired => g.(stages := g.stages[i := Completed], completed := g.completed + 1)
    case Completed => g
  }

  /** A waiter is dropped: a linked one leaves the list, a fired one passes its permit on. */
  function DoDrop(g: Gate, i: Id): Gate
    requires i in g.stages
  {
    match g.stages[i]
    case Linked =>
      g.(stages := g.stages - {i}, waiters := Without(g.waiters, i), cancelled := g.cancelled + {i},
         wakers := g.wakers - {i})
    case Fired =>
      if g.waiters == [] then g.(stages := g.stages - {i}, discarded := g.discarded + 1)
      else Fire(g.(stages := g.stages - {i}))
    case _ => g.(stages := g.stages - {i})
  }

  datatype Op = Wait | Poll(i: Id, waker: nat) | Drop(i: Id) | Notify(n: nat)

  /** A wait that has completed is not polled again. */
  predicate Enabled(g: Gate, op: Op) {
    match op
    case Poll(i, _) => i in g.stages && !g.stages[i].Completed?
    case Drop(i) => i in g.stages
    case _ => true
  }

  function Step(g: Gate, op: Op): Gate
    requires Enabled(g, op)
  {
    match op
    case Wait => DoWait(g)
    case Poll(i, k) => DoPoll(g, i, k)
    case Drop(i) => DoDrop(g, i)
    case Notify(n) => DoNotify(g, n)
  }

  predicate Allowed(g: Gate, ops: seq<Op>)
    decreases |ops|
  {
    ops == [] || (Enabled(g, ops[0]) && Allowed(Step(g, ops[0]), ops[1..]))
  }

  function Run(g: Gate, ops: seq<Op>): Gate
    requires Allowed(g, ops)
    decreases |ops|
  {
    if ops == [] then g else Run(Step(g, ops[0]), ops[1..])
  }

  // ----- the invariant --------------------------------------------------------------

  function Kept(s: seq<Id>, out: set<Id>): seq<Id> {
    if s == [] then [] else if s[0] in out then Kept(s[1..], out) else [s[0]] + Kept(s[1..], out)
  }

  predicate Unique(s: seq<Id>) {
    s == [] || (s[0] !in s[1..] && Unique(s[1..]))
  }

  /** The waiters that hold a permit. */
  function Holding(g: Gate): set<Id> {
    set i | i in g.stages && g.stages[i].Fired?
  }

  /** Those linked are in the list, each with a waker; those registered are, in order, fired,
      waiting or cancelled. */
  ghost predicate Ordered(g: Gate) {
    && (forall i :: i in g.waiters <==> i in g.stages && g.stages[i].Linked?)
    && (forall i :: i in g.stages || i in g.registered || i in g.cancelled ==> i < g.next)
    && (forall i :: i in g.stages && g.stages[i].Unregistered? ==> i !in g.registered && i !in g.cancelled)
    && Unique(g.registered)
    && Kept(g.registered, g.cancelled) == g.fired + g.waiters
    && (forall i :: i in g.waiters ==> i in g.wakers) && |g.woken| == |g.fired|
  }

  ghost predicate Inv(g: Gate) {
    Ordered(g) && g.issued == g.completed + g.discarded + |Holding(g)|
  }

  // ----- sequences ------------------------------------------------------------------

  lemma {:induction false} KeptAppend(s: seq<Id>, out: set<Id>, i: Id)
    requires i !in out
    ensures Kept(s + [i], out) == Kept(s, out) + [i]
  {
    if s == [] {
      assert s + [i] == [i];
    } else {
      assert (s + [i])[1..] == s[1..] + [i];
      KeptAppend(s[1..], out, i);
    }
  }

  lemma {:induction false} UniqueAppend(s: seq<Id>, i: Id)
    requires Unique(s) && i !in s
    ensures Unique(s + [i])
  {
    if s != [] {
      assert (s + [i])[1..] == s[1..] + [i];
      UniqueAppend(s[1..], i);
    }
  }

  lemma {:induction false} KeptMembers(s: seq<Id>, out: set<Id>)
    requires Unique(s)
    ensures Unique(Kept(s, out)) && forall x :: x in Kept(s, out) <==> x in s && x !in out
  {
    if s != [] {
      KeptMembers(s[1..], out);
      assert s == [s[0]] + s[1..];
      assert s[0] !in out ==> Kept(s, out)[1..] == Kept(s[1..], out);
    }
  }

  lemma {:induction false} UniqueParts(a: seq<Id>, b: seq<Id>)
    requires Unique(a + b)
    ensures Unique(a) && Unique(b) && forall x :: x in a ==> x !in b
  {
    if a == [] {
      assert a + b == b;
    } else {
      assert (a + b)[1..] == a[1..] + b;
      UniqueParts(a[1..], b);
      assert a == [a[0]] + a[1..];
      assert forall x :: x in b ==> x in (a + b)[1..];
    }
  }

  /** Cancelling one more takes it out of those kept. */
  lemma {:induction false} KeptCancel(s: seq<Id>, out: set<Id>, i: Id)
    requires Unique(s) && i !in out
    ensures Kept(s, out + {i}) == Without(Kept(s, out), i)
  {
    if s != [] {
      if s[0] == i {
        KeptAbsent(s[1..], out, i);
        assert Kept(s, out)[1..] == Kept(s[1..], out);
      } else {
        KeptCancel(s[1..], out, i);
        assert s[0] !in out ==> Kept(s, out)[1..] == Kept(s[1..], out);
      }
    }
  }

  lemma {:induction false} KeptAbsent(s: seq<Id>, out: set<Id>, i: Id)
    requires i !in s
    ensures Kept(s, out + {i}) == Kept(s, out)
  {
    if s != [] {
      KeptAbsent(s[1..], out, i);
    }
  }

  lemma {:induction false} WithoutPrefix(a: seq<Id>, b: seq<Id>, i: Id)
    requires i !in a
    ensures Without(a + b, i) == a + Without(b, i)
  {
    if a == [] {
      assert a + b == b;
    } else {
      assert (a + b)[1..] == a[1..] + b;
      WithoutPrefix(a[1..], b, i);
    }
  }

  lemma {:induction false} WithoutMembers(s: seq<Id>, i: Id)
    requires Unique(s)
    ensures forall x :: x in Without(s, i) <==> x in s && x != i
    ensures i in s ==> |Without(s, i)| == |s| - 1
  {
    if s != [] {
      WithoutMembers(s[1..], i);
      assert s == [s[0]] + s[1..];
    }
  }

  // ----- every step keeps the invariant ---------------------------------------------

  lemma WaitersAreUnique(g: Gate)
    requires Ordered(g)
    ensures Unique(g.waiters) && forall x :: x in g.fired ==> x !in g.waiters
    ensures forall x :: x in g.fired || x in g.waiters ==> x in g.registered && x !in g.cancelled
  {
    KeptMembers(g.registered, g.cancelled);
    UniqueParts(g.fired, g.waiters);
    assert forall x :: x in g.fired || x in g.waiters ==> x in g.fired + g.waiters;
  }

  lemma FireKeeps(g: Gate)
    requires Ordered(g) && g.waiters != []
    ensures Ordered(Fire(g)) && |Holding(Fire(g))| == |Holding(g)| + 1
  {
    var w := g.waiters[0];
    WaitersAreUnique(g);
    assert w in g.waiters;
    assert g.waiters == [w] + g.waiters[1..];
    assert Fire(g).fired + Fire(g).waiters == g.fired + g.waiters;
    assert Holding(Fire(g)) == Holding(g) + {w};
  }

  lemma {:induction false} FiresKeep(g: Gate, n: nat)
    requires Ordered(g)
    ensures Ordered(FireUpTo(g, n)) && |Holding(FireUpTo(g, n))| == |Holding(g)| + Min(n, |g.waiters|)
    decreases |g.waiters|
  {
    if n != 0 && g.waiters != [] {
      FireKeeps(g);
      FiresKeep(Fire(g), n - 1);
    }
  }

  /** Notifying fires the first waiters, as many as asked for or as there are, in order. */
  lemma {:induction false} FiresInOrder(g: Gate, n: nat)
    ensures var g' := FireUpTo(g, n); var m := Min(n, |g.waiters|);
            g' == g.(stages := g'.stages, waiters := g.waiters[m..], fired := g.fired + g.waiters[..m],
                     wakers := g'.wakers, woken := g'.woken)
    decreases |g.waiters|
  {
    if n != 0 && g.waiters != [] {
      FiresInOrder(Fire(g), n - 1);
      var m := Min(n - 1, |g.waiters| - 1);
      assert g.waiters[..m + 1] == [g.waiters[0]] + g.waiters[1..][..m];
    } else {
      assert g.waiters[0..] == g.waiters;
    }
  }

  /** They, and no others, hold a permit then. */
  lemma {:induction false} FiresTheFirst(g: Gate, n: nat, i: Id)
    requires Ordered(g)
    ensures var g' := FireUpTo(g, n); var m := Min(n, |g.waiters|);
            && (i in g'.stages <==> i in g.stages)
            && (i in g.stages ==> g'.stages[i] == if i in g.waiters[..m] then Fired else g.stages[i])
    decreases |g.waiters|
  {
    if n != 0 && g.waiters != [] {
      FireKeeps(g);
      FiresTheFirst(Fire(g), n - 1, i);
      var m := Min(n - 1, |g.waiters| - 1);
      assert g.waiters[..m + 1] == [g.waiters[0]] + g.waiters[1..][..m];
      assert g.waiters[0] in g.waiters;
    }
  }

  /** Each is woken by the waker it left last, in the same order. */
  lemma {:induction false} FiresWake(g: Gate, n: nat)
    requires Ordered(g)
    ensures var m := Min(n, |g.waiters|);
            && (forall j :: 0 <= j < m ==> g.waiters[j] in g.wakers)
            && FireUpTo(g, n).woken == g.woken + seq(m, j requires 0 <= j < m => g.wakers[g.waiters[j]])
    decreases |g.waiters|
  {
    if n != 0 && g.waiters != [] {
      FireKeeps(g);
      FiresWake(Fire(g), n - 1);
      WaitersAreUnique(g);
      var m := Min(n, |g.waiters|);
      var rest := Fire(g);
      assert g.waiters[0] in g.waiters;
      forall j | 0 <= j < m - 1 ensures rest.wakers[rest.waiters[j]] == g.wakers[g.waiters[j + 1]] {
        assert g.waiters[j + 1] == g.waiters[1..][j];
      }
      assert seq(m, j requires 0 <= j < m => g.wakers[g.waiters[j]])
          == [g.wakers[g.waiters[0]]] + seq(m - 1, j requires 0 <= j < m - 1 => rest.wakers[rest.waiters[j]]);
    }
  }

  lemma IssuedKeeps(g: Gate, n: nat)
    requires Ordered(g)
    ensures Ordered(Issued(g, n)) && Holding(Issued(g, n)) == Holding(g)
  {
  }

  lemma FiresKeepPermits(g: Gate, n: nat)
    ensures var g' := FireUpTo(g, n);
            g'.issued == g.issued && g'.completed == g.completed && g'.discarded == g.discarded
  {
    FiresInOrder(g, n);
  }

  lemma NotifyKeeps(g: Gate, n: nat)
    requires Inv(g)
    ensures Inv(DoNotify(g, n))
  {
    FiresKeep(g, n);
    FiresKeepPermits(g, n);
    IssuedKeeps(FireUpTo(g, n), Min(n, |g.waiters|));
  }

  lemma PollKeeps(g: Gate, i: Id, k: nat)
    requires Inv(g) && Enabled(g, Poll(i, k))
    ensures Inv(DoPoll(g, i, k))
  {
    var g' := DoPoll(g, i, k);
    match g.stages[i]
    case Unregistered =>
      KeptAppend(g.registered, g.cancelled, i);
      UniqueAppend(g.registered, i);
      assert Holding(g') == Holding(g);
    case Fired =>
      assert Holding(g) == Holding(g') + {i};
    case Linked => assert Holding(g') == Holding(g);
    case Completed =>
  }

  lemma DropLinkedKeeps(g: Gate, i: Id)
    requires Inv(g) && i in g.stages && g.stages[i].Linked?
    ensures Inv(DoDrop(g, i))
  {
    WaitersAreUnique(g);
    KeptCancel(g.registered, g.cancelled, i);
    WithoutPrefix(g.fired, g.waiters, i);
    WithoutMembers(g.waiters, i);
    assert Holding(DoDrop(g, i)) == Holding(g);
  }

  lemma DropKeeps(g: Gate, i: Id)
    requires Inv(g) && i in g.stages
    ensures Inv(DoDrop(g, i))
  {
    var left := g.(stages := g.stages - {i});
    match g.stages[i]
    case Linked => DropLinkedKeeps(g, i);
    case Fired =>
      assert Holding(g) == Holding(left) + {i};
      if g.waiters != [] {
        FireKeeps(left);
      } else {
        assert Holding(DoDrop(g, i)) == Holding(left);
      }
    case _ => assert Holding(left) == Holding(g);
  }

  lemma StepKeeps(g: Gate, op: Op)
    requires Inv(g) && Enabled(g, op)
    ensures Inv(Step(g, op))
  {
    match op
    case Wait => assert Holding(DoWait(g)) == Holding(g);
    case Poll(i, k) => PollKeeps(g, i, k);
    case Drop(i) => DropKeeps(g, i);
    case Notify(n) => NotifyKeeps(g, n);
  }

  lemma {:induction false} RunKeeps(g: Gate, ops: seq<Op>)
    requires Inv(g) && Allowed(g, ops)
    ensures Inv(Run(g, ops))
    decreases |ops|
  {
    if ops == [] {
    } else {
      StepKeeps(g, ops[0]);
      RunKeeps(Step(g, ops[0]), ops[1..]);
    }
  }

  /** In every run the waiters fire in the order in which they registered, those cancelled
      left out; and every permit issued completed a wait, is held by a waiter that was
      fired, or was discarded. */
  lemma FirstComeFirstServed(ops: seq<Op>)
    requires Allowed(NewGate, ops)
    ensures var g := Run(NewGate, ops);
            && Kept(g.registered, g.cancelled) == g.fired + g.waiters
            && g.issued == g.completed + g.discarded + |Holding(g)|
  {
    RunKeeps(NewGate, ops);
  }

  // ----- when permits are lost ------------------------------------------------------

  /** A fired waiter is dropped, with no waiter there to take its permit. */
  predicate Loses(g: Gate, op: Op) {
    op.Drop? && op.i in g.stages && g.stages[op.i].Fired? && g.waiters == []
  }

  predicate NoneLost(g: Gate, ops: seq<Op>)
    requires Allowed(g, ops)
    decreases |ops|
  {
    ops == [] || (!Loses(g, ops[0]) && NoneLost(Step(g, ops[0]), ops[1..]))
  }

  lemma PermitsArePassedOn(g: Gate, op: Op)
    requires Enabled(g, op)
    ensures Step(g, op).discarded == g.discarded + if Loses(g, op) then 1 else 0
  {
    if op.Notify? {
      FiresInOrder(g, op.n);
    }
  }

  lemma {:induction false} LossesAdd(g: Gate, ops: seq<Op>)
    requires Allowed(g, ops)
    ensures Run(g, ops).discarded >= g.discarded
    ensures Run(g, ops).discarded == g.discarded <==> NoneLost(g, ops)
    decreases |ops|
  {
    if ops == [] {
    } else {
      PermitsArePassedOn(g, ops[0]);
      LossesAdd(Step(g, ops[0]), ops[1..]);
    }
  }

  /** In every run, all permits issued have completed a wait or are held by a waiter that can,
      if and only if no fired waiter was dropped while none was linked. */
  lemma PermitsCompleteUnlessLost(ops: seq<Op>)
    requires Allowed(NewGate, ops)
    ensures var g := Run(NewGate, ops);
            g.issued == g.completed + |Holding(g)| <==> NoneLost(NewGate, ops)
  {
    RunKeeps(NewGate, ops);
    LossesAdd(NewGate, ops);
  }

  /** Notifying hands out as many permits as asked for if and only if there are as many
      waiters; those that come later get none. */
  lemma ShortOfWaiters(g: Gate, n: nat)
    ensures DoNotify(g, n).issued == g.issued + n <==> n <= |g.waiters|
  {
    FiresKeepPermits(g, n);
  }

  /** Only notifying issues permits, as many as asked for or as there are waiters; only polling
      a fired waiter completes a wait. */
  lemma OnlyNotifyIssues(g: Gate, op: Op)
    requires Enabled(g, op)
    ensures Step(g, op).issued
         == g.issued + if op.Notify? then if op.n <= |g.waiters| then op.n else |g.waiters| else 0
    ensures Step(g, op).completed == g.completed + if op.Poll? && g.stages[op.i].Fired? then 1 else 0
  {
    if op.Notify? {
      FiresKeepPermits(g, op.n);
    }
  }

  /** Dropping a fired waiter passes its permit on to the first in the list, which is woken by
      the waker it left; dropping any other fires nobody. */
  lemma DropPassesOn(g: Gate, i: Id)
    requires Inv(g) && i in g.stages
    ensures var g' := DoDrop(g, i);
            if g.stages[i].Fired? && g.waiters != [] then
              && g.waiters[0] in g.wakers && g'.waiters == g.waiters[1..] && g'.fired == g.fired + [g.waiters[0]]
              && g'.woken == g.woken + [g.wakers[g.waiters[0]]]
              && i !in g'.stages
            else g'.fired == g.fired && g'.woken == g.woken && i !in g'.stages
  {
    assert g.waiters != [] ==> g.waiters[0] in g.waiters;
  }

  // ----- served in turn -------------------------------------------------------------

  /** All that were fired or wait, in order. */
  function Line(g: Gate): seq<Id> {
    g.fired + g.waiters
  }

  /** A poll that does not complete leaves the waiter in the list, a new one at the end, with
      its newest waker; a poll of a fired waiter completes it. */
  lemma PendingPollIsLinked(g: Gate, i: Id, k: nat)
    requires Inv(g) && Enabled(g, Poll(i, k))
    ensures var g' := DoPoll(g, i, k);
            if g.stages[i].Fired? then g'.waiters == g.waiters && g'.stages[i].Completed?
            else
              && g'.waiters == (if g.stages[i].Linked? then g.waiters else g.waiters + [i])
              && i in g'.waiters && i in g'.wakers && g'.wakers[i] == k
  {
  }

  lemma {:induction false} WithoutMovesUp(s: seq<Id>, j: Id, q: nat) returns (r: nat)
    requires q < |s| && s[q] != j
    ensures r <= q && r < |Without(s, j)| && Without(s, j)[r] == s[q]
  {
    if s[0] == j {
      r := q - 1;
    } else if q == 0 {
      r := 0;
    } else {
      r := WithoutMovesUp(s[1..], j, q - 1);
      r := r + 1;
    }
  }

  lemma FiringKeepsLine(g: Gate, n: nat)
    ensures Line(FireUpTo(g, n)) == Line(g) && |FireUpTo(g, n).fired| == |g.fired| + Min(n, |g.waiters|)
  {
    FiresInOrder(g, n);
    assert g.waiters[..Min(n, |g.waiters|)] + g.waiters[Min(n, |g.waiters|)..] == g.waiters;
  }

  /** Dropping another waiter moves those behind it up. */
  lemma DropMovesUp(g: Gate, i: Id, q: nat) returns (r: nat)
    requires Inv(g) && i in g.stages && q < |Line(g)| && Line(g)[q] != i
    ensures var g' := DoDrop(g, i);
            r <= q && r < |Line(g')| && Line(g')[r] == Line(g)[q] && |g'.fired| >= |g.fired|
  {
    r := q;
    if g.stages[i].Linked? {
      WaitersAreUnique(g);
      WithoutPrefix(g.fired, g.waiters, i);
      r := WithoutMovesUp(Line(g), i, q);
    }
  }

  /** No step moves a waiter back that is not dropped, and as many fire as permits are issued. */
  lemma StepMovesUp(g: Gate, op: Op, q: nat) returns (r: nat)
    requires Inv(g) && Enabled(g, op) && q < |Line(g)| && op != Drop(Line(g)[q])
    ensures var g' := Step(g, op);
            && r <= q && r < |Line(g')| && Line(g')[r] == Line(g)[q]
            && |g'.fired| - |g.fired| >= g'.issued - g.issued >= 0
  {
    r := q;
    match op
    case Drop(i) => r := DropMovesUp(g, i, q);
    case Notify(n) =>
      FiringKeepsLine(g, n);
      FiresKeepPermits(g, n);
    case _ =>
  }

  lemma {:induction false} RunMovesUp(g: Gate, ops: seq<Op>, q: nat) returns (r: nat)
    requires Inv(g) && Allowed(g, ops) && q < |Line(g)| && Drop(Line(g)[q]) !in ops
    ensures var g' := Run(g, ops);
            && r <= q && r < |Line(g')| && Line(g')[r] == Line(g)[q]
            && |g'.fired| - |g.fired| >= g'.issued - g.issued
    decreases |ops|
  {
    r := q;
    if ops != [] {
      StepKeeps(g, ops[0]);
      assert ops == [ops[0]] + ops[1..];
      r := StepMovesUp(g, ops[0], q);
      r := RunMovesUp(Step(g, ops[0]), ops[1..], r);
    }
  }

  /** Every waiter is served in its turn: with `p` others before it in the list, it is fired once
      more than `p` permits have been issued, whatever else happens, unless it is dropped. */
  lemma ServedInTurn(g: Gate, ops: seq<Op>, p: nat)
    requires Inv(g) && Allowed(g, ops) && p < |g.waiters| && Drop(g.waiters[p]) !in ops
    requires Run(g, ops).issued - g.issued > p
    ensures g.waiters[p] in Run(g, ops).fired
  {
    var r := RunMovesUp(g, ops, |g.fired| + p);
    FiredAreInFront(Run(g, ops), r);
  }

  lemma FiredAreInFront(g: Gate, r: nat)
    requires r < |g.fired|
    ensures Line(g)[r] in g.fired
  {
  }

  const LOST_PERMIT := [Wait, Poll(0, 0), Notify(1), Drop(0)]

  /** A run that loses a permit: the only waiter is fired and dropped. */
  lemma PermitIsLost()
    ensures Allowed(NewGate, LOST_PERMIT) && !NoneLost(NewGate, LOST_PERMIT)
    ensures var g := Run(NewGate, LOST_PERMIT); g.issued == 1 && g.completed == 0 && Holding(g) == {}
  {
    var g1 := Step(NewGate, Wait);
    var g2 := Step(g1, Poll(0, 0));
    var g3 := Step(g2, Notify(1));
    assert FireUpTo(Fire(g2), 0) == Fire(g2) && FireUpTo(g2, 1) == Fire(g2);
    assert g3 == Issued(Fire(g2), 1);
    var g4 := Step(g3, Drop(0));
    assert LOST_PERMIT[1..] == [Poll(0, 0), Notify(1), Drop(0)];
    assert LOST_PERMIT[1..][1..] == [Notify(1), Drop(0)];
    assert LOST_PERMIT[1..][1..][1..] == [Drop(0)];
    assert Allowed(g4, []) && Allowed(g3, [Drop(0)]);
    assert Allowed(g2, [Notify(1), Drop(0)]) && Allowed(g1, LOST_PERMIT[1..]);
    assert Run(g3, [Drop(0)]) == Run(g4, []);
    assert Run(g2, [Notify(1), Drop(0)]) == Run(g3, [Drop(0)]);
    assert Run(g1, LOST_PERMIT[1..]) == Run(g2, [Notify(1), Drop(0)]);
    assert Run(NewGate, LOST_PERMIT) == g4;
    PermitsCompleteUnlessLost(LOST_PERMIT);
  }

  // ----- the list as the source keeps it --------------------------------------------

  class NotifyList {
    var waiters: seq<Id>
    var count: nat
    var entries: map<Id, Stage>
    var wakers: map<Id, nat>
    var next: Id
    ghost var gate: Gate

    /** The fields are those of the gate, whose permits may be out of balance. */
    ghost predicate Synced()
      reads this
    {
      && Ordered(gate) && gate.stages == entries && gate.waiters == waiters && gate.next == next
      && gate.wakers == wakers && count == |waiters|
    }

    ghost predicate Valid()
      reads this
    {
      Synced() && Inv(gate)
    }

    constructor ()
      ensures Valid() && gate == NewGate
    {
      waiters, count, entries, wakers, next := [], 0, map[], map[], 0;
      gate := NewGate;
    }

    method Wait() returns (i: Id)
      requires Valid()
      modifies this
      ensures Valid() && gate == DoWait(old(gate)) && i == old(gate).next
    {
      StepKeeps(gate, Op.Wait);
      i := next;
      entries := entries[i := Unregistered];
      next := next + 1;
      gate := DoWait(gate);
    }

    /** As synced, but for the count, which is put right at the end. */
    ghost predicate Unlinking()
      reads this
    {
      waiters == gate.waiters && entries == gate.stages && wakers == gate.wakers && next == gate.next
    }

    /** Takes the first waiter off the list, and wakes it by its waker. */
    method FireOne() returns (woken: seq<nat>)
      requires Unlinking() && waiters != []
      modifies this`waiters, this`entries, this`wakers, this`gate
      ensures Unlinking() && old(gate).waiters != [] && gate == Fire(old(gate))
      ensures gate.woken == old(gate).woken + woken
    {
      var i := waiters[0];
      woken := WakerOf(wakers, i);
      wakers := wakers - {i};
      entries := entries[i := Fired];
      waiters := waiters[1..];
      gate := Fire(gate);
    }

    /** Takes up to `n` waiters off the list, and wakes them. */
    method Unlink(n: nat) returns (removed: nat, woken: seq<nat>)
      requires Unlinking()
      modifies this`waiters, this`entries, this`wakers, this`gate
      ensures Unlinking() && gate == FireUpTo(old(gate), n) && gate.woken == old(gate).woken + woken
      ensures removed == Min(n, |old(gate).waiters|)
    {
      removed, woken := 0, [];
      while removed != n && waiters != []
        invariant removed <= n && removed + |waiters| == |old(gate).waiters| && Unlinking()
        invariant FireUpTo(gate, n - removed) == FireUpTo(old(gate), n) && gate.woken == old(gate).woken + woken
        decreases n - removed
      {
        var w := FireOne();
        woken := woken + w;
        removed := removed + 1;
      }
    }

    /** Fires up to `n` waiters, and returns how many and the wakers it woke. */
    method FireFirst(n: nat) returns (removed: nat, woken: seq<nat>)
      requires Synced()
      modifies this
      ensures Synced() && gate == FireUpTo(old(gate), n) && removed == Min(n, |old(gate).waiters|)
      ensures gate.woken == old(gate).woken + woken
    {
      FiresKeep(gate, n);
      FiresInOrder(gate, n);
      removed, woken := Unlink(n);
      count := count - removed;
    }

    /** Issues up to `n` permits, and wakes the first waiters by the wakers they left. */
    method Notify(n: nat) returns (removed: nat, woken: seq<nat>)
      requires Valid()
      modifies this
      ensures Valid() && gate == DoNotify(old(gate), n) && removed == Min(n, |old(gate).waiters|)
      ensures |woken| == removed
      ensures forall j :: 0 <= j < removed ==>
                old(gate).waiters[j] in old(gate).wakers && woken[j] == old(gate).wakers[old(gate).waiters[j]]
    {
      NotifyKeeps(gate, n);
      FiresWake(gate, n);
      ghost var g := gate;
      removed, woken := FireFirst(n);
      assert woken == gate.woken[|g.woken|..];
      gate := Issued(gate, removed);
    }

    /** Polls a wait with a waker, and returns whether it completed. */
    method Poll(i: Id, k: nat) returns (done: bool)
      requires Valid() && Enabled(gate, Op.Poll(i, k))
      modifies this
      ensures Valid() && i in old(gate).stages && gate == DoPoll(old(gate), i, k)
      ensures done == old(gate).stages[i].Fired?
      ensures !done ==> i in gate.waiters && i in gate.wakers && gate.wakers[i] == k
      ensures gate.waiters == old(gate).waiters + if old(gate).stages[i].Unregistered? then [i] else []
    {
      PollKeeps(gate, i, k);
      PendingPollIsLinked(gate, i, k);
      done := false;
      match entries[i] {
        case Unregistered =>
          entries := entries[i := Linked];
          wakers := wakers[i := k];
          waiters := waiters + [i];
          count := count + 1;
        case Linked =>
          wakers := wakers[i := k];
        case Fired =>
          entries := entries[i := Completed];
          done := true;
      }
      gate := DoPoll(gate, i, k);
    }

    /** A linked waiter leaves the list. */
    method Cancel(i: Id)
      requires Valid() && i in entries && entries[i].Linked?
      modifies this
      ensures Valid() && i in old(gate).stages && gate == DoDrop(old(gate), i)
    {
      DropLinkedKeeps(gate, i);
      WaitersAreUnique(gate);
      WithoutMembers(gate.waiters, i);
      count := count - 1;
      waiters := Without(waiters, i);
      entries := entries - {i};
      wakers := wakers - {i};
      gate := DoDrop(gate, i);
    }

    /** A fired waiter passes its permit on to the next, which is woken. */
    method PassOn(i: Id)
      requires Valid() && i in entries && entries[i].Fired?
      modifies this
      ensures Valid() && i in old(gate).stages && gate == DoDrop(old(gate), i)
    {
      DropKeeps(gate, i);
      entries := entries - {i};
      gate := gate.(stages := gate.stages - {i});
      var passed, woken := FireFirst(1);
      if passed == 0 {
        gate := gate.(discarded := gate.discarded + 1);
      }
    }

    /** Drops a waiter. A fired one passes its permit on to the first in the list, which is woken
        by the waker it left. */
    method Drop(i: Id)
      requires Valid() && i in entries
      modifies this
      ensures Valid() && i in old(gate).stages && gate == DoDrop(old(gate), i) && i !in gate.stages
      ensures if old(gate).stages[i].Fired? && old(gate).waiters != [] then
                && gate.waiters == old(gate).waiters[1..] && gate.fired == old(gate).fired + [old(gate).waiters[0]]
                && old(gate).waiters[0] in old(gate).wakers
                && gate.woken == old(gate).woken + [old(gate).wakers[old(gate).waiters[0]]]
              else gate.fired == old(gate).fired && gate.woken == old(gate).woken
    {
      DropPassesOn(gate, i);
      match entries[i]
      case Linked => Cancel(i);
      case Fired => PassOn(i);
      case _ =>
        DropKeeps(gate, i);
        entries := entries - {i};
        gate := DoDrop(gate, i);
    }
  }
}
