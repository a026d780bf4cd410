/** The ring of buffers registered with the kernel: which side owns which buffer while the
    16-bit tail wraps. */
module BufferRings {
  import opened Wrappers

  type Bid = nat

  const U16 := 0x1_0000
  const MAX_ENTRIES := 0x8000

  // ----- powers of two --------------------------------------------------------------

  /** The bitwise "and" of two numbers. */
  function And(a: nat, b: nat): nat {
    if a == 0 || b == 0 then 0 else 2 * And(a / 2, b / 2) + if a % 2 == 1 && b % 2 == 1 then 1 else 0
  }

  predicate PowerOfTwo(n: nat) {
    n == 1 || (n > 1 && n % 2 == 0 && PowerOfTwo(n / 2))
  }

  function NextPowerOfTwo(n: nat): nat {
    if n <= 1 then 1 else 2 * NextPowerOfTwo((n + 1) / 2)
  }

  /** The least power of two that is not below. */
  lemma {:induction false} NextPowerIsLeast(n: nat, p: nat)
    ensures PowerOfTwo(NextPowerOfTwo(n)) && n <= NextPowerOfTwo(n)
    ensures PowerOfTwo(p) && n <= p ==> NextPowerOfTwo(n) <= p
  {
    if n > 1 {
      NextPowerIsLeast((n + 1) / 2, p / 2);
    }
  }

  lemma {:induction false} AndSelf(n: nat)
    ensures And(n, n) == n
  {
    if n > 0 {
      AndSelf(n / 2);
    }
  }

  /** A number is a power of two if it shares no bit with its predecessor. */
  lemma {:induction false} PowerByBits(n: nat)
    requires n > 0
    ensures And(n, n - 1) == 0 <==> PowerOfTwo(n)
  {
    if n > 1 {
      if n % 2 == 0 {
        PowerByBits(n / 2);
        assert (n - 1) / 2 == n / 2 - 1;
      } else {
        AndSelf(n / 2);
        assert (n - 1) / 2 == n / 2;
      }
    }
  }

  /** Masking with a power of two less one is the remainder. */
  lemma {:induction false} MaskIsRemainder(x: nat, n: nat)
    requires PowerOfTwo(n)
    ensures And(x, n - 1) == x % n
  {
    if n > 1 {
      var h := n / 2;
      MaskIsRemainder(x / 2, h);
      assert (n - 1) / 2 == h - 1;
      HalvedRemainder(x, h);
      assert x == 0 ==> And(x, n - 1) == 0;
    }
  }

  lemma HalvedRemainder(x: nat, h: nat)
    requires h > 0
    ensures x % (2 * h) == 2 * ((x / 2) % h) + x % 2
  {
    var q, r := (x / 2) / h, (x / 2) % h;
    assert x == (2 * h) * q + (2 * r + x % 2);
    Remainder(x, 2 * h, q, 2 * r + x % 2);
  }

  /** A multiple other than zero is at least as large. */
  lemma Multiple(n: nat, d: int)
    ensures d > 0 ==> n * d >= n
    ensures d < 0 ==> n * d <= -1 * n
  {
    if d > 0 {
      assert n * (d - 1) >= 0;
    } else if d < 0 {
      assert n * (-1 - d) >= 0;
    }
  }

  lemma Remainder(x: nat, n: nat, q: nat, r: nat)
    requires x == n * q + r && r < n
    ensures x % n == r
  {
    Multiple(n, x / n - q);
    assert n * (x / n - q) == n * (x / n) - n * q;
  }

  lemma {:induction false} PowersDivide(m: nat, n: nat)
    requires PowerOfTwo(m) && PowerOfTwo(n) && n <= m
    ensures m % n == 0
  {
    if n > 1 {
      PowersDivide(m / 2, n / 2);
      HalvedRemainder(m, n / 2);
    }
  }

  lemma Grouped(n: nat, k: nat, a: nat, b: nat)
    ensures n * k * a + n * b == n * (k * a + b)
  {
  }

  /** Dropping whole multiples first does not change the remainder. */
  lemma RemainderOfRemainder(x: nat, m: nat, n: nat)
    requires n > 0 && m > 0 && m % n == 0
    ensures (x % m) % n == x % n
  {
    var k, a, y := m / n, x / m, x % m;
    assert m == n * k;
    assert x == m * a + y;
    assert y == n * (y / n) + y % n;
    Grouped(n, k, a, y / n);
    Remainder(x, n, k * a + y / n, y % n);
  }

  lemma RemaindersDiffer(a: nat, b: nat, n: nat)
    requires a < b < a + n
    ensures a % n != b % n
  {
    Multiple(n, b / n - a / n);
    assert n * (b / n - a / n) == n * (b / n) - n * (a / n);
  }

  // ----- building -------------------------------------------------------------------

  datatype Built = Built(entries: nat, count: nat, len: nat) | TooManyEntries | InvalidInput

  function Max(a: nat, b: nat): nat {
    if a >= b then a else b
  }

  /** Builds a ring when there is at least one buffer, of at least one byte, and the larger
      of both settings fits; the ring then has room for all buffers. */
  method Build(ringEntries: nat, bufCnt: nat, bufLen: nat) returns (r: Built)
    requires ringEntries < U16 && bufCnt < U16
    ensures r.TooManyEntries? <==> Max(ringEntries, bufCnt) > MAX_ENTRIES
    ensures r.Built? <==> 0 < Max(ringEntries, bufCnt) <= MAX_ENTRIES && bufLen > 0
    ensures r.Built? ==>
              && PowerOfTwo(r.entries) && r.entries <= MAX_ENTRIES && r.len == bufLen
              && 0 < r.count <= r.entries && r.count == (if bufCnt == 0 then ringEntries else bufCnt)
              && Max(ringEntries, bufCnt) <= r.entries
              && forall p :: PowerOfTwo(p) && Max(ringEntries, bufCnt) <= p ==> r.entries <= p
  {
    var entries, count := ringEntries, bufCnt;
    if count == 0 || entries < count {
      var max := Max(entries, count);
      count := max;
      entries := max;
    }
    if entries > MAX_ENTRIES {
      return TooManyEntries;
    }
    forall p { NextPowerIsLeast(entries, p); }
    MaxIsPower();
    entries := NextPowerOfTwo(entries);
    PowerByBits(entries);
    if count == 0 || count > entries || bufLen == 0 || And(entries, entries - 1) != 0 {
      return InvalidInput;
    }
    return Built(entries, count, bufLen);
  }

  lemma MaxIsPower()
    ensures PowerOfTwo(MAX_ENTRIES) && PowerOfTwo(U16)
  {
    assert PowerOfTwo(0x10);
    assert PowerOfTwo(0x100);
    assert PowerOfTwo(0x1000);
    assert PowerOfTwo(MAX_ENTRIES);
  }

  // ----- the ring between the application and the kernel -----------------------------

  /** The counters are unbounded here; the registers hold them modulo 2^16. */
  datatype Ring = Ring(
    entries: nat,
    count: nat,
    slots: seq<Bid>,        // the entries of the ring
    head: nat,              // entries taken by the kernel
    shared: nat,            // entries the kernel may take
    tail: nat,              // entries written
    kernel: multiset<Bid>,  // buffers taken by the kernel
    app: multiset<Bid>)     // buffers held by the application

  function Buffers(count: nat): multiset<Bid> {
    multiset(seq(count, i => i))
  }

  predicate Sized(r: Ring) {
    && PowerOfTwo(r.entries) && r.entries <= MAX_ENTRIES && r.count <= r.entries
    && |r.slots| == r.entries && r.head <= r.shared <= r.tail
  }

  /** The buffers written and not taken yet, in order. */
  function Window(r: Ring): seq<Bid>
    requires Sized(r)
  {
    seq(r.tail - r.head, i requires i >= 0 => r.slots[(r.head + i) % r.entries])
  }

  /** Every buffer is in exactly one place: in the ring, with the kernel, or with the
      application. */
  predicate Inv(r: Ring) {
    Sized(r) && multiset(Window(r)) + r.kernel + r.app == Buffers(r.count)
  }

  /** A new ring: the application holds all buffers. */
  function NewRing(entries: nat, count: nat): Ring {
    Ring(entries, count, seq(entries, i => 0), 0, 0, 0, multiset{}, Buffers(count))
  }

  datatype Op = Push(b: Bid) | Sync | Take | Deliver(b: Bid)

  /** The kernel takes an entry while the registers differ; it delivers what it took; the
      application pushes what it holds. */
  predicate Enabled(r: Ring, op: Op) {
    Sized(r) &&
    match op
    case Push(b) => b in r.app
    case Sync => true
    case Take => r.head % U16 != r.shared % U16
    case Deliver(b) => b in r.kernel
  }

  function DoPush(r: Ring, b: Bid): Ring
    requires Sized(r)
  {
    r.(slots := r.slots[r.tail % r.entries := b], tail := r.tail + 1, app := r.app - multiset{b})
  }

  function Taken(r: Ring): Bid
    requires Sized(r)
  {
    r.slots[r.head % r.entries]
  }

  function Step(r: Ring, op: Op): Ring
    requires Enabled(r, op)
  {
    match op
    case Push(b) => DoPush(r, b)
    case Sync => r.(shared := r.tail)
    case Take => r.(head := r.head + 1, kernel := r.kernel + multiset{Taken(r)})
    case Deliver(b) => r.(kernel := r.kernel - multiset{b}, app := r.app + multiset{b})
  }

  lemma BuffersAre(count: nat, b: Bid)
    ensures |Buffers(count)| == count
    ensures Buffers(count)[b] == if b < count then 1 else 0
  {
    var s := seq(count, i => i);
    if b < count {
      assert s[b] == b;
      assert s == s[..b] + [b] + s[b + 1..];
    }
  }

  /** While the application holds a buffer the ring is not full. */
  lemma RoomToPush(r: Ring, b: Bid)
    requires Inv(r) && b in r.app
    ensures r.tail - r.head < r.count && b < r.count
  {
    BuffersAre(r.count, b);
    assert |multiset(Window(r)) + r.kernel + r.app| == |Window(r)| + |r.kernel| + |r.app|;
    assert (multiset(Window(r)) + r.kernel + r.app)[b] > 0;
  }

  /** A push adds to what the kernel may take and overwrites nothing of it. */
  lemma PushAppends(r: Ring, b: Bid)
    requires Inv(r) && b in r.app
    ensures Sized(DoPush(r, b)) && Window(DoPush(r, b)) == Window(r) + [b]
  {
    RoomToPush(r, b);
    var r' := DoPush(r, b);
    forall i | 0 <= i < r.tail - r.head ensures Window(r')[i] == Window(r)[i] {
      RemaindersDiffer(r.head + i, r.tail, r.entries);
    }
  }

  lemma {:induction false} WindowFits(r: Ring)
    requires Inv(r)
    ensures r.tail - r.head <= r.count
  {
    BuffersAre(r.count, 0);
    assert |multiset(Window(r)) + r.kernel + r.app| == |Window(r)| + |r.kernel| + |r.app|;
  }

  /** The registers differ exactly when there is something to take, wrapped or not. */
  lemma RegistersTell(r: Ring)
    requires Inv(r)
    ensures r.head % U16 == r.shared % U16 <==> r.head == r.shared
  {
    WindowFits(r);
    if r.head < r.shared {
      RemaindersDiffer(r.head, r.shared, U16);
    }
  }

  /** What the kernel takes is the oldest buffer pushed. */
  lemma TakeIsOldest(r: Ring)
    requires Inv(r) && Enabled(r, Take)
    ensures var r' := Step(r, Take);
            Sized(r') && Window(r) == [Taken(r)] + Window(r')
  {
    RegistersTell(r);
    var r' := Step(r, Take);
    forall i | 0 <= i < r.tail - r'.head ensures Window(r')[i] == Window(r)[i + 1] {
      assert r'.head + i == r.head + (i + 1);
    }
  }

  lemma PushKeeps(r: Ring, b: Bid)
    requires Inv(r) && b in r.app
    ensures Inv(DoPush(r, b))
  {
    PushAppends(r, b);
    var w := Window(r);
    assert multiset(w + [b]) + r.kernel + (r.app - multiset{b}) == multiset(w) + r.kernel + r.app;
  }

  lemma TakeKeeps(r: Ring)
    requires Inv(r) && Enabled(r, Take)
    ensures Inv(Step(r, Take))
  {
    TakeIsOldest(r);
    var w, b := Window(Step(r, Take)), Taken(r);
    assert multiset([b] + w) + r.kernel == multiset(w) + (r.kernel + multiset{b});
  }

  lemma StepKeeps(r: Ring, op: Op)
    requires Inv(r) && Enabled(r, op)
    ensures Inv(Step(r, op))
  {
    match op
    case Push(b) => PushKeeps(r, b);
    case Take => TakeKeeps(r);
    case Sync => assert Window(Step(r, op)) == Window(r);
    case Deliver(b) =>
      assert Window(Step(r, op)) == Window(r);
      assert r.kernel - multiset{b} + (r.app + multiset{b}) == r.kernel + r.app;
  }

  predicate Allowed(r: Ring, ops: seq<Op>)
    decreases |ops|
  {
    ops == [] || (Enabled(r, ops[0]) && Allowed(Step(r, ops[0]), ops[1..]))
  }

  function Run(r: Ring, ops: seq<Op>): Ring
    requires Allowed(r, ops)
    decreases |ops|
  {
    if ops == [] then r else Run(Step(r, ops[0]), ops[1..])
  }

  lemma {:induction false} RunKeeps(r: Ring, ops: seq<Op>)
    requires Inv(r) && Allowed(r, ops)
    ensures Inv(Run(r, ops))
    decreases |ops|
  {
    if ops == [] {
    } else {
      StepKeeps(r, ops[0]);
      RunKeeps(Step(r, ops[0]), ops[1..]);
    }
  }

  lemma NewIsSound(entries: nat, count: nat)
    requires PowerOfTwo(entries) && count <= entries <= MAX_ENTRIES
    ensures Inv(NewRing(entries, count))
  {
    assert Window(NewRing(entries, count)) == [];
  }

  /** In every run, however often the registers wrap, each buffer is in exactly one place. */
  lemma EveryBufferOnce(entries: nat, count: nat, ops: seq<Op>, b: Bid)
    requires PowerOfTwo(entries) && count <= entries <= MAX_ENTRIES
    requires Allowed(NewRing(entries, count), ops)
    ensures var r := Run(NewRing(entries, count), ops);
            && Sized(r)
            && multiset(Window(r))[b] + r.kernel[b] + r.app[b] == (if b < count then 1 else 0)
            && r.tail - r.head <= count
  {
    NewIsSound(entries, count);
    RunKeeps(NewRing(entries, count), ops);
    var r := Run(NewRing(entries, count), ops);
    RunIsSized(NewRing(entries, count), ops);
    WindowFits(r);
    BuffersAre(count, b);
    assert (multiset(Window(r)) + r.kernel + r.app)[b] == Buffers(count)[b];
  }

  lemma {:induction false} RunIsSized(r: Ring, ops: seq<Op>)
    requires Allowed(r, ops)
    ensures Run(r, ops).count == r.count && Run(r, ops).entries == r.entries
    decreases |ops|
  {
    if ops == [] {
    } else {
      RunIsSized(Step(r, ops[0]), ops[1..]);
    }
  }

  /** The index the code computes from the wrapped tail is that of the counter. */
  lemma IndexOfTail(r: Ring)
    requires Sized(r)
    ensures And(r.tail % U16, r.entries - 1) == r.tail % r.entries
  {
    MaskIsRemainder(r.tail % U16, r.entries);
    MaxIsPower();
    PowersDivide(U16, r.entries);
    RemainderOfRemainder(r.tail, U16, r.entries);
  }

  /** The first buffers of a new ring are pushed. */
  predicate Filling(r: Ring, b: Bid) {
    && r.kernel == multiset{} && r.tail == b <= r.count && r.head == 0
    && (forall x | 0 <= x < r.count :: r.app[x] == if b <= x then 1 else 0)
  }

  lemma NewIsFilling(entries: nat, count: nat)
    ensures Filling(NewRing(entries, count), 0)
  {
    forall x { BuffersAre(count, x); }
  }

  lemma FillingOn(r: Ring, b: Bid)
    requires Sized(r) && Filling(r, b) && b < r.count
    ensures b in r.app && Filling(DoPush(r, b), b + 1)
  {
  }

  lemma FillingEnds(r: Ring)
    requires Inv(r) && Filling(r, r.count)
    ensures r.app == multiset{}
  {
    forall x ensures x !in r.app {
      if x in r.app {
        RoomToPush(r, x);
      }
    }
  }

  /** Counter and register move together. */
  lemma PushRegister(r: Ring, b: Bid)
    requires Sized(r)
    ensures (r.tail % U16 + 1) % U16 == DoPush(r, b).tail % U16
  {
  }

  // ----- the application's side -----------------------------------------------------

  class BufRing {
    const mask: nat
    const bufCnt: nat
    const bufLen: nat
    const ring: array<Bid>
    var localTail: nat
    var sharedTail: nat
    ghost var state: Ring

    ghost predicate Valid()
      reads this, ring
    {
      && Inv(state) && state.count == bufCnt && state.entries == mask + 1 && ring[..] == state.slots
      && localTail == state.tail % U16 && sharedTail == state.shared % U16
    }

    constructor (built: Built)
      requires built.Built? && PowerOfTwo(built.entries) && built.count <= built.entries <= MAX_ENTRIES
      ensures Valid() && state == NewRing(built.entries, built.count) && fresh(ring) && bufLen == built.len
    {
      mask, bufCnt, bufLen := built.entries - 1, built.count, built.len;
      var entries := new Bid[built.entries](i => 0);
      ring := entries;
      localTail, sharedTail := 0, 0;
      state := NewRing(built.entries, built.count);
      NewIsSound(built.entries, built.count);
      new;
      assert ring[..] == state.slots;
    }

    /** Writes a buffer at the tail. The kernel does not see it yet. */
    method Push(b: Bid)
      requires Valid() && b in state.app
      modifies this`localTail, this`state, ring
      ensures Valid() && Sized(old(state)) && state == DoPush(old(state), b)
    {
      PushKeeps(state, b);
      IndexOfTail(state);
      PushRegister(state, b);
      var oldTail := localTail;
      localTail := (oldTail + 1) % U16;
      ring[And(oldTail, mask)] := b;
      state := DoPush(state, b);
    }

    /** Shows the kernel what was written. */
    method Sync()
      requires Valid()
      modifies this`sharedTail, this`state
      ensures Valid() && state == old(state).(shared := old(state).tail)
    {
      StepKeeps(state, Op.Sync);
      sharedTail := localTail;
      state := state.(shared := state.tail);
    }

    /** A buffer of the application is dropped: it goes back to the ring. */
    method DroppingBid(b: Bid)
      requires Valid() && b in state.app
      modifies this`localTail, this`sharedTail, this`state, ring
      ensures Valid() && Sized(old(state))
      ensures state == DoPush(old(state), b).(shared := old(state).tail + 1)
    {
      Push(b);
      Sync();
    }

    /** Fills a new ring with all its buffers. */
    method Register()
      requires Valid() && state == NewRing(mask + 1, bufCnt)
      modifies this`localTail, this`sharedTail, this`state, ring
      ensures Valid() && state.app == multiset{} && state.kernel == multiset{}
      ensures state.tail == state.shared == bufCnt && state.head == 0
    {
      NewIsFilling(mask + 1, bufCnt);
      var b := 0;
      while b < bufCnt
        invariant b <= bufCnt && Valid() && Filling(state, b)
      {
        FillingOn(state, b);
        Push(b);
        b := b + 1;
      }
      FillingEnds(state);
      Sync();
    }

    /** The kernel, another party, takes an entry. */
    ghost method KernelTakes()
      requires Valid() && Enabled(state, Take)
      modifies this`state
      ensures Valid() && Enabled(old(state), Take) && state == Step(old(state), Take)
    {
      TakeKeeps(state);
      state := Step(state, Take);
    }

    /** The buffer a completion names goes to the application. */
    method GetBuf(selected: Option<Bid>, len: nat) returns (b: Bid)
      requires Valid() && selected.Some? && selected.value in state.kernel && len <= bufLen
      modifies this`state
      ensures Valid() && b == selected.value
      ensures state == old(state).(kernel := old(state).kernel - multiset{b}, app := old(state).app + multiset{b})
    {
      b := selected.value;
      StepKeeps(state, Deliver(b));
      state := state.(kernel := state.kernel - multiset{b}, app := state.app + multiset{b});
    }
  }
}
