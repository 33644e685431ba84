/** The virtio disk driver's descriptors and rings, kernel/virtio_disk.c, against a device that takes
    requests from the avail ring and completes them in any order (sections 2.6 and 5.2 of the
    VIRTIO 1.1 specification).

    Ring indices are 16-bit and wrap.  A driver step is what runs under vdisk_lock between two
    sleeps; the device may act between any two of them.  A buffer is locked by whoever transfers
    it, so there is at most one request per buffer; requests are named by their buffers. */
module Virtio {
  import opened Finite

  const NUM: nat := 8
  const NBUF: nat := 30
  const U16: nat := 0x1_0000

  datatype Address = Nowhere | OpOf(i: nat) | DataOf(b: nat) | StatusOf(i: nat)

  /** more: VRING_DESC_F_NEXT.  fill: VRING_DESC_F_WRITE, the device writes there. */
  datatype Desc = Desc(address: Address, fill: bool, more: bool, next: nat)

  const NoDesc: Desc := Desc(Nowhere, false, false, 0)

  datatype Op = Op(write: bool, sector: nat)

  datatype Info = Info(b: nat, status: nat)

  /** A process in virtio_disk_rw with its three descriptors, waiting for its buffer. */
  datatype Request = Absent | Waiting(i0: nat, i1: nat, i2: nat, op: Op)

  datatype State = State(
    free: seq<bool>, desc: seq<Desc>, info: seq<Info>, ops: seq<Op>,
    availRing: seq<nat>, availIdx: nat, usedRing: seq<nat>, usedIdx: nat,
    deviceUsed: nat,          // disk.used->idx
    deviceSeen: nat,          // how far the device has read the avail ring
    busy: set<nat>,           // heads of the chains the device is working on
    requests: seq<Request>,   // per buffer
    disk: seq<bool>,          // b->disk
    queue: seq<nat>,          // history: heads in the avail ring that the device has not read
    done: seq<nat>)           // history: heads in the used ring that the driver has not read

  datatype Step =
    | Submit(b: nat, i0: nat, i1: nat, i2: nat, op: Op)
    | Take
    | Complete(h: nat, status: nat)
    | Interrupt
    | Retire(b: nat)

  predicate Shape(s: State) {
    && |s.free| == |s.desc| == |s.info| == |s.ops| == |s.availRing| == |s.usedRing| == NUM
    && |s.requests| == |s.disk| == NBUF && s.availIdx < U16 && s.usedIdx < U16 && s.deviceUsed < U16
       && s.deviceSeen < U16
  }

  /** alloc_desc's choice. */
  predicate Lowest(free: seq<bool>, i: nat) {
    i < |free| && free[i] && forall j: nat :: j < i ==> !free[j]
  }

  /** The chain that virtio_disk_rw formats for a transfer of buffer b. */
  function Formatted(desc: seq<Desc>, i0: nat, i1: nat, i2: nat, b: nat, op: Op): seq<Desc>
    requires i0 < |desc| && i1 < |desc| && i2 < |desc|
  {
    desc[i0 := Desc(OpOf(i0), false, true, i1)]
        [i1 := Desc(DataOf(b), !op.write, true, i2)]
        [i2 := Desc(StatusOf(i0), true, false, 0)]
  }

  predicate NextSubmit(s: State, b: nat, i0: nat, i1: nat, i2: nat, op: Op, s': State)
    requires Shape(s)
  {
    && b < NBUF && s.requests[b] == Absent && Lowest(s.free, i0) && Lowest(s.free[i0 := false], i1)
    && Lowest(s.free[i0 := false][i1 := false], i2)
    && s' == s.(free := s.free[i0 := false][i1 := false][i2 := false],
                desc := Formatted(s.desc, i0, i1, i2, b, op),
                ops := s.ops[i0 := op], info := s.info[i0 := Info(b, 0xff)], disk := s.disk[b := true],
                availRing := s.availRing[s.availIdx % NUM := i0], availIdx := (s.availIdx + 1) % U16,
                requests := s.requests[b := Waiting(i0, i1, i2, op)], queue := s.queue + [i0])
  }

  function Tail(q: seq<nat>): seq<nat> {
    if q == [] then [] else q[1..]
  }

  predicate NextTake(s: State, s': State)
    requires Shape(s)
  {
    && s.deviceSeen != s.availIdx
    && s' == s.(busy := s.busy + {s.availRing[s.deviceSeen % NUM]}, deviceSeen := (s.deviceSeen + 1) % U16,
                queue := Tail(s.queue))
  }

  /** The device follows the chain from h, stores a status where the third descriptor says, and puts h
      into the used ring. */
  predicate NextComplete(s: State, h: nat, status: nat, s': State)
    requires Shape(s)
  {
    && h in s.busy && h < NUM && s.desc[h].next < NUM && s.desc[s.desc[h].next].next < NUM
    && var a := s.desc[s.desc[s.desc[h].next].next].address;
       && a.StatusOf? && a.i < NUM
       && s' == s.(info := s.info[a.i := s.info[a.i].(status := status)],
                   usedRing := s.usedRing[s.deviceUsed % NUM := h],
                   deviceUsed := (s.deviceUsed + 1) % U16, busy := s.busy - {h}, done := s.done + [h])
  }

  /** One turn of virtio_disk_intr's loop; a status other than 0 is a panic. */
  predicate NextInterrupt(s: State, s': State)
    requires Shape(s)
  {
    && s.usedIdx != s.deviceUsed
    && var id := s.usedRing[s.usedIdx % NUM];
       && id < NUM && s.info[id].status == 0 && s.info[id].b < NBUF
       && s' == s.(disk := s.disk[s.info[id].b := false], usedIdx := (s.usedIdx + 1) % U16, done := Tail(s.done))
  }

  /** The waiting process finds b->disk clear and frees its chain. */
  predicate NextRetire(s: State, b: nat, s': State)
    requires Shape(s)
  {
    && b < NBUF && s.requests[b].Waiting? && !s.disk[b]
    && var r := s.requests[b];
       && r.i0 < NUM && r.i1 < NUM && r.i2 < NUM
       && s' == s.(info := s.info[r.i0 := s.info[r.i0].(b := NBUF)],
                   free := s.free[r.i0 := true][r.i1 := true][r.i2 := true],
                   desc := s.desc[r.i0 := NoDesc][r.i1 := NoDesc][r.i2 := NoDesc],
                   requests := s.requests[b := Absent])
  }

  predicate Next(s: State, step: Step, s': State)
    requires Shape(s)
  {
    match step
    case Submit(b, i0, i1, i2, op) => NextSubmit(s, b, i0, i1, i2, op, s')
    case Take => NextTake(s, s')
    case Complete(h, status) => NextComplete(s, h, status, s')
    case Interrupt => NextInterrupt(s, s')
    case Retire(b) => NextRetire(s, b, s')
  }

  ghost predicate Init(s: State) {
    && Shape(s) && (forall i: nat :: i < NUM ==> s.free[i])
       && (forall b: nat :: b < NBUF ==> s.requests[b] == Absent && !s.disk[b])
    && s.availIdx == s.usedIdx == s.deviceUsed == s.deviceSeen == 0 && s.busy == {} && s.queue == [] && s.done == []
  }

  // ---------- the invariant ----------

  predicate Uses(r: Request, i: nat) {
    r.Waiting? && (r.i0 == i || r.i1 == i || r.i2 == i)
  }

  /** A waiting request has three descriptors of its own, formatted for it. */
  ghost predicate RequestOk(free: seq<bool>, desc: seq<Desc>, info: seq<Info>, ops: seq<Op>, requests: seq<Request>,
                            b: nat)
    requires b < |requests|
  {
    var r := requests[b];
    r.Waiting? ==>
      && |free| == |desc| == |info| == |ops| == NUM
      && r.i0 < NUM && r.i1 < NUM && r.i2 < NUM && r.i0 != r.i1 && r.i0 != r.i2 && r.i1 != r.i2
      && !free[r.i0] && !free[r.i1] && !free[r.i2]
      && desc[r.i0] == Desc(OpOf(r.i0), false, true, r.i1) && desc[r.i1] == Desc(DataOf(b), !r.op.write, true, r.i2)
      && desc[r.i2] == Desc(StatusOf(r.i0), true, false, 0) && ops[r.i0] == r.op && info[r.i0].b == b
  }

  /** No descriptor has two users, and one that is not free has one. */
  ghost predicate Apart(requests: seq<Request>, b: nat, c: nat)
    requires b < |requests| && c < |requests|
  {
    b != c ==> forall i: nat :: i < NUM ==> !(Uses(requests[b], i) && Uses(requests[c], i))
  }

  ghost predicate Used(free: seq<bool>, requests: seq<Request>, i: nat)
    requires i < |free|
  {
    !free[i] ==> exists b: nat :: b < |requests| && Uses(requests[b], i)
  }

  ghost predicate IsHead(requests: seq<Request>, disk: seq<bool>, h: nat) {
    |disk| == |requests| && exists b: nat :: b < |requests| && requests[b].Waiting? && requests[b].i0 == h && disk[b]
  }

  ghost predicate InFlight(queue: seq<nat>, busy: set<nat>, done: seq<nat>, h: nat) {
    h in queue || h in busy || h in done
  }

  /** The heads in flight are those of the requests with b->disk set, each in one place. */
  ghost predicate FlightOk(requests: seq<Request>, disk: seq<bool>, queue: seq<nat>, busy: set<nat>, done: seq<nat>) {
    && Distinct(queue) && Distinct(done)
    && (forall h: nat :: !(h in queue && h in busy) && !(h in queue && h in done) && !(h in busy && h in done))
    && (forall h: nat :: InFlight(queue, busy, done, h) <==> h < NUM && IsHead(requests, disk, h))
    && (forall b: nat :: b < |requests| && b < |disk| && disk[b] ==> requests[b].Waiting?)
  }

  /** A ring between two 16-bit indices holds exactly the entries of q. */
  ghost predicate RingOk(ring: seq<nat>, from: nat, to: nat, q: seq<nat>) {
    && |ring| == NUM && |q| <= NUM && from < U16 && to == (from + |q|) % U16
    && forall k: nat :: k < |q| ==> ring[(from + k) % NUM] == q[k]
  }

  ghost predicate ChainsOk(s: State)
    requires Shape(s)
  {
    && (forall b: nat :: b < NBUF ==> RequestOk(s.free, s.desc, s.info, s.ops, s.requests, b))
    && (forall b: nat, c: nat :: b < NBUF && c < NBUF ==> Apart(s.requests, b, c))
    && (forall i: nat :: i < NUM ==> Used(s.free, s.requests, i))
  }

  ghost predicate Inv(s: State) {
    && Shape(s) && ChainsOk(s)
    && FlightOk(s.requests, s.disk, s.queue, s.busy, s.done)
    && RingOk(s.availRing, s.deviceSeen, s.availIdx, s.queue) && RingOk(s.usedRing, s.usedIdx, s.deviceUsed, s.done)
  }

  // ---------- rings ----------

  /** At most NUM heads are anywhere, so there is room for one that is nowhere yet. */
  lemma Room(q: seq<nat>, h: nat)
    requires Distinct(q) && h !in q && h < NUM && forall x: nat :: x in q ==> x < NUM
    ensures |q| < NUM
  {
    var q' := q + [h];
    assert Distinct(q');
    forall i | 0 <= i < |q'| ensures q'[i] < NUM {
      assert i < |q| ==> q[i] in q;
    }
    DistinctBelow(q', NUM);
  }

  lemma RingPush(ring: seq<nat>, from: nat, to: nat, q: seq<nat>, h: nat)
    requires RingOk(ring, from, to, q) && |q| < NUM
    ensures RingOk(ring[to % NUM := h], from, (to + 1) % U16, q + [h])
  {
    var n := from + |q|;
    SlotOf(n);
    forall k: nat | k < |q| + 1 ensures ring[to % NUM := h][(from + k) % NUM] == (q + [h])[k] {
      if k < |q| { SlotsDiffer(from + k, n); }
    }
    assert (to + 1) % U16 == (from + |q| + 1) % U16;
  }

  /** NUM divides 2^16, so a wrapped index names the same slot. */
  lemma SlotOf(n: nat)
    ensures n % U16 % NUM == n % NUM
  {
    var q, r := n / U16, n % U16;
    assert n == NUM * (8192 * q) + r;
    ModAdd(8192 * q, r);
  }

  lemma ModAdd(q: nat, r: nat)
    ensures (NUM * q + r) % NUM == r % NUM
  {
    var a, b := r / NUM, r % NUM;
    assert NUM * q + r == NUM * (q + a) + b;
  }

  lemma SlotsDiffer(a: nat, b: nat)
    requires a < b < a + NUM
    ensures a % NUM != b % NUM
  {
    var q, r := a / NUM, a % NUM;
    assert a == NUM * q + r;
  }

  lemma RingPop(ring: seq<nat>, from: nat, to: nat, q: seq<nat>)
    requires RingOk(ring, from, to, q) && q != []
    ensures ring[from % NUM] == q[0] && RingOk(ring, (from + 1) % U16, to, q[1..])
  {
    assert ring[(from + 0) % NUM] == q[0];
    var from' := (from + 1) % U16;
    forall k: nat | k < |q[1..]| ensures ring[(from' + k) % NUM] == q[1..][k] {
      SlotShift(from, k);
      assert ring[(from + (k + 1)) % NUM] == q[k + 1];
    }
    assert (from' + (|q| - 1)) % U16 == (from + |q|) % U16;
  }

  lemma SlotShift(from: nat, k: nat)
    requires from < U16
    ensures ((from + 1) % U16 + k) % NUM == (from + (k + 1)) % NUM
  {
    if from + 1 == U16 {
      assert from + (k + 1) == NUM * 8192 + k;
      ModAdd(8192, k);
    }
  }

  /** The driver's and the device's test for an empty ring is exact. */
  lemma RingEmpty(ring: seq<nat>, from: nat, to: nat, q: seq<nat>)
    requires RingOk(ring, from, to, q)
    ensures from == to <==> q == []
  {
  }

  // ---------- chains ----------

  lemma HeadOwner(s: State, h: nat) returns (b: nat)
    requires Inv(s) && InFlight(s.queue, s.busy, s.done, h)
    ensures b < NBUF && s.requests[b].Waiting? && s.requests[b].i0 == h && s.disk[b]
  {
    assert IsHead(s.requests, s.disk, h);
    b :| b < |s.requests| && s.requests[b].Waiting? && s.requests[b].i0 == h && s.disk[b];
  }

  lemma SubmitChains(s: State, b: nat, i0: nat, i1: nat, i2: nat, op: Op, s': State)
    requires Shape(s) && ChainsOk(s) && NextSubmit(s, b, i0, i1, i2, op, s')
    ensures Shape(s') && ChainsOk(s')
  {
    forall c: nat | c < NBUF ensures RequestOk(s'.free, s'.desc, s'.info, s'.ops, s'.requests, c) {
      assert RequestOk(s.free, s.desc, s.info, s.ops, s.requests, c);
    }
    forall c: nat, d: nat | c < NBUF && d < NBUF ensures Apart(s'.requests, c, d) {
      assert Apart(s.requests, c, d);
      assert RequestOk(s.free, s.desc, s.info, s.ops, s.requests, c)
        && RequestOk(s.free, s.desc, s.info, s.ops, s.requests, d);
    }
    forall i: nat | i < NUM ensures Used(s'.free, s'.requests, i) {
      SubmitUsed(s, b, i0, i1, i2, op, s', i);
    }
  }

  lemma SubmitUsed(s: State, b: nat, i0: nat, i1: nat, i2: nat, op: Op, s': State, i: nat)
    requires Shape(s) && NextSubmit(s, b, i0, i1, i2, op, s') && i < NUM && Used(s.free, s.requests, i)
    ensures Used(s'.free, s'.requests, i)
  {
    if !s.free[i] {
      var c: nat :| c < |s.requests| && Uses(s.requests[c], i);
      assert Uses(s'.requests[c], i);
    } else if !s'.free[i] {
      assert Uses(s'.requests[b], i);
    }
  }

  /** A free descriptor is no head. */
  lemma FreeIsNoHead(s: State, i: nat)
    requires Shape(s) && ChainsOk(s) && i < NUM && s.free[i]
    ensures !IsHead(s.requests, s.disk, i)
  {
    forall c: nat | c < NBUF ensures !(s.requests[c].Waiting? && s.requests[c].i0 == i) {
      assert RequestOk(s.free, s.desc, s.info, s.ops, s.requests, c);
    }
  }

  lemma SubmitHeads(requests: seq<Request>, disk: seq<bool>, b: nat, i0: nat, i1: nat, i2: nat, op: Op, h: nat)
    requires |disk| == |requests| && b < |requests| && requests[b] == Absent
    ensures IsHead(requests[b := Waiting(i0, i1, i2, op)], disk[b := true], h) <==> IsHead(requests, disk, h) || h == i0
  {
    var requests', disk' := requests[b := Waiting(i0, i1, i2, op)], disk[b := true];
    if IsHead(requests, disk, h) {
      var c: nat :| c < |requests| && requests[c].Waiting? && requests[c].i0 == h && disk[c];
      assert requests'[c].Waiting? && requests'[c].i0 == h && disk'[c];
    }
    if h == i0 { assert requests'[b].Waiting? && requests'[b].i0 == h && disk'[b]; }
    if IsHead(requests', disk', h) {
      var c: nat :| c < |requests'| && requests'[c].Waiting? && requests'[c].i0 == h && disk'[c];
      assert c != b ==> requests[c].Waiting? && requests[c].i0 == h && disk[c];
    }
  }

  lemma SubmitInv(s: State, b: nat, i0: nat, i1: nat, i2: nat, op: Op, s': State)
    requires Inv(s) && NextSubmit(s, b, i0, i1, i2, op, s')
    ensures Inv(s')
  {
    SubmitChains(s, b, i0, i1, i2, op, s');
    FreeIsNoHead(s, i0);
    assert !InFlight(s.queue, s.busy, s.done, i0);
    forall h: nat ensures InFlight(s'.queue, s.busy, s.done, h) <==> h < NUM && IsHead(s'.requests, s'.disk, h) {
      SubmitHeads(s.requests, s.disk, b, i0, i1, i2, op, h);
      assert InFlight(s.queue, s.busy, s.done, h) <==> h < NUM && IsHead(s.requests, s.disk, h);
    }
    forall x: nat | x in s.queue ensures x < NUM { assert InFlight(s.queue, s.busy, s.done, x); }
    Room(s.queue, i0);
    RingPush(s.availRing, s.deviceSeen, s.availIdx, s.queue, i0);
    assert i0 !in s.done;
  }

  lemma TakeInv(s: State, s': State)
    requires Inv(s) && NextTake(s, s')
    ensures Inv(s') && s.queue != [] && s'.busy == s.busy + {s.queue[0]}
  {
    RingEmpty(s.availRing, s.deviceSeen, s.availIdx, s.queue);
    RingPop(s.availRing, s.deviceSeen, s.availIdx, s.queue);
    var h := s.queue[0];
    forall x: nat ensures InFlight(s'.queue, s'.busy, s.done, x) <==> InFlight(s.queue, s.busy, s.done, x) {
      SplitHead(s.queue, x);
    }
    forall x: nat
      ensures !(x in s'.queue && x in s'.busy) && !(x in s'.queue && x in s.done) && !(x in s'.busy && x in s.done)
    {
      SplitHead(s.queue, x);
      SplitHead(s.queue, h);
    }
  }

  lemma SplitHead(q: seq<nat>, x: nat)
    requires q != []
    ensures x in q <==> x == q[0] || x in q[1..]
    ensures Distinct(q) ==> Distinct(q[1..]) && q[0] !in q[1..]
  {
  }

  /** The chain a device finds at a head in flight is the one formatted for that request. */
  lemma DeviceSeesRequest(s: State, h: nat) returns (b: nat)
    requires Inv(s) && InFlight(s.queue, s.busy, s.done, h)
    ensures b < NBUF && s.requests[b].Waiting? && s.requests[b].i0 == h && s.disk[b] && h < NUM
    ensures s.desc[h].address == OpOf(h) && s.ops[h] == s.requests[b].op && s.desc[h].more && s.desc[h].next < NUM
    ensures var d := s.desc[s.desc[h].next];
            d.address == DataOf(b) && d.fill == !s.ops[h].write && d.more && d.next < NUM
    ensures var d := s.desc[s.desc[s.desc[h].next].next];
            d.address == StatusOf(h) && d.fill && !d.more
  {
    b := HeadOwner(s, h);
    assert RequestOk(s.free, s.desc, s.info, s.ops, s.requests, b);
  }

  lemma CompleteInv(s: State, h: nat, status: nat, s': State)
    requires Inv(s) && NextComplete(s, h, status, s')
    ensures Inv(s') && s'.info == s.info[h := s.info[h].(status := status)]
  {
    assert InFlight(s.queue, s.busy, s.done, h);
    var b := DeviceSeesRequest(s, h);
    forall c: nat | c < NBUF ensures RequestOk(s'.free, s'.desc, s'.info, s'.ops, s'.requests, c) {
      assert RequestOk(s.free, s.desc, s.info, s.ops, s.requests, c);
    }
    forall x: nat ensures InFlight(s.queue, s'.busy, s'.done, x) <==> InFlight(s.queue, s.busy, s.done, x) {
    }
    forall x: nat | x in s.done ensures x < NUM { assert InFlight(s.queue, s.busy, s.done, x); }
    Room(s.done, h);
    RingPush(s.usedRing, s.usedIdx, s.deviceUsed, s.done, h);
  }

  lemma InterruptInv(s: State, s': State)
    requires Inv(s) && NextInterrupt(s, s')
    ensures Inv(s')
  {
    RingEmpty(s.usedRing, s.usedIdx, s.deviceUsed, s.done);
    RingPop(s.usedRing, s.usedIdx, s.deviceUsed, s.done);
    var h := s.done[0];
    assert InFlight(s.queue, s.busy, s.done, h);
    var b := DeviceSeesRequest(s, h);
    assert RequestOk(s.free, s.desc, s.info, s.ops, s.requests, b);
    forall x: nat ensures InFlight(s.queue, s.busy, s'.done, x) <==> x < NUM && IsHead(s'.requests, s'.disk, x) {
      SplitHead(s.done, x);
      assert InFlight(s.queue, s.busy, s.done, x) <==> x < NUM && IsHead(s.requests, s.disk, x);
      ClearHeads(s, b, x);
    }
    forall x: nat | x in s'.done ensures x in s.done { SplitHead(s.done, x); }
  }

  /** Clearing b->disk takes b's head out of the set of heads, and no other. */
  lemma ClearHeads(s: State, b: nat, x: nat)
    requires Shape(s) && ChainsOk(s) && b < NBUF && s.requests[b].Waiting? && s.disk[b]
    ensures IsHead(s.requests, s.disk[b := false], x) <==> IsHead(s.requests, s.disk, x) && x != s.requests[b].i0
  {
    assert RequestOk(s.free, s.desc, s.info, s.ops, s.requests, b);
    if IsHead(s.requests, s.disk, x) && x != s.requests[b].i0 {
      var c: nat :| c < |s.requests| && s.requests[c].Waiting? && s.requests[c].i0 == x && s.disk[c];
      assert s.disk[b := false][c];
    }
    if IsHead(s.requests, s.disk[b := false], x) {
      var c: nat :| c < |s.requests| && s.requests[c].Waiting? && s.requests[c].i0 == x && s.disk[b := false][c];
      assert Apart(s.requests, b, c) && Uses(s.requests[c], x) && Uses(s.requests[b], s.requests[b].i0);
      assert s.disk[c];
    }
  }

  lemma RetireInv(s: State, b: nat, s': State)
    requires Inv(s) && NextRetire(s, b, s')
    ensures Inv(s')
  {
    var r := s.requests[b];
    assert RequestOk(s.free, s.desc, s.info, s.ops, s.requests, b);
    forall c: nat | c < NBUF ensures RequestOk(s'.free, s'.desc, s'.info, s'.ops, s'.requests, c) {
      assert RequestOk(s.free, s.desc, s.info, s.ops, s.requests, c) && Apart(s.requests, b, c);
      assert c != b && s.requests[c].Waiting? ==>
        Uses(s.requests[c], s.requests[c].i0) && Uses(s.requests[c], s.requests[c].i1)
          && Uses(s.requests[c], s.requests[c].i2);
    }
    forall c: nat, d: nat | c < NBUF && d < NBUF ensures Apart(s'.requests, c, d) {
      assert Apart(s.requests, c, d);
    }
    forall i: nat | i < NUM ensures Used(s'.free, s'.requests, i) {
      RetireUsed(s, b, s', i);
    }
    forall h: nat ensures IsHead(s'.requests, s'.disk, h) <==> IsHead(s.requests, s.disk, h) {
      RetireHeads(s.requests, s.disk, b, h);
    }
  }

  lemma RetireUsed(s: State, b: nat, s': State, i: nat)
    requires Shape(s) && NextRetire(s, b, s') && i < NUM && Used(s.free, s.requests, i)
    ensures Used(s'.free, s'.requests, i)
  {
    if !s'.free[i] {
      var c: nat :| c < |s.requests| && Uses(s.requests[c], i);
      assert Uses(s'.requests[c], i);
    }
  }

  lemma RetireHeads(requests: seq<Request>, disk: seq<bool>, b: nat, h: nat)
    requires |disk| == |requests| && b < |requests| && !disk[b]
    ensures IsHead(requests[b := Absent], disk, h) <==> IsHead(requests, disk, h)
  {
    var requests' := requests[b := Absent];
    if IsHead(requests, disk, h) {
      var c: nat :| c < |requests| && requests[c].Waiting? && requests[c].i0 == h && disk[c];
      assert requests'[c].Waiting? && requests'[c].i0 == h && disk[c];
    }
    if IsHead(requests', disk, h) {
      var c: nat :| c < |requests'| && requests'[c].Waiting? && requests'[c].i0 == h && disk[c];
      assert requests[c].Waiting? && requests[c].i0 == h && disk[c];
    }
  }

  lemma NextInv(s: State, step: Step, s': State)
    requires Inv(s) && Next(s, step, s')
    ensures Inv(s')
  {
    match step
    case Submit(b, i0, i1, i2, op) => SubmitInv(s, b, i0, i1, i2, op, s');
    case Take => TakeInv(s, s');
    case Complete(h, status) => CompleteInv(s, h, status, s');
    case Interrupt => InterruptInv(s, s');
    case Retire(b) => RetireInv(s, b, s');
  }

  // ---------- whole runs ----------

  ghost predicate IsRun(run: seq<State>, steps: seq<Step>) {
    && |run| == |steps| + 1 && Init(run[0]) && (forall k: nat :: k < |run| ==> Shape(run[k]))
    && forall k: nat :: k < |steps| ==> Next(run[k], steps[k], run[k + 1])
  }

  lemma {:induction false} RunInv(run: seq<State>, steps: seq<Step>, k: nat)
    requires IsRun(run, steps) && k < |run|
    ensures Inv(run[k])
  {
    if k > 0 {
      RunInv(run, steps, k - 1);
      NextInv(run[k - 1], steps[k - 1], run[k]);
    }
  }

  /** Free descriptors and the three-element chains of the waiting requests partition the descriptors. */
  lemma Partition(run: seq<State>, steps: seq<Step>, k: nat, i: nat)
    requires IsRun(run, steps) && k < |run| && i < NUM
    ensures run[k].free[i] <==> forall b: nat :: b < NBUF ==> !Uses(run[k].requests[b], i)
    ensures forall b: nat, c: nat ::
            b < NBUF && c < NBUF && Uses(run[k].requests[b], i) && Uses(run[k].requests[c], i) ==> b == c
  {
    RunInv(run, steps, k);
    var s := run[k];
    assert Used(s.free, s.requests, i);
    forall b: nat | b < NBUF && Uses(s.requests[b], i) ensures !s.free[i] {
      assert RequestOk(s.free, s.desc, s.info, s.ops, s.requests, b);
    }
    forall b: nat, c: nat | b < NBUF && c < NBUF && Uses(s.requests[b], i) && Uses(s.requests[c], i) ensures b == c {
      assert Apart(s.requests, b, c);
    }
  }

  /** A chain the device may still look at is whole, and all of it is marked in use. */
  lemma NoReuseInFlight(run: seq<State>, steps: seq<Step>, k: nat, h: nat)
    requires IsRun(run, steps) && k < |run| && InFlight(run[k].queue, run[k].busy, run[k].done, h)
    ensures h < NUM && !run[k].free[h] && run[k].desc[h].next < NUM && !run[k].free[run[k].desc[h].next]
    ensures run[k].desc[run[k].desc[h].next].next < NUM && !run[k].free[run[k].desc[run[k].desc[h].next].next]
  {
    RunInv(run, steps, k);
    var b := DeviceSeesRequest(run[k], h);
    assert RequestOk(run[k].free, run[k].desc, run[k].info, run[k].ops, run[k].requests, b);
  }

  /** No unread ring entry is overwritten, also when the indices wrap: the rings hold the unread heads. */
  lemma RingsIntact(run: seq<State>, steps: seq<Step>, k: nat, j: nat)
    requires IsRun(run, steps) && k < |run|
    ensures j < |run[k].queue| ==> run[k].availRing[(run[k].deviceSeen + j) % NUM] == run[k].queue[j]
    ensures j < |run[k].done| ==> run[k].usedRing[(run[k].usedIdx + j) % NUM] == run[k].done[j]
    ensures run[k].deviceSeen == run[k].availIdx <==> run[k].queue == []
    ensures run[k].usedIdx == run[k].deviceUsed <==> run[k].done == []
  {
    RunInv(run, steps, k);
    RingEmpty(run[k].availRing, run[k].deviceSeen, run[k].availIdx, run[k].queue);
    RingEmpty(run[k].usedRing, run[k].usedIdx, run[k].deviceUsed, run[k].done);
  }

  /** What the device stored for head h, last before step k. */
  function Reported(steps: seq<Step>, k: nat, h: nat): nat
    requires k <= |steps|
  {
    if k == 0 then 0 else if steps[k - 1].Complete? && steps[k - 1].h == h then steps[k - 1].status
      else Reported(steps, k - 1, h)
  }

  lemma StatusStep(s: State, step: Step, s': State, h: nat)
    requires Inv(s) && Next(s, step, s') && h in s'.done
    ensures h < NUM && s'.info[h].status == if step.Complete? && step.h == h then step.status else s.info[h].status
    ensures h in s.done || (step.Complete? && step.h == h)
  {
    NextInv(s, step, s');
    assert InFlight(s'.queue, s'.busy, s'.done, h);
    if step.Complete? {
      CompleteInv(s, step.h, step.status, s');
    } else if step.Submit? {
      FreeIsNoHead(s, step.i0);
      assert !InFlight(s.queue, s.busy, s.done, step.i0);
    } else if step.Interrupt? {
      RingEmpty(s.usedRing, s.usedIdx, s.deviceUsed, s.done);
      SplitHead(s.done, h);
    }
  }

  /** The driver reads what the device stored for that very request. */
  lemma {:induction false} StatusIsReported(run: seq<State>, steps: seq<Step>, k: nat, h: nat)
    requires IsRun(run, steps) && k < |run| && h in run[k].done
    ensures h < NUM && run[k].info[h].status == Reported(steps, k, h)
  {
    if k > 0 {
      RunInv(run, steps, k - 1);
      StatusStep(run[k - 1], steps[k - 1], run[k], h);
      if h in run[k - 1].done { StatusIsReported(run, steps, k - 1, h); }
    }
  }

  /** virtio_disk_intr finds a finished request, whose buffer is waiting for the disk.  It panics exactly
      when the device reported an error for it. */
  lemma InterruptPanicsIff(run: seq<State>, steps: seq<Step>, k: nat) returns (b: nat)
    requires IsRun(run, steps) && k < |run| && run[k].usedIdx != run[k].deviceUsed
    ensures var id := run[k].usedRing[run[k].usedIdx % NUM];
            && id < NUM && run[k].info[id].b == b && (run[k].info[id].status != 0 <==> Reported(steps, k, id) != 0)
            && b < NBUF && run[k].disk[b] && run[k].requests[b].Waiting? && run[k].requests[b].i0 == id
  {
    RunInv(run, steps, k);
    var s := run[k];
    RingEmpty(s.usedRing, s.usedIdx, s.deviceUsed, s.done);
    RingPop(s.usedRing, s.usedIdx, s.deviceUsed, s.done);
    assert InFlight(s.queue, s.busy, s.done, s.done[0]);
    b := DeviceSeesRequest(s, s.done[0]);
    assert RequestOk(s.free, s.desc, s.info, s.ops, s.requests, b);
    StatusIsReported(run, steps, k, s.done[0]);
  }

  /** A completion clears b->disk of its own buffer and of no other. */
  lemma CompletionClearsOwn(run: seq<State>, steps: seq<Step>, k: nat) returns (b: nat)
    requires IsRun(run, steps) && k < |steps| && steps[k] == Interrupt
    ensures b < NBUF && run[k].disk[b] && run[k + 1].disk == run[k].disk[b := false]
    ensures run[k].requests[b].Waiting? && run[k].done != [] && run[k].requests[b].i0 == run[k].done[0]
  {
    assert Next(run[k], steps[k], run[k + 1]);
    b := InterruptPanicsIff(run, steps, k);
    RunInv(run, steps, k);
    var s := run[k];
    RingEmpty(s.usedRing, s.usedIdx, s.deviceUsed, s.done);
    RingPop(s.usedRing, s.usedIdx, s.deviceUsed, s.done);
  }

  /** The status byte of the request for buffer b: 0xff until the device stores one, 0 once it is over. */
  ghost predicate StatusOk(s: State, b: nat)
    requires Shape(s) && b < NBUF
  {
    var r := s.requests[b];
    r.Waiting? ==>
      && r.i0 < NUM && (!s.disk[b] ==> s.info[r.i0].status == 0)
      && (s.disk[b] && r.i0 !in s.done ==> s.info[r.i0].status == 0xff)
  }

  lemma OneOwner(s: State, b: nat, c: nat)
    requires Inv(s) && b < NBUF && c < NBUF && s.requests[b].Waiting? && s.requests[c].Waiting?
    requires s.requests[b].i0 == s.requests[c].i0
    ensures b == c
  {
    assert RequestOk(s.free, s.desc, s.info, s.ops, s.requests, b) && Apart(s.requests, b, c);
    assert Uses(s.requests[b], s.requests[b].i0) && Uses(s.requests[c], s.requests[b].i0);
  }

  lemma SubmitStatus(s: State, step: Step, s': State, b: nat)
    requires Inv(s) && step.Submit? && Next(s, step, s') && b < NBUF && StatusOk(s, b)
    ensures Shape(s') && StatusOk(s', b)
  {
    FreeIsNoHead(s, step.i0);
    assert !InFlight(s.queue, s.busy, s.done, step.i0);
    if b != step.b { assert RequestOk(s.free, s.desc, s.info, s.ops, s.requests, b); }
  }

  lemma CompleteStatus(s: State, h: nat, status: nat, s': State, b: nat)
    requires Inv(s) && Next(s, Complete(h, status), s') && b < NBUF && StatusOk(s, b)
    ensures Shape(s') && StatusOk(s', b)
  {
    assert InFlight(s.queue, s.busy, s.done, h);
    var c := DeviceSeesRequest(s, h);
    assert RequestOk(s.free, s.desc, s.info, s.ops, s.requests, c);
    if s.requests[b].Waiting? && s.requests[b].i0 == h { OneOwner(s, b, c); }
  }

  lemma InterruptStatus(s: State, s': State, b: nat)
    requires Inv(s) && Next(s, Interrupt, s') && b < NBUF && StatusOk(s, b)
    ensures Shape(s') && StatusOk(s', b)
  {
    RingEmpty(s.usedRing, s.usedIdx, s.deviceUsed, s.done);
    RingPop(s.usedRing, s.usedIdx, s.deviceUsed, s.done);
    assert InFlight(s.queue, s.busy, s.done, s.done[0]);
    var c := DeviceSeesRequest(s, s.done[0]);
    assert RequestOk(s.free, s.desc, s.info, s.ops, s.requests, c);
    if s.requests[b].Waiting? && s.requests[b].i0 == s.done[0] { OneOwner(s, b, c); }
    if s.requests[b].Waiting? && s.requests[b].i0 in s.done { SplitHead(s.done, s.requests[b].i0); }
  }

  /** A process goes on from virtio_disk_rw only after the device reported success for its request, and a
      status that the device did not store is never taken for one that it did. */
  lemma {:induction false} StatusOfRequest(run: seq<State>, steps: seq<Step>, k: nat, b: nat)
    requires IsRun(run, steps) && k < |run| && b < NBUF
    ensures StatusOk(run[k], b)
  {
    if k > 0 {
      RunInv(run, steps, k - 1);
      StatusOfRequest(run, steps, k - 1, b);
      var s, step, s' := run[k - 1], steps[k - 1], run[k];
      if step.Submit? {
        SubmitStatus(s, step, s', b);
      } else if step.Complete? {
        CompleteStatus(s, step.h, step.status, s', b);
      } else if step.Interrupt? {
        InterruptStatus(s, s', b);
      }
    }
  }

  /** alloc3_desc takes the three lowest free descriptors: a request could not have got any others. */
  lemma ChainIsDetermined(s: State, step: Step, s': State, other: Step, t: State)
    requires Shape(s) && step.Submit? && other.Submit? && other.b == step.b && other.op == step.op
    requires Next(s, step, s') && Next(s, other, t)
    ensures other == step && t == s'
  {
  }

  /** A request whose buffer is still marked is with the device or in one of the rings. */
  lemma NoRequestLost(run: seq<State>, steps: seq<Step>, k: nat, b: nat)
    requires IsRun(run, steps) && k < |run| && b < NBUF && run[k].disk[b]
    ensures run[k].requests[b].Waiting? && InFlight(run[k].queue, run[k].busy, run[k].done, run[k].requests[b].i0)
  {
    RunInv(run, steps, k);
    var s := run[k];
    assert RequestOk(s.free, s.desc, s.info, s.ops, s.requests, b);
    assert IsHead(s.requests, s.disk, s.requests[b].i0);
  }

  ghost predicate CanMove(s: State)
    requires Shape(s)
  {
    exists step: Step, s': State :: !step.Submit? && Next(s, step, s')
  }

  /** A request that is waiting never gets stuck: the device can take or finish one, the driver can handle
      an interrupt, or a process whose request is done can go on; unless the device reported an error. */
  lemma NoRequestStuck(run: seq<State>, steps: seq<Step>, k: nat, b: nat)
    requires IsRun(run, steps) && k < |run| && b < NBUF && run[k].requests[b].Waiting?
    ensures CanMove(run[k]) || (run[k].done != [] && Reported(steps, k, run[k].done[0]) != 0)
  {
    RunInv(run, steps, k);
    var s := run[k];
    assert RequestOk(s.free, s.desc, s.info, s.ops, s.requests, b);
    if !s.disk[b] {
      var r := s.requests[b];
      assert NextRetire(s, b, s.(info := s.info[r.i0 := s.info[r.i0].(b := NBUF)],
                                 free := s.free[r.i0 := true][r.i1 := true][r.i2 := true],
                                 desc := s.desc[r.i0 := NoDesc][r.i1 := NoDesc][r.i2 := NoDesc],
                                 requests := s.requests[b := Absent]));
      assert Next(s, Retire(b), s.(info := s.info[r.i0 := s.info[r.i0].(b := NBUF)],
                                   free := s.free[r.i0 := true][r.i1 := true][r.i2 := true],
                                   desc := s.desc[r.i0 := NoDesc][r.i1 := NoDesc][r.i2 := NoDesc],
                                   requests := s.requests[b := Absent]));
    } else {
      NoRequestLost(run, steps, k, b);
      FlightMoves(run, steps, k, s.requests[b].i0);
    }
  }

  lemma FlightMoves(run: seq<State>, steps: seq<Step>, k: nat, h: nat)
    requires IsRun(run, steps) && k < |run| && InFlight(run[k].queue, run[k].busy, run[k].done, h)
    ensures CanMove(run[k]) || (run[k].done != [] && Reported(steps, k, run[k].done[0]) != 0)
  {
    RunInv(run, steps, k);
    var s := run[k];
    if h in s.busy {
      var _ := DeviceSeesRequest(s, h);
      assert Next(s, Complete(h, 0), s.(info := s.info[h := s.info[h].(status := 0)],
                                        usedRing := s.usedRing[s.deviceUsed % NUM := h],
                                        deviceUsed := (s.deviceUsed + 1) % U16, busy := s.busy - {h},
                                        done := s.done + [h]));
    } else if h in s.queue {
      RingsIntact(run, steps, k, 0);
      assert Next(s, Take, s.(busy := s.busy + {s.availRing[s.deviceSeen % NUM]},
                              deviceSeen := (s.deviceSeen + 1) % U16, queue := Tail(s.queue)));
    } else {
      InterruptMoves(run, steps, k);
    }
  }

  lemma InterruptMoves(run: seq<State>, steps: seq<Step>, k: nat)
    requires IsRun(run, steps) && k < |run| && run[k].done != []
    ensures CanMove(run[k]) || Reported(steps, k, run[k].done[0]) != 0
  {
    RingsIntact(run, steps, k, 0);
    var b := InterruptPanicsIff(run, steps, k);
    FirstDone(run, steps, k);
    if run[k].info[run[k].done[0]].status == 0 {
      HandlerMoves(run[k]);
    }
  }

  lemma FirstDone(run: seq<State>, steps: seq<Step>, k: nat)
    requires IsRun(run, steps) && k < |run| && run[k].done != []
    ensures run[k].usedRing[run[k].usedIdx % NUM] == run[k].done[0]
  {
    RingsIntact(run, steps, k, 0);
  }

  lemma HandlerMoves(s: State)
    requires Shape(s) && s.usedIdx != s.deviceUsed
    requires var id := s.usedRing[s.usedIdx % NUM]; id < NUM && s.info[id].status == 0 && s.info[id].b < NBUF
    ensures CanMove(s)
  {
    var id := s.usedRing[s.usedIdx % NUM];
    var s' := s.(disk := s.disk[s.info[id].b := false], usedIdx := (s.usedIdx + 1) % U16, done := Tail(s.done));
    assert Next(s, Interrupt, s');
  }

  // ---------- the driver's loops ----------

  class Descriptors {
    const free: array<bool>
    const desc: array<Desc>

    ghost predicate Valid()
      reads this
    {
      free.Length == NUM && desc.Length == NUM
    }

    constructor ()
      ensures Valid() && fresh(free) && fresh(desc) && forall i: nat :: i < NUM ==> free[i]
    {
      free := new bool[NUM](_ => true);
      desc := new Desc[NUM](_ => NoDesc);
    }

    /** alloc_desc */
    method AllocDesc() returns (r: int)
      requires Valid()
      modifies free
      ensures r == -1 || (0 <= r < NUM && Lowest(old(free[..]), r) && free[..] == old(free[..])[r := false])
      ensures r == -1 ==> free[..] == old(free[..]) && forall i: nat :: i < NUM ==> !free[i]
    {
      var i := 0;
      while i < NUM
        invariant i <= NUM && free[..] == old(free[..])
        invariant forall j: nat :: j < i ==> !free[j]
      {
        if free[i] {
          free[i] := false;
          return i;
        }
        i := i + 1;
      }
      r := -1;
    }

    /** free_desc; both panics are preconditions. */
    method FreeDesc(i: nat)
      requires Valid() && i < NUM && !free[i]
      modifies free, desc
      ensures free[..] == old(free[..])[i := true] && desc[..] == old(desc[..])[i := NoDesc]
    {
      desc[i] := NoDesc;
      free[i] := true;
    }

    /** alloc3_desc: the three lowest free descriptors, or none taken at all. */
    method Alloc3Desc() returns (ok: bool, idx: seq<nat>)
      requires Valid()
      modifies free, desc
      ensures ok ==> |idx| == 3 && Lowest(old(free[..]), idx[0]) && Lowest(old(free[..])[idx[0] := false], idx[1])
                     && Lowest(old(free[..])[idx[0] := false][idx[1] := false], idx[2])
                     && free[..] == old(free[..])[idx[0] := false][idx[1] := false][idx[2] := false]
                        && desc[..] == old(desc[..])
      ensures !ok ==> free[..] == old(free[..]) && FewerThanThree(free[..])
      ensures forall i: nat :: i < NUM && !old(free[i]) ==> desc[i] == old(desc[i])
    {
      ghost var f0 := free[..];
      var i0 := AllocDesc();
      if i0 < 0 { return false, []; }
      var i1 := AllocDesc();
      if i1 < 0 {
        FreeDesc(i0);
        assert free[..] == f0;
        return false, [];
      }
      var i2 := AllocDesc();
      if i2 < 0 {
        FreeDesc(i0);
        FreeDesc(i1);
        assert free[..] == f0;
        return false, [];
      }
      return true, [i0, i1, i2];
    }

    /** free_chain, for a chain of any length that the entries spell out. */
    method FreeChain(i: nat, ghost chain: seq<nat>)
      requires Valid() && chain != [] && chain[0] == i && Distinct(chain) && ChainIn(free[..], desc[..], chain)
      modifies free, desc
      ensures forall k: nat :: k < NUM ==> free[k] == (old(free[k]) || k in chain)
      ensures forall k: nat :: k < NUM ==> desc[k] == if k in chain then NoDesc else old(desc[k])
    {
      var j := i;
      ghost var n := 0;
      while true
        invariant n < |chain| && chain[n] == j
        invariant forall k: nat :: k < NUM ==> free[k] == (old(free[k]) || k in chain[..n])
        invariant forall k: nat :: k < NUM ==> desc[k] == if k in chain[..n] then NoDesc else old(desc[k])
        decreases |chain| - n
      {
        assert LinkIn(old(free[..]), old(desc[..]), chain, n);
        PrefixMore(chain, n, j);
        var more, next := desc[j].more, desc[j].next;
        FreeDesc(j);
        forall k: nat | k < NUM
          ensures k in chain[..n + 1] <==> k in chain[..n] || k == chain[n]
        {
          PrefixMore(chain, n, k);
        }
        n := n + 1;
        if more { j := next; } else { break; }
      }
      assert chain[..n] == chain;
    }
  }

  predicate FewerThanThree(free: seq<bool>) {
    forall i: nat, j: nat, k: nat :: i < j < k < |free| ==> !(free[i] && free[j] && free[k])
  }

  ghost predicate LinkIn(free: seq<bool>, desc: seq<Desc>, chain: seq<nat>, n: nat)
    requires n < |chain| && |free| == |desc| == NUM
  {
    && chain[n] < NUM && !free[chain[n]]
    && (if n + 1 < |chain| then desc[chain[n]].more && desc[chain[n]].next == chain[n + 1] else !desc[chain[n]].more)
  }

  ghost predicate ChainIn(free: seq<bool>, desc: seq<Desc>, chain: seq<nat>) {
    |free| == |desc| == NUM && forall n: nat :: n < |chain| ==> LinkIn(free, desc, chain, n)
  }

  lemma PrefixMore(chain: seq<nat>, n: nat, k: nat)
    requires n < |chain|
    ensures k in chain[..n + 1] <==> k in chain[..n] || k == chain[n]
    ensures Distinct(chain) ==> chain[n] !in chain[..n]
  {
    assert chain[..n + 1] == chain[..n] + [chain[n]];
  }

  /** The chain of a waiting request is what free_chain is given when the request retires. */
  lemma RetiredChain(run: seq<State>, steps: seq<Step>, k: nat, b: nat)
    requires IsRun(run, steps) && k < |run| && b < NBUF && run[k].requests[b].Waiting?
    ensures var r := run[k].requests[b];
            Distinct([r.i0, r.i1, r.i2]) && ChainIn(run[k].free, run[k].desc, [r.i0, r.i1, r.i2])
  {
    RunInv(run, steps, k);
    var s := run[k];
    assert RequestOk(s.free, s.desc, s.info, s.ops, s.requests, b);
    var r := s.requests[b];
    forall n: nat | n < 3 ensures LinkIn(s.free, s.desc, [r.i0, r.i1, r.i2], n) {
    }
  }
}
