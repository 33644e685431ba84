/** The buffer cache of kernel/bio.c.

    `Cache` is the value the cache holds: the buffers, and the order of the ring read from
    head.next (most recently released) to head.prev.  The relations `Hit`, `Recycle`, `Release`
    say what one critical section of bget and brelse does to that value; the class
    `BufferCache` is the ring of prev/next links and is proved to do exactly that. */
module Bio {
  import opened Finite

  const NBUF: nat := 30        // MAXOPBLOCKS*3
  const WORDS: nat := 256      // BSIZE / sizeof(uint)
  const HEAD: nat := NBUF      // the ring position of bcache.head

  type Word = w: int | 0 <= w < 0x1_0000_0000
  type Block = s: seq<Word> | |s| == WORDS witness seq(WORDS, _ => 0)

  datatype Buf = Buf(valid: bool, dev: nat, blockno: nat, refcnt: nat, data: Block)

  datatype Cache = Cache(bufs: seq<Buf>, order: seq<nat>)

  const ZeroBlock: Block := seq(WORDS, _ => 0)
  const FreshBuf: Buf := Buf(false, 0, 0, 0, ZeroBlock)

  /** The ring is a permutation of all the buffers. */
  predicate IsPermutation(order: seq<nat>) {
    && |order| == NBUF
    && Distinct(order)
    && (forall i :: 0 <= i < |order| ==> order[i] < NBUF)
  }

  predicate CacheOk(c: Cache) {
    |c.bufs| == NBUF && IsPermutation(c.order)
  }

  predicate Holds(b: Buf, dev: nat, blockno: nat) {
    b.dev == dev && b.blockno == blockno
  }

  predicate Cached(c: Cache, dev: nat, blockno: nat) {
    exists b :: 0 <= b < |c.bufs| && Holds(c.bufs[b], dev, blockno)
  }

  predicate NoneHolds(c: Cache, k: nat, dev: nat, blockno: nat)
    requires CacheOk(c) && k <= NBUF
  {
    forall j :: 0 <= j < k ==> !Holds(c.bufs[c.order[j]], dev, blockno)
  }

  predicate AllUsed(c: Cache, k: nat)
    requires CacheOk(c) && k <= NBUF
  {
    forall j :: k <= j < NBUF ==> c.bufs[c.order[j]].refcnt != 0
  }

  /** bget found the block: the first match from head.next gains a reference. */
  ghost predicate Hit(c: Cache, dev: nat, blockno: nat, b: nat, c': Cache)
    requires CacheOk(c)
  {
    && b < NBUF
    && Holds(c.bufs[b], dev, blockno)
    && (exists k :: 0 <= k < NBUF && c.order[k] == b && NoneHolds(c, k, dev, blockno))
    && c' == Cache(c.bufs[b := c.bufs[b].(refcnt := c.bufs[b].refcnt + 1)], c.order)
  }

  /** bget did not find it: the last unused buffer of the ring is taken over. */
  ghost predicate Recycle(c: Cache, dev: nat, blockno: nat, b: nat, c': Cache)
    requires CacheOk(c)
  {
    && b < NBUF
    && !Cached(c, dev, blockno)
    && c.bufs[b].refcnt == 0
    && (exists k :: 0 <= k < NBUF && c.order[k] == b && AllUsed(c, k + 1))
    && c' == Cache(c.bufs[b := Buf(false, dev, blockno, 1, c.bufs[b].data)], c.order)
  }

  /** bget would panic. */
  predicate Full(c: Cache, dev: nat, blockno: nat) {
    !Cached(c, dev, blockno) && forall b :: 0 <= b < |c.bufs| ==> c.bufs[b].refcnt != 0
  }

  function Without(order: seq<nat>, k: nat): seq<nat>
    requires k < |order|
  {
    order[..k] + order[k+1..]
  }

  /** brelse: drop one reference; when it was the last, move the buffer to the front. */
  ghost predicate Release(c: Cache, b: nat, c': Cache)
    requires CacheOk(c) && b < NBUF && c.bufs[b].refcnt > 0
  {
    && c'.bufs == c.bufs[b := c.bufs[b].(refcnt := c.bufs[b].refcnt - 1)]
    && (if c.bufs[b].refcnt == 1
        then exists k :: 0 <= k < NBUF && c.order[k] == b && c'.order == [b] + Without(c.order, k)
        else c'.order == c.order)
  }

  // ---------- what the relations keep ----------

  lemma MoveToFrontKeepsPermutation(order: seq<nat>, k: nat)
    requires IsPermutation(order) && k < |order|
    ensures IsPermutation([order[k]] + Without(order, k))
  {
    var w := Without(order, k);
    assert forall i :: 0 <= i < |w| ==> w[i] == order[if i < k then i else i + 1];
  }

  lemma PermutationCovers(order: seq<nat>, b: nat)
    requires IsPermutation(order) && b < NBUF
    ensures b in order
  {
    DistinctBelow(order, NBUF);
    assert b in Elements(order);
  }

  /** At most one buffer holds each block of a real device (device 0 is the initial filler). */
  predicate Unique(c: Cache) {
    forall i, j :: 0 <= i < j < |c.bufs| && c.bufs[i].dev >= 1
      ==> !(c.bufs[i].dev == c.bufs[j].dev && c.bufs[i].blockno == c.bufs[j].blockno)
  }

  lemma BgetKeepsUnique(c: Cache, dev: nat, blockno: nat, b: nat, c': Cache)
    requires CacheOk(c) && Unique(c)
    requires Hit(c, dev, blockno, b, c') || Recycle(c, dev, blockno, b, c')
    ensures CacheOk(c') && Unique(c')
  {
    if Recycle(c, dev, blockno, b, c') {
      forall i, j | 0 <= i < j < |c'.bufs| && c'.bufs[i].dev >= 1
        ensures !(c'.bufs[i].dev == c'.bufs[j].dev && c'.bufs[i].blockno == c'.bufs[j].blockno)
      {
        assert i != b ==> !Holds(c.bufs[i], dev, blockno);
        assert j != b ==> !Holds(c.bufs[j], dev, blockno);
      }
    }
  }

  /** `freed[b]` is the time buffer b last became unused.  Along the ring the unused buffers
      are in decreasing order of that time. */
  ghost predicate RecencyOrdered(c: Cache, freed: seq<nat>, now: nat)
    requires CacheOk(c)
  {
    && |freed| == NBUF
    && (forall b :: 0 <= b < NBUF ==> freed[b] <= now)
    && (forall i, j :: 0 <= i < j < NBUF && c.bufs[c.order[i]].refcnt == 0 && c.bufs[c.order[j]].refcnt == 0
          ==> freed[c.order[i]] >= freed[c.order[j]])
  }

  lemma LastReleaseKeepsRecency(c: Cache, k: nat, c': Cache, freed: seq<nat>, now: nat)
    requires CacheOk(c) && k < NBUF && RecencyOrdered(c, freed, now)
    requires c.bufs[c.order[k]].refcnt == 1
    requires c'.bufs == c.bufs[c.order[k] := c.bufs[c.order[k]].(refcnt := 0)]
    requires c'.order == [c.order[k]] + Without(c.order, k)
    ensures CacheOk(c') && RecencyOrdered(c', freed[c.order[k] := now + 1], now + 1)
  {
    MoveToFrontKeepsPermutation(c.order, k);
    var freed' := freed[c.order[k] := now + 1];
    forall i, j | 0 <= i < j < NBUF && c'.bufs[c'.order[i]].refcnt == 0 && c'.bufs[c'.order[j]].refcnt == 0
      ensures freed'[c'.order[i]] >= freed'[c'.order[j]]
    {
      var j' := if j <= k then j - 1 else j;
      assert c'.order[j] == c.order[j'] != c.order[k];
      if i > 0 {
        var i' := if i <= k then i - 1 else i;
        assert c'.order[i] == c.order[i'] != c.order[k];
      }
    }
  }

  lemma ReleaseKeepsRecency(c: Cache, b: nat, c': Cache, freed: seq<nat>, now: nat)
    requires CacheOk(c) && b < NBUF && c.bufs[b].refcnt > 0 && Release(c, b, c')
    requires RecencyOrdered(c, freed, now)
    ensures CacheOk(c')
    ensures c.bufs[b].refcnt == 1 ==> RecencyOrdered(c', freed[b := now + 1], now + 1)
    ensures c.bufs[b].refcnt > 1 ==> RecencyOrdered(c', freed, now)
  {
    if c.bufs[b].refcnt == 1 {
      var k :| 0 <= k < NBUF && c.order[k] == b && c'.order == [b] + Without(c.order, k);
      LastReleaseKeepsRecency(c, k, c', freed, now);
    }
  }

  /** bget recycles the unused buffer that became free longest ago. */
  lemma RecycleTakesOldest(c: Cache, dev: nat, blockno: nat, b: nat, c': Cache, freed: seq<nat>, now: nat)
    requires CacheOk(c) && RecencyOrdered(c, freed, now) && Recycle(c, dev, blockno, b, c')
    ensures c.bufs[b].refcnt == 0
    ensures forall u :: 0 <= u < NBUF && c.bufs[u].refcnt == 0 ==> freed[b] <= freed[u]
    ensures RecencyOrdered(c', freed, now)
  {
    forall u | 0 <= u < NBUF && c.bufs[u].refcnt == 0
      ensures freed[b] <= freed[u]
    {
      PermutationCovers(c.order, u);
    }
  }

  // ---------- least recently used, over whole runs ----------

  /** The cache with the history of when each buffer last became unused. */
  datatype Aged = Aged(cache: Cache, freed: seq<nat>, now: nat)

  datatype CacheOp = Get(dev: nat, blockno: nat, b: nat) | Put(b: nat) | Pin(b: nat) | Unpin(b: nat)

  function Refer(c: Cache, b: nat, n: nat): Cache
    requires b < |c.bufs|
  {
    Cache(c.bufs[b := c.bufs[b].(refcnt := n)], c.order)
  }

  /** A buffer is unpinned by whoever has it locked as well, so that reference remains. */
  ghost predicate CacheStep(a: Aged, op: CacheOp, a': Aged)
    requires CacheOk(a.cache)
  {
    match op
    case Get(dev, blockno, b) =>
      && (Hit(a.cache, dev, blockno, b, a'.cache) || Recycle(a.cache, dev, blockno, b, a'.cache))
      && a'.freed == a.freed && a'.now == a.now
    case Put(b) =>
      && b < NBUF && a.cache.bufs[b].refcnt > 0 && Release(a.cache, b, a'.cache) && |a.freed| == NBUF
      && if a.cache.bufs[b].refcnt == 1 then a'.freed == a.freed[b := a.now + 1] && a'.now == a.now + 1
         else a'.freed == a.freed && a'.now == a.now
    case Pin(b) =>
      b < NBUF && a.cache.bufs[b].refcnt > 0 && a' == a.(cache := Refer(a.cache, b, a.cache.bufs[b].refcnt + 1))
    case Unpin(b) =>
      b < NBUF && a.cache.bufs[b].refcnt > 1 && a' == a.(cache := Refer(a.cache, b, a.cache.bufs[b].refcnt - 1))
  }

  ghost predicate AgedOk(a: Aged) {
    CacheOk(a.cache) && Unique(a.cache) && RecencyOrdered(a.cache, a.freed, a.now)
  }

  lemma CacheStepOk(a: Aged, op: CacheOp, a': Aged)
    requires AgedOk(a) && CacheStep(a, op, a')
    ensures AgedOk(a')
  {
    match op
    case Get(dev, blockno, b) =>
      BgetKeepsUnique(a.cache, dev, blockno, b, a'.cache);
      if Recycle(a.cache, dev, blockno, b, a'.cache) {
        RecycleTakesOldest(a.cache, dev, blockno, b, a'.cache, a.freed, a.now);
      }
    case Put(b) => ReleaseKeepsRecency(a.cache, b, a'.cache, a.freed, a.now);
    case Pin(_) =>
    case Unpin(_) =>
  }

  ghost predicate IsCacheRun(run: seq<Aged>, ops: seq<CacheOp>) {
    && |run| == |ops| + 1 && (forall k: nat :: k < |run| ==> CacheOk(run[k].cache))
    && (forall b :: 0 <= b < NBUF ==> run[0].cache.bufs[b] == FreshBuf) && run[0].freed == seq(NBUF, _ => 0)
    && forall k: nat :: k < |ops| ==> CacheStep(run[k], ops[k], run[k + 1])
  }

  lemma {:induction false} CacheRunOk(run: seq<Aged>, ops: seq<CacheOp>, k: nat)
    requires IsCacheRun(run, ops) && k < |run|
    ensures AgedOk(run[k])
  {
    if k > 0 {
      CacheRunOk(run, ops, k - 1);
      CacheStepOk(run[k - 1], ops[k - 1], run[k]);
    }
  }

  /** In every run of the cache, what bget recycles is the unused buffer that became free longest ago. */
  lemma RecyclesLeastRecent(run: seq<Aged>, ops: seq<CacheOp>, k: nat, u: nat)
    requires IsCacheRun(run, ops) && k < |ops| && ops[k].Get? && u < NBUF && run[k].cache.bufs[u].refcnt == 0
    ensures Recycle(run[k].cache, ops[k].dev, ops[k].blockno, ops[k].b, run[k + 1].cache) ==>
              ops[k].b < NBUF == |run[k].freed| && run[k].freed[ops[k].b] <= run[k].freed[u]
  {
    CacheRunOk(run, ops, k);
    assert CacheStep(run[k], ops[k], run[k + 1]);
    if Recycle(run[k].cache, ops[k].dev, ops[k].blockno, ops[k].b, run[k + 1].cache) {
      RecycleTakesOldest(run[k].cache, ops[k].dev, ops[k].blockno, ops[k].b, run[k + 1].cache, run[k].freed,
        run[k].now);
    }
  }

  // ---------- the ring ----------

  function After(cyc: seq<nat>, i: nat): nat
    requires i < |cyc|
  {
    if i + 1 == |cyc| then cyc[0] else cyc[i+1]
  }

  ghost predicate Linked(next: seq<nat>, prev: seq<nat>, x: nat, y: nat) {
    x < |next| && y < |prev| && next[x] == y && prev[y] == x
  }

  /** Following next visits cyc in order and returns to its start, and prev undoes next. */
  ghost predicate Ring(next: seq<nat>, prev: seq<nat>, cyc: seq<nat>) {
    && |next| == NBUF + 1 && |prev| == NBUF + 1
    && Distinct(cyc)
    && forall i :: 0 <= i < |cyc| ==> Linked(next, prev, cyc[i], After(cyc, i))
  }

  /** Where the i-th entry of a sequence without its entry k stood before. */
  function Before(k: nat, i: nat): nat {
    if i < k then i else i + 1
  }

  lemma CutDistinct(cyc: seq<nat>, k: nat)
    requires Distinct(cyc) && k < |cyc|
    ensures Distinct(cyc[..k] + cyc[k + 1..])
  {
    var w := cyc[..k] + cyc[k + 1..];
    forall i, j | 0 <= i < j < |w| ensures w[i] != w[j] {
      assert w[i] == cyc[Before(k, i)] && w[j] == cyc[Before(k, j)];
    }
  }

  /** Away from the gap each buffer keeps its successor. */
  lemma CutAfter(cyc: seq<nat>, k: nat, i: nat)
    requires 0 < k < |cyc| && i + 1 < |cyc| && i != k - 1
    ensures var w := cyc[..k] + cyc[k + 1..];
            && w[i] == cyc[Before(k, i)] && After(w, i) == After(cyc, Before(k, i))
            && Before(k, i) != k && Before(k, i) != k - 1
  {
  }

  lemma CutGap(cyc: seq<nat>, k: nat)
    requires 0 < k < |cyc|
    ensures var w := cyc[..k] + cyc[k + 1..];
            w[k - 1] == cyc[k - 1] && After(w, k - 1) == After(cyc, k) && After(cyc, k - 1) == cyc[k]
  {
  }

  /** Two places have the same successor only if they are the same. */
  lemma AfterInjective(next: seq<nat>, prev: seq<nat>, cyc: seq<nat>, i: nat, j: nat)
    requires Ring(next, prev, cyc) && i < |cyc| && j < |cyc| && i != j
    ensures cyc[i] != cyc[j] && After(cyc, i) != After(cyc, j)
  {
    assert Linked(next, prev, cyc[i], After(cyc, i)) && Linked(next, prev, cyc[j], After(cyc, j));
  }

  lemma CutRing(next: seq<nat>, prev: seq<nat>, cyc: seq<nat>, k: nat, x: nat, y: nat)
    requires Ring(next, prev, cyc) && 0 < k < |cyc| && x == cyc[k - 1] && y == After(cyc, k)
    ensures x < |next| && y < |prev| && Ring(next[x := y], prev[y := x], cyc[..k] + cyc[k + 1..])
  {
    var w := cyc[..k] + cyc[k + 1..];
    assert Linked(next, prev, cyc[k - 1], After(cyc, k - 1)) && Linked(next, prev, cyc[k], After(cyc, k));
    CutDistinct(cyc, k);
    CutGap(cyc, k);
    forall i | 0 <= i < |w| ensures Linked(next[x := y], prev[y := x], w[i], After(w, i)) {
      if i != k - 1 {
        CutAfter(cyc, k, i);
        AfterInjective(next, prev, cyc, Before(k, i), k - 1);
        AfterInjective(next, prev, cyc, Before(k, i), k);
        assert Linked(next, prev, cyc[Before(k, i)], After(cyc, Before(k, i)));
      }
    }
  }

  /** Taking a buffer out of the ring joins its two neighbours. */
  lemma UnlinkRing(next: seq<nat>, prev: seq<nat>, order: seq<nat>, k: nat)
    requires Ring(next, prev, [HEAD] + order) && k < |order|
    ensures order[k] < |next| && prev[order[k]] < |next| && next[order[k]] < |prev|
    ensures Ring(next[prev[order[k]] := next[order[k]]], prev[next[order[k]] := prev[order[k]]],
            [HEAD] + Without(order, k))
  {
    var cyc := [HEAD] + order;
    assert Linked(next, prev, cyc[k], After(cyc, k)) && Linked(next, prev, cyc[k + 1], After(cyc, k + 1));
    assert cyc[k + 1] == order[k];
    CutRing(next, prev, cyc, k + 1, cyc[k], After(cyc, k + 1));
    assert cyc[..k + 1] + cyc[k + 2..] == [HEAD] + Without(order, k);
  }

  /** A buffer put in behind the head becomes the most recent. */
  lemma LinkFrontRing(next: seq<nat>, prev: seq<nat>, order: seq<nat>, b: nat)
    requires Ring(next, prev, [HEAD] + order) && b < HEAD && b !in order
    ensures next[HEAD] < |prev|
    ensures Ring(next[b := next[HEAD]][HEAD := b], prev[b := HEAD][next[HEAD] := b], [HEAD] + ([b] + order))
  {
    var cyc := [HEAD] + order;
    var f := next[HEAD];
    assert Linked(next, prev, cyc[0], After(cyc, 0));
    var w := [HEAD] + ([b] + order);
    assert forall i :: 2 <= i < |w| ==> w[i] == cyc[i-1];
    var n', p' := next[b := f][HEAD := b], prev[b := HEAD][f := b];
    forall i | 0 <= i < |w|
      ensures Linked(n', p', w[i], After(w, i))
    {
      if i >= 2 { assert Linked(next, prev, cyc[i-1], After(cyc, i-1)) && After(cyc, i-1) == After(w, i); }
    }
  }

  /** The shared array of buffers and its ring. */
  class BufferCache {
    var bufs: array<Buf>
    var next: array<nat>
    var prev: array<nat>
    ghost var order: seq<nat>

    ghost predicate Wired()
      reads this, bufs, next, prev
    {
      && bufs.Length == NBUF && next.Length == NBUF + 1 && prev.Length == NBUF + 1
      && next != prev
      && Distinct(order)
      && (forall i :: 0 <= i < |order| ==> order[i] < NBUF)
      && Ring(next[..], prev[..], [HEAD] + order)
    }

    ghost predicate Valid()
      reads this, bufs, next, prev
    {
      Wired() && IsPermutation(order)
    }

    ghost function View(): (c: Cache)
      requires Valid()
      reads this, bufs, next, prev
      ensures CacheOk(c)
    {
      Cache(bufs[..], order)
    }

    method LinkFront(b: nat)
      requires Wired() && b < NBUF && b !in order
      modifies next, prev, `order
      ensures Wired() && order == [b] + old(order)
    {
      LinkFrontRing(next[..], prev[..], order, b);
      var f := next[HEAD];
      ghost var n', p' := next[..][b := f][HEAD := b], prev[..][b := HEAD][f := b];
      next[b] := f;
      prev[b] := HEAD;
      prev[f] := b;
      next[HEAD] := b;
      assert next[..] == n' && prev[..] == p';
      order := [b] + order;
    }

    method Unlink(b: nat, ghost k: nat)
      requires Wired() && k < |order| && order[k] == b
      modifies next, prev, `order
      ensures Wired() && order == Without(old(order), k) && b !in order
    {
      UnlinkRing(next[..], prev[..], order, k);
      ghost var n', p' := next[..][prev[b] := next[b]], prev[..][next[b] := prev[b]];
      var after, before := next[b], prev[b];
      prev[after] := before;
      next[before] := after;
      assert next[..] == n' && prev[..] == p';
      ghost var w := Without(order, k);
      assert forall i :: 0 <= i < |w| ==> w[i] == order[if i < k then i else i + 1];
      order := w;
    }

    /** binit: every buffer is linked in at the front, so the last one is most recent. */
    constructor ()
      ensures Valid() && fresh(bufs) && fresh(next) && fresh(prev)
      ensures View() == Cache(seq(NBUF, _ => FreshBuf), seq(NBUF, i => NBUF - 1 - i))
    {
      bufs := new Buf[NBUF](_ => FreshBuf);
      next := new nat[NBUF + 1](_ => HEAD);
      prev := new nat[NBUF + 1](_ => HEAD);
      order := [];
      new;
      var b := 0;
      while b < NBUF
        invariant b <= NBUF
        invariant fresh(bufs) && fresh(next) && fresh(prev)
        invariant Wired() && bufs[..] == seq(NBUF, _ => FreshBuf)
        invariant order == seq(b, i requires 0 <= i < b => b - 1 - i as nat)
      {
        LinkFront(b);
        b := b + 1;
      }
      assert order == seq(NBUF, i => NBUF - 1 - i);
    }

    /** The first loop of bget, from head.next forwards; HEAD when the block is not cached. */
    method Lookup(dev: nat, blockno: nat) returns (b: nat)
      requires Valid()
      ensures b <= HEAD
      ensures b == HEAD <==> !Cached(View(), dev, blockno)
      ensures b < HEAD ==> Holds(bufs[b], dev, blockno)
                           && exists k :: 0 <= k < NBUF && order[k] == b && NoneHolds(View(), k, dev, blockno)
    {
      b := next[HEAD];
      ghost var k := 0;
      ghost var cyc := [HEAD] + order;
      assert Linked(next[..], prev[..], cyc[0], After(cyc, 0));
      while b != HEAD
        invariant 0 <= k <= NBUF
        invariant b == if k < NBUF then order[k] else HEAD
        invariant NoneHolds(View(), k, dev, blockno)
        decreases NBUF - k
      {
        if bufs[b].dev == dev && bufs[b].blockno == blockno {
          assert Holds(View().bufs[b], dev, blockno);
          return;
        }
        assert Linked(next[..], prev[..], cyc[k+1], After(cyc, k+1));
        b := next[b];
        k := k + 1;
      }
      NothingMissed(View(), dev, blockno);
    }

    /** The second loop of bget, from head.prev backwards; HEAD when every buffer is in use. */
    method FindUnused() returns (b: nat)
      requires Valid()
      ensures b <= HEAD
      ensures b == HEAD <==> forall u :: 0 <= u < NBUF ==> bufs[u].refcnt != 0
      ensures b < HEAD ==> bufs[b].refcnt == 0
                           && exists k :: 0 <= k < NBUF && order[k] == b && AllUsed(View(), k + 1)
    {
      b := prev[HEAD];
      ghost var k := NBUF;
      ghost var cyc := [HEAD] + order;
      assert Linked(next[..], prev[..], cyc[NBUF], After(cyc, NBUF));
      while b != HEAD
        invariant 0 <= k <= NBUF
        invariant b == if k > 0 then order[k-1] else HEAD
        invariant AllUsed(View(), k)
        decreases k
      {
        if bufs[b].refcnt == 0 {
          return;
        }
        assert Linked(next[..], prev[..], cyc[k-1], After(cyc, k-1));
        b := prev[b];
        k := k - 1;
      }
      forall u | 0 <= u < NBUF ensures bufs[u].refcnt != 0 { PermutationCovers(order, u); }
    }

    /** The critical section of bget; `!ok` is the panic. */
    method Bget(dev: nat, blockno: nat) returns (b: nat, ok: bool)
      requires Valid()
      modifies bufs
      ensures Valid() && order == old(order)
      ensures ok == !Full(old(View()), dev, blockno)
      ensures !ok ==> View() == old(View())
      ensures ok ==> Hit(old(View()), dev, blockno, b, View()) || Recycle(old(View()), dev, blockno, b, View())
    {
      b := Lookup(dev, blockno);
      if b != HEAD {
        bufs[b] := bufs[b].(refcnt := bufs[b].refcnt + 1);
        assert Hit(old(View()), dev, blockno, b, View());
        return b, true;
      }
      b := FindUnused();
      if b == HEAD {
        return b, false;
      }
      bufs[b] := Buf(false, dev, blockno, 1, bufs[b].data);
      assert Recycle(old(View()), dev, blockno, b, View());
      ok := true;
    }

    method Brelse(b: nat)
      requires Valid() && b < NBUF && bufs[b].refcnt > 0
      modifies bufs, next, prev, `order
      ensures Valid() && Release(old(View()), b, View())
    {
      ghost var c := View();
      bufs[b] := bufs[b].(refcnt := bufs[b].refcnt - 1);
      if bufs[b].refcnt == 0 {
        PermutationCovers(order, b);
        ghost var k :| 0 <= k < NBUF && order[k] == b;
        MoveToFrontKeepsPermutation(order, k);
        Unlink(b, k);
        LinkFront(b);
      }
      assert bufs[..] == c.bufs[b := c.bufs[b].(refcnt := c.bufs[b].refcnt - 1)];
    }

    method Bpin(b: nat)
      requires Valid() && b < NBUF
      modifies bufs
      ensures Valid()
      ensures View() == old(View()).(bufs := old(bufs[..])[b := old(bufs[b]).(refcnt := old(bufs[b].refcnt) + 1)])
    {
      bufs[b] := bufs[b].(refcnt := bufs[b].refcnt + 1);
    }

    method Bunpin(b: nat)
      requires Valid() && b < NBUF && bufs[b].refcnt > 0
      modifies bufs
      ensures Valid()
      ensures View() == old(View()).(bufs := old(bufs[..])[b := old(bufs[b]).(refcnt := old(bufs[b].refcnt) - 1)])
    {
      bufs[b] := bufs[b].(refcnt := bufs[b].refcnt - 1);
    }
  }

  lemma NothingMissed(c: Cache, dev: nat, blockno: nat)
    requires CacheOk(c)
    requires forall j :: 0 <= j < NBUF ==> !Holds(c.bufs[c.order[j]], dev, blockno)
    ensures !Cached(c, dev, blockno)
  {
    forall b | 0 <= b < NBUF ensures !Holds(c.bufs[b], dev, blockno) { PermutationCovers(c.order, b); }
  }
}
