/** The redo log of kernel/log.c over the buffer cache of kernel/bio.c, as a step machine.

    A step is one critical section, one block transfer or one copy between buffers.  Any number
    of file-system operations and plain readers interleave with the committing process, and a
    crash may follow any step, recovery's own steps included.  History fields record which
    writes each commit made permanent. */
module Journal {
  import opened Finite
  import opened Options
  import opened Bio

  const LOGSIZE: nat := 30
  const MAXOPBLOCKS: nat := 10
  const ROOTDEV: nat := 1

  /** Where the log lies on the disk: log.start, log.size, and the disk's size in blocks. */
  datatype Layout = Layout(start: nat, size: nat, nblocks: nat)

  predicate LayoutOk(l: Layout) {
    1 <= l.size && l.start + l.size <= l.nblocks <= 0x1_0000_0000
  }

  predicate Home(l: Layout, b: nat) {
    b < l.nblocks && !(l.start <= b < l.start + l.size)
  }

  // ---------- the header block: word 0 is n, words 1..n are the block numbers ----------

  function ReadHeader(blk: Block): seq<nat>
    requires blk[0] <= LOGSIZE
  {
    blk[1..1 + blk[0]]
  }

  predicate Words(lh: seq<nat>) {
    |lh| <= LOGSIZE && forall i :: 0 <= i < |lh| ==> lh[i] < 0x1_0000_0000
  }

  function AsWords(lh: seq<nat>): (ws: seq<Word>)
    requires forall i :: 0 <= i < |lh| ==> lh[i] < 0x1_0000_0000
    ensures |ws| == |lh| && forall i :: 0 <= i < |lh| ==> ws[i] == lh[i]
  {
    seq(|lh|, i requires 0 <= i < |lh| => lh[i] as Word)
  }

  function PutHeader(blk: Block, lh: seq<nat>): Block
    requires Words(lh)
  {
    [|lh| as Word] + AsWords(lh) + blk[1 + |lh|..]
  }

  lemma HeaderRoundTrip(blk: Block, lh: seq<nat>)
    requires Words(lh)
    ensures PutHeader(blk, lh)[0] == |lh| && ReadHeader(PutHeader(blk, lh)) == lh
  {
  }

  // ---------- states ----------

  /** One log_write: by which operation, of which block, with which contents. */
  datatype Write = Write(op: nat, block: nat, data: Block)

  /** Who holds a buffer's sleep lock. */
  datatype Owner = Op(id: nat) | Reader | Committer

  /** Where the committing or recovering process is. */
  datatype Pc =
    | Boot                                                // before read_head
    | Idle
    | Logging(i: nat, to: Option<nat>)                    // write_log at tail i; `to` copied, not yet written
    | Heading(h: nat)                                     // write_head, header buffer filled in
    | Installing(rec: bool, i: nat, to: Option<nat>)      // install_trans at tail i
    | Clearing(rec: bool, h: nat)                         // the second write_head, n == 0
    | Done                                                // commit() returned

  datatype State = State(
    disk: seq<Block>,
    cache: Cache,
    holder: map<nat, Owner>,       // buffers whose sleep lock is held
    waiting: multiset<nat>,        // references taken by bget whose acquiresleep has not returned
    lh: seq<nat>,
    outstanding: nat,
    committing: bool,
    pc: Pc,
    // history
    dirty: set<nat>,               // buffers modified since their last log_write
    active: set<nat>,              // operations between begin_op and end_op
    nextOp: nat,
    pending: seq<Write>,           // log_writes since the last commit
    txns: seq<seq<Write>>,         // what each commit made permanent
    committed: seq<Block>,
    mem: seq<Block>,
    freed: seq<nat>,
    now: nat)

  function Buffer(s: State, b: nat): Buf
    requires b < |s.cache.bufs|
  {
    s.cache.bufs[b]
  }

  function WithBuf(s: State, b: nat, buf: Buf): State
    requires b < |s.cache.bufs|
  {
    s.(cache := s.cache.(bufs := s.cache.bufs[b := buf]))
  }

  /** The committer holds buffer b, filled, for the given block. */
  predicate HeldBuf(holder: map<nat, Owner>, bufs: seq<Buf>, b: nat, blockno: nat) {
    && b < |bufs| && b in holder && holder[b] == Committer
    && bufs[b].valid && Holds(bufs[b], ROOTDEV, blockno)
  }

  predicate Held(s: State, b: nat, blockno: nat) {
    HeldBuf(s.holder, s.cache.bufs, b, blockno)
  }

  /** The committer is between filling buffer b and writing it to disk. */
  predicate Busy(pc: Pc, b: nat) {
    match pc
    case Logging(_, Some(t)) => t == b
    case Heading(h) => h == b
    case Installing(_, _, Some(t)) => t == b
    case Clearing(_, h) => h == b
    case _ => false
  }

  // ---------- steps ----------

  ghost predicate Bget(l: Layout, s: State, blockno: nat, b: nat, s': State) {
    && blockno < l.nblocks && CacheOk(s.cache)
    && (Hit(s.cache, ROOTDEV, blockno, b, s'.cache) || Recycle(s.cache, ROOTDEV, blockno, b, s'.cache))
    && s' == s.(cache := s'.cache, waiting := s.waiting + multiset{b})
  }

  predicate Lock(s: State, b: nat, who: Owner, s': State) {
    && b in s.waiting && b !in s.holder
    && s' == s.(holder := s.holder[b := who], waiting := s.waiting - multiset{b})
  }

  /** bread's disk read. */
  predicate Fill(s: State, b: nat, s': State) {
    && b < |s.cache.bufs| && b in s.holder && !Buffer(s, b).valid && Buffer(s, b).blockno < |s.disk|
    && s' == WithBuf(s, b, Buffer(s, b).(valid := true, data := s.disk[Buffer(s, b).blockno]))
  }

  predicate InOp(l: Layout, s: State, b: nat, op: nat) {
    && b < |s.cache.bufs| && b in s.holder && s.holder[b] == Op(op) && op in s.active
    && Buffer(s, b).valid && Home(l, Buffer(s, b).blockno)
  }

  predicate Modify(l: Layout, s: State, b: nat, op: nat, data: Block, s': State) {
    && InOp(l, s, b, op)
    && s' == WithBuf(s, b, Buffer(s, b).(data := data)).(dirty := s.dirty + {b})
  }

  predicate LogWrite(l: Layout, s: State, b: nat, op: nat, s': State) {
    && InOp(l, s, b, op)
    && !(|s.lh| >= LOGSIZE || |s.lh| >= l.size - 1) && s.outstanding >= 1
    && Buffer(s, b).blockno < |s.mem|
    && var buf := Buffer(s, b);
       var t := s.(dirty := s.dirty - {b},
                   pending := s.pending + [Write(op, buf.blockno, buf.data)],
                   mem := s.mem[buf.blockno := buf.data]);
       s' == if buf.blockno in s.lh then t
             else WithBuf(t, b, buf.(refcnt := buf.refcnt + 1)).(lh := s.lh + [buf.blockno])
  }

  ghost predicate Brelse(s: State, b: nat, s': State) {
    && CacheOk(s.cache) && b < NBUF && b in s.holder && b !in s.dirty && !Busy(s.pc, b)
    && Buffer(s, b).refcnt > 0 && Release(s.cache, b, s'.cache) && |s.freed| == NBUF
    && s' == s.(cache := s'.cache, holder := s.holder - {b},
                freed := if Buffer(s, b).refcnt == 1 then s.freed[b := s.now + 1] else s.freed,
                now := if Buffer(s, b).refcnt == 1 then s.now + 1 else s.now)
  }

  predicate Recovering(pc: Pc) {
    pc.Boot? || (pc.Installing? && pc.rec) || (pc.Clearing? && pc.rec)
  }

  predicate BeginOp(s: State, s': State) {
    && !s.committing && !Recovering(s.pc)
    && !(|s.lh| + (s.outstanding + 1) * MAXOPBLOCKS > LOGSIZE)
    && s' == s.(outstanding := s.outstanding + 1, active := s.active + {s.nextOp}, nextOp := s.nextOp + 1)
  }

  predicate EndOp(s: State, op: nat, s': State) {
    && op in s.active && s.outstanding >= 1
    && (forall b :: b in s.dirty && b in s.holder ==> s.holder[b] != Op(op))
    && var t := s.(outstanding := s.outstanding - 1, active := s.active - {op});
       s' == if s.outstanding == 1
             then t.(committing := true, pc := if |s.lh| > 0 then Logging(0, None) else Done)
             else t
  }

  predicate CopyToLog(l: Layout, s: State, t: nat, f: nat, s': State) {
    && s.pc.Logging? && s.pc.to.None? && s.pc.i < |s.lh|
    && Held(s, t, l.start + 1 + s.pc.i) && Held(s, f, s.lh[s.pc.i])
    && s' == WithBuf(s, t, Buffer(s, t).(data := Buffer(s, f).data)).(pc := Logging(s.pc.i, Some(t)))
  }

  predicate WriteLog(l: Layout, s: State, s': State) {
    && s.pc.Logging? && s.pc.to.Some? && s.pc.to.value < |s.cache.bufs| && l.start + 1 + s.pc.i < |s.disk|
    && s' == s.(disk := s.disk[l.start + 1 + s.pc.i := Buffer(s, s.pc.to.value).data], pc := Logging(s.pc.i + 1, None))
  }

  predicate FillHead(l: Layout, s: State, h: nat, s': State) {
    && s.pc.Logging? && s.pc.to.None? && s.pc.i == |s.lh| && Held(s, h, l.start) && Words(s.lh)
    && s' == WithBuf(s, h, Buffer(s, h).(data := PutHeader(Buffer(s, h).data, s.lh))).(pc := Heading(h))
  }

  /** From here on the transaction survives a crash. */
  predicate WriteHead(l: Layout, s: State, s': State) {
    && s.pc.Heading? && s.pc.h < |s.cache.bufs| && l.start < |s.disk|
    && s' == s.(disk := s.disk[l.start := Buffer(s, s.pc.h).data], pc := Installing(false, 0, None),
                committed := s.mem, txns := s.txns + [s.pending], pending := [])
  }

  predicate CopyHome(l: Layout, s: State, f: nat, d: nat, s': State) {
    && s.pc.Installing? && s.pc.to.None? && s.pc.i < |s.lh|
    && Held(s, f, l.start + 1 + s.pc.i) && Held(s, d, s.lh[s.pc.i])
    && s' == WithBuf(s, d, Buffer(s, d).(data := Buffer(s, f).data)).(pc := s.pc.(to := Some(d)))
  }

  /** bwrite(dbuf), and bunpin(dbuf) unless recovering. */
  predicate WriteHome(s: State, s': State) {
    && s.pc.Installing? && s.pc.to.Some? && s.pc.i < |s.lh| && s.lh[s.pc.i] < |s.disk|
    && var d := s.pc.to.value;
       && d < |s.cache.bufs| && Buffer(s, d).refcnt > 0
       && var t := s.(disk := s.disk[s.lh[s.pc.i] := Buffer(s, d).data], pc := Installing(s.pc.rec, s.pc.i + 1, None));
          s' == if s.pc.rec then t else WithBuf(t, d, Buffer(s, d).(refcnt := Buffer(s, d).refcnt - 1))
  }

  predicate ClearHead(l: Layout, s: State, h: nat, s': State) {
    && s.pc.Installing? && s.pc.to.None? && s.pc.i == |s.lh| && Held(s, h, l.start)
    && s' == WithBuf(s, h, Buffer(s, h).(data := PutHeader(Buffer(s, h).data, [])))
             .(lh := [], pc := Clearing(s.pc.rec, h))
  }

  predicate WriteClearHead(l: Layout, s: State, s': State) {
    && s.pc.Clearing? && s.pc.h < |s.cache.bufs| && l.start < |s.disk|
    && s' == s.(disk := s.disk[l.start := Buffer(s, s.pc.h).data], pc := if s.pc.rec then Idle else Done)
  }

  predicate Finish(s: State, s': State) {
    s.pc.Done? && s' == s.(committing := false, pc := Idle)
  }

  const FreshCache: Cache := Cache(seq(NBUF, _ => FreshBuf), seq(NBUF, i => NBUF - 1 - i))

  /** Power fails: only the disk survives. */
  predicate Crash(s: State, s': State) {
    s' == s.(cache := FreshCache, holder := map[], waiting := multiset{}, lh := [], outstanding := 0,
             committing := false, pc := Boot, dirty := {}, active := {}, pending := [], mem := s.committed,
             freed := seq(NBUF, _ => 0), now := 0)
  }

  predicate ReadHead(l: Layout, s: State, h: nat, s': State) {
    && s.pc.Boot? && Held(s, h, l.start) && Buffer(s, h).data[0] <= LOGSIZE
    && s' == s.(lh := ReadHeader(Buffer(s, h).data), pc := Installing(true, 0, None))
  }

  datatype Step =
    | BgetStep(blockno: nat, b: nat) | LockStep(b: nat, who: Owner) | FillStep(b: nat)
    | ModifyStep(b: nat, op: nat, data: Block) | LogWriteStep(b: nat, op: nat) | BrelseStep(b: nat)
    | BeginOpStep | EndOpStep(op: nat)
    | CopyToLogStep(t: nat, f: nat) | WriteLogStep | FillHeadStep(h: nat) | WriteHeadStep
    | CopyHomeStep(f: nat, d: nat) | WriteHomeStep | ClearHeadStep(h: nat) | WriteClearHeadStep | FinishStep
    | CrashStep | ReadHeadStep(h: nat)

  ghost predicate Next(l: Layout, s: State, step: Step, s': State) {
    match step
    case BgetStep(blockno, b) => Bget(l, s, blockno, b, s')
    case LockStep(b, who) => Lock(s, b, who, s')
    case FillStep(b) => Fill(s, b, s')
    case ModifyStep(b, op, data) => Modify(l, s, b, op, data, s')
    case LogWriteStep(b, op) => LogWrite(l, s, b, op, s')
    case BrelseStep(b) => Brelse(s, b, s')
    case BeginOpStep => BeginOp(s, s')
    case EndOpStep(op) => EndOp(s, op, s')
    case CopyToLogStep(t, f) => CopyToLog(l, s, t, f, s')
    case WriteLogStep => WriteLog(l, s, s')
    case FillHeadStep(h) => FillHead(l, s, h, s')
    case WriteHeadStep => WriteHead(l, s, s')
    case CopyHomeStep(f, d) => CopyHome(l, s, f, d, s')
    case WriteHomeStep => WriteHome(s, s')
    case ClearHeadStep(h) => ClearHead(l, s, h, s')
    case WriteClearHeadStep => WriteClearHead(l, s, s')
    case FinishStep => Finish(s, s')
    case CrashStep => Crash(s, s')
    case ReadHeadStep(h) => ReadHead(l, s, h, s')
  }

  /** A formatted disk with an empty log, before boot. */
  ghost predicate Init(l: Layout, base: seq<Block>, s: State) {
    && LayoutOk(l) && |base| == l.nblocks && base[l.start][0] == 0
    && s == State(base, FreshCache, map[], multiset{}, [], 0, false, Boot,
                  {}, {}, 0, [], [], base, base, seq(NBUF, _ => 0), 0)
  }

  // ---------- what the disk means ----------

  function Apply(store: seq<Block>, ws: seq<Write>): (r: seq<Block>)
    ensures |r| == |store|
  {
    if ws == [] then store
    else
      var w := ws[|ws|-1];
      var r := Apply(store, ws[..|ws|-1]);
      if w.block < |r| then r[w.block := w.data] else r
  }

  function ApplyAll(store: seq<Block>, txns: seq<seq<Write>>): (r: seq<Block>)
    ensures |r| == |store|
  {
    if txns == [] then store else Apply(ApplyAll(store, txns[..|txns|-1]), txns[|txns|-1])
  }

  /** The header on disk is well formed: distinct home blocks that fit in the log. */
  predicate HeaderOk(l: Layout, disk: seq<Block>)
    requires LayoutOk(l) && |disk| == l.nblocks
  {
    && disk[l.start][0] <= LOGSIZE && disk[l.start][0] < l.size
    && var hdr := ReadHeader(disk[l.start]);
       Distinct(hdr) && forall i :: 0 <= i < |hdr| ==> Home(l, hdr[i])
  }

  function InstallFrom(l: Layout, disk: seq<Block>, hdr: seq<nat>, i: nat): (r: seq<Block>)
    requires i <= |hdr| && l.start + |hdr| < |disk|
    requires forall j :: 0 <= j < |hdr| ==> hdr[j] < |disk|
    ensures |r| == |disk|
    decreases |hdr| - i
  {
    if i == |hdr| then disk
    else InstallFrom(l, disk[hdr[i] := disk[l.start + 1 + i]], hdr, i + 1)
  }

  /** What recover_from_log makes of a disk: every logged block copied home, header cleared. */
  function Recovered(l: Layout, disk: seq<Block>): seq<Block>
    requires LayoutOk(l) && |disk| == l.nblocks && HeaderOk(l, disk)
  {
    var d := InstallFrom(l, disk, ReadHeader(disk[l.start]), 0);
    d[l.start := PutHeader(d[l.start], [])]
  }

  ghost predicate SameHome(l: Layout, a: seq<Block>, b: seq<Block>) {
    && |a| == l.nblocks && |b| == l.nblocks
    && forall x: nat :: Home(l, x) ==> a[x] == b[x]
  }

  // ---------- the invariant ----------

  /** Committed blocks not yet safely at home, then blocks logged but not committed. */
  function Uninstalled(l: Layout, disk: seq<Block>, pc: Pc, lh: seq<nat>): seq<nat>
    requires LayoutOk(l) && |disk| == l.nblocks && HeaderOk(l, disk)
  {
    match pc
    case Boot => ReadHeader(disk[l.start])
    case Installing(_, i, _) => if i <= |lh| then lh[i..] else []
    case _ => lh
  }

  function Pins(pc: Pc, lh: seq<nat>): seq<nat> {
    if Recovering(pc) then []
    else if pc.Installing? then (if pc.i <= |lh| then lh[pc.i..] else [])
    else lh
  }

  /** Home blocks whose cached copy recovery has yet to overwrite. */
  function Stale(l: Layout, disk: seq<Block>, pc: Pc, lh: seq<nat>): seq<nat>
    requires LayoutOk(l) && |disk| == l.nblocks && HeaderOk(l, disk)
  {
    if !Recovering(pc) then []
    else if pc.Installing? && pc.to.Some? && pc.i < |lh| then lh[pc.i + 1..]
    else Uninstalled(l, disk, pc, lh)
  }

  predicate BufShape(l: Layout, b: Buf) {
    b.dev <= ROOTDEV && (b.valid ==> b.dev == ROOTDEV) && (b.dev == ROOTDEV ==> b.blockno < l.nblocks)
  }

  ghost predicate CacheShape(l: Layout, c: Cache, holder: map<nat, Owner>, waiting: multiset<nat>) {
    && CacheOk(c) && Unique(c)
    && (forall b :: 0 <= b < NBUF ==> BufShape(l, c.bufs[b]))
    && (forall b :: b in holder ==> b < NBUF && c.bufs[b].dev == ROOTDEV)
    && (forall b :: b in waiting ==> b < NBUF && c.bufs[b].dev == ROOTDEV)
  }

  /** refcnt counts the holder, the waiters and the log's pin. */
  ghost predicate Refs(bufs: seq<Buf>, holder: map<nat, Owner>, waiting: multiset<nat>, pins: seq<nat>) {
    forall b :: 0 <= b < |bufs| ==>
      bufs[b].refcnt == waiting[b] + (if b in holder then 1 else 0)
                        + (if bufs[b].dev == ROOTDEV && bufs[b].blockno in pins then 1 else 0)
  }

  /** Every logged block stays cached and valid until it is installed. */
  ghost predicate PinsCached(bufs: seq<Buf>, pins: seq<nat>) {
    forall x :: x in pins ==> CachedValid(bufs, x)
  }

  ghost predicate CachedValid(bufs: seq<Buf>, x: nat) {
    exists b :: 0 <= b < |bufs| && Holds(bufs[b], ROOTDEV, x) && bufs[b].valid
  }

  /** A filled buffer holds what its block means now. */
  ghost predicate Coherent(l: Layout, disk: seq<Block>, mem: seq<Block>, lh: seq<nat>, pc: Pc, dirty: set<nat>,
                           stale: seq<nat>, bufs: seq<Buf>)
    requires LayoutOk(l) && |disk| == l.nblocks && |mem| == l.nblocks && Words(lh)
  {
    forall b :: 0 <= b < |bufs| && bufs[b].valid ==> DataOk(l, disk, mem, lh, pc, dirty, stale, b, bufs[b])
  }

  ghost predicate DataOk(l: Layout, disk: seq<Block>, mem: seq<Block>, lh: seq<nat>, pc: Pc, dirty: set<nat>,
                         stale: seq<nat>, b: nat, buf: Buf)
    requires LayoutOk(l) && |disk| == l.nblocks && |mem| == l.nblocks && Words(lh)
  {
    var x, data := buf.blockno, buf.data;
    if Home(l, x) then b in dirty || x in stale || data == mem[x]
    else if Busy(pc, b) then
      if pc.Logging? then pc.i < |lh| && lh[pc.i] < |mem| && data == mem[lh[pc.i]]
      else data == PutHeader(disk[l.start], lh)
    else x < |disk| && data == disk[x]
  }

  /** The disk alone determines the committed state. */
  ghost predicate CrashOk(l: Layout, disk: seq<Block>, committed: seq<Block>)
    requires LayoutOk(l) && |disk| == l.nblocks && |committed| == l.nblocks && HeaderOk(l, disk)
  {
    var hdr := ReadHeader(disk[l.start]);
    && (forall x: nat :: Home(l, x) && x !in hdr ==> disk[x] == committed[x])
    && (forall j :: 0 <= j < |hdr| ==> disk[l.start + 1 + j] == committed[hdr[j]])
  }

  ghost predicate LogOk(l: Layout, lh: seq<nat>)
    requires LayoutOk(l)
  {
    && |lh| <= LOGSIZE && |lh| < l.size && Distinct(lh)
    && forall i :: 0 <= i < |lh| ==> Home(l, lh[i])
  }

  /** What the committer's position says about the disk and the in-memory header. */
  ghost predicate Progress(l: Layout, disk: seq<Block>, mem: seq<Block>, pc: Pc, lh: seq<nat>)
    requires LayoutOk(l) && |disk| == l.nblocks && |mem| == l.nblocks && HeaderOk(l, disk) && LogOk(l, lh)
  {
    var hdr := ReadHeader(disk[l.start]);
    match pc
    case Boot => lh == []
    case Idle => hdr == []
    case Logging(i, to) => hdr == [] && i <= |lh| && (to.Some? ==> i < |lh|) && Logged(l, disk, mem, lh, i)
    case Heading(_) => hdr == [] && Logged(l, disk, mem, lh, |lh|)
    case Installing(_, i, to) => hdr == lh && i <= |lh| && (to.Some? ==> i < |lh|)
    case Clearing(_, _) => lh == []
    case Done => hdr == [] && lh == []
  }

  ghost predicate Logged(l: Layout, disk: seq<Block>, mem: seq<Block>, lh: seq<nat>, i: nat)
    requires LayoutOk(l) && |disk| == l.nblocks && |mem| == l.nblocks && LogOk(l, lh) && i <= |lh|
  {
    forall j :: 0 <= j < i ==> disk[l.start + 1 + j] == mem[lh[j]]
  }

  /** The buffer the committer is about to write is locked by it and filled. */
  ghost predicate Grip(l: Layout, pc: Pc, lh: seq<nat>, holder: map<nat, Owner>, bufs: seq<Buf>) {
    match pc
    case Logging(i, Some(t)) => HeldBuf(holder, bufs, t, l.start + 1 + i)
    case Heading(h) => HeldBuf(holder, bufs, h, l.start)
    case Installing(_, i, Some(d)) => i < |lh| && HeldBuf(holder, bufs, d, lh[i])
    case Clearing(_, h) => HeldBuf(holder, bufs, h, l.start)
    case _ => true
  }

  /** A home block that is neither logged nor waiting to be installed is current on disk. */
  ghost predicate Current(l: Layout, disk: seq<Block>, mem: seq<Block>, uninstalled: seq<nat>) {
    && |disk| == l.nblocks && |mem| == l.nblocks
    && forall x: nat :: Home(l, x) && x !in uninstalled ==> disk[x] == mem[x]
  }

  predicate BeforeCommit(pc: Pc) {
    pc.Idle? || pc.Logging? || pc.Heading?
  }

  ghost predicate Ops(active: set<nat>, outstanding: nat, committing: bool, pc: Pc, pending: seq<Write>, lh: seq<nat>) {
    && |active| == outstanding
    && (active != {} ==> pc.Idle?)
    && (committing <==> !pc.Idle? && !Recovering(pc))
    && (!BeforeCommit(pc) ==> pending == [])
    && (forall w :: w in pending ==> w.block in lh)
  }

  /** A buffer changed since its last log_write is locked by a running operation. */
  ghost predicate DirtyOk(l: Layout, dirty: set<nat>, active: set<nat>, holder: map<nat, Owner>, bufs: seq<Buf>) {
    forall b :: b in dirty ==>
      && b < |bufs| && b in holder && holder[b].Op? && holder[b].id in active
      && bufs[b].valid && Home(l, bufs[b].blockno)
  }

  /** Each operation's writes lie all in one commit, or all in the pending one. */
  ghost predicate Whole(active: set<nat>, nextOp: nat, pending: seq<Write>, txns: seq<seq<Write>>) {
    && (forall op :: op in active ==> op < nextOp)
    && (forall w :: w in pending ==> w.op < nextOp)
    && (forall i, w :: 0 <= i < |txns| && w in txns[i] ==> w.op < nextOp && w.op !in active)
    && (forall i, w, v :: 0 <= i < |txns| && w in txns[i] && v in pending ==> w.op != v.op)
    && (forall i, j, w, v :: 0 <= i < j < |txns| && w in txns[i] && v in txns[j] ==> w.op != v.op)
  }

  ghost predicate History(base: seq<Block>, committed: seq<Block>, mem: seq<Block>, pending: seq<Write>,
                          txns: seq<seq<Write>>)
  {
    committed == ApplyAll(base, txns) && mem == Apply(committed, pending)
  }

  /** The ring, the slots and who references them. */
  ghost predicate RingOk(l: Layout, c: Cache, holder: map<nat, Owner>, waiting: multiset<nat>, freed: seq<nat>,
                         now: nat)
  {
    CacheShape(l, c, holder, waiting) && RecencyOrdered(c, freed, now)
  }

  ghost predicate PinOk(l: Layout, pc: Pc, lh: seq<nat>, holder: map<nat, Owner>, waiting: multiset<nat>,
                        dirty: set<nat>, active: set<nat>, bufs: seq<Buf>) {
    && Refs(bufs, holder, waiting, Pins(pc, lh))
    && PinsCached(bufs, Pins(pc, lh))
    && Grip(l, pc, lh, holder, bufs)
    && DirtyOk(l, dirty, active, holder, bufs)
  }

  ghost predicate DiskOk(l: Layout, disk: seq<Block>, committed: seq<Block>, mem: seq<Block>, pc: Pc, lh: seq<nat>) {
    && LayoutOk(l) && |disk| == l.nblocks && |mem| == l.nblocks && |committed| == l.nblocks
    && HeaderOk(l, disk) && LogOk(l, lh)
    && CrashOk(l, disk, committed)
    && Progress(l, disk, mem, pc, lh)
    && Current(l, disk, mem, Uninstalled(l, disk, pc, lh))
  }

  ghost predicate OpsOk(base: seq<Block>, active: set<nat>, nextOp: nat, outstanding: nat, committing: bool, pc: Pc,
                        lh: seq<nat>, pending: seq<Write>, txns: seq<seq<Write>>, committed: seq<Block>,
                        mem: seq<Block>)
  {
    && Ops(active, outstanding, committing, pc, pending, lh)
    && Whole(active, nextOp, pending, txns)
    && History(base, committed, mem, pending, txns)
  }

  ghost predicate RingInv(l: Layout, s: State) {
    RingOk(l, s.cache, s.holder, s.waiting, s.freed, s.now)
  }

  ghost predicate PinInv(l: Layout, s: State) {
    PinOk(l, s.pc, s.lh, s.holder, s.waiting, s.dirty, s.active, s.cache.bufs)
  }

  ghost predicate DiskInv(l: Layout, s: State) {
    DiskOk(l, s.disk, s.committed, s.mem, s.pc, s.lh)
  }

  ghost predicate DataInv(l: Layout, s: State)
    requires DiskInv(l, s)
  {
    Coherent(l, s.disk, s.mem, s.lh, s.pc, s.dirty, Stale(l, s.disk, s.pc, s.lh), s.cache.bufs)
  }

  ghost predicate OpsInv(base: seq<Block>, s: State) {
    OpsOk(base, s.active, s.nextOp, s.outstanding, s.committing, s.pc, s.lh, s.pending, s.txns, s.committed, s.mem)
  }

  ghost predicate Inv(l: Layout, base: seq<Block>, s: State) {
    RingInv(l, s) && PinInv(l, s) && DiskInv(l, s) && DataInv(l, s) && OpsInv(base, s)
  }

  // ---------- one buffer changes, keeping its block ----------

  predicate Refresh(old_: Buf, buf: Buf) {
    Holds(buf, old_.dev, old_.blockno) && (old_.valid ==> buf.valid)
  }

  lemma UpdateRing(l: Layout, c: Cache, holder: map<nat, Owner>, waiting: multiset<nat>, freed: seq<nat>, now: nat,
                   b: nat, buf: Buf)
    requires RingOk(l, c, holder, waiting, freed, now) && b < NBUF
    requires Refresh(c.bufs[b], buf) && BufShape(l, buf) && (buf.refcnt == 0 ==> c.bufs[b].refcnt == 0)
    ensures RingOk(l, c.(bufs := c.bufs[b := buf]), holder, waiting, freed, now)
  {
    assert CacheOk(c.(bufs := c.bufs[b := buf]));
  }

  lemma UpdatePinned(bufs: seq<Buf>, pins: seq<nat>, b: nat, buf: Buf)
    requires PinsCached(bufs, pins) && b < |bufs| && Refresh(bufs[b], buf)
    ensures PinsCached(bufs[b := buf], pins)
  {
    forall x | x in pins ensures CachedValid(bufs[b := buf], x) {
      assert CachedValid(bufs, x);
      var i :| 0 <= i < |bufs| && Holds(bufs[i], ROOTDEV, x) && bufs[i].valid;
      assert Holds(bufs[b := buf][i], ROOTDEV, x);
    }
  }

  lemma UpdatePins(l: Layout, pc: Pc, lh: seq<nat>, holder: map<nat, Owner>, waiting: multiset<nat>,
                   dirty: set<nat>, active: set<nat>, bufs: seq<Buf>, b: nat, buf: Buf)
    requires PinOk(l, pc, lh, holder, waiting, dirty, active, bufs) && b < |bufs| && Refresh(bufs[b], buf)
    requires buf.refcnt == bufs[b].refcnt
    ensures PinOk(l, pc, lh, holder, waiting, dirty, active, bufs[b := buf])
  {
    UpdatePinned(bufs, Pins(pc, lh), b, buf);
  }

  /** Both, for a step that changes contents only. */
  lemma UpdateCache(l: Layout, s: State, b: nat, buf: Buf)
    requires RingInv(l, s) && PinInv(l, s) && b < NBUF
    requires Refresh(Buffer(s, b), buf) && BufShape(l, buf) && buf.refcnt == Buffer(s, b).refcnt
    ensures RingInv(l, WithBuf(s, b, buf)) && PinInv(l, WithBuf(s, b, buf))
  {
    UpdateRing(l, s.cache, s.holder, s.waiting, s.freed, s.now, b, buf);
    UpdatePins(l, s.pc, s.lh, s.holder, s.waiting, s.dirty, s.active, s.cache.bufs, b, buf);
  }

  /** The committer moves on without touching the cache. */
  lemma MoveOn(l: Layout, pc: Pc, lh: seq<nat>, holder: map<nat, Owner>, waiting: multiset<nat>,
               dirty: set<nat>, active: set<nat>, bufs: seq<Buf>, pc': Pc, lh': seq<nat>)
    requires PinOk(l, pc, lh, holder, waiting, dirty, active, bufs)
    requires Pins(pc', lh') == Pins(pc, lh) && Grip(l, pc', lh', holder, bufs)
    ensures PinOk(l, pc', lh', holder, waiting, dirty, active, bufs)
  {
  }

  /** No other buffer caches the same block. */
  ghost predicate Sole(bufs: seq<Buf>, t: nat) {
    t < |bufs| && forall b :: 0 <= b < |bufs| && b != t ==>
      !(bufs[b].dev == ROOTDEV && bufs[b].blockno == bufs[t].blockno)
  }

  lemma OnlyHolder(l: Layout, s: State, t: nat)
    requires RingInv(l, s) && t < NBUF && Buffer(s, t).dev == ROOTDEV
    ensures Sole(s.cache.bufs, t)
  {
  }

  predicate AllShaped(l: Layout, bufs: seq<Buf>) {
    forall b :: 0 <= b < |bufs| ==> BufShape(l, bufs[b])
  }

  /** The committer fills a buffer to write, having had none in hand. */
  lemma TakeInHand(l: Layout, disk: seq<Block>, mem: seq<Block>, lh: seq<nat>, pc: Pc, dirty: set<nat>, stale: seq<nat>,
                   bufs: seq<Buf>, pc': Pc, stale': seq<nat>, t: nat, buf: Buf)
    requires LayoutOk(l) && |disk| == l.nblocks && |mem| == l.nblocks && Words(lh)
    requires Coherent(l, disk, mem, lh, pc, dirty, stale, bufs) && t < |bufs|
    requires (forall b :: !Busy(pc, b)) && (forall b :: Busy(pc', b) ==> b == t)
    requires forall x :: x in stale ==> x in stale' || x == bufs[t].blockno
    requires Sole(bufs, t) && AllShaped(l, bufs)
    requires DataOk(l, disk, mem, lh, pc', dirty, stale', t, buf)
    ensures Coherent(l, disk, mem, lh, pc', dirty, stale', bufs[t := buf])
  {
  }

  /** The committer writes the buffer in hand. */
  lemma PutOnDisk(l: Layout, disk: seq<Block>, mem: seq<Block>, lh: seq<nat>, pc: Pc, dirty: set<nat>, stale: seq<nat>,
                  bufs: seq<Buf>, pc': Pc, t: nat)
    requires LayoutOk(l) && |disk| == l.nblocks && |mem| == l.nblocks && Words(lh)
    requires Coherent(l, disk, mem, lh, pc, dirty, stale, bufs) && t < |bufs| && bufs[t].blockno < |disk|
    requires (forall b :: Busy(pc, b) ==> b == t) && (forall b :: !Busy(pc', b))
    requires Sole(bufs, t) && AllShaped(l, bufs)
    ensures Coherent(l, disk[bufs[t].blockno := bufs[t].data], mem, lh, pc', dirty, stale, bufs)
  {
  }

  // ---------- every step keeps the invariant ----------

  lemma FreshCacheInv(l: Layout, s: State)
    requires s.cache == FreshCache && s.holder == map[] && s.waiting == multiset{} && s.pc == Boot && s.dirty == {}
    requires s.freed == seq(NBUF, _ => 0)
    ensures RingInv(l, s) && PinInv(l, s)
  {
  }

  lemma InitInv(l: Layout, base: seq<Block>, s: State)
    requires Init(l, base, s)
    ensures Inv(l, base, s)
  {
    FreshCacheInv(l, s);
  }

  // bget

  lemma HitPins(l: Layout, pc: Pc, lh: seq<nat>, holder: map<nat, Owner>, waiting: multiset<nat>,
                dirty: set<nat>, active: set<nat>, bufs: seq<Buf>, b: nat)
    requires PinOk(l, pc, lh, holder, waiting, dirty, active, bufs) && b < |bufs|
    ensures PinOk(l, pc, lh, holder, waiting + multiset{b}, dirty, active,
            bufs[b := bufs[b].(refcnt := bufs[b].refcnt + 1)])
  {
    UpdatePinned(bufs, Pins(pc, lh), b, bufs[b].(refcnt := bufs[b].refcnt + 1));
  }

  lemma HitRing(l: Layout, s: State, blockno: nat, b: nat, s': State)
    requires RingInv(l, s) && Bget(l, s, blockno, b, s') && Hit(s.cache, ROOTDEV, blockno, b, s'.cache)
    ensures RingInv(l, s')
  {
    UpdateRing(l, s.cache, s.holder, s.waiting, s.freed, s.now, b, s'.cache.bufs[b]);
  }

  predicate NothingCached(bufs: seq<Buf>, blockno: nat) {
    forall i :: 0 <= i < |bufs| ==> !Holds(bufs[i], ROOTDEV, blockno)
  }

  /** The recycled buffer is nobody's: not held, not awaited, not pinned. */
  lemma RecyclePins(l: Layout, pc: Pc, lh: seq<nat>, holder: map<nat, Owner>, waiting: multiset<nat>,
                    dirty: set<nat>, active: set<nat>, bufs: seq<Buf>, b: nat, blockno: nat)
    requires PinOk(l, pc, lh, holder, waiting, dirty, active, bufs) && b < |bufs| && bufs[b].refcnt == 0
    requires NothingCached(bufs, blockno)
    ensures PinOk(l, pc, lh, holder, waiting + multiset{b}, dirty, active,
                  bufs[b := Buf(false, ROOTDEV, blockno, 1, bufs[b].data)])
  {
    var pins, bufs' := Pins(pc, lh), bufs[b := Buf(false, ROOTDEV, blockno, 1, bufs[b].data)];
    assert blockno !in pins by { assert !CachedValid(bufs, blockno); }
    forall x | x in pins ensures CachedValid(bufs', x) {
      assert CachedValid(bufs, x);
      var i :| 0 <= i < |bufs| && Holds(bufs[i], ROOTDEV, x) && bufs[i].valid;
      assert i != b && bufs'[i] == bufs[i];
    }
  }

  lemma RecycleRing(l: Layout, s: State, blockno: nat, b: nat, s': State)
    requires RingInv(l, s) && Bget(l, s, blockno, b, s') && Recycle(s.cache, ROOTDEV, blockno, b, s'.cache)
    ensures RingInv(l, s')
  {
    BgetKeepsUnique(s.cache, ROOTDEV, blockno, b, s'.cache);
    RecycleTakesOldest(s.cache, ROOTDEV, blockno, b, s'.cache, s.freed, s.now);
  }

  lemma HitCache(l: Layout, s: State, blockno: nat, b: nat, s': State)
    requires RingInv(l, s) && PinInv(l, s) && Bget(l, s, blockno, b, s') && Hit(s.cache, ROOTDEV, blockno, b, s'.cache)
    ensures RingInv(l, s') && PinInv(l, s')
  {
    HitRing(l, s, blockno, b, s');
    HitPins(l, s.pc, s.lh, s.holder, s.waiting, s.dirty, s.active, s.cache.bufs, b);
  }

  lemma RecycleCache(l: Layout, s: State, blockno: nat, b: nat, s': State)
    requires RingInv(l, s) && PinInv(l, s) && Bget(l, s, blockno, b, s')
             && Recycle(s.cache, ROOTDEV, blockno, b, s'.cache)
    ensures RingInv(l, s') && PinInv(l, s')
  {
    RecycleRing(l, s, blockno, b, s');
    assert NothingCached(s.cache.bufs, blockno);
    RecyclePins(l, s.pc, s.lh, s.holder, s.waiting, s.dirty, s.active, s.cache.bufs, b, blockno);
  }

  lemma BgetCache(l: Layout, s: State, blockno: nat, b: nat, s': State)
    requires RingInv(l, s) && PinInv(l, s) && Bget(l, s, blockno, b, s')
    ensures RingInv(l, s') && PinInv(l, s')
  {
    if Hit(s.cache, ROOTDEV, blockno, b, s'.cache) {
      HitCache(l, s, blockno, b, s');
    } else {
      RecycleCache(l, s, blockno, b, s');
    }
  }

  lemma BgetInv(l: Layout, base: seq<Block>, s: State, blockno: nat, b: nat, s': State)
    requires Inv(l, base, s) && Bget(l, s, blockno, b, s')
    ensures Inv(l, base, s')
  {
    BgetCache(l, s, blockno, b, s');
    assert DataInv(l, s');
  }

  // acquiresleep and the disk read of bread

  lemma LockPins(l: Layout, s: State, b: nat, who: Owner, s': State)
    requires PinInv(l, s) && Lock(s, b, who, s') && (s.pc.Clearing? ==> s.lh == [])
    ensures PinInv(l, s')
  {
  }

  lemma LockRing(l: Layout, s: State, b: nat, who: Owner, s': State)
    requires RingInv(l, s) && Lock(s, b, who, s')
    ensures RingInv(l, s')
  {
    assert forall x :: x in s'.waiting ==> x in s.waiting;
  }

  lemma LockInv(l: Layout, base: seq<Block>, s: State, b: nat, who: Owner, s': State)
    requires Inv(l, base, s) && Lock(s, b, who, s')
    ensures Inv(l, base, s')
  {
    LockRing(l, s, b, who, s');
    LockPins(l, s, b, who, s');
  }

  /** A block that is pinned or half installed is already in a filled buffer. */
  lemma FillReadsCurrent(l: Layout, s: State, b: nat)
    requires PinInv(l, s) && DiskInv(l, s) && Sole(s.cache.bufs, b) && !Buffer(s, b).valid
             && Buffer(s, b).dev == ROOTDEV
    ensures !Busy(s.pc, b)
    ensures var x := Buffer(s, b).blockno;
            Home(l, x) ==> x in Stale(l, s.disk, s.pc, s.lh) || s.disk[x] == s.mem[x]
  {
    var x := Buffer(s, b).blockno;
    assert x !in Pins(s.pc, s.lh) by {
      assert !CachedValid(s.cache.bufs, x);
    }
  }

  lemma FillInv(l: Layout, base: seq<Block>, s: State, b: nat, s': State)
    requires Inv(l, base, s) && Fill(s, b, s')
    ensures Inv(l, base, s')
  {
    OnlyHolder(l, s, b);
    FillReadsCurrent(l, s, b);
    UpdateCache(l, s, b, s'.cache.bufs[b]);
    assert DataInv(l, s');
  }

  // an operation's writes

  lemma MarkDirty(l: Layout, s: State, b: nat, op: nat)
    requires PinInv(l, s) && InOp(l, s, b, op)
    ensures PinInv(l, s.(dirty := s.dirty + {b}))
  {
  }

  lemma ModifyInv(l: Layout, base: seq<Block>, s: State, b: nat, op: nat, data: Block, s': State)
    requires Inv(l, base, s) && Modify(l, s, b, op, data, s')
    ensures Inv(l, base, s')
  {
    UpdateCache(l, s, b, s'.cache.bufs[b]);
    MarkDirty(l, WithBuf(s, b, s'.cache.bufs[b]), b, op);
    assert DataInv(l, s');
  }

  lemma ApplyAppend(store: seq<Block>, ws: seq<Write>, w: Write)
    requires w.block < |store|
    ensures Apply(store, ws + [w]) == Apply(store, ws)[w.block := w.data]
  {
    assert (ws + [w])[..|ws|] == ws;
  }

  lemma WholeAppend(active: set<nat>, nextOp: nat, pending: seq<Write>, txns: seq<seq<Write>>, w: Write)
    requires Whole(active, nextOp, pending, txns) && w.op in active
    ensures Whole(active, nextOp, pending + [w], txns)
  {
    forall i, u, v | 0 <= i < |txns| && u in txns[i] && v in pending + [w] ensures u.op != v.op {
      assert v in pending || v == w;
    }
  }

  lemma LogWriteOps(l: Layout, base: seq<Block>, s: State, b: nat, op: nat, s': State)
    requires OpsInv(base, s) && LogWrite(l, s, b, op, s') && |s.committed| == |s.mem|
    ensures OpsInv(base, s')
  {
    var w := Write(op, Buffer(s, b).blockno, Buffer(s, b).data);
    ApplyAppend(s.committed, s.pending, w);
    WholeAppend(s.active, s.nextOp, s.pending, s.txns, w);
  }

  lemma LogWriteDisk(l: Layout, s: State, b: nat, op: nat, s': State)
    requires DiskInv(l, s) && LogWrite(l, s, b, op, s') && s.pc.Idle?
    ensures DiskInv(l, s')
  {
  }

  lemma LogWriteCache(l: Layout, s: State, b: nat, op: nat, s': State)
    requires RingInv(l, s) && PinInv(l, s) && LogWrite(l, s, b, op, s') && s.pc.Idle? && Sole(s.cache.bufs, b)
    ensures RingInv(l, s') && PinInv(l, s')
  {
    var buf := s'.cache.bufs[b];
    UpdateRing(l, s.cache, s.holder, s.waiting, s.freed, s.now, b, buf);
    UpdatePinned(s.cache.bufs, s.lh, b, buf);
    LogWritePins(l, s, b, op, s');
  }

  lemma LogWritePins(l: Layout, s: State, b: nat, op: nat, s': State)
    requires PinInv(l, s) && LogWrite(l, s, b, op, s') && s.pc.Idle? && Sole(s.cache.bufs, b)
             && Buffer(s, b).dev == ROOTDEV
    requires PinsCached(s'.cache.bufs, s.lh)
    ensures PinInv(l, s')
  {
    assert CachedValid(s'.cache.bufs, Buffer(s, b).blockno) by {
      assert Holds(s'.cache.bufs[b], ROOTDEV, Buffer(s, b).blockno);
    }
  }

  lemma LogWriteData(l: Layout, s: State, b: nat, op: nat, s': State)
    requires DiskInv(l, s) && DataInv(l, s) && LogWrite(l, s, b, op, s') && s.pc.Idle? && DiskInv(l, s')
    requires Sole(s.cache.bufs, b) && AllShaped(l, s.cache.bufs)
    ensures DataInv(l, s')
  {
  }

  lemma LogWriteInv(l: Layout, base: seq<Block>, s: State, b: nat, op: nat, s': State)
    requires Inv(l, base, s) && LogWrite(l, s, b, op, s')
    ensures Inv(l, base, s')
  {
    OnlyHolder(l, s, b);
    LogWriteOps(l, base, s, b, op, s');
    LogWriteDisk(l, s, b, op, s');
    LogWriteCache(l, s, b, op, s');
    LogWriteData(l, s, b, op, s');
  }

  // brelse

  lemma BrelseRing(l: Layout, s: State, b: nat, s': State)
    requires RingInv(l, s) && Brelse(s, b, s')
    ensures RingInv(l, s')
  {
    ReleaseKeepsRecency(s.cache, b, s'.cache, s.freed, s.now);
    assert Unique(s'.cache);
  }

  lemma DropHolder(l: Layout, pc: Pc, lh: seq<nat>, holder: map<nat, Owner>, waiting: multiset<nat>,
                   dirty: set<nat>, active: set<nat>, bufs: seq<Buf>, b: nat)
    requires PinOk(l, pc, lh, holder, waiting, dirty, active, bufs)
    requires b < |bufs| && b in holder && b !in dirty && !Busy(pc, b) && bufs[b].refcnt > 0
    ensures PinOk(l, pc, lh, holder - {b}, waiting, dirty, active, bufs[b := bufs[b].(refcnt := bufs[b].refcnt - 1)])
  {
    UpdatePinned(bufs, Pins(pc, lh), b, bufs[b].(refcnt := bufs[b].refcnt - 1));
  }

  lemma BrelseInv(l: Layout, base: seq<Block>, s: State, b: nat, s': State)
    requires Inv(l, base, s) && Brelse(s, b, s')
    ensures Inv(l, base, s')
  {
    BrelseRing(l, s, b, s');
    DropHolder(l, s.pc, s.lh, s.holder, s.waiting, s.dirty, s.active, s.cache.bufs, b);
    assert DataInv(l, s');
  }

  // begin_op, end_op

  lemma BeginOpOps(base: seq<Block>, s: State, s': State)
    requires OpsInv(base, s) && BeginOp(s, s')
    ensures OpsInv(base, s')
  {
  }

  lemma BeginOpInv(l: Layout, base: seq<Block>, s: State, s': State)
    requires Inv(l, base, s) && BeginOp(s, s')
    ensures Inv(l, base, s')
  {
    BeginOpOps(base, s, s');
    assert PinInv(l, s');
  }

  lemma EndOpOps(base: seq<Block>, s: State, op: nat, s': State)
    requires OpsInv(base, s) && EndOp(s, op, s') && (s.lh == [] ==> s.pending == [])
    ensures OpsInv(base, s')
  {
    assert |s'.active| == s'.outstanding;
    assert s.outstanding == 1 ==> s'.active == {};
  }

  lemma EndOpPins(l: Layout, s: State, op: nat, s': State)
    requires PinInv(l, s) && EndOp(s, op, s') && s.pc.Idle?
    ensures PinInv(l, s')
  {
  }

  lemma EndOpDisk(l: Layout, s: State, op: nat, s': State)
    requires DiskInv(l, s) && EndOp(s, op, s') && s.pc.Idle?
    ensures DiskInv(l, s')
  {
  }

  lemma EndOpInv(l: Layout, base: seq<Block>, s: State, op: nat, s': State)
    requires Inv(l, base, s) && EndOp(s, op, s')
    ensures Inv(l, base, s')
  {
    assert s.pending != [] ==> s.pending[0].block in s.lh;
    EndOpOps(base, s, op, s');
    EndOpPins(l, s, op, s');
    EndOpDisk(l, s, op, s');
    assert DataInv(l, s');
  }

  // write_log

  /** write_log copies the newest contents. */
  lemma LogsNewest(l: Layout, s: State, f: nat)
    requires DiskInv(l, s) && DataInv(l, s) && s.pc.Logging? && s.pc.i < |s.lh| && Held(s, f, s.lh[s.pc.i])
    requires f !in s.dirty
    ensures Buffer(s, f).data == s.mem[s.lh[s.pc.i]]
  {
    assert DataOk(l, s.disk, s.mem, s.lh, s.pc, s.dirty, Stale(l, s.disk, s.pc, s.lh), f, s.cache.bufs[f]);
  }

  lemma NothingDirty(l: Layout, base: seq<Block>, s: State)
    requires PinInv(l, s) && OpsInv(base, s) && !s.pc.Idle?
    ensures s.dirty == {}
  {
  }

  lemma CopyToLogData(l: Layout, s: State, t: nat, f: nat, s': State)
    requires DiskInv(l, s) && DataInv(l, s) && CopyToLog(l, s, t, f, s') && DiskInv(l, s') && s.dirty == {}
    requires Sole(s.cache.bufs, t) && AllShaped(l, s.cache.bufs)
    ensures DataInv(l, s')
  {
    LogsNewest(l, s, f);
    TakeInHand(l, s.disk, s.mem, s.lh, s.pc, s.dirty, [], s.cache.bufs, s'.pc, [], t, s'.cache.bufs[t]);
  }

  lemma CopyToLogInv(l: Layout, base: seq<Block>, s: State, t: nat, f: nat, s': State)
    requires Inv(l, base, s) && CopyToLog(l, s, t, f, s')
    ensures Inv(l, base, s')
  {
    NothingDirty(l, base, s);
    OnlyHolder(l, s, t);
    UpdateCache(l, s, t, s'.cache.bufs[t]);
    MoveOn(l, s.pc, s.lh, s.holder, s.waiting, s.dirty, s.active, s'.cache.bufs, s'.pc, s'.lh);
    CopyToLogDisk(l, s, t, f, s');
    CopyToLogData(l, s, t, f, s');
  }

  lemma CopyToLogDisk(l: Layout, s: State, t: nat, f: nat, s': State)
    requires DiskInv(l, s) && CopyToLog(l, s, t, f, s')
    ensures DiskInv(l, s')
  {
  }

  /** A log block is not the header and not a home block. */
  lemma LogBlock(l: Layout, i: nat)
    requires LayoutOk(l) && i + 1 < l.size
    ensures l.start < l.start + 1 + i < l.nblocks && !Home(l, l.start + 1 + i)
  {
  }

  lemma LogCopied(l: Layout, disk: seq<Block>, mem: seq<Block>, lh: seq<nat>, i: nat)
    requires LayoutOk(l) && |disk| == l.nblocks && |mem| == l.nblocks && LogOk(l, lh) && i < |lh|
    requires Logged(l, disk, mem, lh, i)
    ensures Logged(l, disk[l.start + 1 + i := mem[lh[i]]], mem, lh, i + 1)
  {
  }

  lemma LogKeepsHome(l: Layout, disk: seq<Block>, mem: seq<Block>, lh: seq<nat>, i: nat, blk: Block)
    requires LayoutOk(l) && i + 1 < l.size && Current(l, disk, mem, lh)
    ensures Current(l, disk[l.start + 1 + i := blk], mem, lh)
  {
    LogBlock(l, i);
  }

  lemma LogKeepsCrash(l: Layout, disk: seq<Block>, committed: seq<Block>, i: nat, blk: Block)
    requires LayoutOk(l) && |disk| == l.nblocks && |committed| == l.nblocks && i + 1 < l.size
    requires HeaderOk(l, disk) && ReadHeader(disk[l.start]) == [] && CrashOk(l, disk, committed)
    ensures var disk' := disk[l.start + 1 + i := blk];
            HeaderOk(l, disk') && ReadHeader(disk'[l.start]) == [] && CrashOk(l, disk', committed)
  {
    LogBlock(l, i);
  }

  lemma LogOne(l: Layout, disk: seq<Block>, mem: seq<Block>, committed: seq<Block>, lh: seq<nat>, i: nat)
    requires LayoutOk(l) && |disk| == l.nblocks && |mem| == l.nblocks && |committed| == l.nblocks
    requires HeaderOk(l, disk) && ReadHeader(disk[l.start]) == [] && LogOk(l, lh) && i < |lh|
    requires CrashOk(l, disk, committed) && Current(l, disk, mem, lh) && Logged(l, disk, mem, lh, i)
    ensures DiskOk(l, disk[l.start + 1 + i := mem[lh[i]]], committed, mem, Logging(i + 1, None), lh)
  {
    LogCopied(l, disk, mem, lh, i);
    LogKeepsHome(l, disk, mem, lh, i, mem[lh[i]]);
    LogKeepsCrash(l, disk, committed, i, mem[lh[i]]);
  }

  lemma LogInHand(l: Layout, s: State)
    requires DiskInv(l, s) && DataInv(l, s) && s.pc.Logging? && s.pc.to.Some?
    requires Grip(l, s.pc, s.lh, s.holder, s.cache.bufs)
    ensures Buffer(s, s.pc.to.value).data == s.mem[s.lh[s.pc.i]]
  {
    var t := s.pc.to.value;
    assert DataOk(l, s.disk, s.mem, s.lh, s.pc, s.dirty, Stale(l, s.disk, s.pc, s.lh), t, s.cache.bufs[t]);
  }

  lemma WriteLogDisk(l: Layout, s: State, s': State)
    requires DiskInv(l, s) && WriteLog(l, s, s') && Buffer(s, s.pc.to.value).data == s.mem[s.lh[s.pc.i]]
    ensures DiskInv(l, s')
  {
    LogOne(l, s.disk, s.mem, s.committed, s.lh, s.pc.i);
  }

  lemma WriteLogData(l: Layout, s: State, s': State)
    requires LayoutOk(l) && |s.disk| == l.nblocks && |s.mem| == l.nblocks && Words(s.lh) && WriteLog(l, s, s')
    requires Coherent(l, s.disk, s.mem, s.lh, s.pc, s.dirty, [], s.cache.bufs)
    requires Sole(s.cache.bufs, s.pc.to.value) && AllShaped(l, s.cache.bufs)
             && Held(s, s.pc.to.value, l.start + 1 + s.pc.i)
    ensures Coherent(l, s'.disk, s'.mem, s'.lh, s'.pc, s'.dirty, [], s'.cache.bufs)
  {
    PutOnDisk(l, s.disk, s.mem, s.lh, s.pc, s.dirty, [], s.cache.bufs, s'.pc, s.pc.to.value);
  }

  lemma WriteLogInv(l: Layout, base: seq<Block>, s: State, s': State)
    requires Inv(l, base, s) && WriteLog(l, s, s')
    ensures Inv(l, base, s')
  {
    LogInHand(l, s);
    WriteLogDisk(l, s, s');
    assert Held(s, s.pc.to.value, l.start + 1 + s.pc.i);
    OnlyHolder(l, s, s.pc.to.value);
    WriteLogData(l, s, s');
    MoveOn(l, s.pc, s.lh, s.holder, s.waiting, s.dirty, s.active, s.cache.bufs, s'.pc, s'.lh);
  }

  // write_head: the commit point

  lemma FillHeadInv(l: Layout, base: seq<Block>, s: State, h: nat, s': State)
    requires Inv(l, base, s) && FillHead(l, s, h, s')
    ensures Inv(l, base, s')
  {
    OnlyHolder(l, s, h);
    UpdateCache(l, s, h, s'.cache.bufs[h]);
    MoveOn(l, s.pc, s.lh, s.holder, s.waiting, s.dirty, s.active, s'.cache.bufs, s'.pc, s'.lh);
    TakeInHand(l, s.disk, s.mem, s.lh, s.pc, s.dirty, [], s.cache.bufs, s'.pc, [], h, s'.cache.bufs[h]);
    assert DiskInv(l, s');
  }

  /** Once the header names a fully written log, the disk alone determines the new state. */
  lemma CommitPoint(l: Layout, disk: seq<Block>, mem: seq<Block>, lh: seq<nat>)
    requires LayoutOk(l) && |disk| == l.nblocks && |mem| == l.nblocks && LogOk(l, lh) && Words(lh)
    requires Logged(l, disk, mem, lh, |lh|) && Current(l, disk, mem, lh)
    ensures DiskOk(l, disk[l.start := PutHeader(disk[l.start], lh)], mem, mem, Installing(false, 0, None), lh)
  {
    HeaderRoundTrip(disk[l.start], lh);
    assert lh[0..] == lh;
  }

  lemma HeadInHand(l: Layout, s: State)
    requires DiskInv(l, s) && DataInv(l, s) && s.pc.Heading? && Grip(l, s.pc, s.lh, s.holder, s.cache.bufs)
    ensures Held(s, s.pc.h, l.start) && Words(s.lh) && Buffer(s, s.pc.h).data == PutHeader(s.disk[l.start], s.lh)
  {
    var t := s.pc.h;
    assert DataOk(l, s.disk, s.mem, s.lh, s.pc, s.dirty, Stale(l, s.disk, s.pc, s.lh), t, s.cache.bufs[t]);
  }

  lemma WholeCommit(nextOp: nat, pending: seq<Write>, txns: seq<seq<Write>>)
    requires Whole({}, nextOp, pending, txns)
    ensures Whole({}, nextOp, [], txns + [pending])
  {
    forall i, j, w, v | 0 <= i < j < |txns + [pending]| && w in (txns + [pending])[i] && v in (txns + [pending])[j]
      ensures w.op != v.op
    {
      assert w in txns[i];
    }
  }

  lemma WriteHeadOps(l: Layout, base: seq<Block>, s: State, s': State)
    requires OpsInv(base, s) && WriteHead(l, s, s')
    ensures OpsInv(base, s')
  {
    WholeCommit(s.nextOp, s.pending, s.txns);
    assert s'.txns[..|s.txns|] == s.txns;
  }

  lemma WriteHeadInv(l: Layout, base: seq<Block>, s: State, s': State)
    requires Inv(l, base, s) && WriteHead(l, s, s')
    ensures Inv(l, base, s')
  {
    HeadInHand(l, s);
    CommitPoint(l, s.disk, s.mem, s.lh);
    OnlyHolder(l, s, s.pc.h);
    PutOnDisk(l, s.disk, s.mem, s.lh, s.pc, s.dirty, [], s.cache.bufs, s'.pc, s.pc.h);
    WriteHeadOps(l, base, s, s');
    assert s'.lh[0..] == s.lh;
    MoveOn(l, s.pc, s.lh, s.holder, s.waiting, s.dirty, s.active, s.cache.bufs, s'.pc, s'.lh);
  }

  // install_trans

  /** install_trans copies committed contents. */
  lemma InstallsCommitted(l: Layout, s: State, f: nat)
    requires DiskInv(l, s) && DataInv(l, s) && s.pc.Installing? && s.pc.to.None? && s.pc.i < |s.lh|
    requires Held(s, f, l.start + 1 + s.pc.i)
    ensures Buffer(s, f).data == s.committed[s.lh[s.pc.i]]
  {
    HeaderInHand(l, s.disk, s.mem, s.pc, s.lh);
    CommittedInLog(l, s.disk, s.committed, s.lh, s.pc.i);
    LogBlock(l, s.pc.i);
    LogInBuffer(l, s.disk, s.mem, s.lh, s.pc, s.dirty, Stale(l, s.disk, s.pc, s.lh), s.cache.bufs, f);
  }

  lemma HeaderInHand(l: Layout, disk: seq<Block>, mem: seq<Block>, pc: Pc, lh: seq<nat>)
    requires LayoutOk(l) && |disk| == l.nblocks && |mem| == l.nblocks && HeaderOk(l, disk) && LogOk(l, lh)
    requires Progress(l, disk, mem, pc, lh) && pc.Installing?
    ensures ReadHeader(disk[l.start]) == lh && |lh| < l.size
  {
  }

  lemma CommittedInLog(l: Layout, disk: seq<Block>, committed: seq<Block>, lh: seq<nat>, i: nat)
    requires LayoutOk(l) && |disk| == l.nblocks && |committed| == l.nblocks
    requires HeaderOk(l, disk) && CrashOk(l, disk, committed) && ReadHeader(disk[l.start]) == lh && i < |lh| < l.size
    ensures lh[i] < |committed| && disk[l.start + 1 + i] == committed[lh[i]]
  {
  }

  lemma LogInBuffer(l: Layout, disk: seq<Block>, mem: seq<Block>, lh: seq<nat>, pc: Pc, dirty: set<nat>,
                    stale: seq<nat>, bufs: seq<Buf>, f: nat)
    requires LayoutOk(l) && |disk| == l.nblocks && |mem| == l.nblocks && Words(lh)
             && Coherent(l, disk, mem, lh, pc, dirty, stale, bufs)
    requires f < |bufs| && bufs[f].valid && bufs[f].blockno < l.nblocks && !Home(l, bufs[f].blockno) && !Busy(pc, f)
    ensures bufs[f].data == disk[bufs[f].blockno]
  {
    assert DataOk(l, disk, mem, lh, pc, dirty, stale, f, bufs[f]);
  }

  function StaleFrom(rec: bool, lh: seq<nat>, i: nat): seq<nat>
    requires i <= |lh|
  {
    if rec then lh[i..] else []
  }

  lemma StaleInstalling(l: Layout, disk: seq<Block>, lh: seq<nat>, rec: bool, i: nat, to: Option<nat>)
    requires LayoutOk(l) && |disk| == l.nblocks && HeaderOk(l, disk) && i <= |lh| && (to.Some? ==> i < |lh|)
    ensures Stale(l, disk, Installing(rec, i, to), lh) == StaleFrom(rec, lh, if to.Some? then i + 1 else i)
  {
  }

  lemma CopyHomeCoherent(l: Layout, disk: seq<Block>, mem: seq<Block>, lh: seq<nat>, rec: bool, i: nat, dirty: set<nat>,
                         bufs: seq<Buf>, d: nat, buf: Buf)
    requires LayoutOk(l) && |disk| == l.nblocks && |mem| == l.nblocks && Words(lh) && i < |lh| && Home(l, lh[i])
    requires Coherent(l, disk, mem, lh, Installing(rec, i, None), dirty, StaleFrom(rec, lh, i), bufs)
    requires Sole(bufs, d) && AllShaped(l, bufs) && bufs[d].blockno == lh[i] && buf.blockno == lh[i]
             && buf.data == mem[lh[i]]
    ensures Coherent(l, disk, mem, lh, Installing(rec, i, Some(d)), dirty, StaleFrom(rec, lh, i + 1), bufs[d := buf])
  {
    assert lh[i..] == [lh[i]] + lh[i + 1..];
    TakeInHand(l, disk, mem, lh, Installing(rec, i, None), dirty, StaleFrom(rec, lh, i), bufs,
               Installing(rec, i, Some(d)), StaleFrom(rec, lh, i + 1), d, buf);
  }

  lemma CopyHomeData(l: Layout, s: State, f: nat, d: nat, s': State)
    requires DiskInv(l, s) && DataInv(l, s) && CopyHome(l, s, f, d, s') && DiskInv(l, s')
    requires Buffer(s, f).data == s.mem[s.lh[s.pc.i]]
    requires Sole(s.cache.bufs, d) && AllShaped(l, s.cache.bufs)
    ensures DataInv(l, s')
  {
    StaleInstalling(l, s.disk, s.lh, s.pc.rec, s.pc.i, None);
    StaleInstalling(l, s.disk, s.lh, s.pc.rec, s.pc.i, Some(d));
    CopyHomeCoherent(l, s.disk, s.mem, s.lh, s.pc.rec, s.pc.i, s.dirty, s.cache.bufs, d, s'.cache.bufs[d]);
  }

  lemma CopyHomeInv(l: Layout, base: seq<Block>, s: State, f: nat, d: nat, s': State)
    requires Inv(l, base, s) && CopyHome(l, s, f, d, s')
    ensures Inv(l, base, s')
  {
    OnlyHolder(l, s, d);
    UpdateCache(l, s, d, s'.cache.bufs[d]);
    MoveOn(l, s.pc, s.lh, s.holder, s.waiting, s.dirty, s.active, s'.cache.bufs, s'.pc, s'.lh);
    assert DiskInv(l, s');
    InstallsCommitted(l, s, f);
    CopyHomeData(l, s, f, d, s');
  }

  lemma InstallOne(l: Layout, disk: seq<Block>, committed: seq<Block>, lh: seq<nat>, i: nat, rec: bool)
    requires LayoutOk(l) && |disk| == l.nblocks && |committed| == l.nblocks && HeaderOk(l, disk) && LogOk(l, lh)
    requires ReadHeader(disk[l.start]) == lh && i < |lh|
    requires CrashOk(l, disk, committed) && Current(l, disk, committed, lh[i..])
    ensures DiskOk(l, disk[lh[i] := committed[lh[i]]], committed, committed, Installing(rec, i + 1, None), lh)
  {
    assert lh[i..] == [lh[i]] + lh[i + 1..];
    assert Home(l, lh[i]);
    assert disk[lh[i] := committed[lh[i]]][l.start] == disk[l.start];
  }

  lemma HomeInHand(l: Layout, s: State)
    requires DiskInv(l, s) && DataInv(l, s) && s.pc.Installing? && s.pc.to.Some? && s.dirty == {}
    requires Grip(l, s.pc, s.lh, s.holder, s.cache.bufs)
    ensures Held(s, s.pc.to.value, s.lh[s.pc.i]) && Buffer(s, s.pc.to.value).data == s.mem[s.lh[s.pc.i]]
  {
    var t := s.pc.to.value;
    assert DataOk(l, s.disk, s.mem, s.lh, s.pc, s.dirty, Stale(l, s.disk, s.pc, s.lh), t, s.cache.bufs[t]);
    assert s.lh[s.pc.i] !in s.lh[s.pc.i + 1..];
  }

  lemma WriteHomeDisk(l: Layout, s: State, s': State)
    requires DiskInv(l, s) && WriteHome(s, s') && s.mem == s.committed
    requires Buffer(s, s.pc.to.value).data == s.mem[s.lh[s.pc.i]]
    ensures DiskInv(l, s')
  {
    InstallOne(l, s.disk, s.committed, s.lh, s.pc.i, s.pc.rec);
  }

  lemma UnpinRefs(bufs: seq<Buf>, holder: map<nat, Owner>, waiting: multiset<nat>, x: nat, rest: seq<nat>, d: nat)
    requires Refs(bufs, holder, waiting, [x] + rest) && x !in rest && Sole(bufs, d) && Holds(bufs[d], ROOTDEV, x)
             && d in holder
    ensures bufs[d].refcnt > 1
    ensures Refs(bufs[d := bufs[d].(refcnt := bufs[d].refcnt - 1)], holder, waiting, rest)
  {
  }

  lemma Unpin(l: Layout, lh: seq<nat>, i: nat, holder: map<nat, Owner>, waiting: multiset<nat>,
              dirty: set<nat>, active: set<nat>, bufs: seq<Buf>, d: nat)
    requires i < |lh| && PinOk(l, Installing(false, i, Some(d)), lh, holder, waiting, dirty, active, bufs)
    requires lh[i] !in lh[i + 1..] && Sole(bufs, d)
    ensures bufs[d].refcnt > 1
    ensures PinOk(l, Installing(false, i + 1, None), lh, holder, waiting, dirty, active,
                  bufs[d := bufs[d].(refcnt := bufs[d].refcnt - 1)])
  {
    var x, rest := lh[i], lh[i + 1..];
    assert lh[i..] == [x] + rest;
    assert HeldBuf(holder, bufs, d, x);
    UnpinRefs(bufs, holder, waiting, x, rest, d);
    UnpinRest(l, holder, dirty, active, bufs, d, x, rest);
  }

  lemma UnpinRest(l: Layout, holder: map<nat, Owner>, dirty: set<nat>, active: set<nat>, bufs: seq<Buf>, d: nat,
                  x: nat, rest: seq<nat>)
    requires PinsCached(bufs, [x] + rest) && DirtyOk(l, dirty, active, holder, bufs) && d < |bufs| && bufs[d].refcnt > 0
    ensures var bufs' := bufs[d := bufs[d].(refcnt := bufs[d].refcnt - 1)];
            PinsCached(bufs', rest) && DirtyOk(l, dirty, active, holder, bufs')
  {
    UpdatePinned(bufs, [x] + rest, d, bufs[d].(refcnt := bufs[d].refcnt - 1));
  }

  lemma UnpinRing(l: Layout, c: Cache, holder: map<nat, Owner>, waiting: multiset<nat>, freed: seq<nat>, now: nat,
                  d: nat)
    requires RingOk(l, c, holder, waiting, freed, now) && d < NBUF && c.bufs[d].refcnt > 1
    ensures RingOk(l, c.(bufs := c.bufs[d := c.bufs[d].(refcnt := c.bufs[d].refcnt - 1)]), holder, waiting, freed, now)
  {
    UpdateRing(l, c, holder, waiting, freed, now, d, c.bufs[d].(refcnt := c.bufs[d].refcnt - 1));
  }

  lemma WriteHomePins(l: Layout, s: State, s': State)
    requires PinInv(l, s) && WriteHome(s, s') && !s.pc.rec
    requires s.lh[s.pc.i] !in s.lh[s.pc.i + 1..] && Sole(s.cache.bufs, s.pc.to.value)
    ensures PinInv(l, s') && Buffer(s, s.pc.to.value).refcnt > 1
  {
    var d, i := s.pc.to.value, s.pc.i;
    assert s.pc == Installing(false, i, Some(d)) && s'.pc == Installing(false, i + 1, None);
    Unpin(l, s.lh, i, s.holder, s.waiting, s.dirty, s.active, s.cache.bufs, d);
  }

  lemma WriteHomeRing(l: Layout, s: State, s': State)
    requires RingInv(l, s) && WriteHome(s, s') && s.pc.to.value < NBUF
             && (!s.pc.rec ==> Buffer(s, s.pc.to.value).refcnt > 1)
    ensures RingInv(l, s')
  {
    if !s.pc.rec {
      UnpinRing(l, s.cache, s.holder, s.waiting, s.freed, s.now, s.pc.to.value);
    }
  }

  lemma RefcntIrrelevant(l: Layout, disk: seq<Block>, mem: seq<Block>, lh: seq<nat>, pc: Pc, dirty: set<nat>,
                         stale: seq<nat>, bufs: seq<Buf>, d: nat, n: nat)
    requires LayoutOk(l) && |disk| == l.nblocks && |mem| == l.nblocks && Words(lh)
    requires Coherent(l, disk, mem, lh, pc, dirty, stale, bufs) && d < |bufs|
    ensures Coherent(l, disk, mem, lh, pc, dirty, stale, bufs[d := bufs[d].(refcnt := n)])
  {
  }

  lemma WriteHomeCoherent(l: Layout, disk: seq<Block>, mem: seq<Block>, lh: seq<nat>, rec: bool, i: nat,
                          dirty: set<nat>,
                          bufs: seq<Buf>, d: nat)
    requires LayoutOk(l) && |disk| == l.nblocks && |mem| == l.nblocks && Words(lh) && i < |lh| && lh[i] < |disk|
    requires Coherent(l, disk, mem, lh, Installing(rec, i, Some(d)), dirty, StaleFrom(rec, lh, i + 1), bufs)
    requires Sole(bufs, d) && AllShaped(l, bufs) && bufs[d].blockno == lh[i]
    ensures Coherent(l, disk[lh[i] := bufs[d].data], mem, lh, Installing(rec, i + 1, None), dirty,
            StaleFrom(rec, lh, i + 1), bufs)
  {
    PutOnDisk(l, disk, mem, lh, Installing(rec, i, Some(d)), dirty, StaleFrom(rec, lh, i + 1), bufs,
      Installing(rec, i + 1, None), d);
  }

  lemma WriteHomeData(l: Layout, s: State, s': State)
    requires DiskInv(l, s) && DataInv(l, s) && WriteHome(s, s') && DiskInv(l, s')
    requires Sole(s.cache.bufs, s.pc.to.value) && AllShaped(l, s.cache.bufs) && Held(s, s.pc.to.value, s.lh[s.pc.i])
    ensures Coherent(l, s'.disk, s'.mem, s'.lh, s'.pc, s'.dirty, Stale(l, s'.disk, s'.pc, s'.lh), s.cache.bufs)
  {
    var d, rec, i := s.pc.to.value, s.pc.rec, s.pc.i;
    assert s.pc == Installing(rec, i, Some(d)) && s'.pc == Installing(rec, i + 1, None);
    WriteHomeShown(l, s.disk, s.mem, s.lh, rec, i, s.dirty, s.cache.bufs, d, s'.disk);
  }

  lemma WriteHomeShown(l: Layout, disk: seq<Block>, mem: seq<Block>, lh: seq<nat>, rec: bool, i: nat, dirty: set<nat>,
                       bufs: seq<Buf>, d: nat, disk': seq<Block>)
    requires LayoutOk(l) && |disk| == l.nblocks && |mem| == l.nblocks && Words(lh) && i < |lh| && lh[i] < |disk|
    requires d < |bufs| && disk' == disk[lh[i] := bufs[d].data] && HeaderOk(l, disk) && HeaderOk(l, disk')
    requires var pc := Installing(rec, i, Some(d)); Coherent(l, disk, mem, lh, pc, dirty, Stale(l, disk, pc, lh), bufs)
    requires Sole(bufs, d) && AllShaped(l, bufs) && bufs[d].blockno == lh[i]
    ensures var pc := Installing(rec, i + 1, None);
            Coherent(l, disk', mem, lh, pc, dirty, Stale(l, disk', pc, lh), bufs)
  {
    StaleInstalling(l, disk, lh, rec, i, Some(d));
    StaleInstalling(l, disk', lh, rec, i + 1, None);
    WriteHomeCoherent(l, disk, mem, lh, rec, i, dirty, bufs, d);
  }

  lemma WriteHomeUnpinned(l: Layout, s: State, s': State, stale: seq<nat>)
    requires LayoutOk(l) && |s'.disk| == l.nblocks && |s'.mem| == l.nblocks && Words(s'.lh) && WriteHome(s, s')
    requires Coherent(l, s'.disk, s'.mem, s'.lh, s'.pc, s'.dirty, stale, s.cache.bufs)
    ensures Coherent(l, s'.disk, s'.mem, s'.lh, s'.pc, s'.dirty, stale, s'.cache.bufs)
  {
    if !s.pc.rec {
      var d := s.pc.to.value;
      RefcntIrrelevant(l, s'.disk, s'.mem, s'.lh, s'.pc, s'.dirty, stale, s.cache.bufs, d, Buffer(s, d).refcnt - 1);
    }
  }

  lemma WriteHomeFacts(l: Layout, base: seq<Block>, s: State, s': State)
    requires Inv(l, base, s) && WriteHome(s, s')
    ensures s.mem == s.committed && Held(s, s.pc.to.value, s.lh[s.pc.i]) && s.lh[s.pc.i] !in s.lh[s.pc.i + 1..]
    ensures Buffer(s, s.pc.to.value).data == s.mem[s.lh[s.pc.i]]
    ensures s.pc.to.value < NBUF && Sole(s.cache.bufs, s.pc.to.value) && AllShaped(l, s.cache.bufs)
  {
    NothingDirty(l, base, s);
    HomeInHand(l, s);
    OnlyHolder(l, s, s.pc.to.value);
  }

  lemma WriteHomePinned(l: Layout, s: State, s': State)
    requires PinInv(l, s) && WriteHome(s, s') && s.lh[s.pc.i] !in s.lh[s.pc.i + 1..]
    requires Sole(s.cache.bufs, s.pc.to.value)
    ensures PinInv(l, s') && (!s.pc.rec ==> Buffer(s, s.pc.to.value).refcnt > 1)
  {
    if s.pc.rec {
      MoveOn(l, s.pc, s.lh, s.holder, s.waiting, s.dirty, s.active, s.cache.bufs, s'.pc, s'.lh);
    } else {
      WriteHomePins(l, s, s');
    }
  }

  lemma WriteHomeOps(base: seq<Block>, s: State, s': State)
    requires OpsInv(base, s) && WriteHome(s, s')
    ensures OpsInv(base, s')
  {
  }

  lemma WriteHomeInv(l: Layout, base: seq<Block>, s: State, s': State)
    requires Inv(l, base, s) && WriteHome(s, s')
    ensures Inv(l, base, s')
  {
    WriteHomeFacts(l, base, s, s');
    WriteHomeDisk(l, s, s');
    WriteHomePinned(l, s, s');
    WriteHomeRing(l, s, s');
    WriteHomeData(l, s, s');
    WriteHomeUnpinned(l, s, s', Stale(l, s'.disk, s'.pc, s'.lh));
    WriteHomeOps(base, s, s');
  }

  // the second write_head

  lemma ClearHeadInv(l: Layout, base: seq<Block>, s: State, h: nat, s': State)
    requires Inv(l, base, s) && ClearHead(l, s, h, s')
    ensures Inv(l, base, s')
  {
    OnlyHolder(l, s, h);
    UpdateCache(l, s, h, s'.cache.bufs[h]);
    assert s.lh[|s.lh|..] == [];
    MoveOn(l, s.pc, s.lh, s.holder, s.waiting, s.dirty, s.active, s'.cache.bufs, s'.pc, s'.lh);
    assert DiskInv(l, s');
    assert DataInv(l, s');
  }

  lemma ClearInHand(l: Layout, s: State)
    requires DiskInv(l, s) && DataInv(l, s) && s.pc.Clearing? && Grip(l, s.pc, s.lh, s.holder, s.cache.bufs)
    ensures Held(s, s.pc.h, l.start) && s.lh == [] && Buffer(s, s.pc.h).data == PutHeader(s.disk[l.start], [])
  {
    var t := s.pc.h;
    assert DataOk(l, s.disk, s.mem, s.lh, s.pc, s.dirty, Stale(l, s.disk, s.pc, s.lh), t, s.cache.bufs[t]);
  }

  lemma ErasePoint(l: Layout, disk: seq<Block>, mem: seq<Block>, pc: Pc)
    requires LayoutOk(l) && |disk| == l.nblocks && |mem| == l.nblocks && Current(l, disk, mem, [])
             && (pc.Idle? || pc.Done?)
    ensures DiskOk(l, disk[l.start := PutHeader(disk[l.start], [])], mem, mem, pc, [])
  {
    HeaderRoundTrip(disk[l.start], []);
  }

  lemma WriteClearHeadInv(l: Layout, base: seq<Block>, s: State, s': State)
    requires Inv(l, base, s) && WriteClearHead(l, s, s')
    ensures Inv(l, base, s')
  {
    ClearInHand(l, s);
    ErasePoint(l, s.disk, s.mem, s'.pc);
    OnlyHolder(l, s, s.pc.h);
    PutOnDisk(l, s.disk, s.mem, s.lh, s.pc, s.dirty, [], s.cache.bufs, s'.pc, s.pc.h);
    MoveOn(l, s.pc, s.lh, s.holder, s.waiting, s.dirty, s.active, s.cache.bufs, s'.pc, s'.lh);
  }

  lemma FinishInv(l: Layout, base: seq<Block>, s: State, s': State)
    requires Inv(l, base, s) && Finish(s, s')
    ensures Inv(l, base, s')
  {
    MoveOn(l, s.pc, s.lh, s.holder, s.waiting, s.dirty, s.active, s.cache.bufs, s'.pc, s'.lh);
    assert DiskInv(l, s');
    assert DataInv(l, s');
  }

  // crash and recovery

  lemma CrashDisk(l: Layout, s: State, s': State)
    requires DiskInv(l, s) && Crash(s, s')
    ensures DiskInv(l, s')
  {
  }

  lemma CrashOps(base: seq<Block>, s: State, s': State)
    requires OpsInv(base, s) && Crash(s, s')
    ensures OpsInv(base, s')
  {
  }

  lemma CrashInv(l: Layout, base: seq<Block>, s: State, s': State)
    requires Inv(l, base, s) && Crash(s, s')
    ensures Inv(l, base, s')
  {
    CrashDisk(l, s, s');
    CrashOps(base, s, s');
    FreshCacheInv(l, s');
  }

  lemma ReadHeadInv(l: Layout, base: seq<Block>, s: State, h: nat, s': State)
    requires Inv(l, base, s) && ReadHead(l, s, h, s')
    ensures Inv(l, base, s')
  {
    BootHead(l, s, h);
    ReadHeadDisk(l, s, h, s');
    ReadHeadData(l, s, h, s');
    assert s'.lh[0..] == s'.lh;
    MoveOn(l, s.pc, s.lh, s.holder, s.waiting, s.dirty, s.active, s.cache.bufs, s'.pc, s'.lh);
  }

  lemma BootHead(l: Layout, s: State, h: nat)
    requires DiskInv(l, s) && DataInv(l, s) && s.pc.Boot? && Held(s, h, l.start)
    ensures Buffer(s, h).data == s.disk[l.start]
  {
    assert DataOk(l, s.disk, s.mem, s.lh, s.pc, s.dirty, Stale(l, s.disk, s.pc, s.lh), h, s.cache.bufs[h]);
  }

  lemma ReadHeadData(l: Layout, s: State, h: nat, s': State)
    requires DiskInv(l, s) && DataInv(l, s) && ReadHead(l, s, h, s') && DiskInv(l, s')
    requires Buffer(s, h).data == s.disk[l.start]
    ensures DataInv(l, s')
  {
    assert s'.lh[0..] == s'.lh;
    assert Stale(l, s'.disk, s'.pc, s'.lh) == Stale(l, s.disk, s.pc, s.lh);
  }

  lemma ReadHeadDisk(l: Layout, s: State, h: nat, s': State)
    requires DiskInv(l, s) && ReadHead(l, s, h, s') && Buffer(s, h).data == s.disk[l.start]
    ensures DiskInv(l, s')
  {
    assert s'.lh[0..] == s'.lh;
  }

  lemma NextInv(l: Layout, base: seq<Block>, s: State, step: Step, s': State)
    requires Inv(l, base, s) && Next(l, s, step, s')
    ensures Inv(l, base, s')
  {
    if ByCommitter(step) {
      CommitterInv(l, base, s, step, s');
    } else if ByOperation(step) {
      OperationInv(l, base, s, step, s');
    } else {
      BufferInv(l, base, s, step, s');
    }
  }

  lemma BufferInv(l: Layout, base: seq<Block>, s: State, step: Step, s': State)
    requires Inv(l, base, s) && Next(l, s, step, s') && !ByCommitter(step) && !ByOperation(step)
    ensures Inv(l, base, s')
  {
    match step {
      case BgetStep(blockno, b) => BgetInv(l, base, s, blockno, b, s');
      case LockStep(b, who) => LockInv(l, base, s, b, who, s');
      case FillStep(b) => FillInv(l, base, s, b, s');
      case BrelseStep(b) => BrelseInv(l, base, s, b, s');
      case CrashStep => CrashInv(l, base, s, s');
    }
  }

  predicate ByOperation(step: Step) {
    step.ModifyStep? || step.LogWriteStep? || step.BeginOpStep? || step.EndOpStep? || step.FinishStep?
  }

  lemma OperationInv(l: Layout, base: seq<Block>, s: State, step: Step, s': State)
    requires Inv(l, base, s) && Next(l, s, step, s') && ByOperation(step)
    ensures Inv(l, base, s')
  {
    match step {
      case ModifyStep(b, op, data) => ModifyInv(l, base, s, b, op, data, s');
      case LogWriteStep(b, op) => LogWriteInv(l, base, s, b, op, s');
      case BeginOpStep => BeginOpInv(l, base, s, s');
      case EndOpStep(op) => EndOpInv(l, base, s, op, s');
      case FinishStep => FinishInv(l, base, s, s');
    }
  }

  predicate ByCommitter(step: Step) {
    match step
    case CopyToLogStep(_, _) => true
    case WriteLogStep => true
    case FillHeadStep(_) => true
    case WriteHeadStep => true
    case CopyHomeStep(_, _) => true
    case WriteHomeStep => true
    case ClearHeadStep(_) => true
    case WriteClearHeadStep => true
    case ReadHeadStep(_) => true
    case _ => false
  }

  lemma CommitterInv(l: Layout, base: seq<Block>, s: State, step: Step, s': State)
    requires Inv(l, base, s) && Next(l, s, step, s') && ByCommitter(step)
    ensures Inv(l, base, s')
  {
    match step {
      case CopyToLogStep(t, f) => CopyToLogInv(l, base, s, t, f, s');
      case WriteLogStep => WriteLogInv(l, base, s, s');
      case FillHeadStep(h) => FillHeadInv(l, base, s, h, s');
      case WriteHeadStep => WriteHeadInv(l, base, s, s');
      case CopyHomeStep(f, d) => CopyHomeInv(l, base, s, f, d, s');
      case WriteHomeStep => WriteHomeInv(l, base, s, s');
      case ClearHeadStep(h) => ClearHeadInv(l, base, s, h, s');
      case WriteClearHeadStep => WriteClearHeadInv(l, base, s, s');
      case ReadHeadStep(h) => ReadHeadInv(l, base, s, h, s');
    }
  }

  // ---------- whole runs ----------

  ghost predicate IsRun(l: Layout, base: seq<Block>, run: seq<State>, steps: seq<Step>) {
    && |run| == |steps| + 1
    && Init(l, base, run[0])
    && forall k :: 0 <= k < |steps| ==> Next(l, run[k], steps[k], run[k+1])
  }

  lemma {:induction false} RunInv(l: Layout, base: seq<Block>, run: seq<State>, steps: seq<Step>, k: nat)
    requires IsRun(l, base, run, steps) && k < |run|
    ensures Inv(l, base, run[k])
  {
    if k == 0 {
      InitInv(l, base, run[0]);
    } else {
      RunInv(l, base, run, steps, k - 1);
      NextInv(l, base, run[k-1], steps[k-1], run[k]);
    }
  }

  lemma {:induction false} InstallLeaves(l: Layout, disk: seq<Block>, hdr: seq<nat>, i: nat, x: nat)
    requires i <= |hdr| && l.start + |hdr| < |disk| && x < |disk| && x !in hdr[i..]
    requires forall j :: 0 <= j < |hdr| ==> hdr[j] < |disk|
    ensures InstallFrom(l, disk, hdr, i)[x] == disk[x]
    decreases |hdr| - i
  {
    if i < |hdr| {
      assert hdr[i..] == [hdr[i]] + hdr[i+1..];
      InstallLeaves(l, disk[hdr[i] := disk[l.start + 1 + i]], hdr, i + 1, x);
    }
  }

  lemma {:induction false} InstallCopies(l: Layout, disk: seq<Block>, hdr: seq<nat>, i: nat, j: nat)
    requires LayoutOk(l) && |disk| == l.nblocks && i <= j < |hdr| && |hdr| < l.size && Distinct(hdr)
    requires forall m :: 0 <= m < |hdr| ==> hdr[m] < |disk| && Home(l, hdr[m])
    ensures InstallFrom(l, disk, hdr, i)[hdr[j]] == disk[l.start + 1 + j]
    decreases |hdr| - i
  {
    var disk' := disk[hdr[i] := disk[l.start + 1 + i]];
    if i == j {
      assert hdr[j] !in hdr[i+1..];
      InstallLeaves(l, disk', hdr, i + 1, hdr[j]);
    } else {
      InstallCopies(l, disk', hdr, i + 1, j);
      assert Home(l, hdr[i]);
    }
  }

  /** Recovery of a crash-consistent disk yields exactly the committed home blocks. */
  lemma RecoveredIsCommitted(l: Layout, disk: seq<Block>, committed: seq<Block>)
    requires LayoutOk(l) && |disk| == l.nblocks && |committed| == l.nblocks && HeaderOk(l, disk)
             && CrashOk(l, disk, committed)
    ensures SameHome(l, Recovered(l, disk), committed)
  {
    var hdr := ReadHeader(disk[l.start]);
    forall x: nat | Home(l, x) ensures Recovered(l, disk)[x] == committed[x] {
      if x in hdr {
        var j :| 0 <= j < |hdr| && hdr[j] == x;
        InstallCopies(l, disk, hdr, 0, j);
      } else {
        assert hdr[0..] == hdr;
        InstallLeaves(l, disk, hdr, 0, x);
      }
    }
  }

  /** Cut any run after any step: recovery finds the state after exactly the transactions whose
      header write had reached the disk, each of them whole. */
  lemma CrashSafe(l: Layout, base: seq<Block>, run: seq<State>, steps: seq<Step>, k: nat)
    requires IsRun(l, base, run, steps) && k < |run|
    ensures LayoutOk(l) && |run[k].disk| == l.nblocks && HeaderOk(l, run[k].disk)
    ensures SameHome(l, Recovered(l, run[k].disk), ApplyAll(base, run[k].txns))
  {
    RunInv(l, base, run, steps, k);
    RecoveredIsCommitted(l, run[k].disk, run[k].committed);
  }

  /** What a step does to the operations and to the writes not yet committed. */
  ghost predicate Moves(s: State, step: Step, s': State) {
    && s'.nextOp >= s.nextOp && s'.active <= s.active + {s.nextOp}
    && match step
       case LogWriteStep(_, op) =>
         op in s.active && s'.txns == s.txns && |s'.pending| == |s.pending| + 1
         && s'.pending[..|s.pending|] == s.pending && s'.pending[|s.pending|].op == op
       case WriteHeadStep => s'.txns == s.txns + [s.pending] && s'.pending == []
       case CrashStep => s'.txns == s.txns && s'.pending == [] && s'.active == {}
       case _ => s'.txns == s.txns && s'.pending == s.pending
  }

  lemma NextMoves(l: Layout, s: State, step: Step, s': State)
    requires Next(l, s, step, s')
    ensures Moves(s, step, s')
  {
  }

  lemma RunMoves(l: Layout, base: seq<Block>, run: seq<State>, steps: seq<Step>, k: nat)
    requires IsRun(l, base, run, steps) && k < |steps|
    ensures Moves(run[k], steps[k], run[k + 1])
  {
    NextMoves(l, run[k], steps[k], run[k + 1]);
  }

  /** Transactions are committed one at a time, only by the first write_head, and never lost. */
  lemma {:induction false} CommitsOnlyAtHeader(l: Layout, base: seq<Block>, run: seq<State>, steps: seq<Step>, j: nat,
      k: nat)
    requires IsRun(l, base, run, steps) && j <= k < |run|
    ensures run[j].txns <= run[k].txns
    ensures k < |steps| ==> run[k+1].txns == if steps[k].WriteHeadStep? then run[k].txns + [run[k].pending]
            else run[k].txns
    decreases k - j
  {
    if j < k { CommitsOnlyAtHeader(l, base, run, steps, j, k - 1); }
    if k < |steps| { RunMoves(l, base, run, steps, k); }
  }

  /** Once booted and not committing, the home blocks on disk are the committed state; and a filled,
      unmodified buffer of a home block always shows the newest write to it. */
  lemma CacheRefinesStore(l: Layout, base: seq<Block>, run: seq<State>, steps: seq<Step>, k: nat)
    requires IsRun(l, base, run, steps) && k < |run|
    ensures run[k].pc.Idle? ==> SameHome(l, run[k].disk, ApplyAll(base, run[k].txns))
    ensures var s := run[k];
            var store := Apply(ApplyAll(base, s.txns), s.pending);
            !Recovering(s.pc) ==>
              forall b :: 0 <= b < |s.cache.bufs| && s.cache.bufs[b].valid && Home(l, s.cache.bufs[b].blockno)
                && b !in s.dirty
                ==> s.cache.bufs[b].data == store[s.cache.bufs[b].blockno]
  {
    RunInv(l, base, run, steps, k);
    var s := run[k];
    if !Recovering(s.pc) {
      forall b | 0 <= b < |s.cache.bufs| && s.cache.bufs[b].valid && Home(l, s.cache.bufs[b].blockno) && b !in s.dirty
        ensures s.cache.bufs[b].data == s.mem[s.cache.bufs[b].blockno]
      {
        assert DataOk(l, s.disk, s.mem, s.lh, s.pc, s.dirty, Stale(l, s.disk, s.pc, s.lh), b, s.cache.bufs[b]);
      }
    }
  }

  /** Every logged block is in exactly one buffer, filled and referenced, until it is installed;
      no block is cached twice; the ring holds every buffer once. */
  lemma LoggedBlocksStayCached(l: Layout, base: seq<Block>, run: seq<State>, steps: seq<Step>, k: nat, x: nat)
    requires IsRun(l, base, run, steps) && k < |run| && x in Pins(run[k].pc, run[k].lh)
    ensures CacheOk(run[k].cache) && Unique(run[k].cache)
    ensures exists b ::
              && 0 <= b < NBUF && Holds(Buffer(run[k], b), ROOTDEV, x)
              && Buffer(run[k], b).valid && Buffer(run[k], b).refcnt > 0
  {
    RunInv(l, base, run, steps, k);
    var s := run[k];
    assert CachedValid(s.cache.bufs, x);
    var b :| 0 <= b < |s.cache.bufs| && Holds(s.cache.bufs[b], ROOTDEV, x) && s.cache.bufs[b].valid;
    assert Buffer(s, b).refcnt > 0;
  }

  /** All or nothing: an operation's writes are never split between commits, and an operation
      still running has nothing committed. */
  lemma OperationsAreAtomic(l: Layout, base: seq<Block>, run: seq<State>, steps: seq<Step>, k: nat,
                            i: nat, j: nat, w: Write, v: Write)
    requires IsRun(l, base, run, steps) && k < |run|
    requires i < |run[k].txns| && w in run[k].txns[i] && w.op == v.op
    requires (j < |run[k].txns| && v in run[k].txns[j]) || v in run[k].pending
    ensures v !in run[k].pending && i == j && w.op !in run[k].active
  {
    RunInv(l, base, run, steps, k);
  }

  // ---------- what becomes of a log_write ----------

  /** The operation is over, and none of its writes will ever be on disk. */
  ghost predicate Lost(s: State, op: nat) {
    && op < s.nextOp && op !in s.active && (forall v :: v in s.pending ==> v.op != op)
    && forall i: nat, v :: i < |s.txns| && v in s.txns[i] ==> v.op != op
  }

  ghost predicate Durable(s: State, w: Write) {
    exists i: nat :: i < |s.txns| && w in s.txns[i]
  }

  ghost predicate Decided(s: State, w: Write) {
    w in s.pending || Durable(s, w) || Lost(s, w.op)
  }

  lemma FateStep(s: State, step: Step, s': State, w: Write)
    requires Moves(s, step, s') && Whole(s.active, s.nextOp, s.pending, s.txns)
    requires Decided(s, w)
    ensures Decided(s', w)
  {
    if Durable(s, w) {
      var i: nat :| i < |s.txns| && w in s.txns[i];
      assert s'.txns[i] == s.txns[i];
    } else if w in s.pending {
      if step.WriteHeadStep? {
        assert w in s'.txns[|s.txns|];
      } else if step.LogWriteStep? {
        assert w in s'.pending[..|s.pending|];
      }
    } else {
      forall v | v in s'.pending ensures v.op != w.op {
        if step.LogWriteStep? && v !in s.pending { assert v == s'.pending[|s.pending|]; }
      }
    }
  }

  lemma RunWhole(l: Layout, base: seq<Block>, run: seq<State>, steps: seq<Step>, k: nat)
    requires IsRun(l, base, run, steps) && k < |run|
    ensures Whole(run[k].active, run[k].nextOp, run[k].pending, run[k].txns)
  {
    RunInv(l, base, run, steps, k);
  }

  lemma FateNext(l: Layout, base: seq<Block>, run: seq<State>, steps: seq<Step>, k: nat, w: Write)
    requires IsRun(l, base, run, steps) && k < |steps| && Decided(run[k], w)
    ensures Decided(run[k + 1], w)
  {
    RunWhole(l, base, run, steps, k);
    RunMoves(l, base, run, steps, k);
    FateStep(run[k], steps[k], run[k + 1], w);
  }

  lemma {:induction false} KeptOn(run: seq<State>, k: nat, j: nat, w: Write)
    requires k <= j < |run| && Decided(run[k], w)
    requires forall i: nat :: i + 1 < |run| && Decided(run[i], w) ==> Decided(run[i + 1], w)
    ensures Decided(run[j], w)
  {
    if j > k { KeptOn(run, k, j - 1, w); }
  }

  /** After a log_write, until the end of time: it waits for the commit, or is in one, or its whole
      operation is lost in a crash. */
  lemma Fate(l: Layout, base: seq<Block>, run: seq<State>, steps: seq<Step>, k: nat, j: nat, w: Write)
    requires IsRun(l, base, run, steps) && k <= j < |run| && w in run[k].pending
    ensures Decided(run[j], w)
  {
    forall i: nat | i + 1 < |run| && Decided(run[i], w) ensures Decided(run[i + 1], w) {
      FateNext(l, base, run, steps, i, w);
    }
    KeptOn(run, k, j, w);
  }

  /** All or nothing, step by step: if a commit holds any write of the operation, it holds what the
      operation's every earlier log_write put in. */
  lemma CommitHoldsEveryWrite(l: Layout, base: seq<Block>, run: seq<State>, steps: seq<Step>, k: nat, j: nat, i: nat,
                              v: Write)
    requires IsRun(l, base, run, steps) && k < |steps| && steps[k].LogWriteStep? && k < j < |run|
    requires i < |run[j].txns| && v in run[j].txns[i] && v.op == steps[k].op
    ensures steps[k].b < |run[k].cache.bufs|
    ensures var buf := Buffer(run[k], steps[k].b);
            Write(steps[k].op, buf.blockno, buf.data) in run[j].txns[i]
  {
    assert Next(l, run[k], steps[k], run[k + 1]);
    var buf := Buffer(run[k], steps[k].b);
    var w := Write(steps[k].op, buf.blockno, buf.data);
    assert run[k + 1].pending == run[k].pending + [w];
    Fate(l, base, run, steps, k + 1, j, w);
    RunWhole(l, base, run, steps, j);
  }

  // ---------- a finished operation is committed ----------

  /** With no operation open, no commit running and recovery over, nothing is left to commit. */
  ghost predicate Settled(s: State) {
    s.active == {} && !s.committing && !Recovering(s.pc) ==> s.pending == [] && s.lh == []
  }

  lemma EndOpSettles(s: State, op: nat, s': State)
    requires EndOp(s, op, s') && |s.active| == s.outstanding
    ensures Settled(s')
  {
    assert |s.active - {op}| == |s.active| - 1;
  }

  /** The commit and recovery end with an empty log and nothing pending. */
  lemma CommitterSettles(l: Layout, base: seq<Block>, s: State, step: Step, s': State)
    requires Inv(l, base, s) && Next(l, s, step, s') && Settled(s) && (ByCommitter(step) || step.FinishStep?)
    ensures Settled(s')
  {
  }

  lemma OthersSettle(l: Layout, base: seq<Block>, s: State, step: Step, s': State)
    requires Inv(l, base, s) && Next(l, s, step, s') && Settled(s)
    requires !ByCommitter(step) && !step.FinishStep? && !step.EndOpStep?
    ensures Settled(s')
  {
  }

  lemma SettledStep(l: Layout, base: seq<Block>, s: State, step: Step, s': State)
    requires Inv(l, base, s) && Next(l, s, step, s') && Settled(s)
    ensures Settled(s')
  {
    if step.EndOpStep? {
      EndOpSettles(s, step.op, s');
    } else if ByCommitter(step) || step.FinishStep? {
      CommitterSettles(l, base, s, step, s');
    } else {
      OthersSettle(l, base, s, step, s');
    }
  }

  lemma SettledNext(l: Layout, base: seq<Block>, run: seq<State>, steps: seq<Step>, k: nat)
    requires IsRun(l, base, run, steps) && k < |steps| && Settled(run[k])
    ensures Settled(run[k + 1])
  {
    RunInv(l, base, run, steps, k);
    SettledStep(l, base, run[k], steps[k], run[k + 1]);
  }

  /** In every reachable state in which no operation is open, no commit runs and recovery is over, every
      log_write has been committed and the log is empty. */
  lemma {:induction false} NothingLeftBehind(l: Layout, base: seq<Block>, run: seq<State>, steps: seq<Step>, k: nat)
    requires IsRun(l, base, run, steps) && k < |run|
    ensures Settled(run[k])
  {
    if k > 0 {
      NothingLeftBehind(l, base, run, steps, k - 1);
      SettledNext(l, base, run, steps, k - 1);
    }
  }

  /** Without a crash a log_write waits for its commit or is in one; it is not lost. */
  lemma {:induction false} Kept(l: Layout, base: seq<Block>, run: seq<State>, steps: seq<Step>, k: nat, j: nat,
                                w: Write)
    requires IsRun(l, base, run, steps) && k <= j < |run| && w in run[k].pending
    requires forall i :: k <= i < j ==> !steps[i].CrashStep?
    ensures w in run[j].pending || Durable(run[j], w)
  {
    if j > k {
      Kept(l, base, run, steps, k, j - 1, w);
      RunMoves(l, base, run, steps, j - 1);
      KeptStep(run[j - 1], steps[j - 1], run[j], w);
    }
  }

  lemma KeptStep(s: State, step: Step, s': State, w: Write)
    requires Moves(s, step, s') && !step.CrashStep? && (w in s.pending || Durable(s, w))
    ensures w in s'.pending || Durable(s', w)
  {
    if Durable(s, w) {
      var i: nat :| i < |s.txns| && w in s.txns[i];
      assert s'.txns[i] == s.txns[i];
    } else if step.WriteHeadStep? {
      assert w in s'.txns[|s.txns|];
    } else if step.LogWriteStep? {
      assert w in s'.pending[..|s.pending|];
    }
  }

  /** What log_write recorded at step k is committed once all operations have ended and the commit is
      over, unless there was a crash in between; then CrashSafe makes it survive any later crash. */
  lemma FinishedIsDurable(l: Layout, base: seq<Block>, run: seq<State>, steps: seq<Step>, k: nat, j: nat)
    requires IsRun(l, base, run, steps) && k < |steps| && steps[k].LogWriteStep? && k < j < |run|
    requires forall i :: k <= i < j ==> !steps[i].CrashStep?
    requires run[j].active == {} && !run[j].committing && !Recovering(run[j].pc)
    ensures steps[k].b < |run[k].cache.bufs|
    ensures var buf := Buffer(run[k], steps[k].b);
            Durable(run[j], Write(steps[k].op, buf.blockno, buf.data))
  {
    assert Next(l, run[k], steps[k], run[k + 1]);
    var buf := Buffer(run[k], steps[k].b);
    var w := Write(steps[k].op, buf.blockno, buf.data);
    assert run[k + 1].pending == run[k].pending + [w];
    Kept(l, base, run, steps, k + 1, j, w);
    NothingLeftBehind(l, base, run, steps, j);
  }

  /** The steps a commit or recovery has still to take, for a log of n blocks. */
  function Work(pc: Pc, n: nat): int {
    match pc
    case Boot => 2 * LOGSIZE + 3
    case Idle => 0
    case Logging(i, to) => 4 * n - 2 * i + 5 - (if to.Some? then 1 else 0)
    case Heading(_) => 2 * n + 4
    case Installing(rec, i, to) => 2 * (n - i) + (if rec then 2 else 3) - (if to.Some? then 1 else 0)
    case Clearing(rec, _) => if rec then 1 else 2
    case Done => 1
  }

  /** Every step of the committer brings the commit, or recovery, nearer to its end, which is where none is
      left: a commit of n blocks takes 4n + 5 steps, and then a new operation can begin. */
  lemma CommitProgress(l: Layout, base: seq<Block>, run: seq<State>, steps: seq<Step>, k: nat)
    requires IsRun(l, base, run, steps) && k < |steps| && (ByCommitter(steps[k]) || steps[k].FinishStep?)
    ensures Work(run[k + 1].pc, |run[k + 1].lh|) < Work(run[k].pc, |run[k].lh|)
  {
    ProgressStep(l, run[k], steps[k], run[k + 1]);
  }

  lemma ProgressStep(l: Layout, s: State, step: Step, s': State)
    requires Next(l, s, step, s') && (ByCommitter(step) || step.FinishStep?)
    ensures Work(s'.pc, |s'.lh|) < Work(s.pc, |s.lh|)
  {
  }

  lemma WorkLeft(l: Layout, base: seq<Block>, run: seq<State>, steps: seq<Step>, k: nat)
    requires IsRun(l, base, run, steps) && k < |run|
    ensures Work(run[k].pc, |run[k].lh|) >= 0
    ensures Work(run[k].pc, |run[k].lh|) == 0 <==> run[k].pc.Idle?
    ensures run[k].pc.Idle? ==> !run[k].committing && !Recovering(run[k].pc)
  {
    RunPlace(l, base, run, steps, k);
  }

  lemma RunPlace(l: Layout, base: seq<Block>, run: seq<State>, steps: seq<Step>, k: nat)
    requires IsRun(l, base, run, steps) && k < |run|
    ensures run[k].pc.Logging? || run[k].pc.Installing? ==>
              run[k].pc.i <= |run[k].lh| && (run[k].pc.to.Some? ==> run[k].pc.i < |run[k].lh|)
    ensures run[k].pc.Idle? ==> !run[k].committing
  {
    RunInv(l, base, run, steps, k);
  }

  /** begin_op admits at most LOGSIZE / MAXOPBLOCKS operations at a time. */
  lemma {:induction false} FewOperations(l: Layout, base: seq<Block>, run: seq<State>, steps: seq<Step>, k: nat)
    requires IsRun(l, base, run, steps) && k < |run|
    ensures run[k].outstanding * MAXOPBLOCKS <= LOGSIZE
  {
    if k > 0 {
      FewOperations(l, base, run, steps, k - 1);
      RunOutstanding(l, base, run, steps, k - 1);
    }
  }

  lemma RunOutstanding(l: Layout, base: seq<Block>, run: seq<State>, steps: seq<Step>, k: nat)
    requires IsRun(l, base, run, steps) && k < |steps|
    ensures run[k + 1].outstanding <= run[k].outstanding || run[k + 1].outstanding * MAXOPBLOCKS <= LOGSIZE
  {
    assert Next(l, run[k], steps[k], run[k + 1]);
  }

  // ---------- whether bget finds a buffer ----------

  lemma {:induction false} ElementsBound(s: seq<nat>)
    ensures |Elements(s)| <= |s|
  {
    if s != [] {
      ElementsBound(s[..|s| - 1]);
      assert Elements(s) == Elements(s[..|s| - 1]) + {s[|s| - 1]};
    }
  }

  function Numbers(bufs: seq<Buf>): (ns: seq<nat>)
    ensures |ns| == |bufs| && forall b: nat :: b < |bufs| ==> ns[b] == bufs[b].blockno
  {
    seq(|bufs|, b requires 0 <= b < |bufs| => bufs[b].blockno)
  }

  /** All buffers pinned: at least as many logged blocks as buffers. */
  lemma AllPinned(c: Cache, pins: seq<nat>)
    requires CacheOk(c) && Unique(c) && Distinct(pins)
    requires forall b: nat :: b < NBUF ==> c.bufs[b].dev == ROOTDEV && c.bufs[b].blockno in pins
    ensures |pins| >= NBUF
  {
    var ns := Numbers(c.bufs);
    DistinctSize(ns);
    DistinctSize(pins);
    SubsetSize(Elements(ns), Elements(pins));
  }

  /** Buffer f not pinned: the pins are in the others. */
  lemma OneUnpinned(bufs: seq<Buf>, pins: seq<nat>, f: nat)
    requires Distinct(pins) && PinsCached(bufs, pins) && f < |bufs|
             && !(bufs[f].dev == ROOTDEV && bufs[f].blockno in pins)
    ensures |pins| < |bufs|
  {
    var others := bufs[..f] + bufs[f + 1..];
    var ns := Numbers(others);
    forall x | x in pins ensures x in ns {
      var b: nat :| b < |bufs| && Holds(bufs[b], ROOTDEV, x) && bufs[b].valid;
      assert bufs[b] == others[if b < f then b else b - 1];
    }
    ElementsBound(ns);
    DistinctSize(pins);
    SubsetSize(Elements(pins), Elements(ns));
  }

  /** When nobody else holds a buffer, bget finds one to recycle, and does not panic, exactly if fewer
      blocks are pinned by the log than there are buffers.  NBUF is LOGSIZE: in a log with more than
      LOGSIZE blocks a full transaction leaves write_log none for the log's own blocks. */
  lemma SpareBufferIff(l: Layout, base: seq<Block>, run: seq<State>, steps: seq<Step>, k: nat)
    requires IsRun(l, base, run, steps) && k < |run| && run[k].holder == map[] && run[k].waiting == multiset{}
    ensures |run[k].cache.bufs| == NBUF
    ensures (exists b: nat :: b < NBUF && run[k].cache.bufs[b].refcnt == 0) <==> |Pins(run[k].pc, run[k].lh)| < NBUF
    ensures l.size <= LOGSIZE ==> |Pins(run[k].pc, run[k].lh)| < NBUF
  {
    RunPins(l, base, run, steps, k);
    var s := run[k];
    SpareIff(s.cache, Pins(s.pc, s.lh));
  }

  lemma SpareIff(c: Cache, pins: seq<nat>)
    requires CacheOk(c) && Unique(c) && Distinct(pins) && PinsCached(c.bufs, pins)
             && Refs(c.bufs, map[], multiset{}, pins)
    ensures (exists b: nat :: b < NBUF && c.bufs[b].refcnt == 0) <==> |pins| < NBUF
  {
    if b: nat :| b < NBUF && c.bufs[b].refcnt == 0 {
      OneUnpinned(c.bufs, pins, b);
    } else {
      AllPinned(c, pins);
    }
  }

  lemma RunPins(l: Layout, base: seq<Block>, run: seq<State>, steps: seq<Step>, k: nat)
    requires IsRun(l, base, run, steps) && k < |run|
    ensures var s := run[k];
            var pins := Pins(s.pc, s.lh);
            && CacheOk(s.cache) && Unique(s.cache) && Refs(s.cache.bufs, s.holder, s.waiting, pins)
               && PinsCached(s.cache.bufs, pins)
            && Distinct(pins) && |pins| < l.size
  {
    RunInv(l, base, run, steps, k);
    assert LogOk(l, run[k].lh);
  }

  /** end_op's panic cannot fire: no operation is inside a transaction while a commit runs. */
  lemma NoOpWhileCommitting(l: Layout, base: seq<Block>, run: seq<State>, steps: seq<Step>, k: nat, op: nat)
    requires IsRun(l, base, run, steps) && k < |run| && op in run[k].active
    ensures !run[k].committing && run[k].outstanding >= 1
  {
    RunInv(l, base, run, steps, k);
  }
}
