/** kernel/log.c run by one process: the loops over the header and the order of block writes.

    `trail` is every state the disk has been in, so a crash after any single block write is an
    element of it.  `mem` is what bread returns for each block, the map that module Journal
    proves cache and disk to be. */
module Log {
  import opened Finite
  import opened Bio
  import opened Journal

  /** A disk that recovers to the given home blocks. */
  ghost predicate CrashConsistent(l: Layout, disk: seq<Block>, committed: seq<Block>) {
    && LayoutOk(l) && |disk| == l.nblocks && |committed| == l.nblocks
    && HeaderOk(l, disk) && CrashOk(l, disk, committed)
  }

  /** Differs at most inside the log area, and there not in the header. */
  ghost predicate Untouched(l: Layout, disk: seq<Block>, disk0: seq<Block>) {
    SameHome(l, disk, disk0) && l.start < l.nblocks && disk[l.start] == disk0[l.start]
  }

  /** The log area, header included, reads as it is on disk. */
  ghost predicate LogAreaClean(l: Layout, disk: seq<Block>, mem: seq<Block>) {
    && |disk| == |mem|
    && forall x: nat :: l.start <= x < l.start + l.size && x < |disk| ==> mem[x] == disk[x]
  }

  lemma UntouchedRecovers(l: Layout, disk: seq<Block>, disk0: seq<Block>, committed: seq<Block>)
    requires CrashConsistent(l, disk0, committed) && Untouched(l, disk, disk0) && ReadHeader(disk0[l.start]) == []
    ensures CrashConsistent(l, disk, committed)
  {
  }

  lemma LogWriteResult(lh: seq<nat>, lh': seq<nat>, i: nat, b: nat)
    requires i <= |lh| && b !in lh[..i] && (i < |lh| ==> lh[i] == b)
    requires if i < |lh| then lh' == lh[i := b] else lh' == lh + [b]
    ensures lh' == if b in lh then lh else lh + [b]
  {
    assert i == |lh| ==> lh[..i] == lh;
  }

  class RedoLog {
    const l: Layout
    var disk: seq<Block>
    var mem: seq<Block>
    var n: nat                          // log.lh.n
    var block: array<nat>               // log.lh.block
    var outstanding: nat
    var committing: bool
    ghost var trail: seq<seq<Block>>

    ghost predicate Valid()
      reads this, block
    {
      && LayoutOk(l) && |disk| == l.nblocks && |mem| == l.nblocks
      && block.Length == LOGSIZE && n <= LOGSIZE
      && LogAreaClean(l, disk, mem)
      && |trail| > 0 && trail[|trail|-1] == disk
    }

    function Lh(): seq<nat>
      requires n <= block.Length
      reads this, block
    {
      block[..n]
    }

    /** Fill a buffer and write it: one atomic block write. */
    method Bwrite(b: nat, data: Block)
      requires Valid() && b < l.nblocks
      modifies `disk, `mem, `trail
      ensures Valid()
      ensures disk == old(disk)[b := data] && mem == old(mem)[b := data] && trail == old(trail) + [disk]
    {
      mem := mem[b := data];
      disk := disk[b := data];
      trail := trail + [disk];
    }

    /** begin_op's test; when it is false the caller sleeps and tries again. */
    method BeginOp() returns (admitted: bool)
      requires Valid()
      modifies `outstanding
      ensures Valid()
      ensures admitted == (!committing && n + (old(outstanding) + 1) * MAXOPBLOCKS <= LOGSIZE)
      ensures outstanding == if admitted then old(outstanding) + 1 else old(outstanding)
    {
      if committing {
        admitted := false;
      } else if n + (outstanding + 1) * MAXOPBLOCKS > LOGSIZE {
        admitted := false;
      } else {
        outstanding := outstanding + 1;
        admitted := true;
      }
    }

    /** log_write; `!ok` is one of its panics. */
    method LogWrite(b: nat) returns (ok: bool)
      requires Valid()
      modifies `n, block
      ensures Valid()
      ensures ok == (old(n) < LOGSIZE && old(n) < l.size - 1 && outstanding >= 1)
      ensures ok ==> Lh() == if b in old(Lh()) then old(Lh()) else old(Lh()) + [b]
      ensures !ok ==> Lh() == old(Lh())
    {
      if n >= LOGSIZE || n >= l.size - 1 {
        return false;
      }
      if outstanding < 1 {
        return false;
      }
      ghost var lh := Lh();
      var i := 0;
      while i < n
        invariant 0 <= i <= n
        invariant b !in block[..i]
      {
        if block[i] == b {
          break;
        }
        i := i + 1;
      }
      assert b !in lh[..i];
      block[i] := b;
      if i == n {
        n := n + 1;
      }
      LogWriteResult(lh, Lh(), i, b);
      ok := true;
    }

    /** write_log: n writes into the log area; home blocks and header keep their disk contents. */
    method WriteLog()
      requires Valid() && LogOk(l, Lh())
      modifies `disk, `mem, `trail
      ensures Valid() && Logged(l, disk, old(mem), Lh(), n) && Untouched(l, mem, old(mem))
      ensures |trail| == |old(trail)| + n && trail[..|old(trail)|] == old(trail)
      ensures forall k :: |old(trail)| <= k < |trail| ==> Untouched(l, trail[k], old(disk))
      ensures Untouched(l, disk, old(disk))
    {
      ghost var m, lh := mem, Lh();
      var tail := 0;
      while tail < n
        invariant 0 <= tail <= n
        invariant Valid() && Logged(l, disk, m, lh, tail) && Untouched(l, mem, m)
        invariant |trail| == |old(trail)| + tail && trail[..|old(trail)|] == old(trail)
        invariant forall k :: |old(trail)| <= k < |trail| ==> Untouched(l, trail[k], old(disk))
        invariant Untouched(l, disk, old(disk))
      {
        assert Home(l, lh[tail]) && !Home(l, l.start + tail + 1);
        var from := mem[block[tail]];
        Bwrite(l.start + tail + 1, from);
        tail := tail + 1;
      }
    }

    method WriteHead()
      requires Valid() && forall i :: 0 <= i < n ==> block[i] < 0x1_0000_0000
      modifies `disk, `mem, `trail
      ensures Valid()
      ensures Words(Lh()) && disk == old(disk)[l.start := PutHeader(old(disk)[l.start], Lh())]
      ensures trail == old(trail) + [disk] && SameHome(l, mem, old(mem))
    {
      var hb := mem[l.start];
      ghost var hb0 := hb;
      hb := hb[0 := n as Word];
      var i := 0;
      while i < n
        invariant 0 <= i <= n && |hb| == WORDS
        invariant hb[0] == n && hb[i + 1..] == hb0[i + 1..]
        invariant forall j :: 0 <= j < i ==> hb[1 + j] == block[j]
      {
        hb := hb[1 + i := block[i] as Word];
        i := i + 1;
      }
      assert hb == PutHeader(hb0, Lh());
      Bwrite(l.start, hb);
    }

    method ReadHead()
      requires Valid() && disk[l.start][0] <= LOGSIZE
      modifies `n, block
      ensures Valid() && Lh() == ReadHeader(disk[l.start])
    {
      var lh := mem[l.start];
      n := lh[0];
      var i := 0;
      while i < n
        invariant 0 <= i <= n == lh[0]
        invariant Valid() && block[..i] == lh[1..1 + i]
      {
        block[i] := lh[1 + i];
        i := i + 1;
      }
    }

    /** One turn of install_trans. */
    method InstallAt(tail: nat, ghost committed: seq<Block>)
      requires Valid() && tail < n && Installed(l, disk, mem, committed, Lh(), tail)
      modifies `disk, `mem, `trail
      ensures Valid() && Installed(l, disk, mem, committed, Lh(), tail + 1)
      ensures disk[l.start] == old(disk)[l.start]
      ensures trail == old(trail) + [disk]
    {
      InstallBlock(l, disk, mem, committed, Lh(), tail);
      var lbuf := mem[l.start + tail + 1];
      Bwrite(block[tail], lbuf);
    }

    /** install_trans: every disk state on the way still recovers to `committed`. */
    method InstallTrans(ghost committed: seq<Block>)
      requires Valid() && Installed(l, disk, mem, committed, Lh(), 0)
      modifies `disk, `mem, `trail
      ensures Valid() && Installed(l, disk, mem, committed, Lh(), n) && disk[l.start] == old(disk)[l.start]
      ensures |trail| == |old(trail)| + n && old(trail) <= trail
      ensures AllRecover(l, trail, |old(trail)|, |trail|, committed)
    {
      var tail := 0;
      while tail < n
        invariant 0 <= tail <= n
        invariant Valid() && Installed(l, disk, mem, committed, Lh(), tail) && disk[l.start] == old(disk)[l.start]
        invariant |trail| == |old(trail)| + tail && old(trail) <= trail
        invariant AllRecover(l, trail, |old(trail)|, |trail|, committed)
      {
        InstallAt(tail, committed);
        tail := tail + 1;
      }
    }

    /** The tail that commit and recover_from_log share: install, n = 0, write_head. */
    method InstallAndErase(ghost committed: seq<Block>)
      requires Valid() && Installed(l, disk, mem, committed, Lh(), 0)
      modifies `disk, `mem, `trail, `n
      ensures Valid() && n == 0 && disk[l.start][0] == 0
      ensures SameHome(l, disk, committed) && SameHome(l, mem, committed)
      ensures |trail| == |old(trail)| + old(n) + 1 && old(trail) <= trail
      ensures AllRecover(l, trail, |old(trail)|, |trail|, committed)
    {
      InstallTrans(committed);
      InstalledAtLast(l, disk, mem, committed, Lh());
      n := 0;
      ErasePoint(l, disk, committed, Idle);
      WriteHead();
    }

    /** commit: of its 2n+2 block writes, a crash before the (n+1)-st loses the transaction and a
        crash at or after it keeps all of it. */
    method Commit()
      requires Valid() && LogOk(l, Lh()) && CrashConsistent(l, disk, disk) && ReadHeader(disk[l.start]) == []
      requires Current(l, disk, mem, Lh())
      modifies `disk, `mem, `trail, `n
      ensures Valid() && n == 0 && disk[l.start][0] == 0
      ensures SameHome(l, disk, old(mem)) && SameHome(l, mem, old(mem))
      ensures |trail| == |old(trail)| + (if old(n) == 0 then 0 else 2 * old(n) + 2) && old(trail) <= trail
      ensures AllRecover(l, trail, |old(trail)|, if old(n) == 0 then |trail| else |old(trail)| + old(n), old(disk))
      ensures AllRecover(l, trail, |old(trail)| + old(n), |trail|, old(mem))
    {
      if n > 0 {
        ghost var m, d0, t0 := mem, disk, |trail|;
        WriteLog();
        LosesAll(l, trail, t0, d0);
        CommitPoint(l, disk, m, Lh());
        WriteHead();
        InstalledAtFirst(l, disk, mem, m, Lh());
        InstallAndErase(m);
      }
    }

    /** recover_from_log: the result is Recovered, and a crash on the way changes nothing. */
    method RecoverFromLog()
      requires Valid() && HeaderOk(l, disk) && mem == disk
      modifies `disk, `mem, `trail, `n, block
      ensures Valid() && n == 0 && disk[l.start][0] == 0
      ensures SameHome(l, disk, Recovered(l, old(disk))) && SameHome(l, mem, disk)
      ensures old(trail) <= trail && AllRecover(l, trail, |old(trail)|, |trail|, Recovered(l, old(disk)))
    {
      ghost var c := Recovered(l, disk);
      RecoveredConsistent(l, disk);
      ReadHead();
      InstalledAtFirst(l, disk, mem, c, Lh());
      InstallAndErase(c);
    }
  }

  /** A crash leaving any of these disks recovers to the given home blocks. */
  ghost predicate AllRecover(l: Layout, trail: seq<seq<Block>>, lo: nat, hi: nat, committed: seq<Block>) {
    hi <= |trail| && forall k :: lo <= k < hi ==> CrashConsistent(l, trail[k], committed)
  }

  lemma AllRecoverMeans(l: Layout, trail: seq<seq<Block>>, lo: nat, hi: nat, committed: seq<Block>, k: nat)
    requires AllRecover(l, trail, lo, hi, committed) && lo <= k < hi
    ensures LayoutOk(l) && |trail[k]| == l.nblocks && HeaderOk(l, trail[k])
    ensures SameHome(l, Recovered(l, trail[k]), committed)
  {
    RecoveredIsCommitted(l, trail[k], committed);
  }

  lemma LosesAll(l: Layout, trail: seq<seq<Block>>, t0: nat, d0: seq<Block>)
    requires CrashConsistent(l, d0, d0) && ReadHeader(d0[l.start]) == []
    requires forall k :: t0 <= k < |trail| ==> Untouched(l, trail[k], d0)
    ensures AllRecover(l, trail, t0, |trail|, d0)
  {
    forall k | t0 <= k < |trail| ensures CrashConsistent(l, trail[k], d0) { UntouchedRecovers(l, trail[k], d0, d0); }
  }

  lemma InstalledAtFirst(l: Layout, disk: seq<Block>, mem: seq<Block>, committed: seq<Block>, lh: seq<nat>)
    requires CrashConsistent(l, disk, committed) && ReadHeader(disk[l.start]) == lh && |mem| == l.nblocks
    requires forall x: nat :: Home(l, x) && x !in lh ==> mem[x] == committed[x]
    ensures Installed(l, disk, mem, committed, lh, 0)
  {
    assert lh[0..] == lh;
  }

  lemma InstalledAtLast(l: Layout, disk: seq<Block>, mem: seq<Block>, committed: seq<Block>, lh: seq<nat>)
    requires Installed(l, disk, mem, committed, lh, |lh|)
    ensures SameHome(l, disk, committed) && SameHome(l, mem, committed) && Current(l, disk, committed, [])
  {
    assert lh[|lh|..] == [];
  }

  /** The first i blocks of a committed log are home, on disk and in memory. */
  ghost predicate Installed(l: Layout, disk: seq<Block>, mem: seq<Block>, committed: seq<Block>, lh: seq<nat>, i: nat) {
    && CrashConsistent(l, disk, committed) && ReadHeader(disk[l.start]) == lh && LogOk(l, lh) && i <= |lh|
    && Current(l, disk, committed, lh[i..]) && Current(l, mem, committed, lh[i..])
  }

  lemma InstallBlock(l: Layout, disk: seq<Block>, mem: seq<Block>, committed: seq<Block>, lh: seq<nat>, i: nat)
    requires Installed(l, disk, mem, committed, lh, i) && i < |lh| && LogAreaClean(l, disk, mem)
    ensures l.start + i + 1 < l.nblocks && mem[l.start + i + 1] == committed[lh[i]] && Home(l, lh[i])
    ensures Installed(l, disk[lh[i] := committed[lh[i]]], mem[lh[i] := committed[lh[i]]], committed, lh, i + 1)
    ensures disk[lh[i] := committed[lh[i]]][l.start] == disk[l.start]
  {
    assert ReadHeader(disk[l.start])[i] == lh[i] && Home(l, lh[i]);
    assert mem[l.start + 1 + i] == disk[l.start + 1 + i];
    InstallOne(l, disk, committed, lh, i, false);
    CurrentOne(l, mem, committed, lh, i);
  }

  lemma CurrentOne(l: Layout, mem: seq<Block>, committed: seq<Block>, lh: seq<nat>, i: nat)
    requires i < |lh| && lh[i] < |mem| && Current(l, mem, committed, lh[i..])
    ensures Current(l, mem[lh[i] := committed[lh[i]]], committed, lh[i + 1..])
  {
    assert lh[i..] == [lh[i]] + lh[i + 1..];
  }

  /** A disk is consistent with what recovery makes of it. */
  lemma RecoveredConsistent(l: Layout, disk: seq<Block>)
    requires LayoutOk(l) && |disk| == l.nblocks && HeaderOk(l, disk)
    ensures CrashConsistent(l, disk, Recovered(l, disk))
  {
    var hdr := ReadHeader(disk[l.start]);
    forall x: nat | Home(l, x) && x !in hdr ensures disk[x] == Recovered(l, disk)[x] {
      assert hdr[0..] == hdr;
      InstallLeaves(l, disk, hdr, 0, x);
    }
    forall j | 0 <= j < |hdr| ensures disk[l.start + 1 + j] == Recovered(l, disk)[hdr[j]] {
      InstallCopies(l, disk, hdr, 0, j);
    }
  }
}
