/**
 The same program with eight buffers and asynchronous input and output. A read fills its buffer, and a write changes
 the output file, when the operation is found complete. Which operations are found complete in a pass is up to a
 function the caller gives, so the result holds for every order of completion.
 */
module Rot13Async {
  import opened CText
  import opened Rot13

  const NBUF: nat := 8

  datatype Op = UNUSED | READ_PENDING | WRITE_PENDING

  /** Buffers with an operation under way. */
  function Busy(op: seq<Op>): nat {
    if op == [] then 0 else Busy(op[..|op| - 1]) + if op[|op| - 1] == UNUSED then 0 else 1
  }

  /** Completions still to come. */
  function Weight(op: seq<Op>): nat {
    if op == [] then 0
    else Weight(op[..|op| - 1]) + match op[|op| - 1] { case UNUSED => 0 case READ_PENDING => 2 case WRITE_PENDING => 1 }
  }

  lemma {:induction false} CountsPut(op: seq<Op>, i: nat, o: Op)
    requires i < |op|
    ensures Busy(op[i := o]) - Busy(op) == (if o == UNUSED then 0 else 1) - (if op[i] == UNUSED then 0 else 1)
    ensures Weight(op[i := o]) - Weight(op) == Weight([o]) - Weight([op[i]])
    ensures Weight([UNUSED]) == 0 && Weight([READ_PENDING]) == 2 && Weight([WRITE_PENDING]) == 1
  {
    var n := |op| - 1;
    assert [o][..0] == [] && [op[i]][..0] == [];
    assert [UNUSED][..0] == [] && [READ_PENDING][..0] == [] && [WRITE_PENDING][..0] == [];
    if i < n {
      CountsPut(op[..n], i, o);
      assert op[i := o][..n] == op[..n][i := o];
    } else {
      assert op[i := o][..n] == op[..n];
    }
  }

  lemma {:induction false} BusyZero(op: seq<Op>)
    ensures Busy(op) == 0 <==> forall i :: 0 <= i < |op| ==> op[i] == UNUSED
  {
    if op != [] { BusyZero(op[..|op| - 1]); }
  }

  // ---- Files ----

  function Zeros(n: nat): seq<Byte> { seq(n, i => 0) }

  /** A write at `pos`; a gap behind the end reads as zeros. */
  function WriteAt(file: seq<Byte>, pos: nat, bytes: seq<Byte>): seq<Byte> {
    var f := if |file| < pos then file + Zeros(pos - |file|) else file;
    if pos + |bytes| <= |f| then f[..pos] + bytes + f[pos + |bytes|..] else f[..pos] + bytes
  }

  function BlockLen(input: seq<Byte>, b: nat): nat {
    if BSZ * b >= |input| then 0 else if |input| - BSZ * b < BSZ then |input| - BSZ * b else BSZ
  }

  function Block(input: seq<Byte>, b: nat): seq<Byte>
    requires BSZ * b <= |input|
  {
    input[BSZ * b..BSZ * b + BlockLen(input, b)]
  }

  /** Block b of the output is the translation of block b of the input. */
  ghost predicate Written(input: seq<Byte>, out: seq<Byte>, b: nat) {
    && BSZ * b <= |input| && BSZ * b + BlockLen(input, b) <= |out|
    && out[BSZ * b..BSZ * b + BlockLen(input, b)] == Rot(Block(input, b))
  }

  /** A write leaves every old byte outside its stretch in place. */
  lemma WriteElsewhere(file: seq<Byte>, pos: nat, bytes: seq<Byte>, k: nat)
    requires k < |file| && (k < pos || pos + |bytes| <= k)
    ensures k < |WriteAt(file, pos, bytes)| && WriteAt(file, pos, bytes)[k] == file[k]
  {
    var f := if |file| < pos then file + Zeros(pos - |file|) else file;
    assert f[k] == file[k];
    if k < pos {
      assert f[..pos][k] == f[k];
    } else {
      var back := f[pos + |bytes|..];
      assert back[k - pos - |bytes|] == f[k];
    }
  }

  lemma WriteBlock(input: seq<Byte>, out: seq<Byte>, b: nat, c: nat)
    requires BSZ * b < |input| && |out| <= |input|
    ensures var out' := WriteAt(out, BSZ * b, Rot(Block(input, b)));
            |out'| <= |input| && Written(input, out', b) && (Written(input, out, c) ==> Written(input, out', c))
  {
    var pos, bytes := BSZ * b, Rot(Block(input, b));
    var out' := WriteAt(out, pos, bytes);
    assert out'[pos..pos + |bytes|] == bytes;
    if Written(input, out, c) && c != b {
      var at, len := BSZ * c, BlockLen(input, c);
      assert at + len <= pos || pos + |bytes| <= at;
      forall k | at <= k < at + len ensures k < |out'| && out'[k] == out[k] {
        WriteElsewhere(out, pos, bytes, k);
      }
      assert out'[at..at + len] == out[at..at + len];
    }
  }

  lemma ByteWritten(input: seq<Byte>, out: seq<Byte>, k: nat)
    requires k < |input| && Written(input, out, k / BSZ)
    ensures k < |out| && out[k] == Translate(input[k])
  {
    var b := k / BSZ;
    var j := k - BSZ * b;
    assert out[k] == out[BSZ * b..BSZ * b + BlockLen(input, b)][j];
    assert Block(input, b)[j] == input[k];
  }

  /** When every block is written the file is done. */
  lemma AllWritten(input: seq<Byte>, out: seq<Byte>)
    requires |out| <= |input| && forall b: nat {:trigger Written(input, out, b)} :: BSZ * b < |input| ==>
             Written(input, out, b)
    ensures out == Rot(input)
  {
    forall k | 0 <= k < |input| ensures k < |out| && out[k] == Translate(input[k]) {
      assert Written(input, out, k / BSZ);
      ByteWritten(input, out, k);
    }
    if |input| > 0 {
      assert Written(input, out, (|input| - 1) / BSZ);
      ByteWritten(input, out, |input| - 1);
    }
  }

  method NewBuffers() returns (d: seq<array<Byte>>)
    ensures |d| == NBUF && fresh(d)
    ensures forall i :: 0 <= i < NBUF ==> d[i].Length == BSZ
    ensures forall i, j :: 0 <= i < j < NBUF ==> d[i] != d[j]
  {
    d := [];
    while |d| < NBUF
      invariant |d| <= NBUF && fresh(d)
      invariant forall i :: 0 <= i < |d| ==> d[i].Length == BSZ
      invariant forall i, j :: 0 <= i < j < |d| ==> d[i] != d[j]
    {
      var b := new Byte[BSZ](i => 0);
      d := d + [b];
    }
  }

  /** Every block begun is in exactly one buffer, or has been written exactly once. */
  ghost predicate Blocks(input: seq<Byte>, out: seq<Byte>, op: seq<Op>, blk: seq<nat>, next: nat, log: seq<nat>)
    requires |op| == |blk|
  {
    && (forall i, j :: 0 <= i < j < |op| && op[i] != UNUSED && op[j] != UNUSED ==> blk[i] != blk[j])
    && (forall i :: 0 <= i < |op| && op[i] != UNUSED ==> blk[i] !in log && blk[i] < next)
    && (forall i, j :: 0 <= i < j < |log| ==> log[i] != log[j])
    && (forall b: nat {:trigger InInput(input, b)} :: b < next ==> InInput(input, b))
    && (forall b: nat {:trigger b in log} :: b in log ==> b < next && Written(input, out, b))
    && (forall b: nat {:trigger InBuffer(op, blk, b)} :: b < next && b !in log ==> InBuffer(op, blk, b))
  }

  predicate InInput(input: seq<Byte>, b: nat) { BSZ * b < |input| }

  ghost predicate InBuffer(op: seq<Op>, blk: seq<nat>, b: nat)
    requires |op| == |blk|
  {
    exists i :: 0 <= i < |op| && op[i] != UNUSED && blk[i] == b
  }

  lemma InBufferPut(op: seq<Op>, blk: seq<nat>, i: nat, o: Op, c: nat, b: nat)
    requires |op| == |blk| && i < |op| && InBuffer(op, blk, b)
    requires op[i] == UNUSED || (blk[i] == c && o != UNUSED) || blk[i] != b
    ensures InBuffer(op[i := o], blk[i := c], b)
  {
    var k :| 0 <= k < |op| && op[k] != UNUSED && blk[k] == b;
    assert op[i := o][k] != UNUSED && blk[i := c][k] == b;
  }

  lemma BlocksBegin(input: seq<Byte>, out: seq<Byte>, op: seq<Op>, blk: seq<nat>, next: nat, log: seq<nat>, i: nat)
    requires |op| == |blk| && i < |op| && op[i] == UNUSED && Blocks(input, out, op, blk, next, log)
             && BSZ * next < |input|
    ensures Blocks(input, out, op[i := READ_PENDING], blk[i := next], next + 1, log)
  {
    var op', blk' := op[i := READ_PENDING], blk[i := next];
    assert next !in log;
    forall b: nat | b < next + 1 ensures InInput(input, b) { assert b < next ==> InInput(input, b); }
    forall b: nat | b < next + 1 && b !in log ensures InBuffer(op', blk', b) {
      if b < next { InBufferPut(op, blk, i, READ_PENDING, next, b); } else { assert op'[i] != UNUSED && blk'[i] == b; }
    }
  }

  lemma BlocksMove(input: seq<Byte>, out: seq<Byte>, op: seq<Op>, blk: seq<nat>, next: nat, log: seq<nat>, i: nat)
    requires |op| == |blk| && i < |op| && op[i] != UNUSED && Blocks(input, out, op, blk, next, log)
    ensures Blocks(input, out, op[i := WRITE_PENDING], blk, next, log)
  {
    var op' := op[i := WRITE_PENDING];
    assert blk[i := blk[i]] == blk;
    forall b: nat | b < next && b !in log ensures InBuffer(op', blk, b) {
      InBufferPut(op, blk, i, WRITE_PENDING, blk[i], b);
    }
  }

  lemma BlocksFlush(input: seq<Byte>, out: seq<Byte>, op: seq<Op>, blk: seq<nat>, next: nat, log: seq<nat>, i: nat)
    requires |op| == |blk| && i < |op| && op[i] != UNUSED && Blocks(input, out, op, blk, next, log) && |out| <= |input|
    ensures BSZ * blk[i] < |input|
    ensures var out' := WriteAt(out, BSZ * blk[i], Rot(Block(input, blk[i])));
            |out'| <= |input| && Blocks(input, out', op[i := UNUSED], blk, next, log + [blk[i]])
  {
    var b, op', log' := blk[i], op[i := UNUSED], log + [blk[i]];
    assert b !in log && b < next && InInput(input, b);
    WriteBlock(input, out, b, b);
    forall c: nat ensures c in log' <==> c in log || c == b {}
    forall c: nat | c in log' ensures c < next && Written(input, WriteAt(out, BSZ * b, Rot(Block(input, b))), c) {
      WriteBlock(input, out, b, c);
    }
    forall c: nat | c < next && c !in log' ensures InBuffer(op', blk, c) {
      InBufferPut(op, blk, i, UNUSED, b, c);
      assert blk[i := b] == blk;
    }
  }

  /** What a buffer in use says of its block. */
  ghost predicate Held(input: seq<Byte>, op: Op, last: bool, at: nat, nbytes: nat, blk: nat, bytes: seq<Byte>) {
    op != UNUSED ==>
      && at == BSZ * blk < |input| && |bytes| == BSZ
      && (at + BSZ >= |input| ==> last)
      && (op == WRITE_PENDING ==> nbytes == BlockLen(input, blk) && bytes[..nbytes] == Rot(Block(input, blk)))
  }

  class Pipeline {
    const input: seq<Byte>
    const data: seq<array<Byte>>
    var op: seq<Op>
    var last: seq<bool>
    var at: seq<nat>
    var nbytes: seq<nat>
    var off: nat
    var numop: nat
    var out: seq<Byte>

    // The number of the block in each buffer, how many blocks have been begun, and the blocks written, in order
    ghost var blk: seq<nat>
    ghost var next: nat
    ghost var log: seq<nat>

    ghost predicate Shaped()
      reads this
    {
      && |op| == |last| == |at| == |nbytes| == |blk| == |data| == NBUF
      && (forall i :: 0 <= i < NBUF ==> data[i].Length == BSZ)
      && (forall i, j :: 0 <= i < j < NBUF ==> data[i] != data[j])
    }

    ghost predicate Holds(i: nat)
      requires i < NBUF
      requires Shaped()
      reads this, data
    {
      Held(input, op[i], last[i], at[i], nbytes[i], blk[i], data[i][..])
    }

    ghost predicate Valid()
      reads this, data
    {
      && Shaped() && Blocks(input, out, op, blk, next, log)
      && (forall i :: 0 <= i < NBUF ==> Holds(i))
      && off == BSZ * next && off < |input| + BSZ && |out| <= |input|
      && numop == Busy(op)
    }

    function Work(): int
      reads this
    {
      3 * (|input| + BSZ - off) + Weight(op)
    }

    constructor (input: seq<Byte>)
      ensures Valid() && this.input == input && off == 0 && numop == 0 && out == [] && log == [] && fresh(data)
    {
      this.input := input;
      var d := NewBuffers();
      data := d;
      op, last := seq(NBUF, i => UNUSED), seq(NBUF, i => false);
      at, nbytes, blk := seq(NBUF, i => 0), seq(NBUF, i => 0), seq(NBUF, i => 0);
      off, numop, out, next, log := 0, 0, [], 0, [];
      new;
      BusyZero(op);
    }

    /** An unused buffer: begin to read the next block, if there is one. */
    method Begin(i: nat)
      requires Valid() && i < NBUF && op[i] == UNUSED
      modifies this
      ensures Valid() && out == old(out) && log == old(log)
      ensures op == (if old(off) < |input| then old(op)[i := READ_PENDING] else old(op))
      ensures if old(off) < |input| then Work() < old(Work()) && off == old(off) + BSZ
              else Work() == old(Work()) && off == old(off)
    {
      hide Blocks, Busy, Weight, Block, BlockLen, Rot, Written, InInput, InBuffer;
      if off < |input| {
        BlocksBegin(input, out, op, blk, next, log, i);
        CountsPut(op, i, READ_PENDING);
        op := op[i := READ_PENDING];
        at := at[i := off];
        blk := blk[i := next];
        off := off + BSZ;
        next := next + 1;
        nbytes := nbytes[i := BSZ];
        numop := numop + 1;
        last := if off >= |input| then last[i := true] else last;
        assert Holds(i) && Shaped();
        hide Held, Shaped;
        forall k | 0 <= k < NBUF ensures Holds(k) { assert k != i ==> old(Holds(k)); }
      }
    }

    /** A read found complete: translate the buffer and begin to write it. A short read is always the last one. */
    method Translated(i: nat)
      requires Valid() && i < NBUF && op[i] == READ_PENDING
      modifies this, data[i]
      ensures Valid() && out == old(out) && log == old(log) && off == old(off)
      ensures op == old(op)[i := WRITE_PENDING] && Work() == old(Work()) - 1
    {
      hide Blocks, Busy, Weight;
      assert Holds(i);
      var n := Read(input, at[i], data[i]);
      if n != BSZ && !last[i] { assert false; }
      TranslateBuffer(data[i], n);
      assert data[i][..n] == Rot(Block(input, blk[i]));
      BlocksMove(input, out, op, blk, next, log, i);
      CountsPut(op, i, WRITE_PENDING);
      op := op[i := WRITE_PENDING];
      nbytes := nbytes[i := n];
      forall k | 0 <= k < NBUF ensures Holds(k) {
        assert old(Holds(k));
        assert k != i ==> data[k] != data[i] && data[k][..] == old(data[k][..]);
      }
    }

    /** A write found complete: the block is in the file, and the buffer is free again. */
    method Flushed(i: nat)
      requires Valid() && i < NBUF && op[i] == WRITE_PENDING
      modifies this
      ensures BSZ * old(blk)[i] < |input|
      ensures Valid() && log == old(log) + [old(blk)[i]] && off == old(off)
      ensures out == WriteAt(old(out), BSZ * old(blk)[i], Rot(Block(input, old(blk)[i])))
      ensures op == old(op)[i := UNUSED] && Work() == old(Work()) - 1
    {
      hide Blocks, Busy, Weight, WriteAt, Rot;
      ghost var b := blk[i];
      assert Holds(i);
      BlocksFlush(input, out, op, blk, next, log, i);
      out := WriteAt(out, at[i], data[i][..nbytes[i]]);
      CountsPut(op, i, UNUSED);
      assert numop >= 1;
      op := op[i := UNUSED];
      numop := numop - 1;
      log := log + [b];
      forall k | 0 <= k < NBUF ensures Holds(k) { assert old(Holds(k)); }
    }

    /** One pass over the buffers; `done` are those whose operation is found complete. */
    method Pass(done: set<nat>)
      requires Valid()
      modifies this, data
      ensures Valid() && Work() <= old(Work()) && old(log) <= log
      ensures (exists i :: 0 <= i < NBUF && i in done && old(op)[i] != UNUSED) ==> Work() < old(Work())
      ensures old(numop) == 0 && old(off) < |input| ==> Work() < old(Work())
      ensures old(numop) == 0 && old(off) >= |input| ==> numop == 0 && off == old(off)
    {
      hide Blocks, Busy, Weight, WriteAt, Holds;
      var i := 0;
      BusyZero(op);
      while i < NBUF
        invariant i <= NBUF && Valid() && Work() <= old(Work()) && old(log) <= log
        invariant forall j :: i <= j < NBUF ==> op[j] == old(op)[j]
        invariant (exists j :: 0 <= j < i && j in done && old(op)[j] != UNUSED) ==> Work() < old(Work())
        invariant i > 0 && old(numop) == 0 && old(off) < |input| ==> Work() < old(Work())
        invariant i == 0 ==> off == old(off)
        invariant old(numop) == 0 && old(off) >= |input| ==> op == old(op) && off == old(off)
      {
        match op[i] {
          case UNUSED => Begin(i);
          case READ_PENDING => if i in done { Translated(i); }
          case WRITE_PENDING => if i in done { Flushed(i); }
        }
        i := i + 1;
      }
    }

    /** The main loop. `choose` says which operations are complete in each pass; aio_suspend has returned, so one of
        the pending ones is. */
    method Run(choose: (nat, seq<Op>) -> set<nat>)
      requires Valid() && off == 0 && numop == 0 && log == []
      requires forall k: nat, ops: seq<Op> {:trigger choose(k, ops)} :: Busy(ops) > 0 ==> Wakes(choose(k, ops), ops)
      modifies this, data
      ensures out == Rot(input)
      ensures numop == 0 && forall o :: o in op ==> o == UNUSED
      ensures forall i, j :: 0 <= i < j < |log| ==> log[i] != log[j]
      ensures forall b: nat :: b in log <==> BSZ * b < |input|
    {
      var k := 0;
      var running := true;
      while running
        invariant Valid() && (!running ==> numop == 0 && off >= |input|)
        decreases Work(), if running then 1 else 0
      {
        Pass(choose(k, op));
        k := k + 1;
        if numop == 0 && off >= |input| { running := false; }
      }
      BusyZero(op);
      forall b: nat | BSZ * b < |input| ensures Written(input, out, b) && b in log {
        assert b in log || InBuffer(op, blk, b);
      }
      AllWritten(input, out);
    }
  }

  /** aio_suspend returns when at least one pending operation is complete. */
  ghost predicate Wakes(done: set<nat>, ops: seq<Op>) {
    exists i :: 0 <= i < |ops| && i in done && ops[i] != UNUSED
  }

  /** For every input and every order of completion, the asynchronous program writes what the synchronous one does. */
  method Asynchronous(file: seq<Byte>, choose: (nat, seq<Op>) -> set<nat>) returns (out: seq<Byte>)
    requires forall k: nat, ops: seq<Op> {:trigger choose(k, ops)} :: Busy(ops) > 0 ==> Wakes(choose(k, ops), ops)
    ensures out == Rot(file)
  {
    var p := new Pipeline(file);
    p.Run(choose);
    out := p.out;
  }
}
