/** A stream over a buffer in memory: the callbacks behind fmemopen. */
module MemStream {
  import opened Options
  import opened CText

  datatype Flags = Flags(read: bool, write: bool, append: bool, truncate: bool)

  // ---- Mode strings ----

  /** A mode is r, w or a, followed by any number of + and b. */
  predicate WellFormed(mode: string) {
    |mode| > 0 && mode[0] in {'r', 'w', 'a'} && forall i :: 1 <= i < |mode| ==> mode[i] in {'+', 'b'}
  }

  function Meaning(mode: string): Flags
    requires |mode| > 0
  {
    var plus := '+' in mode[1..];
    Flags(mode[0] == 'r' || plus, mode[0] == 'w' || plus, mode[0] == 'a', mode[0] == 'w')
  }

  /** type_to_flags: None is the error value 0. */
  method TypeToFlags(mode: string) returns (r: Option<Flags>)
    ensures r == if WellFormed(mode) then Some(Meaning(mode)) else None
  {
    var none := Flags(false, false, false, false);
    var flags := none;
    var i := 0;
    while i < |mode|
      invariant i <= |mode|
      invariant i == 0 ==> flags == none
      invariant i > 0 ==> WellFormed(mode[..i]) && flags == Meaning(mode[..i]) && flags != none
    {
      assert mode[..i + 1] == mode[..i] + [mode[i]];
      assert i > 0 ==> mode[..i + 1][1..] == mode[..i][1..] + [mode[i]];
      match mode[i] {
        case 'r' =>
          if flags != none { return None; }
          flags := flags.(read := true);
        case 'w' =>
          if flags != none { return None; }
          flags := flags.(write := true, truncate := true);
        case 'a' =>
          if flags != none { return None; }
          flags := flags.(append := true);
        case '+' =>
          if flags == none { return None; }
          flags := flags.(read := true, write := true);
        case 'b' =>
          if flags == none { return None; }
        case _ => return None;
      }
      i := i + 1;
    }
    assert mode[..i] == mode;
    r := if flags == none then None else Some(flags);
  }

  /** What the usual modes mean. */
  lemma Modes()
    ensures Meaning("r") == Meaning("rb") == Flags(true, false, false, false)
    ensures Meaning("w") == Meaning("wb") == Flags(false, true, false, true)
    ensures Meaning("a") == Meaning("ab") == Flags(false, false, true, false)
    ensures Meaning("r+") == Meaning("rb+") == Meaning("r+b") == Flags(true, true, false, false)
    ensures Meaning("w+") == Meaning("wb+") == Meaning("w+b") == Flags(true, true, false, true)
    ensures Meaning("a+") == Meaning("ab+") == Meaning("a+b") == Flags(true, true, true, false)
    ensures WellFormed("w+b") && !WellFormed("") && !WellFormed("+r") && !WellFormed("rw") && !WellFormed("b")
  {
    assert "r+"[1..] == "w+"[1..] == "a+"[1..] == "+";
    assert "rb+"[1..] == "wb+"[1..] == "ab+"[1..] == "b+" && "r+b"[1..] == "w+b"[1..] == "a+b"[1..] == "+b";
    assert "rb"[1..] == "wb"[1..] == "ab"[1..] == "b" && "r"[1..] == "w"[1..] == "a"[1..] == "";
    assert '+' == "+"[0] == "b+"[1] == "+b"[0];
    assert "rw"[1] == 'w' && "+r"[0] == '+' && "b"[0] == 'b';
  }

  // ---- The file a stream stands for ----

  /** The bytes up to the virtual size, a position, and the room there is. */
  datatype File = File(content: seq<Byte>, pos: nat, room: nat)

  function Min(a: int, b: int): int { if a < b then a else b }

  predicate Sane(f: File) { f.pos <= |f.content| <= f.room }

  function Reading(f: File, len: nat): (r: (File, seq<Byte>))
    requires Sane(f)
    ensures Sane(r.0)
  {
    var n := Min(len, |f.content| - f.pos);
    (f.(pos := f.pos + n), f.content[f.pos..f.pos + n])
  }

  /** Bytes over or behind the old ones, as many as fit. */
  function Writing(f: File, append: bool, data: seq<Byte>): (r: (File, nat))
    requires Sane(f)
    ensures Sane(r.0)
  {
    var off := if append then |f.content| else f.pos;
    var n := Min(|data|, f.room - off);
    var tail := if off + n < |f.content| then f.content[off + n..] else [];
    (f.(content := f.content[..off] + data[..n] + tail, pos := off + n), n)
  }

  datatype Whence = SeekSet | SeekEnd | SeekCur

  function Seeking(f: File, pos: int, whence: Whence): (r: (File, int))
    requires Sane(f)
    ensures Sane(r.0)
  {
    var off := match whence { case SeekSet => pos case SeekEnd => |f.content| + pos case SeekCur => f.pos + pos };
    if off < 0 || off > |f.content| then (f, -1) else (f.(pos := off), off)
  }

  /** A read gives what follows the position, as much as is asked for or there is, and changes nothing else. */
  lemma ReadIsNext(f: File, len: nat)
    requires Sane(f)
    ensures var (f', data) := Reading(f, len);
            && data <= f.content[f.pos..] && |data| <= len && f'.pos == f.pos + |data|
            && (|data| == len || f'.pos == |f.content|) && f'.content == f.content && f'.room == f.room
  {
    var (f', data) := Reading(f, len);
    assert f.content[f.pos..][..|data|] == data;
  }

  /** Where a seek goes, and when it refuses; it changes nothing but the position. */
  lemma SeekTargets(f: File, pos: int, whence: Whence)
    requires Sane(f)
    ensures var (f', r) := Seeking(f, pos, whence);
            && f'.content == f.content && f'.room == f.room && f'.pos == (if r == -1 then f.pos else r)
            && (whence == SeekSet ==> r == if 0 <= pos <= |f.content| then pos else -1)
    // SeekCur counts from the position: 0 answers where the stream stands
    ensures Seeking(f, 0, SeekCur) == (f, f.pos)
    ensures 0 <= pos <= |f.content| ==>
              forall d ::
                var (g, r) := Seeking(Seeking(f, pos, SeekSet).0, d, SeekCur);
                r == Seeking(f, pos + d, SeekSet).1 && (r != -1 ==> g == Seeking(f, pos + d, SeekSet).0)
    // SeekEnd counts from the end: after 0 there is nothing to read
    ensures Seeking(f, pos, SeekEnd) == Seeking(f, |f.content| + pos, SeekSet)
    ensures Seeking(f, 0, SeekEnd).1 == |f.content|
    ensures forall len: nat :: Reading(Seeking(f, 0, SeekEnd).0, len).1 == []
  {
    assert f.(pos := f.pos) == f;
  }

  /** A seek back over what was just read undoes the read. */
  lemma SeekUndoesRead(f: File, len: nat)
    requires Sane(f)
    ensures var (f', data) := Reading(f, len); Seeking(f', -|data|, SeekCur) == (f, f.pos)
  {
    assert Reading(f, len).0.(pos := f.pos) == f;
  }

  /** What is written can be read back: seek to where the write began, and read. */
  lemma WriteThenRead(f: File, append: bool, data: seq<Byte>)
    requires Sane(f)
    ensures var (f', n) := Writing(f, append, data);
            var start := f'.pos - n;
            start >= 0 && Seeking(f', start, SeekSet).1 == start
            && Reading(Seeking(f', start, SeekSet).0, n) == (f', data[..n])
  {
    var (f', n) := Writing(f, append, data);
    var start := f'.pos - n;
    assert f'.content[start..start + n] == data[..n];
  }

  /** Everything that fits is written, and every byte outside the written stretch stays. */
  lemma WriteIsLocal(f: File, append: bool, data: seq<Byte>, k: nat)
    requires Sane(f) && k < |f.content|
    ensures var (f', n) := Writing(f, append, data);
            && f'.pos == n + (if append then |f.content| else f.pos) && f'.content[f'.pos - n..f'.pos] == data[..n]
            && |f'.content| == (if f'.pos > |f.content| then f'.pos else |f.content|)
            && (n == |data| || f'.pos == f.room) && f'.room == f.room
            && (k < f'.pos - n || k >= f'.pos ==> f'.content[k] == f.content[k])
            && (append ==> f'.content[..|f.content|] == f.content && f'.pos == |f'.content|)
  {
    var off := if append then |f.content| else f.pos;
    var (f', n) := Writing(f, append, data);
    var head, put, after := f.content[..off], data[..n], if off + n < |f.content| then f.content[off + n..] else [];
    assert f'.content == head + put + after && f'.pos == off + n;
    if k < off {
      assert f'.content[k] == head[k];
    } else if k >= off + n {
      assert f'.content[k] == after[k - off - n];
    }
    if append {
      assert after == [] && head == f.content;
    }
  }

  /** What copying into the buffer does to the content. */
  lemma Landed(before: seq<Byte>, after: seq<Byte>, vsize: nat, pos: nat, append: bool, data: seq<Byte>)
    requires pos <= vsize <= |before| == |after|
    requires var off := if append then vsize else pos;
             var n := Min(|data|, |before| - off);
             after == before[..off] + data[..n] + before[off + n..]
    ensures var f := Writing(File(before[..vsize], pos, |before|), append, data).0;
            |f.content| <= |after| && after[..|f.content|] == f.content
            && |f.content| == if f.pos > vsize then f.pos else vsize
  {
    var content := before[..vsize];
    var off := if append then vsize else pos;
    var n := Min(|data|, |before| - off);
    var f := Writing(File(content, pos, |before|), append, data).0;
    assert content[..off] == before[..off];
    if off + n < vsize {
      assert content[off + n..] == before[off + n..vsize];
    }
    assert after[..|f.content|] == f.content;
  }

  // ---- The stream ----

  class Stream {
    const buf: array<Byte>
    const rsize: nat
    const flags: Flags
    var vsize: nat
    var curpos: nat

    ghost predicate Valid()
      reads this
    {
      buf.Length == rsize > 0 && curpos <= vsize <= rsize
    }

    ghost function Abs(): File
      requires Valid()
      reads this, buf
    {
      File(buf[..vsize], curpos, rsize)
    }

    /** fmemopen, for a size and a mode that are accepted. `given` is the caller's buffer, or a new one. */
    constructor (given: array<Byte>, flags: Flags, own: bool)
      requires given.Length > 0
      ensures Valid() && buf == given && this.flags == flags
      ensures flags.append && !own ==>
                && vsize == curpos && (forall i :: 0 <= i < curpos ==> given[i] != 0)
                && (curpos < given.Length ==> given[curpos] == 0)
      ensures flags.append && own ==> vsize == curpos == 0
      ensures !flags.append ==> curpos == 0 && vsize == if flags.truncate then 0 else given.Length
    {
      buf, rsize := given, given.Length;
      this.flags := flags;
      var pos: nat := 0;
      if !own && flags.append {
        // find_end
        while pos < given.Length && given[pos] != 0
          invariant pos <= given.Length && forall i :: 0 <= i < pos ==> given[i] != 0
        {
          pos := pos + 1;
        }
      }
      curpos := pos;
      vsize := if flags.append then pos else if flags.truncate then 0 else given.Length;
    }

    /** mstream_read */
    method Read(len: nat) returns (r: Option<seq<Byte>>)
      requires Valid()
      modifies `curpos
      ensures Valid() && (r.Some? <==> flags.read)
      ensures if flags.read then (Abs(), r.value) == Reading(old(Abs()), len) else Abs() == old(Abs())
    {
      if !flags.read { return None; }
      if curpos >= vsize {
        assert Reading(Abs(), len).1 == [];
        return Some([]);
      }
      var nr := Min(len, vsize - curpos);
      assert buf[..vsize][curpos..curpos + nr] == buf[curpos..curpos + nr];
      r := Some(buf[curpos..curpos + nr]);
      curpos := curpos + nr;
    }

    /** memcpy into the buffer. */
    method Copy(off: nat, data: seq<Byte>, n: nat)
      requires Valid() && n <= |data| && off + n <= rsize
      modifies buf
      ensures buf[..] == old(buf[..off]) + data[..n] + old(buf[off + n..])
      ensures forall k :: off + n <= k < rsize ==> buf[k] == old(buf[k])
    {
      var i := 0;
      while i < n
        invariant i <= n
        invariant forall k :: 0 <= k < rsize ==> buf[k] == if off <= k < off + i then data[k - off] else old(buf[k])
      {
        buf[off + i] := data[i];
        i := i + 1;
      }
      assert buf[off..off + n] == data[..n];
      assert buf[..] == buf[..off] + buf[off..off + n] + buf[off + n..];
    }

    /** The null that mstream_write stores behind what it wrote, when the mode asks for one. */
    method Terminate(grew: bool)
      requires Valid() && (flags.append || flags.write)
      modifies buf
      ensures flags.read ==> buf[..vsize] == old(buf[..vsize])
      ensures grew && flags.read && flags.write && vsize < rsize ==> buf[vsize] == 0
      ensures forall k :: vsize < k < rsize ==> buf[k] == old(buf[k])
      ensures !flags.read ==>
                var z := if curpos < rsize then curpos else rsize - 1;
                buf[z] == 0 && buf[..vsize] == if z < vsize then old(buf[..vsize])[z := 0] else old(buf[..vsize])
    {
      if grew && flags.read && flags.write && vsize < rsize { buf[vsize] := 0; }
      if (flags.write || flags.append) && !flags.read {
        if curpos < rsize { buf[curpos] := 0; } else { buf[rsize - 1] := 0; }
      }
    }

    /** mstream_write. Only in the modes that cannot read does the null ever hit the content. */
    method Write(data: seq<Byte>) returns (r: Option<nat>)
      requires Valid()
      modifies this, buf
      ensures Valid() && (r.Some? <==> flags.append || flags.write)
      ensures r.None? ==> Abs() == old(Abs())
      ensures r.Some? ==>
                var (f, n) := Writing(old(Abs()), flags.append, data);
                && r.value == n && curpos == f.pos && vsize == |f.content|
                && (flags.read ==> Abs() == f)
                && (!flags.read ==>
                      var z := if curpos < rsize then curpos else rsize - 1;
                      buf[z] == 0 && Abs().content == if z < vsize then f.content[z := 0] else f.content)
      // behind the content nothing changes but for one null, which the modes with a plus get when the content grows
      ensures flags.read && flags.write && vsize > old(vsize) && vsize < rsize ==> buf[vsize] == 0
      ensures forall k :: vsize < k < rsize ==> buf[k] == old(buf[k])
    {
      if !flags.append && !flags.write { return None; }
      var off := if flags.append then vsize else curpos;
      var nw := Min(|data|, rsize - off);
      ghost var before := buf[..];
      Copy(off, data, nw);
      Landed(before, buf[..], vsize, curpos, flags.append, data);
      ghost var (f, n) := Writing(old(Abs()), flags.append, data);
      assert n == nw && f.pos == off + nw && f.room == rsize;
      hide Writing, Min;
      curpos := off + nw;
      var grew := curpos > vsize;
      if grew { vsize := curpos; }
      Terminate(grew);
      return Some(nw);
    }

    /** mstream_seek */
    method Seek(pos: int, whence: Whence) returns (r: int)
      requires Valid()
      modifies `curpos
      ensures Valid() && (Abs(), r) == Seeking(old(Abs()), pos, whence)
      ensures whence == SeekSet ==> r == if 0 <= pos <= vsize then pos else -1
      ensures whence == SeekCur ==> r == if 0 <= old(curpos) + pos <= vsize then old(curpos) + pos else -1
      ensures whence == SeekEnd ==> r == if 0 <= vsize + pos <= vsize then vsize + pos else -1
      ensures curpos == if r == -1 then old(curpos) else r
    {
      var off := match whence { case SeekSet => pos case SeekEnd => vsize + pos case SeekCur => curpos + pos };
      if off < 0 || off > vsize { return -1; }
      curpos := off;
      return off;
    }
  }

  // ---- Whole sessions ----

  datatype Op = ReadOp(len: nat) | WriteOp(data: seq<Byte>) | SeekOp(pos: int, whence: Whence)

  datatype Result = Bytes(data: seq<Byte>) | Count(n: int)

  function Play(f: File, append: bool, op: Op): (r: (File, Result))
    requires Sane(f)
    ensures Sane(r.0)
  {
    match op
    case ReadOp(len) => var (f', data) := Reading(f, len); (f', Bytes(data))
    case WriteOp(data) => var (f', n) := Writing(f, append, data); (f', Count(n))
    case SeekOp(pos, whence) => var (f', off) := Seeking(f, pos, whence); (f', Count(off))
  }

  /** What the file answers to a sequence of operations, and becomes. */
  function PlayAll(f: File, append: bool, ops: seq<Op>): (r: (File, seq<Result>))
    requires Sane(f)
    ensures Sane(r.0) && |r.1| == |ops|
  {
    if ops == [] then (f, [])
    else
      var (f1, rs) := PlayAll(f, append, ops[..|ops| - 1]);
      var (f2, r) := Play(f1, append, ops[|ops| - 1]);
      (f2, rs + [r])
  }

  method Perform(s: Stream, op: Op) returns (r: Result)
    requires s.Valid() && s.flags.read && s.flags.write
    modifies s, s.buf
    ensures s.Valid() && (s.Abs(), r) == Play(old(s.Abs()), s.flags.append, op)
  {
    match op {
      case ReadOp(len) =>
        var n := s.Read(len);
        r := Bytes(n.value);
      case WriteOp(data) =>
        var n := s.Write(data);
        r := Count(n.value);
      case SeekOp(pos, whence) =>
        var n := s.Seek(pos, whence);
        r := Count(n);
    }
  }

  /** In the modes with a plus, any session on the stream is that session on the file. */
  method Session(s: Stream, ops: seq<Op>) returns (rs: seq<Result>)
    requires s.Valid() && s.flags.read && s.flags.write
    modifies s, s.buf
    ensures s.Valid() && (s.Abs(), rs) == PlayAll(old(s.Abs()), s.flags.append, ops)
  {
    rs := [];
    var i := 0;
    assert ops[..0] == [];
    while i < |ops|
      invariant i <= |ops| && s.Valid()
      invariant (s.Abs(), rs) == PlayAll(old(s.Abs()), s.flags.append, ops[..i])
    {
      assert ops[..i + 1][..i] == ops[..i];
      var r := Perform(s, ops[i]);
      rs := rs + [r];
      i := i + 1;
    }
    assert ops[..i] == ops;
  }

  // ---- fmemopen ----

  datatype Opened = Opened(stream: Stream) | Refused

  /** fmemopen: refuses a size of zero, a malformed mode, and a mode without plus when it has to bring the buffer. */
  method Open(buf: array?<Byte>, size: nat, mode: string) returns (r: Opened)
    requires buf != null ==> buf.Length == size
    ensures r.Opened? <==> size > 0 && WellFormed(mode) && (buf == null ==> Meaning(mode).read && Meaning(mode).write)
    ensures r.Opened? ==> r.stream.Valid() && r.stream.flags == Meaning(mode) && r.stream.rsize == size
    ensures r.Opened? ==> if buf == null then fresh(r.stream.buf) else r.stream.buf == buf
    ensures r.Opened? && !Meaning(mode).append ==>
              r.stream.curpos == 0 && r.stream.vsize == if Meaning(mode).truncate then 0 else size
    ensures r.Opened? && Meaning(mode).append ==>
              var end := r.stream.curpos;
              r.stream.vsize == end && if buf == null then end == 0
                                       else end <= size && 0 !in buf[..end] && (end < size ==> buf[end] == 0)
  {
    if size == 0 { return Refused; }
    var flags := TypeToFlags(mode);
    if flags.None? { return Refused; }
    if buf == null {
      if !(flags.value.read && flags.value.write) { return Refused; }
      var mine := new Byte[size](i => 0);
      var ms := new Stream(mine, flags.value, true);
      return Opened(ms);
    }
    var ms := new Stream(buf, flags.value, false);
    return Opened(ms);
  }
}
