/** Error codes and descriptors sent behind a message over a stream that may come in any pieces. */
module FdProtocol {

  import opened Options

  // The header that fixes the size of the receiver's buffer is not part of this model; the value is the customary one.
  const MAXLINE: nat := 4096

  type byte = b: int | 0 <= b < 256

  /** What one recvmsg brings: some bytes, and perhaps a descriptor beside them; or a failure. */
  datatype Chunk = Data(bytes: seq<byte>, control: Option<int>) | Failure

  /** The receiver returns a descriptor or a negative number, or it gives up with a core dump. */
  datatype Outcome = Returned(value: int) | Dumped

  /** The user's function is handed pieces of the message; its answer may depend on all pieces so far. */
  type UserFunc = seq<seq<byte>> -> int

  // ---- The sender ----

  /** The byte that stands for an error code. */
  function StatusOf(code: int): byte
    requires code < 0
  {
    var low := -code % 256;
    if low == 0 then 1 else low
  }

  class Channel {
    var sent: seq<byte>
    var control: Option<int>

    constructor ()
      ensures sent == [] && control == None
    {
      sent, control := [], None;
    }

    method Writen(bytes: seq<byte>)
      modifies this
      ensures sent == old(sent) + bytes && control == old(control)
    {
      sent := sent + bytes;
    }

    /** send_fd */
    method SendFd(fdToSend: int)
      modifies this
      ensures sent == old(sent) + [0, if fdToSend < 0 then StatusOf(fdToSend) else 0]
      ensures control == if fdToSend < 0 then None else Some(fdToSend)
    {
      var buf := new byte[2];
      if fdToSend < 0 {
        control := None;
        buf[1] := -fdToSend % 256;
        if buf[1] == 0 { buf[1] := 1; }
      } else {
        control := Some(fdToSend);
        buf[1] := 0;
      }
      buf[0] := 0;
      assert buf[..] == [buf[0], buf[1]];
      sent := sent + buf[..];
    }

    /** send_err: the message is a string, so it has no null in it. */
    method SendErr(errcode: int, msg: seq<byte>)
      requires 0 !in msg
      modifies this
      ensures sent == old(sent) + ErrBytes(errcode, msg) && control == None
    {
      var n := |msg|;
      if n > 0 { Writen(msg); }
      var code := if errcode >= 0 then -1 else errcode;
      SendFd(code);
      assert old(sent) + msg + [0, StatusOf(code)] == old(sent) + ErrBytes(errcode, msg);
    }
  }

  function ErrBytes(errcode: int, msg: seq<byte>): seq<byte> {
    msg + [0, StatusOf(if errcode >= 0 then -1 else errcode)]
  }

  /** What an error code becomes on the way: itself if it is in -255..-1, and never leaves that range. */
  lemma CodeKept(errcode: int)
    ensures var c := -(StatusOf(if errcode >= 0 then -1 else errcode) as int);
            -255 <= c <= -1 && (c == errcode <==> -255 <= errcode <= -1) && (errcode >= 0 ==> c == -1)
  {
    if -255 <= errcode < 0 { assert -errcode % 256 == -errcode; }
  }

  // ---- The receiver ----

  /** A piece of plain text, or one that ends in a null and a status, or one that has a null elsewhere. */
  datatype Piece = Text | Last(status: byte) | Bad

  function Look(bytes: seq<byte>): Piece {
    var n := |bytes|;
    if 0 !in bytes then Text
    else if n >= 2 && bytes[n - 2] == 0 && 0 !in bytes[..n - 2] then Last(bytes[n - 1])
    else Bad
  }

  /** What should come of the chunks, when some pieces have been handed over already. */
  function Receive(chunks: seq<Chunk>, user: UserFunc, calls: seq<seq<byte>>): (Outcome, seq<seq<byte>>) {
    if chunks == [] || chunks[0].Failure? then (Returned(-1), calls)
    else
      var Data(bytes, control) := chunks[0];
      match Look(bytes)
      case Bad => (Dumped, calls)
      case Text =>
        var calls' := Hand(calls, bytes);
        if Refused(user, calls', bytes) then (Returned(-1), calls') else Receive(chunks[1..], user, calls')
      case Last(status) =>
        if status == 0 && control.None? then (Dumped, calls)
        else
          var text := bytes[..|bytes| - 2];
          var calls' := Hand(calls, text);
          var fd := if Refused(user, calls', text) then -1 else if status == 0 then control.value else -(status as int);
          (Returned(fd), calls')
  }

  function Hand(calls: seq<seq<byte>>, text: seq<byte>): seq<seq<byte>> {
    if text == [] then calls else calls + [text]
  }

  predicate Refused(user: UserFunc, calls: seq<seq<byte>>, text: seq<byte>) { text != [] && user(calls) != |text| }

  /** The bytes of one recvmsg are put in the buffer. */
  method Fill(buf: array<byte>, bytes: seq<byte>) returns (nr: nat)
    requires |bytes| <= buf.Length
    modifies buf
    ensures nr == |bytes| && buf[..nr] == bytes
  {
    nr := 0;
    while nr < |bytes|
      invariant nr <= |bytes| && buf[..nr] == bytes[..nr]
    {
      buf[nr] := bytes[nr];
      nr := nr + 1;
    }
  }

  /** The scan of the buffer: `status` is -1 unless the final two bytes are here, and `nr` does not count them. */
  method Examine(buf: array<byte>, got: nat, control: Option<int>)
    returns (dumped: bool, nr: nat, status: int, newfd: int)
    requires got <= buf.Length
    ensures var p := Look(buf[..got]);
            && (dumped <==> p.Bad? || (p == Last(0) && control.None?))
            && (p.Text? ==> status == -1 && nr == got)
            && (p.Last? && !dumped ==>
                    status == p.status && nr == got - 2 && newfd == if status == 0 then control.value else -status)
  {
    dumped, nr, status, newfd := false, got, -1, 0;
    var ptr := 0;
    ghost var b := buf[..got];
    while ptr < nr
      invariant if nr == got then ptr <= nr && status == -1 && 0 !in b[..ptr]
                else ptr == nr + 1 == got - 1 && Look(b).Last? && Look(b).status == status
                     && if status == 0 then control == Some(newfd) else newfd == -status
      invariant !dumped
      decreases got - ptr
    {
      ptr := ptr + 1;
      assert b[..ptr] == b[..ptr - 1] + [b[ptr - 1]];
      if buf[ptr - 1] == 0 {
        assert b[ptr - 1] in b && 0 in b;
        if ptr != nr - 1 {
          NotLast(b, ptr - 1);
          dumped := true;
          return;
        }
        status := buf[ptr];
        if status == 0 {
          if control.None? {
            dumped := true;
            return;
          }
          newfd := control.value;
        } else {
          newfd := -status;
        }
        nr := nr - 2;
      }
    }
    assert nr == got ==> b[..ptr] == b;
  }

  /** A null before the place of the last but one, or after it, is an error of format. */
  lemma NotLast(b: seq<byte>, k: nat)
    requires k < |b| && b[k] == 0 && 0 !in b[..k] && k != |b| - 2
    ensures Look(b) == Bad
  {
    assert b[k] in b;
    var n := |b|;
    if n >= 2 && k < n - 2 { assert b[..n - 2][k] == 0; }
    if n >= 2 && k == n - 1 { assert b[..k][n - 2] == b[n - 2]; }
  }

  /** recv_fd; the end of the chunks is the end of the stream. */
  method RecvFd(chunks: seq<Chunk>, user: UserFunc) returns (out: Outcome, calls: seq<seq<byte>>)
    requires forall c :: c in chunks && c.Data? ==> 0 < |c.bytes| <= MAXLINE
    ensures (out, calls) == Receive(chunks, user, [])
  {
    calls := [];
    var buf := new byte[MAXLINE];
    var i := 0;
    while true
      invariant i <= |chunks| && Receive(chunks, user, []) == Receive(chunks[i..], user, calls)
      decreases |chunks| - i
    {
      if i == |chunks| || chunks[i].Failure? { return Returned(-1), calls; }
      var Data(bytes, control) := chunks[i];
      assert chunks[i] in chunks;
      assert chunks[i..][0] == chunks[i] && chunks[i..][1..] == chunks[i + 1..];
      var got := Fill(buf, bytes);
      var dumped, nr, status, newfd := Examine(buf, got, control);
      if dumped { return Dumped, calls; }
      assert buf[..nr] == bytes[..nr];
      if nr > 0 {
        calls := calls + [buf[..nr]];
        if user(calls) != nr { return Returned(-1), calls; }
      }
      if status >= 0 { return Returned(newfd), calls; }
      i := i + 1;
    }
  }

  // ---- What is sent is received ----

  function Join(pieces: seq<seq<byte>>): seq<byte> {
    if pieces == [] then [] else Join(pieces[..|pieces| - 1]) + pieces[|pieces| - 1]
  }

  /** All the bytes of the chunks, if none is a failure. */
  function Stream(chunks: seq<Chunk>): seq<byte>
    requires forall c :: c in chunks ==> c.Data?
  {
    if chunks == [] then [] else chunks[0].bytes + Stream(chunks[1..])
  }

  /** The stream was cut into chunks, none of them empty. */
  ghost predicate CutInto(wire: seq<byte>, chunks: seq<Chunk>) {
    (forall c :: c in chunks ==> c.Data? && c.bytes != []) && Stream(chunks) == wire
  }

  /** The user's function takes all it is given. */
  ghost predicate Willing(user: UserFunc) {
    forall calls: seq<seq<byte>> :: calls != [] ==> user(calls) == |calls[|calls| - 1]|
  }

  /** If the last chunk has both of the final bytes, `all` has been handed over, and the status or the descriptor is
      returned; if they were cut apart, or a descriptor is missing, and only then, the receiver gives up. */
  ghost predicate Arrived(out: Outcome, calls: seq<seq<byte>>, last: Chunk, all: seq<byte>, status: byte)
    requires last.Data?
  {
    if |last.bytes| >= 2 && (status == 0 ==> last.control.Some?)
    then out == Returned(if status == 0 then last.control.value else -(status as int)) && Join(calls) == all
    else out == Dumped
  }

  lemma {:induction false} EveryCut(chunks: seq<Chunk>, user: UserFunc, calls: seq<seq<byte>>, msg: seq<byte>,
                                    status: byte)
    requires 0 !in msg && CutInto(msg + [0, status], chunks) && Willing(user)
    ensures chunks != [] && chunks[|chunks| - 1].Data?
    ensures var (out, calls') := Receive(chunks, user, calls);
            Arrived(out, calls', chunks[|chunks| - 1], Join(calls) + msg, status)
    decreases |chunks|
  {
    hide Look, Hand;
    var wire := msg + [0, status];
    var bytes, rest := chunks[0].bytes, chunks[1..];
    assert chunks[0] in chunks && wire == bytes + Stream(rest);
    if rest == [] {
      FinalChunk(bytes, msg, status);
      FinalReceived(chunks, user, calls, status);
      HandJoins(calls, msg);
    } else {
      assert forall c :: c in rest ==> c in chunks;
      assert chunks[|chunks| - 1] == rest[|rest| - 1];
      Longer(rest);
      if |bytes| <= |msg| {
        var msg' := msg[|bytes|..];
        TextChunk(bytes, Stream(rest), msg, status);
        TextReceived(chunks, user, calls);
        HandJoins(calls, bytes);
        assert Join(calls) + bytes + msg' == Join(calls) + msg;
        EveryCut(rest, user, calls + [bytes], msg', status);
      } else {
        CutApart(bytes, Stream(rest), msg, status);
        Longer(rest[1..]);
        assert Receive(chunks, user, calls).0 == Dumped;
      }
    }
  }

  lemma FinalReceived(chunks: seq<Chunk>, user: UserFunc, calls: seq<seq<byte>>, status: byte)
    requires |chunks| == 1 && chunks[0].Data? && Look(chunks[0].bytes) == Last(status) && Willing(user)
    ensures var Data(bytes, control) := chunks[0];
            Receive(chunks, user, calls) ==
            if status == 0 && control.None? then (Dumped, calls)
            else (Returned(if status == 0 then control.value else -(status as int)), Hand(calls, bytes[..|bytes| - 2]))
  {
    var text := chunks[0].bytes[..|chunks[0].bytes| - 2];
    if text != [] { assert user(calls + [text]) == |text|; }
  }

  lemma TextReceived(chunks: seq<Chunk>, user: UserFunc, calls: seq<seq<byte>>)
    requires |chunks| > 0 && chunks[0].Data? && chunks[0].bytes != [] && Look(chunks[0].bytes) == Text && Willing(user)
    ensures Receive(chunks, user, calls) == Receive(chunks[1..], user, calls + [chunks[0].bytes])
  {
    assert user(calls + [chunks[0].bytes]) == |chunks[0].bytes|;
  }

  /** A chunk takes at least one byte of the stream. */
  lemma Longer(chunks: seq<Chunk>)
    requires forall c :: c in chunks ==> c.Data? && c.bytes != []
    ensures chunks != [] ==> |Stream(chunks)| == |chunks[0].bytes| + |Stream(chunks[1..])| >= 1
  {
    if chunks != [] { assert chunks[0] in chunks; }
  }

  lemma FinalChunk(bytes: seq<byte>, msg: seq<byte>, status: byte)
    requires 0 !in msg && bytes + [] == msg + [0, status]
    ensures Look(bytes) == Last(status) && bytes[..|bytes| - 2] == msg
  {
    assert bytes == msg + [0, status];
    assert bytes[|msg|] in bytes && bytes[..|msg|] == msg;
  }

  lemma TextChunk(bytes: seq<byte>, rest: seq<byte>, msg: seq<byte>, status: byte)
    requires 0 !in msg && bytes + rest == msg + [0, status] && 0 < |bytes| <= |msg|
    ensures Look(bytes) == Text && msg == bytes + msg[|bytes|..] && rest == msg[|bytes|..] + [0, status]
    ensures 0 !in msg[|bytes|..]
  {
    var wire, k := msg + [0, status], |bytes|;
    assert bytes == wire[..k] == msg[..k];
    assert rest == wire[k..];
  }

  lemma CutApart(bytes: seq<byte>, rest: seq<byte>, msg: seq<byte>, status: byte)
    requires 0 !in msg && bytes + rest == msg + [0, status] && |bytes| > |msg| && rest != []
    ensures Look(bytes) == Bad && |rest| == 1
  {
    var wire := msg + [0, status];
    assert |bytes| == |msg| + 1 && bytes == wire[..|bytes|];
    assert bytes[..|msg|] == msg;
    NotLast(bytes, |msg|);
  }

  lemma HandJoins(calls: seq<seq<byte>>, text: seq<byte>)
    ensures Join(Hand(calls, text)) == Join(calls) + text
  {
    if text != [] { assert (calls + [text])[..|calls|] == calls; }
  }

  /** An error: the message arrives, and with it a code in -255..-1, which is the one sent if that was in this range. */
  lemma ErrorArrives(errcode: int, msg: seq<byte>, chunks: seq<Chunk>, user: UserFunc)
    requires 0 !in msg && CutInto(ErrBytes(errcode, msg), chunks) && Willing(user)
    requires |chunks| > 0 && |chunks[|chunks| - 1].bytes| >= 2
    ensures var (out, calls) := Receive(chunks, user, []);
            && Join(calls) == msg && out.Returned? && -255 <= out.value <= -1
            && (out.value == errcode <==> -255 <= errcode <= -1)
  {
    CodeKept(errcode);
    EveryCut(chunks, user, [], msg, StatusOf(if errcode >= 0 then -1 else errcode));
  }

  /** A descriptor: what comes beside the last chunk is returned, and nothing more is handed over than what was
      written. */
  lemma DescriptorArrives(msg: seq<byte>, chunks: seq<Chunk>, user: UserFunc, fd: int)
    requires 0 !in msg && CutInto(msg + [0, 0], chunks) && Willing(user)
    requires |chunks| > 0 && chunks[|chunks| - 1].Data?
    requires |chunks[|chunks| - 1].bytes| >= 2 && chunks[|chunks| - 1].control == Some(fd)
    ensures var (out, calls) := Receive(chunks, user, []); out == Returned(fd) && Join(calls) == msg
  {
    EveryCut(chunks, user, [], msg, 0);
  }

  // ---- What is not received ----

  predicate PlainTexts(texts: seq<Chunk>) {
    forall k :: 0 <= k < |texts| ==> texts[k].Data? && texts[k].bytes != [] && 0 !in texts[k].bytes
  }

  function Pieces(texts: seq<Chunk>): (r: seq<seq<byte>>)
    requires PlainTexts(texts)
    ensures |r| == |texts|
  {
    seq(|texts|, i requires 0 <= i < |texts| => texts[i].bytes)
  }

  /** The user's function takes each of these pieces. */
  ghost predicate Takes(user: UserFunc, calls: seq<seq<byte>>, texts: seq<Chunk>)
    requires PlainTexts(texts)
  {
    forall k {:trigger texts[k]} :: 0 <= k < |texts| ==>
      user(calls + Pieces(texts)[..k + 1]) == |texts[k].bytes|
  }

  lemma {:induction false} TextHandedOver(texts: seq<Chunk>, rest: seq<Chunk>, user: UserFunc, calls: seq<seq<byte>>)
    requires PlainTexts(texts) && Takes(user, calls, texts)
    ensures Receive(texts + rest, user, calls) == Receive(rest, user, calls + Pieces(texts))
    decreases |texts|
  {
    if texts == [] {
      assert texts + rest == rest && calls + Pieces(texts) == calls;
    } else {
      var first, others := texts[0], texts[1..];
      assert Pieces(texts)[..1] == [first.bytes];
      assert Look(first.bytes) == Text && user(calls + [first.bytes]) == |first.bytes|;
      assert (texts + rest)[1..] == others + rest && (texts + rest)[0] == first;
      forall k | 0 <= k < |others| ensures user(calls + [first.bytes] + Pieces(others)[..k + 1]) == |others[k].bytes| {
        assert calls + [first.bytes] + Pieces(others)[..k + 1] == calls + Pieces(texts)[..k + 2];
        assert texts[k + 1] == others[k];
      }
      TextHandedOver(others, rest, user, calls + [first.bytes]);
      assert calls + [first.bytes] + Pieces(others) == calls + Pieces(texts);
    }
  }

  /** When the stream ends, or recvmsg fails, before the final two bytes have come, the receiver returns -1; what had
      come before has been handed over. So it does when nothing comes at all. */
  lemma EndsEarly(texts: seq<Chunk>, rest: seq<Chunk>, user: UserFunc)
    requires PlainTexts(texts) && Takes(user, [], texts)
    requires rest == [] || rest[0] == Failure
    ensures Receive(texts + rest, user, []) == (Returned(-1), Pieces(texts))
  {
    TextHandedOver(texts, rest, user, []);
    assert [] + Pieces(texts) == Pieces(texts);
  }

  lemma RefusedPiece(piece: seq<byte>, tail: seq<byte>, control: Option<int>, rest: seq<Chunk>, user: UserFunc,
                     calls: seq<seq<byte>>)
    requires 0 !in piece && piece != [] && user(calls + [piece]) != |piece|
    requires tail == [] || (|tail| == 2 && tail[0] == 0 && (tail[1] == 0 ==> control.Some?))
    ensures Receive([Data(piece + tail, control)] + rest, user, calls) == (Returned(-1), calls + [piece])
  {
    var bytes := piece + tail;
    if tail == [] {
      assert bytes == piece;
    } else {
      assert bytes + [] == piece + [0, tail[1]];
      FinalChunk(bytes, piece, tail[1]);
    }
    assert ([Data(bytes, control)] + rest)[0] == Data(bytes, control);
  }

  /** When the user's function does not take a piece, whole, the receiver returns -1 at once: nothing behind that piece
      is handed over, not even if the final two bytes came with it. */
  lemma StopsAtRefusal(texts: seq<Chunk>, piece: seq<byte>, tail: seq<byte>, control: Option<int>, rest: seq<Chunk>,
                       user: UserFunc)
    requires PlainTexts(texts) && Takes(user, [], texts)
    requires 0 !in piece && piece != [] && user(Pieces(texts) + [piece]) != |piece|
    requires tail == [] || (|tail| == 2 && tail[0] == 0 && (tail[1] == 0 ==> control.Some?))
    ensures Receive(texts + [Data(piece + tail, control)] + rest, user, [])
            == (Returned(-1), Pieces(texts) + [piece])
  {
    hide Receive, Takes, Pieces;
    var chunk := Data(piece + tail, control);
    assert texts + [chunk] + rest == texts + ([chunk] + rest);
    TextHandedOver(texts, [chunk] + rest, user, []);
    assert [] + Pieces(texts) == Pieces(texts);
    RefusedPiece(piece, tail, control, rest, user, Pieces(texts));
  }

  /** When the first null of a chunk is not in the last place but one, or it is and the byte behind it promises a
      descriptor that has not come, the receiver gives up, and hands over nothing of that chunk. */
  lemma DumpsAtMalformed(texts: seq<Chunk>, bytes: seq<byte>, k: nat, control: Option<int>, rest: seq<Chunk>,
                         user: UserFunc)
    requires PlainTexts(texts) && Takes(user, [], texts)
    requires k < |bytes| && bytes[k] == 0 && 0 !in bytes[..k]
    requires k != |bytes| - 2 || (bytes[k + 1] == 0 && control.None?)
    ensures Receive(texts + [Data(bytes, control)] + rest, user, []) == (Dumped, Pieces(texts))
  {
    var chunk := Data(bytes, control);
    assert texts + [chunk] + rest == texts + ([chunk] + rest);
    TextHandedOver(texts, [chunk] + rest, user, []);
    assert [] + Pieces(texts) == Pieces(texts) && ([chunk] + rest)[0] == chunk;
    if k != |bytes| - 2 {
      NotLast(bytes, k);
    } else {
      assert bytes == bytes[..k] + [0, 0] && bytes[k] in bytes;
      assert bytes + [] == bytes[..k] + [0, 0];
      FinalChunk(bytes, bytes[..k], 0);
    }
  }
}
