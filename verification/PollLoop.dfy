/** The poll loop of the open server, with its two growing arrays: one for poll, one for the clients. */
module PollLoop {
  import opened Options
  import opened Seals

  const NALLOC: nat := 10

  datatype Flag = POLLIN | POLLHUP

  datatype PollFd = PollFd(fd: int, events: set<Flag>, revents: set<Flag>)

  /** A descriptor of -1 means that the entry is available. */
  datatype Client = Client(fd: int, uid: int)

  /** What the loop does for a client: handle a request of some length, or close the connection. */
  datatype Event = Request(fd: int, nread: int) | Closed(fd: int)

  /** What the system answers in one round: what poll reports of a descriptor, the descriptor (and user) accept gives
      when others are open, and how much a read from a descriptor gives. Negative answers are failures. */
  datatype Round = Round(poll: int -> set<Flag>, accept: set<int> -> int, uid: int, read: int -> int)

  /** A new descriptor is not one that is open. */
  ghost predicate Distinguishes(r: Round) { forall open: set<int> :: r.accept(open) !in open }

  // ---- What a round should do ----

  function Due(r: Round, fd: int): Option<Event> {
    if POLLHUP in r.poll(fd) then Some(Closed(fd))
    else if POLLIN !in r.poll(fd) then None
    else if r.read(fd) == 0 then Some(Closed(fd)) else Some(Request(fd, r.read(fd)))
  }

  /** A hang-up is looked at first; a read that gives nothing is the end of the connection, and any other a request. */
  lemma DueMeans(r: Round, fd: int)
    ensures Closes(r, fd) <==> POLLHUP in r.poll(fd) || (POLLIN in r.poll(fd) && r.read(fd) == 0)
    ensures forall n :: Due(r, fd) == Some(Request(fd, n)) <==>
              POLLHUP !in r.poll(fd) && POLLIN in r.poll(fd) && n == r.read(fd) != 0
    ensures Due(r, fd) == None <==> r.poll(fd) == {}
  {
    if r.poll(fd) != {} {
      var x :| x in r.poll(fd);
      assert x == POLLIN || x == POLLHUP;
    }
  }

  predicate Closes(r: Round, fd: int) { Due(r, fd) == Some(Closed(fd)) }

  predicate ReadFails(r: Round, fd: int) { POLLHUP !in r.poll(fd) && POLLIN in r.poll(fd) && r.read(fd) < 0 }

  /** The new clients: none or one. */
  function Newcomers(r: Round, listenfd: int, open: set<int>): set<int> {
    if POLLIN in r.poll(listenfd) then {r.accept(open + {listenfd})} else {}
  }

  predicate Survives(r: Round, listenfd: int, open: set<int>) {
    && (forall fd :: fd in Newcomers(r, listenfd, open) ==> fd >= 0)
    && forall fd :: fd in open ==> !ReadFails(r, fd)
  }

  function Kept(r: Round, fds: set<int>): set<int> { set fd | fd in fds && !Closes(r, fd) }

  /** Each of these descriptors gets what it is due, once; nothing else is done. */
  ghost predicate Once(batch: seq<Event>, r: Round, fds: set<int>) {
    && (forall i, j :: 0 <= i < j < |batch| ==> batch[i] != batch[j])
    && forall e :: e in batch <==> e.fd in fds && Due(r, e.fd) == Some(e)
  }

  /** The clients after some rounds. */
  function ClientsAfter(rounds: seq<Round>, listenfd: int): set<int> {
    if rounds == [] then {}
    else
      var r, open := rounds[|rounds| - 1], ClientsAfter(rounds[..|rounds| - 1], listenfd);
      Kept(r, open) + Newcomers(r, listenfd, open)
  }

  /** No round ends the program. */
  ghost predicate Outlives(rounds: seq<Round>, listenfd: int)
    decreases |rounds|
  {
    rounds == [] ||
    var before := rounds[..|rounds| - 1];
    Outlives(before, listenfd) && Survives(rounds[|rounds| - 1], listenfd, ClientsAfter(before, listenfd))
  }

  /** The whole record falls into one part for each round, in which the clients of that round got their due. */
  ghost predicate Served(log: seq<Event>, rounds: seq<Round>, listenfd: int)
    decreases |rounds|
  {
    if rounds == [] then log == []
    else
      var before := rounds[..|rounds| - 1];
      exists k :: 0 <= k <= |log| && Served(log[..k], before, listenfd)
               && Once(log[k..], rounds[|rounds| - 1], ClientsAfter(before, listenfd))
  }

  // ---- The two arrays ----

  function Fds(p: seq<PollFd>): set<int> { set k | 0 <= k < |p| :: p[k].fd }

  ghost predicate NoTwo(p: seq<PollFd>) { forall i, j :: 0 <= i < j < |p| ==> p[i].fd != p[j].fd }

  function InUse(cs: seq<Client>): set<int> { set k | 0 <= k < |cs| && cs[k].fd != -1 :: cs[k].fd }

  ghost predicate NoTwoClients(cs: seq<Client>) {
    forall i, j :: 0 <= i < j < |cs| && cs[i].fd != -1 ==> cs[i].fd != cs[j].fd
  }

  /** Both arrays hold the same descriptors, each once. */
  ghost predicate Agree(p: seq<PollFd>, cs: seq<Client>) {
    NoTwo(p) && NoTwoClients(cs) && Fds(p) == InUse(cs) && forall k :: 0 <= k < |p| ==> p[k].fd >= 0
  }

  lemma {:induction false} AsManyFds(p: seq<PollFd>)
    requires NoTwo(p)
    ensures |Fds(p)| == |p|
  {
    if p == [] {
      assert Fds(p) == {};
    } else {
      var n := |p| - 1;
      AsManyFds(p[..n]);
      assert p[n].fd !in Fds(p[..n]);
      assert Fds(p) == Fds(p[..n]) + {p[n].fd} by {
        forall fd | fd in Fds(p) ensures fd in Fds(p[..n]) + {p[n].fd} {
          var k :| 0 <= k < |p| && p[k].fd == fd;
          if k < n { assert p[..n][k].fd == fd; }
        }
      }
    }
  }

  lemma {:induction false} NoMoreInUse(cs: seq<Client>)
    ensures |InUse(cs)| <= |cs|
  {
    if cs == [] {
      assert InUse(cs) == {};
    } else {
      var n := |cs| - 1;
      NoMoreInUse(cs[..n]);
      var last := if cs[n].fd == -1 then {} else {cs[n].fd};
      assert InUse(cs) == InUse(cs[..n]) + last by {
        forall fd | fd in InUse(cs) ensures fd in InUse(cs[..n]) + last {
          var k :| 0 <= k < |cs| && cs[k].fd != -1 && cs[k].fd == fd;
          if k < n { assert cs[..n][k].fd == fd; }
        }
      }
    }
  }

  /** Whoever is in the poll array has room in the client array: its index is an index of both. */
  lemma NoMorePolled(p: seq<PollFd>, cs: seq<Client>)
    requires Agree(p, cs)
    ensures |p| <= |cs|
  {
    AsManyFds(p);
    NoMoreInUse(cs);
  }

  lemma AddAgrees(p: seq<PollFd>, cs: seq<Client>, cs': seq<Client>, i: nat, e: PollFd)
    requires Agree(p, cs) && e.fd >= 0 && e.fd !in Fds(p)
    requires i < |cs'| && |cs| <= |cs'| && cs'[i].fd == e.fd
    requires forall k :: 0 <= k < |cs'| && k != i ==> cs'[k].fd == if k < |cs| then cs[k].fd else -1
    requires i < |cs| ==> cs[i].fd == -1
    ensures Agree(p + [e], cs') && Fds(p + [e]) == Fds(p) + {e.fd}
  {
    var p' := p + [e];
    assert p'[|p|] == e && forall k :: 0 <= k < |p| ==> p'[k] == p[k];
    forall k | 0 <= k < |cs'| && k != i ensures cs'[k].fd != e.fd {
      if k < |cs| && cs[k].fd != -1 { assert cs[k].fd in InUse(cs); }
    }
    forall k | 0 <= k < |p| ensures p[k].fd != e.fd { assert p[k].fd in Fds(p); }
    FdsAdd(p, e);
    assert InUse(cs') == InUse(cs) + {e.fd} by {
      forall fd | fd in InUse(cs) ensures fd in InUse(cs') {
        var k :| 0 <= k < |cs| && cs[k].fd != -1 && cs[k].fd == fd;
        assert cs'[k].fd == fd;
      }
    }
  }

  lemma HasUid(cs: seq<Client>, k: nat, fd: int, uid: int)
    requires k < |cs| && cs[k] == Client(fd, uid)
    ensures UidIs(cs, fd, uid)
  {
  }

  lemma InUsePolled(p: seq<PollFd>, cs: seq<Client>, k: nat)
    requires Agree(p, cs) && Aligned(p, cs) && k < |cs| && cs[k].fd != -1
    ensures k < |p|
  {
    assert cs[k].fd in InUse(cs);
    var j :| 0 <= j < |p| && p[j].fd == cs[k].fd;
    assert cs[j].fd == cs[k].fd;
  }

  /** A newcomer takes the first available entry, which in aligned arrays is the next one. */
  lemma AddAligned(p: seq<PollFd>, cs: seq<Client>, cs': seq<Client>, i: nat, e: PollFd)
    requires Agree(p, cs) && Aligned(p, cs) && |cs| <= |cs'| && i < |cs'| && cs'[i].fd == e.fd >= 0
    requires forall k :: 0 <= k < i ==> cs'[k].fd != -1
    requires forall k :: 0 <= k < |cs'| && k != i ==> cs'[k].fd == if k < |cs| then cs[k].fd else -1
    requires i < |cs| ==> cs[i].fd == -1
    ensures i == |p| && Aligned(p + [e], cs')
  {
    if i > 0 {
      assert cs'[i - 1].fd != -1;
      InUsePolled(p, cs, i - 1);
    }
    assert forall k :: 0 <= k < |p| ==> cs[k].fd == p[k].fd >= 0;
    assert forall k :: 0 <= k < |p| ==> (p + [e])[k] == p[k];
  }

  lemma FdsAdd(p: seq<PollFd>, e: PollFd)
    ensures Fds(p + [e]) == Fds(p) + {e.fd}
  {
    var p' := p + [e];
    assert p'[|p|] == e && forall k :: 0 <= k < |p| ==> p'[k] == p[k];
    forall fd | fd in Fds(p) ensures fd in Fds(p') {
      var k :| 0 <= k < |p| && p[k].fd == fd;
      assert p'[k].fd == fd;
    }
  }

  /** Entry i is overwritten by the last one. */
  function Pack(p: seq<PollFd>, i: nat): seq<PollFd>
    requires i < |p|
  {
    var n := |p| - 1;
    if i < n then p[..n][i := p[n]] else p[..n]
  }

  lemma FdsWithout(p: seq<PollFd>, i: nat)
    requires NoTwo(p) && i < |p|
    ensures NoTwo(Pack(p, i)) && Fds(Pack(p, i)) == Fds(p) - {p[i].fd}
    ensures Pack(p, i)[..i] == p[..i] && Fds(Pack(p, i)[i..]) == Fds(p[i..]) - {p[i].fd}
  {
    var n, q := |p| - 1, Pack(p, i);
    assert forall k :: 0 <= k < n && k != i ==> q[k] == p[k];
    forall fd | fd in Fds(p) && fd != p[i].fd ensures fd in Fds(q) {
      var k :| 0 <= k < |p| && p[k].fd == fd;
      assert if k == n then q[i].fd == fd else q[k].fd == fd;
    }
    forall fd | fd in Fds(p[i..]) && fd != p[i].fd ensures fd in Fds(q[i..]) {
      var k :| 0 <= k < |p| - i && p[i..][k].fd == fd;
      assert p[i + k].fd == fd;
      assert if i + k == n then q[i..][0].fd == fd else q[i..][k].fd == fd;
    }
    forall fd | fd in Fds(q[i..]) ensures fd in Fds(p[i..]) && fd != p[i].fd {
      var k :| 0 <= k < |q| - i && q[i..][k].fd == fd;
      assert q[i + k].fd == fd;
      assert if k == 0 then p[i..][n - i].fd == fd else p[i..][k].fd == fd;
    }
  }

  lemma FdsMove(p: seq<PollFd>, i: nat)
    requires NoTwo(p) && 1 <= i < |p|
    ensures Fds(p[1..i + 1]) == Fds(p[1..i]) + {p[i].fd} && Fds(p[i + 1..]) == Fds(p[i..]) - {p[i].fd}
  {
    assert p[1..i + 1] == p[1..i] + [p[i]];
    FdsAdd(p[1..i], p[i]);
    var q, q' := p[i..], p[i + 1..];
    assert forall k :: 0 <= k < |q'| ==> q'[k] == q[k + 1] == p[i + 1 + k];
    forall fd | fd in Fds(q) && fd != p[i].fd ensures fd in Fds(q') {
      var k :| 0 <= k < |q| && q[k].fd == fd;
      assert q'[k - 1].fd == fd;
    }
  }

  lemma DropAgrees(p: seq<PollFd>, cs: seq<Client>, i: nat, k: nat)
    requires Agree(p, cs) && i < |p| && k < |cs| && cs[k].fd == p[i].fd
    ensures Agree(Pack(p, i), cs[k := cs[k].(fd := -1)])
  {
    FdsWithout(p, i);
    var cs' := cs[k := cs[k].(fd := -1)];
    assert InUse(cs') == InUse(cs) - {p[i].fd} by {
      forall fd | fd in InUse(cs) && fd != p[i].fd ensures fd in InUse(cs') {
        var j :| 0 <= j < |cs| && cs[j].fd != -1 && cs[j].fd == fd;
        assert cs'[j].fd == fd;
      }
    }
  }

  // ---- Whose user id goes with a request ----

  /** The polled descriptors stand in the same places in both arrays. */
  ghost predicate Aligned(p: seq<PollFd>, cs: seq<Client>) {
    |p| <= |cs| && forall k :: 0 <= k < |p| ==> cs[k].fd == p[k].fd
  }

  /** The user id this descriptor came with. */
  ghost predicate UidIs(cs: seq<Client>, fd: int, uid: int) {
    exists k :: 0 <= k < |cs| && cs[k] == Client(fd, uid)
  }

  /** The loop takes the user id at the index of the poll array, which is right while the arrays are aligned. */
  lemma OwnUid(p: seq<PollFd>, cs: seq<Client>, i: nat)
    requires Agree(p, cs) && Aligned(p, cs) && i < |p|
    ensures UidIs(cs, p[i].fd, cs[i].uid) && forall uid :: UidIs(cs, p[i].fd, uid) ==> uid == cs[i].uid
  {
    assert cs[i] == Client(p[i].fd, cs[i].uid);
  }

  /** A connection that ends leaves the arrays aligned if and only if it is the last in the poll array: otherwise that
      last one changes its place there and not among the clients. */
  lemma PackAligned(p: seq<PollFd>, cs: seq<Client>, i: nat, k: nat)
    requires Agree(p, cs) && Aligned(p, cs) && i < |p| && k < |cs| && cs[k].fd == p[i].fd
    ensures k == i && (Aligned(Pack(p, i), cs[k := cs[k].(fd := -1)]) <==> i == |p| - 1)
  {
    assert cs[i].fd == cs[k].fd;
    if i < |p| - 1 { assert Pack(p, i)[i] == p[|p| - 1] && p[i].fd >= 0 && p[|p| - 1].fd >= 0; }
  }

  // ---- The scan of one round ----

  /** Where a scan stands: of the clients and the newcomers, those seen and kept are before i, those not yet seen are
      from i on with what poll reported of them, and those seen have got their due. */
  ghost function Scanning(p: seq<PollFd>, i: nat, r: Round, open: set<int>, new1: set<int>, seen: set<int>,
                          batch: seq<Event>): Standing
  {
    if OnItsWay(p, i, r, open, new1, seen, batch) then Firm else Shaken
  }

  ghost predicate OnItsWay(p: seq<PollFd>, i: nat, r: Round, open: set<int>, new1: set<int>, seen: set<int>,
                           batch: seq<Event>)
  {
    && 1 <= i <= |p| && NoTwo(p) && seen <= open + new1
    && Fds(p[1..i]) == Kept(r, seen * open) + seen * new1
    && Fds(p[i..]) == open + new1 - seen
    && (forall k :: i <= k < |p| ==> p[k].revents == if p[k].fd in open then r.poll(p[k].fd) else {})
    && Once(batch, r, seen * open)
  }

  /** What the loop adds to the record for an entry. */
  function Answer(e: PollFd, nread: int): seq<Event> {
    if POLLHUP in e.revents then [Closed(e.fd)]
    else if POLLIN !in e.revents then []
    else if nread == 0 then [Closed(e.fd)] else [Request(e.fd, nread)]
  }

  lemma OnceMore(batch: seq<Event>, r: Round, fds: set<int>, fd: int)
    requires Once(batch, r, fds) && fd !in fds
    ensures Once(batch + (match Due(r, fd) case Some(e) => [e] case None => []), r, fds + {fd})
  {
    var add := match Due(r, fd) case Some(e) => [e] case None => [];
    var batch' := batch + add;
    forall i, j | 0 <= i < j < |batch'| ensures batch'[i] != batch'[j] {
      if j == |batch| { assert batch[i] in batch; }
    }
  }

  lemma ScanEntry(p: seq<PollFd>, i: nat, r: Round, open: set<int>, new1: set<int>, seen: set<int>, batch: seq<Event>)
    requires Scanning(p, i, r, open, new1, seen, batch).Firm? && i < |p| && open !! new1
    ensures var fd, a := p[i].fd, Answer(p[i], r.read(p[i].fd));
            && fd in open + new1 - seen
            && p[i].revents == (if fd in open then r.poll(fd) else {})
            && (if a == [Closed(fd)] then Scanning(Pack(p, i), i, r, open, new1, seen + {fd}, batch + a).Firm?
                else Scanning(p, i + 1, r, open, new1, seen + {fd}, batch + a).Firm?)
  {
    var fd := p[i].fd;
    var a := Answer(p[i], r.read(fd));
    assert p[i..][0].fd == fd && fd in Fds(p[i..]);
    var seen' := seen + {fd};
    if fd in open {
      OnceMore(batch, r, seen * open, fd);
      assert seen' * open == seen * open + {fd} && seen' * new1 == seen * new1;
    } else {
      assert seen' * open == seen * open && seen' * new1 == seen * new1 + {fd};
      assert batch + [] == batch;
    }
    if a == [Closed(fd)] {
      FdsWithout(p, i);
      var q := Pack(p, i);
      assert q[1..i] == q[..i][1..] == p[..i][1..] == p[1..i];
      assert Kept(r, seen' * open) == Kept(r, seen * open);
    } else {
      FdsMove(p, i);
      assert fd in open ==> Kept(r, seen' * open) == Kept(r, seen * open) + {fd};
    }
  }

  lemma ScanEnds(p: seq<PollFd>, r: Round, open: set<int>, new1: set<int>, seen: set<int>, batch: seq<Event>)
    requires Scanning(p, |p|, r, open, new1, seen, batch).Firm?
    ensures Fds(p[1..]) == Kept(r, open) + new1 && Once(batch, r, open) && seen == open + new1
  {
    assert p[|p|..] == [] && Fds(p[|p|..]) == {};
    assert open + new1 - seen == {};
    assert open + new1 == seen + (open + new1 - seen);
    assert seen * open == open && seen * new1 == new1;
    assert p[1..|p|] == p[1..];
  }

  // ---- The program ----

  class Server {
    var client: array?<Client>
    var clientSize: nat
    var pollfd: array<PollFd>
    var maxfd: nat
    var numfd: nat
    var log: seq<Event>
    const listenfd: int

    // The user ids handed to the request handler, request by request
    var uids: seq<int>

    function Clients(): seq<Client>
      reads this, client
    {
      if client == null then [] else client[..]
    }

    function Polled(): seq<PollFd>
      requires numfd <= pollfd.Length
      reads this, pollfd
    {
      pollfd[..numfd]
    }

    ghost predicate Sized()
      reads this
    {
      clientSize == (if client == null then 0 else client.Length) && 1 <= numfd <= maxfd == pollfd.Length
    }

    /** What holds between any two rounds. */
    ghost predicate Valid()
      reads this, pollfd, client
    {
      Sized() && Agree(Polled(), Clients()) && Polled()[0].fd == listenfd
    }

    /** The descriptors of the clients: all that are polled but the first. */
    ghost function Open(): set<int>
      requires 1 <= numfd <= pollfd.Length
      reads this, pollfd
    {
      Fds(Polled()[1..])
    }

    /** Arrays are the same or new ones. */
    twostate predicate SameOrNew()
      reads this
    {
      (client == old(client) || fresh(client)) && (pollfd == old(pollfd) || fresh(pollfd))
    }

    constructor (listenfd: int)
      requires listenfd >= 0
      ensures Valid() && Open() == {} && log == [] && uids == [] && this.listenfd == listenfd
      ensures Aligned(Polled(), Clients()) && |Polled()| == 1
      ensures fresh(pollfd) && fresh(client)
    {
      var free := PollFd(-1, {POLLIN}, {});
      pollfd := new PollFd[NALLOC](_ => free);
      this.listenfd := listenfd;
      numfd, maxfd, client, clientSize, log, uids := 1, NALLOC, null, 0, [], [];
      new;
      var i := ClientAdd(listenfd, 0);
      pollfd[0] := pollfd[0].(fd := listenfd);
      AddAligned([], [], Clients(), i, free.(fd := listenfd));
      assert Polled() == [pollfd[0]] && Polled()[1..] == [];
      assert Clients()[i].fd in InUse(Clients());
      assert Fds(Polled()) == {Polled()[0].fd};
    }

    /** client_alloc */
    method ClientAlloc()
      requires Sized()
      modifies this`client, this`clientSize
      ensures Sized() && fresh(client) && client != null && clientSize == old(clientSize) + NALLOC
      ensures forall k :: 0 <= k < clientSize ==>
              if k < old(clientSize) then client[k] == old(Clients())[k] else client[k].fd == -1
    {
      var cs := new Client[clientSize + NALLOC](_ => Client(0, 0));
      var k := 0;
      while k < clientSize
        invariant client == old(client) && clientSize == old(clientSize)
        invariant k <= clientSize && forall j :: 0 <= j < k ==> cs[j] == Clients()[j]
      {
        cs[k] := client[k];
        k := k + 1;
      }
      var i := clientSize;
      while i < clientSize + NALLOC
        invariant client == old(client) && clientSize == old(clientSize)
        invariant clientSize <= i <= clientSize + NALLOC
        invariant forall j :: 0 <= j < i ==> if j < clientSize then cs[j] == Clients()[j] else cs[j].fd == -1
      {
        cs[i] := cs[i].(fd := -1);
        i := i + 1;
      }
      client := cs;
      clientSize := clientSize + NALLOC;
    }

    /** The first available entry, or clientSize. */
    method Available() returns (i: nat)
      requires Sized() && client != null
      ensures i <= clientSize && (i < clientSize ==> client[i].fd == -1)
      ensures forall k :: 0 <= k < i ==> client[k].fd != -1
    {
      i := 0;
      while i < clientSize && client[i].fd != -1
        invariant i <= clientSize && forall k :: 0 <= k < i ==> client[k].fd != -1
      {
        i := i + 1;
      }
    }

    /** client_add */
    method ClientAdd(fd: int, uid: int) returns (i: nat)
      requires Sized()
      modifies this`client, this`clientSize, client
      ensures Sized() && client != null && (client == old(client) || fresh(client)) && clientSize >= old(clientSize)
      ensures i < clientSize && client[i] == Client(fd, uid)
      ensures i < old(clientSize) ==> old(Clients())[i].fd == -1
      ensures forall k :: 0 <= k < clientSize && k != i ==>
                if k < old(clientSize) then client[k] == old(Clients())[k] else client[k].fd == -1
      ensures forall k :: 0 <= k < i ==> client[k].fd != -1
    {
      if client == null { ClientAlloc(); }
      i := Available();
      if i == clientSize {
        ClientAlloc();
        assert client[i].fd == -1;
        i := Available();
      }
      client[i] := Client(fd, uid);
    }

    /** client_del; the program quits when there is no such client. */
    method ClientDel(fd: int) returns (found: bool)
      requires Sized() && fd != -1
      modifies client
      ensures found <==> fd in InUse(old(Clients()))
      ensures !found ==> Clients() == old(Clients())
      ensures found ==>
                exists k :: 0 <= k < clientSize && old(Clients())[k].fd == fd && fd !in InUse(old(Clients())[..k])
                            && Clients() == old(Clients())[k := old(Clients())[k].(fd := -1)]
    {
      var i := 0;
      while i < clientSize
        invariant i <= clientSize && fd !in InUse(Clients()[..i])
        invariant Clients() == old(Clients())
      {
        if client[i].fd == fd {
          ghost var was := Clients();
          assert was[i].fd in InUse(was);
          client[i] := client[i].(fd := -1);
          assert Clients() == was[i := was[i].(fd := -1)];
          return true;
        }
        i := i + 1;
      }
      assert Clients()[..i] == Clients();
      return false;
    }

    /** grow_pollfd */
    method GrowPollfd()
      requires Sized()
      modifies this`pollfd, this`maxfd
      ensures Sized() && fresh(pollfd) && maxfd == old(maxfd) + NALLOC && pollfd[..old(maxfd)] == old(pollfd[..])
      ensures forall k :: old(maxfd) <= k < maxfd ==> pollfd[k] == PollFd(-1, {POLLIN}, {})
    {
      var free := PollFd(-1, {POLLIN}, {});
      var p := new PollFd[maxfd + NALLOC](_ => free);
      var k := 0;
      while k < maxfd
        invariant pollfd == old(pollfd) && maxfd == old(maxfd)
        invariant k <= maxfd && p[..k] == pollfd[..k]
        invariant forall j :: maxfd <= j < p.Length ==> p[j] == free
      {
        p[k] := pollfd[k];
        k := k + 1;
      }
      assert pollfd[..maxfd] == pollfd[..];
      pollfd := p;
      maxfd := maxfd + NALLOC;
    }

    /** poll fills in what it has to report of each descriptor. */
    method Poll(r: Round)
      requires Sized()
      modifies pollfd
      ensures Polled() == Reported(old(Polled()), r)
    {
      var i := 0;
      while i < numfd
        invariant i <= numfd && Polled()[..i] == Reported(old(Polled()), r)[..i] && Polled()[i..] == old(Polled())[i..]
      {
        ghost var was := Polled();
        pollfd[i] := pollfd[i].(revents := r.poll(pollfd[i].fd));
        assert Polled() == was[i := pollfd[i]];
        i := i + 1;
      }
    }

    /** A descriptor is put at the end of what is polled, in a larger array if there is no room. */
    method AddPolled(clifd: int)
      requires Sized()
      modifies this`pollfd, this`maxfd, this`numfd, pollfd
      ensures Sized() && (pollfd == old(pollfd) || fresh(pollfd))
      ensures Polled() == old(Polled()) + [PollFd(clifd, {POLLIN}, {})]
    {
      ghost var p := Polled();
      if numfd == maxfd { GrowPollfd(); }
      assert Polled() == p;
      pollfd[numfd] := PollFd(clifd, {POLLIN}, {});
      numfd := numfd + 1;
    }

    /** A new client is put into both arrays. */
    method Accept(clifd: int, uid: int)
      requires Valid() && clifd >= 0 && clifd !in Fds(Polled())
      modifies this, pollfd, client
      ensures Valid() && SameOrNew() && log == old(log) && uids == old(uids)
      ensures Polled() == old(Polled()) + [PollFd(clifd, {POLLIN}, {})]
      ensures |old(Clients())| <= |Clients()|
      ensures forall k :: 0 <= k < |old(Clients())| && old(Clients())[k].fd != -1 ==> Clients()[k] == old(Clients())[k]
      ensures old(Aligned(Polled(), Clients())) ==> Aligned(Polled(), Clients())
      ensures UidIs(Clients(), clifd, uid)
    {
      hide Agree, Fds, Aligned, UidIs;
      ghost var p, cs := Polled(), Clients();
      var i := ClientAdd(clifd, uid);
      ghost var cs' := Clients();
      ghost var e := PollFd(clifd, {POLLIN}, {});
      AddAgrees(p, cs, cs', i, e);
      if Aligned(p, cs) { AddAligned(p, cs, cs', i, e); }
      HasUid(cs', i, clifd, uid);
      assert Polled() == p;
      AddPolled(clifd);
      assert Clients() == cs';
    }

    /** The end of a connection: the last entry takes the place of entry i. */
    method HangUp(i: nat)
      requires Valid() && 1 <= i < numfd
      modifies this`numfd, this`log, pollfd, client
      ensures Valid() && Polled() == Pack(old(Polled()), i) && log == old(log) + [Closed(old(pollfd[i].fd))]
      ensures exists k :: 0 <= k < |old(Clients())| && old(Clients())[k].fd == old(Polled())[i].fd
                          && Clients() == old(Clients())[k := old(Clients())[k].(fd := -1)]
    {
      ghost var p, cs := Polled(), Clients();
      assert p[i].fd in Fds(p);
      var found := ClientDel(pollfd[i].fd);
      ghost var k :| 0 <= k < clientSize && cs[k].fd == p[i].fd && Clients() == cs[k := cs[k].(fd := -1)];
      assert Polled() == p;
      DropAgrees(p, cs, i, k);
      log := log + [Closed(pollfd[i].fd)];
      if i < numfd - 1 { pollfd[i] := pollfd[numfd - 1]; }
      numfd := numfd - 1;
      assert Polled() == Pack(p, i);
    }

    /** One entry: `failed` when a read fails, `gone` when the connection is closed. */
    method Examine(i: nat, r: Round) returns (failed: bool, gone: bool)
      requires Valid() && 1 <= i < numfd
      modifies this`numfd, this`log, this`uids, pollfd, client
      ensures i < |old(Clients())|
      ensures var e := old(pollfd[i]);
              uids == old(uids) +
                if failed || gone || Answer(e, r.read(e.fd)) == [] then [] else [old(Clients())[i].uid]
      ensures !failed && gone ==>
                exists k :: 0 <= k < |old(Clients())| && old(Clients())[k].fd == old(Polled())[i].fd
                            && Clients() == old(Clients())[k := old(Clients())[k].(fd := -1)]
      ensures !failed && !gone ==> Clients() == old(Clients())
      ensures var e := old(pollfd[i]); var a := Answer(e, r.read(e.fd));
              && (failed <==> POLLHUP !in e.revents && POLLIN in e.revents && r.read(e.fd) < 0)
              && (!failed ==> Valid() && log == old(log) + a && (gone <==> a == [Closed(e.fd)])
                              && Polled() == if gone then Pack(old(Polled()), i) else old(Polled()))
      ensures var e := old(pollfd[i]);
              && (!failed ==> (gone <==> POLLHUP in e.revents || (POLLIN in e.revents && r.read(e.fd) == 0)))
              && (!failed && gone ==> log == old(log) + [Closed(e.fd)])
              && (!failed && !gone ==>
                    log == old(log) + if POLLIN in e.revents then [Request(e.fd, r.read(e.fd))] else [])
    {
      failed, gone := false, false;
      NoMorePolled(Polled(), Clients());
      if POLLHUP in pollfd[i].revents {
        gone := true;
      } else if POLLIN in pollfd[i].revents {
        var nread := r.read(pollfd[i].fd);
        if nread < 0 { return true, false; }
        gone := nread == 0;
        if !gone { HandleRequest(nread, pollfd[i].fd, client[i].uid); }
      }
      if gone { HangUp(i); }
    }

    /** A request, the descriptor to answer on, and a user id. */
    method HandleRequest(nread: int, clifd: int, uid: int)
      modifies this`log, this`uids
      ensures log == old(log) + [Request(clifd, nread)] && uids == old(uids) + [uid]
    {
      log, uids := log + [Request(clifd, nread)], uids + [uid];
    }

    /** All entries but the first are examined; where one has been replaced by the last, the same place again. */
    method Scan(r: Round, ghost open: set<int>, ghost new1: set<int>) returns (alive: bool)
      requires Valid() && open !! new1 && Scanning(Polled(), 1, r, open, new1, {}, []).Firm?
      modifies this`numfd, this`log, this`uids, pollfd, client
      ensures alive <==> forall fd :: fd in open ==> !ReadFails(r, fd)
      ensures alive ==> Valid() && Open() == Kept(r, open) + new1
      ensures alive ==> exists batch :: log == old(log) + batch && Once(batch, r, open)
    {
      hide Agree, Scanning, Once, Answer, Kept;
      ghost var seen: set<int>, batch: seq<Event> := {}, [];
      var i := 1;
      while i < numfd
        invariant Valid() && i <= numfd && Scanning(Polled(), i, r, open, new1, seen, batch).Firm?
                  && log == old(log) + batch
        invariant forall fd :: fd in seen && fd in open ==> !ReadFails(r, fd)
        decreases numfd - i
      {
        ghost var p := Polled();
        ghost var fd := p[i].fd;
        ScanEntry(p, i, r, open, new1, seen, batch);
        var failed, gone := Examine(i, r);
        if failed { assert fd in open && ReadFails(r, fd); return false; }
        seen, batch := seen + {fd}, batch + Answer(p[i], r.read(fd));
        if !gone { i := i + 1; }
      }
      ScanEnds(Polled(), r, open, new1, seen, batch);
      return true;
    }

    /** One round of the loop. The program ends (`alive` is false) when accept or a read fails. */
    method Turn(r: Round) returns (alive: bool)
      requires Valid() && Distinguishes(r)
      modifies this, pollfd, client
      ensures SameOrNew()
      ensures alive <==> Survives(r, listenfd, old(Open()))
      ensures alive ==> Valid() && Open() == Kept(r, old(Open())) + Newcomers(r, listenfd, old(Open()))
      ensures alive ==> exists batch :: log == old(log) + batch && Once(batch, r, old(Open()))
    {
      hide Scanning, Once, Kept, ReadFails, Fds;
      ghost var p, open := Polled(), Open();
      ghost var new1 := Newcomers(r, listenfd, open);
      FirstApart(p);
      Poll(r);
      ReportedAgrees(p, r, Clients());
      if POLLIN in pollfd[0].revents {
        var clifd := r.accept(Fds(pollfd[..numfd]));
        if clifd < 0 { return false; }
        Accept(clifd, r.uid);
        ScanBegins(Polled(), p, r, listenfd, {clifd});
      } else {
        assert Polled() == Reported(p, r) + [];
        ScanBegins(Polled(), p, r, listenfd, {});
      }
      alive := Scan(r, open, new1);
    }

    /** Whether all is as it should be after the rounds done. */
    ghost function Account(done: seq<Round>): Standing
      reads this, pollfd, client
    {
      if Valid() && Faithful(Open(), log, done, listenfd) then Firm else Shaken
    }

    /** One more round after those done. */
    method TurnAfter(r: Round, ghost done: seq<Round>) returns (alive: bool)
      requires Distinguishes(r) && Account(done).Firm?
      modifies this, pollfd, client
      ensures SameOrNew()
      ensures alive <==> Outlives(done + [r], listenfd)
      ensures alive ==> Account(done + [r]).Firm?
    {
      ghost var was, open := log, Open();
      alive := Turn(r);
      OneRoundMore(done, r, listenfd);
      if alive {
        ghost var batch :| log == was + batch && Once(batch, r, open);
        ServedMore(was, batch, done, r, listenfd);
      }
    }

    /** Rounds one after the other, from the start. */
    method Serve(rounds: seq<Round>) returns (alive: bool)
      requires Valid() && Open() == {} && log == [] && forall r :: r in rounds ==> Distinguishes(r)
      modifies this, pollfd, client
      ensures alive <==> Outlives(rounds, listenfd)
      ensures alive ==> Valid() && Open() == ClientsAfter(rounds, listenfd) && Served(log, rounds, listenfd)
    {
      var k := 0;
      ghost var done: seq<Round> := [];
      assert done == rounds[..k];
      while k < |rounds|
        invariant k <= |rounds| && SameOrNew() && done == rounds[..k] && Account(done).Firm?
      {
        Upto(rounds, k);
        alive := TurnAfter(rounds[k], done);
        done := rounds[..k + 1];
        if !alive {
          DeadForGood(done, rounds[k + 1..], listenfd);
          Halves(rounds, k + 1);
          return;
        }
        k := k + 1;
      }
      assert done == rounds;
      return true;
    }
  }

  lemma Upto(rounds: seq<Round>, k: nat)
    requires k < |rounds|
    ensures rounds[..k] + [rounds[k]] == rounds[..k + 1]
  {
  }

  lemma Halves(rounds: seq<Round>, k: nat)
    requires k <= |rounds|
    ensures rounds[..k] + rounds[k..] == rounds
  {
  }

  /** These are the clients, and this the record, after the rounds done. */
  ghost predicate Faithful(open: set<int>, log: seq<Event>, done: seq<Round>, listenfd: int) {
    open == ClientsAfter(done, listenfd) && Served(log, done, listenfd) && Outlives(done, listenfd)
  }

  lemma OneRoundMore(done: seq<Round>, r: Round, listenfd: int)
    ensures var open := ClientsAfter(done, listenfd);
            && ClientsAfter(done + [r], listenfd) == Kept(r, open) + Newcomers(r, listenfd, open)
            && (Outlives(done + [r], listenfd) <==> Outlives(done, listenfd) && Survives(r, listenfd, open))
  {
    assert (done + [r])[..|done|] == done;
  }

  lemma ServedMore(log: seq<Event>, batch: seq<Event>, done: seq<Round>, r: Round, listenfd: int)
    requires Served(log, done, listenfd) && Once(batch, r, ClientsAfter(done, listenfd))
    ensures Served(log + batch, done + [r], listenfd)
  {
    assert (done + [r])[..|done|] == done;
    var all := log + batch;
    assert all[..|log|] == log && all[|log|..] == batch;
  }

  lemma {:induction false} DeadForGood(done: seq<Round>, more: seq<Round>, listenfd: int)
    requires !Outlives(done, listenfd)
    ensures !Outlives(done + more, listenfd)
    decreases |more|
  {
    if more == [] {
      assert done + more == done;
    } else {
      var n := |more| - 1;
      DeadForGood(done, more[..n], listenfd);
      assert (done + more)[..|done| + n] == done + more[..n];
    }
  }

  function Reported(p: seq<PollFd>, r: Round): seq<PollFd> {
    seq(|p|, k requires 0 <= k < |p| => p[k].(revents := r.poll(p[k].fd)))
  }

  lemma ReportedAgrees(p: seq<PollFd>, r: Round, cs: seq<Client>)
    ensures Fds(Reported(p, r)) == Fds(p) && (Agree(p, cs) ==> Agree(Reported(p, r), cs))
  {
    var q := Reported(p, r);
    assert forall k :: 0 <= k < |p| ==> q[k].fd == p[k].fd;
    forall fd | fd in Fds(p) ensures fd in Fds(q) {
      var k :| 0 <= k < |p| && p[k].fd == fd;
      assert q[k].fd == fd;
    }
  }

  lemma FirstApart(p: seq<PollFd>)
    requires NoTwo(p) && |p| > 0
    ensures Fds(p) == Fds(p[1..]) + {p[0].fd} && p[0].fd !in Fds(p[1..])
  {
    forall fd | fd in Fds(p) && fd != p[0].fd ensures fd in Fds(p[1..]) {
      var k :| 0 <= k < |p| && p[k].fd == fd;
      assert p[1..][k - 1].fd == fd;
    }
  }

  /** After poll, and after the newcomer has been put at the end with nothing reported, the scan can begin. */
  lemma ScanBegins(q: seq<PollFd>, p: seq<PollFd>, r: Round, listenfd: int, new1: set<int>)
    requires NoTwo(q) && NoTwo(p) && |p| > 0 && p[0].fd == listenfd
    requires if new1 == {} then q == Reported(p, r)
             else exists fd :: new1 == {fd} && q == Reported(p, r) + [PollFd(fd, {POLLIN}, {})]
    ensures var open := Fds(p[1..]); Scanning(q, 1, r, open, new1, {}, []).Firm? && open !! new1
  {
    var open := Fds(p[1..]);
    var was := Reported(p, r);
    assert was[1..] == Reported(p[1..], r);
    ReportedAgrees(p[1..], r, []);
    if new1 != {} {
      var fd :| new1 == {fd} && q == was + [PollFd(fd, {POLLIN}, {})];
      assert q[1..] == was[1..] + [PollFd(fd, {POLLIN}, {})];
      FdsAdd(was[1..], PollFd(fd, {POLLIN}, {}));
      assert q[|p|].fd == fd;
      forall k | 1 <= k < |p| ensures p[k].fd != fd { assert q[k].fd == p[k].fd; }
      assert fd !in open;
    }
    forall k | 1 <= k < |q|
      ensures q[k].revents == if q[k].fd in open then r.poll(q[k].fd) else {}
    {
      if k < |p| { assert q[k] == was[k] && p[1..][k - 1] == p[k] && p[k].fd in open; }
    }
    assert q[1..1] == [];
  }

  // ---- A request under the name of another user ----

  function Only(fd: int, what: Flag): Round {
    Round(x => if x == fd then {what} else {}, open => -1, 0, x => 1)
  }

  /** What poll reports, and the look at one entry. */
  method PollAndExamine(s: Server, i: nat, r: Round) returns (gone: bool)
    requires s.Valid() && 1 <= i < s.numfd && r.read(s.Polled()[i].fd) >= 0
    modifies s`numfd, s`log, s`uids, s.pollfd, s.client
    ensures s.Valid() && i < |old(s.Clients())|
    ensures var e := old(s.Polled())[i].(revents := r.poll(old(s.Polled())[i].fd));
            var a := Answer(e, r.read(e.fd));
            && s.log == old(s.log) + a && (gone <==> a == [Closed(e.fd)])
            && s.uids == old(s.uids) + (if gone || a == [] then [] else [old(s.Clients())[i].uid])
    ensures var p := Reported(old(s.Polled()), r); s.Polled() == if gone then Pack(p, i) else p
    ensures gone ==> exists k :: 0 <= k < |old(s.Clients())| && old(s.Clients())[k].fd == old(s.Polled())[i].fd
                                 && s.Clients() == old(s.Clients())[k := old(s.Clients())[k].(fd := -1)]
    ensures !gone ==> s.Clients() == old(s.Clients())
  {
    ReportedAgrees(s.Polled(), r, s.Clients());
    s.Poll(r);
    var failed;
    failed, gone := s.Examine(i, r);
  }

  /** Users 100 and 200 connect. */
  method TwoUsers() returns (s: Server)
    ensures fresh(s) && fresh(s.pollfd) && fresh(s.client)
    ensures s.Valid() && s.log == [] && s.uids == []
    ensures |s.Polled()| == 3 && s.Polled()[1].fd == 5 && s.Polled()[2].fd == 6
    ensures |s.Clients()| > 2 && s.Clients()[1] == Client(5, 100) && s.Clients()[2] == Client(6, 200)
  {
    s := new Server(3);
    s.Accept(5, 100);
    ghost var one := s.Clients();
    assert s.Polled()[1].fd == 5;
    OwnUid(s.Polled(), one, 1);
    assert one[1] == Client(5, 100);
    s.Accept(6, 200);
    hide Agree;
    OwnUid(s.Polled(), s.Clients(), 2);
  }

  /** User 100 hangs up, and the next request of user 200 is handed over as one of user 100. */
  method WrongUser() returns (s: Server)
    ensures fresh(s) && s.Valid() && s.log == [Closed(5), Request(6, 1)]
    ensures UidIs(s.Clients(), 6, 200) && s.uids == [100]
  {
    hide Agree;
    s := TwoUsers();
    ghost var two := s.Clients();
    var gone := PollAndExamine(s, 1, Only(5, POLLHUP));
    assert s.Clients()[1].uid == 100 && s.Clients()[2] == two[2];
    gone := PollAndExamine(s, 1, Only(6, POLLIN));
    assert s.Clients()[2] == Client(6, 200);
  }
}
