/** Walking a file tree with one path buffer that grows. */
module TreeWalk {

  import opened Options

  const NAME_MAX: nat := 255
  const NUL: char := '\0'
  const SLASH: char := '/'

  /** What lstat and opendir find: the tree below a path. A directory lists its names in the order readdir gives. */
  datatype Node =
    | NoStat
    | File
    | Unreadable
    | Dir(entries: seq<(string, Node)>)

  datatype Kind = FTW_F | FTW_D | FTW_DNR | FTW_NS

  datatype Visit = Visit(path: string, kind: Kind)

  predicate IsDot(name: string) { name == "." || name == ".." }

  predicate GoodName(name: string) { 0 < |name| <= NAME_MAX && NUL !in name && SLASH !in name }

  ghost predicate WellNamed(t: Node) {
    match t
    case Dir(entries) =>
      && (forall i :: 0 <= i < |entries| ==> GoodName(entries[i].0) && WellNamed(entries[i].1))
      && (forall i, j :: 0 <= i < j < |entries| ==> entries[i].0 != entries[j].0)
    case _ => true
  }

  // ---- What the walk should report ----

  /** Every node once, a directory before what is in it. A directory that cannot be read is reported a second time,
      as such, and then its path ends in a slash. */
  function Visits(t: Node, path: string): seq<Visit>
    decreases t
  {
    match t
    case NoStat => [Visit(path, FTW_NS)]
    case File => [Visit(path, FTW_F)]
    case Unreadable => [Visit(path, FTW_D), Visit(path + [SLASH], FTW_DNR)]
    case Dir(entries) => [Visit(path, FTW_D)] + Below(t, path, 0)
  }

  function Below(t: Node, path: string, i: nat): seq<Visit>
    requires t.Dir? && i <= |t.entries|
    decreases t, |t.entries| - i
  {
    if i == |t.entries| then []
    else
      var (name, child) := t.entries[i];
      (if IsDot(name) then [] else Visits(child, path + [SLASH] + name)) + Below(t, path, i + 1)
  }

  /** A callback may remember what it was called with; its answer depends on all its calls so far. */
  type Callback = seq<Visit> -> int

  /** Calling back for each visit until one call answers with something other than 0. */
  function Call(func: Callback, log: seq<Visit>, visits: seq<Visit>): (seq<Visit>, int)
    decreases |visits|
  {
    if visits == [] then (log, 0)
    else
      var log' := log + [visits[0]];
      if func(log') != 0 then (log', func(log')) else Call(func, log', visits[1..])
  }

  lemma {:induction false} CallConcat(func: Callback, log: seq<Visit>, a: seq<Visit>, b: seq<Visit>)
    ensures var (log', ret) := Call(func, log, a);
            Call(func, log, a + b) == if ret != 0 then (log', ret) else Call(func, log', b)
    decreases |a|
  {
    if a == [] {
      assert a + b == b;
    } else {
      assert (a + b)[0] == a[0] && (a + b)[1..] == a[1..] + b;
      CallConcat(func, log + [a[0]], a[1..], b);
    }
  }

  lemma OneFurther(log: seq<Visit>, visits: seq<Visit>, n: nat)
    requires 0 < n <= |visits|
    ensures log + visits[..n] == log + [visits[0]] + visits[1..][..n - 1]
  {
    assert visits[..n] == [visits[0]] + visits[1..][..n - 1];
  }

  /** The calls made are a beginning of the visits: all of them, or up to the first that was not answered with 0. */
  lemma {:induction false} CallStopsAtFirst(func: Callback, log: seq<Visit>, visits: seq<Visit>)
    ensures var (log', ret) := Call(func, log, visits);
            var n := |log'| - |log|;
            && 0 <= n <= |visits| && log' == log + visits[..n]
            && (ret == 0 ==> n == |visits|) && (ret != 0 ==> n > 0 && func(log') == ret)
            && forall k :: 0 < k < n ==> func(log + visits[..k]) == 0
    decreases |visits|
  {
    if visits != [] {
      var log1 := log + [visits[0]];
      if func(log1) == 0 {
        CallStopsAtFirst(func, log1, visits[1..]);
        var n := |Call(func, log1, visits[1..]).0| - |log|;
        OneFurther(log, visits, n);
        forall k | 0 < k < n ensures func(log + visits[..k]) == 0 {
          OneFurther(log, visits, k);
          assert k == 1 ==> log1 + visits[1..][..0] == log1;
        }
      } else {
        assert visits[..1] == [visits[0]];
      }
    }
  }

  // ---- The visits are the tree ----

  /** Number of nodes, "." and ".." aside. */
  function Size(t: Node): nat {
    match t
    case Dir(entries) => 1 + SizeBelow(t, 0)
    case _ => 1
  }

  function SizeBelow(t: Node, i: nat): nat
    requires t.Dir? && i <= |t.entries|
    decreases t, |t.entries| - i
  {
    if i == |t.entries| then 0
    else (if IsDot(t.entries[i].0) then 0 else Size(t.entries[i].1)) + SizeBelow(t, i + 1)
  }

  /** The first reports of nodes; the second report of an unreadable directory is left out. */
  function Nodes(visits: seq<Visit>): seq<string> {
    if visits == [] then []
    else (if visits[0].kind == FTW_DNR then [] else [visits[0].path]) + Nodes(visits[1..])
  }

  lemma {:induction false} NodesConcat(a: seq<Visit>, b: seq<Visit>)
    ensures Nodes(a + b) == Nodes(a) + Nodes(b)
    decreases |a|
  {
    if a == [] {
      assert a + b == b;
    } else {
      assert (a + b)[0] == a[0] && (a + b)[1..] == a[1..] + b;
      NodesConcat(a[1..], b);
    }
  }

  ghost predicate Distinct(xs: seq<string>) { forall i, j :: 0 <= i < j < |xs| ==> xs[i] != xs[j] }

  /** The path itself, or something below it. */
  predicate Under(path: string, p: string) { p == path || path + [SLASH] <= p }

  /** What comes before the first slash. */
  function Head(s: string): string {
    if s == [] || s[0] == SLASH then [] else [s[0]] + Head(s[1..])
  }

  lemma {:induction false} HeadIs(name: string, rest: string)
    requires SLASH !in name && (rest == [] || rest[0] == SLASH)
    ensures Head(name + rest) == name
    decreases |name|
  {
    if name == [] {
      assert name + rest == rest;
    } else {
      assert (name + rest)[0] == name[0] && (name + rest)[1..] == name[1..] + rest;
      HeadIs(name[1..], rest);
    }
  }

  lemma HeadUnder(dir: string, name: string, p: string)
    requires SLASH !in name && Under(dir + [SLASH] + name, p)
    ensures |dir| < |p| && Head(p[|dir| + 1..]) == name
  {
    var at := dir + [SLASH] + name;
    var rest := p[|at|..];
    assert p[|dir| + 1..] == name + rest;
    if p != at { assert rest[0] == p[|at|] == (at + [SLASH])[|at|]; }
    HeadIs(name, rest);
  }

  /** Every node is reported once, with a path of its own below the path of its directory. */
  lemma {:induction false} EachNodeOnce(t: Node, path: string)
    requires WellNamed(t)
    ensures var ns := Nodes(Visits(t, path));
            |ns| == Size(t) && ns[0] == path && Distinct(ns) && forall p :: p in ns ==> Under(path, p)
    decreases t
  {
    match t
    case Dir(entries) =>
      EachBelowOnce(t, path, 0);
      var below := Below(t, path, 0);
      NodesConcat([Visit(path, FTW_D)], below);
      OneNode(path, FTW_D);
      forall p | p in Nodes(below) ensures Under(path, p) && p != path {
        assert Reached(t, path, 0, p);
        var k :| 0 <= k < |entries| && Under(path + [SLASH] + entries[k].0, p);
        assert path + [SLASH] <= path + [SLASH] + entries[k].0 <= p;
      }
      DistinctConcat([path], Nodes(below));
    case Unreadable =>
      var twice := Visit(path + [SLASH], FTW_DNR);
      NodesConcat([Visit(path, FTW_D)], [twice]);
      OneNode(path, FTW_D);
      assert Visits(t, path) == [Visit(path, FTW_D)] + [twice] && [twice][1..] == [] && Nodes([twice]) == Nodes([]);
    case NoStat => OneNode(path, FTW_NS);
    case File => OneNode(path, FTW_F);
  }

  lemma OneNode(path: string, kind: Kind)
    ensures kind != FTW_DNR ==> Nodes([Visit(path, kind)]) == [path]
  {
    assert [Visit(path, kind)][1..] == [];
  }

  /** One of the names from i on leads to p. */
  ghost predicate Reached(t: Node, path: string, i: nat, p: string)
    requires t.Dir?
  {
    exists k :: i <= k < |t.entries| && Under(path + [SLASH] + t.entries[k].0, p)
  }

  lemma {:induction false} EachBelowOnce(t: Node, path: string, i: nat)
    requires t.Dir? && WellNamed(t) && i <= |t.entries|
    ensures var ns := Nodes(Below(t, path, i));
            && |ns| == SizeBelow(t, i) && Distinct(ns)
            && forall p {:trigger Reached(t, path, i, p)} :: p in ns ==> Reached(t, path, i, p)
    decreases t, |t.entries| - i
  {
    if i < |t.entries| {
      EachBelowOnce(t, path, i + 1);
      var b := Nodes(Below(t, path, i + 1));
      forall p | p in b ensures Reached(t, path, i, p) { assert Reached(t, path, i + 1, p); }
      var (name, child) := t.entries[i];
      if !IsDot(name) {
        var at := path + [SLASH] + name;
        EachNodeOnce(child, at);
        var a := Nodes(Visits(child, at));
        NodesConcat(Visits(child, at), Below(t, path, i + 1));
        forall p | p in a ensures p !in b && Reached(t, path, i, p) {
          if p in b { OtherName(t, path, i, p); }
        }
        DistinctConcat(a, b);
      } else {
        assert [] + Below(t, path, i + 1) == Below(t, path, i + 1);
      }
    }
  }

  /** Below one directory and through different names one does not come to the same path. */
  lemma OtherName(t: Node, path: string, i: nat, p: string)
    requires t.Dir? && WellNamed(t) && i < |t.entries| && Under(path + [SLASH] + t.entries[i].0, p)
    ensures !Reached(t, path, i + 1, p)
  {
    forall k | i + 1 <= k < |t.entries| ensures !Under(path + [SLASH] + t.entries[k].0, p) {
      if Under(path + [SLASH] + t.entries[k].0, p) {
        HeadUnder(path, t.entries[i].0, p);
        HeadUnder(path, t.entries[k].0, p);
      }
    }
  }

  lemma DistinctConcat(a: seq<string>, b: seq<string>)
    requires Distinct(a) && Distinct(b) && forall p :: p in a ==> p !in b
    ensures Distinct(a + b)
  {
    forall i, j | 0 <= i < j < |a + b| ensures (a + b)[i] != (a + b)[j] {
      if i < |a| <= j { assert a[i] in a && b[j - |a|] in b; }
    }
  }

  // ---- Each report is of a node, at its true path ----

  function IndexOf(entries: seq<(string, Node)>, name: string): (i: nat)
    ensures i <= |entries| && (i < |entries| ==> entries[i].0 == name)
    ensures forall j :: 0 <= j < i ==> entries[j].0 != name
  {
    if entries == [] || entries[0].0 == name then 0 else 1 + IndexOf(entries[1..], name)
  }

  /** The node that a sequence of names leads to. */
  function Lookup(t: Node, names: seq<string>): Option<Node>
    decreases names
  {
    if names == [] then Some(t)
    else if !t.Dir? || IsDot(names[0]) then None
    else
      var i := IndexOf(t.entries, names[0]);
      if i < |t.entries| then Lookup(t.entries[i].1, names[1..]) else None
  }

  function PathTo(path: string, names: seq<string>): string
    decreases names
  {
    if names == [] then path else PathTo(path + [SLASH] + names[0], names[1..])
  }

  function KindOf(t: Node): Kind {
    match t
    case NoStat => FTW_NS
    case File => FTW_F
    case Unreadable | Dir(_) => FTW_D
  }

  /** A report of this node at this path: the one every node gets, or the second one of an unreadable directory. */
  predicate Reports(v: Visit, t: Node, p: string) {
    v == Visit(p, KindOf(t)) || (t.Unreadable? && v == Visit(p + [SLASH], FTW_DNR))
  }

  lemma {:induction false} VisitIsOfNode(t: Node, path: string, v: Visit) returns (names: seq<string>)
    requires WellNamed(t) && v in Visits(t, path)
    ensures Lookup(t, names).Some? && Reports(v, Lookup(t, names).value, PathTo(path, names))
    decreases t
  {
    names := [];
    if t.Dir? && v != Visit(path, FTW_D) { names := VisitBelow(t, path, 0, v); }
  }

  lemma {:induction false} VisitBelow(t: Node, path: string, i: nat, v: Visit) returns (names: seq<string>)
    requires t.Dir? && WellNamed(t) && i <= |t.entries| && v in Below(t, path, i)
    ensures Lookup(t, names).Some? && Reports(v, Lookup(t, names).value, PathTo(path, names)) && names != []
    decreases t, |t.entries| - i
  {
    var (name, child) := t.entries[i];
    var at := path + [SLASH] + name;
    if !IsDot(name) && v in Visits(child, at) {
      var rest := VisitIsOfNode(child, at, v);
      names := [name] + rest;
      assert names[1..] == rest;
    } else {
      assert [] + Below(t, path, i + 1) == Below(t, path, i + 1);
      names := VisitBelow(t, path, i + 1, v);
    }
  }

  lemma {:induction false} NodeIsVisited(t: Node, path: string, names: seq<string>, v: Visit)
    requires WellNamed(t) && Lookup(t, names).Some? && Reports(v, Lookup(t, names).value, PathTo(path, names))
    ensures v in Visits(t, path)
    decreases names
  {
    if names != [] {
      var i := IndexOf(t.entries, names[0]);
      var at := path + [SLASH] + names[0];
      NodeIsVisited(t.entries[i].1, at, names[1..], v);
      BelowHas(t, path, 0, i, v);
    }
  }

  lemma {:induction false} BelowHas(t: Node, path: string, j: nat, i: nat, v: Visit)
    requires t.Dir? && j <= i < |t.entries| && !IsDot(t.entries[i].0)
    requires v in Visits(t.entries[i].1, path + [SLASH] + t.entries[i].0)
    ensures v in Below(t, path, j)
    decreases i - j
  {
    if j < i { BelowHas(t, path, j + 1, i, v); }
  }

  /** The reports are exactly those of the nodes of the tree, each at the path that its names spell. */
  lemma TruePaths(t: Node, path: string, v: Visit)
    requires WellNamed(t)
    ensures v in Visits(t, path)
            <==> exists names :: Lookup(t, names).Some? && Reports(v, Lookup(t, names).value, PathTo(path, names))
  {
    if v in Visits(t, path) {
      var names := VisitIsOfNode(t, path, v);
    }
    if names :| Lookup(t, names).Some? && Reports(v, Lookup(t, names).value, PathTo(path, names)) {
      NodeIsVisited(t, path, names, v);
    }
  }

  // ---- How often ----

  /** Directories that cannot be read. */
  function Shut(t: Node): nat {
    match t
    case Unreadable => 1
    case Dir(_) => ShutBelow(t, 0)
    case _ => 0
  }

  function ShutBelow(t: Node, i: nat): nat
    requires t.Dir? && i <= |t.entries|
    decreases t, |t.entries| - i
  {
    if i == |t.entries| then 0
    else (if IsDot(t.entries[i].0) then 0 else Shut(t.entries[i].1)) + ShutBelow(t, i + 1)
  }

  lemma {:induction false} CountVisits(t: Node, path: string)
    ensures |Visits(t, path)| == Size(t) + Shut(t)
    decreases t
  {
    if t.Dir? { CountBelow(t, path, 0); }
  }

  lemma {:induction false} CountBelow(t: Node, path: string, i: nat)
    requires t.Dir? && i <= |t.entries|
    ensures |Below(t, path, i)| == SizeBelow(t, i) + ShutBelow(t, i)
    decreases t, |t.entries| - i
  {
    if i < |t.entries| {
      CountBelow(t, path, i + 1);
      if !IsDot(t.entries[i].0) { CountVisits(t.entries[i].1, path + [SLASH] + t.entries[i].0); }
    }
  }

  lemma {:induction false} ShutWhere(t: Node) returns (names: seq<string>)
    requires WellNamed(t) && Shut(t) > 0
    ensures Lookup(t, names) == Some(Unreadable)
    decreases t
  {
    names := [];
    if t.Dir? { names := ShutWhereBelow(t, 0); }
  }

  lemma {:induction false} ShutWhereBelow(t: Node, i: nat) returns (names: seq<string>)
    requires t.Dir? && WellNamed(t) && i <= |t.entries| && ShutBelow(t, i) > 0
    ensures Lookup(t, names) == Some(Unreadable)
    decreases t, |t.entries| - i
  {
    var (name, child) := t.entries[i];
    if !IsDot(name) && Shut(child) > 0 {
      var rest := ShutWhere(child);
      names := [name] + rest;
      assert names[1..] == rest;
    } else {
      names := ShutWhereBelow(t, i + 1);
    }
  }

  lemma {:induction false} ShutCounted(t: Node, names: seq<string>)
    requires Lookup(t, names) == Some(Unreadable)
    ensures Shut(t) > 0
    decreases names
  {
    if names != [] {
      var i := IndexOf(t.entries, names[0]);
      ShutCounted(t.entries[i].1, names[1..]);
      ShutCountedBelow(t, 0, i);
    }
  }

  lemma {:induction false} ShutCountedBelow(t: Node, j: nat, i: nat)
    requires t.Dir? && j <= i < |t.entries| && !IsDot(t.entries[i].0) && Shut(t.entries[i].1) > 0
    ensures ShutBelow(t, j) > 0
    decreases i - j
  {
    if j < i { ShutCountedBelow(t, j + 1, i); }
  }

  /** There are as many reports as nodes if and only if no directory is unreadable; each unreadable one adds one. */
  lemma OnceEachIff(t: Node, path: string)
    requires WellNamed(t)
    ensures |Visits(t, path)| == Size(t) + Shut(t)
    ensures |Visits(t, path)| == Size(t) <==> forall names :: Lookup(t, names) != Some(Unreadable)
  {
    CountVisits(t, path);
    if Shut(t) > 0 { var names := ShutWhere(t); }
    if names :| Lookup(t, names) == Some(Unreadable) { ShutCounted(t, names); }
  }

  /** A file, a path that cannot be looked at, and an empty directory are reported as that. */
  lemma LeafReports(path: string)
    ensures Visits(File, path) == [Visit(path, FTW_F)] && Visits(NoStat, path) == [Visit(path, FTW_NS)]
    ensures Visits(Dir([]), path) == [Visit(path, FTW_D)]
  {
    assert Below(Dir([]), path, 0) == [];
  }

  /** The walk of one unreadable directory reports one node twice. */
  lemma ReportedTwice(path: string)
    ensures Size(Unreadable) == 1 && Visits(Unreadable, path) == [Visit(path, FTW_D), Visit(path + [SLASH], FTW_DNR)]
    ensures |Visits(Unreadable, path)| != Size(Unreadable)
  {
  }

  // ---- In which order ----

  lemma {:induction false} PathUnder(path: string, names: seq<string>)
    ensures Under(path, PathTo(path, names))
    decreases names
  {
    if names != [] {
      var at := path + [SLASH] + names[0];
      PathUnder(at, names[1..]);
      UnderThrough(path, at, PathTo(path, names));
    }
  }

  lemma UnderThrough(a: string, b: string, c: string)
    requires Under(a, b) && Under(b, c)
    ensures Under(a, c)
  {
    if a != b && b != c { assert c[..|a| + 1] == b[..|a| + 1] == a + [SLASH]; }
  }

  lemma ReportUnder(t: Node, path: string, v: Visit)
    requires WellNamed(t) && v in Visits(t, path)
    ensures Under(path, v.path)
  {
    var names := VisitIsOfNode(t, path, v);
    PathUnder(path, names);
    UnderThrough(path, PathTo(path, names), v.path);
  }

  lemma {:induction false} BelowUnder(t: Node, path: string, i: nat, v: Visit) returns (k: nat)
    requires t.Dir? && WellNamed(t) && i <= |t.entries| && v in Below(t, path, i)
    ensures i <= k < |t.entries| && Under(path + [SLASH] + t.entries[k].0, v.path)
    decreases |t.entries| - i
  {
    k := i;
    var (name, child) := t.entries[i];
    if !IsDot(name) && v in Visits(child, path + [SLASH] + name) {
      ReportUnder(child, path + [SLASH] + name, v);
    } else {
      assert [] + Below(t, path, i + 1) == Below(t, path, i + 1);
      k := BelowUnder(t, path, i + 1, v);
    }
  }

  /** Nothing is reported before a directory it is in, and all reports from within a directory come together. */
  ghost predicate Preorder(vs: seq<Visit>) {
    && (forall i, j :: 0 <= i < j < |vs| ==> !(vs[j].path + [SLASH] <= vs[i].path))
    && (forall i, j, k :: 0 <= i < j < k < |vs| && Under(vs[i].path, vs[k].path) ==> Under(vs[i].path, vs[j].path))
  }

  lemma {:induction false} VisitsInOrder(t: Node, path: string)
    requires WellNamed(t)
    ensures Preorder(Visits(t, path))
    decreases t
  {
    match t
    case Dir(entries) =>
      BelowInOrder(t, path, 0);
      var first, below := Visit(path, FTW_D), Below(t, path, 0);
      forall j | 0 <= j < |below| ensures Under(path, below[j].path) && !(below[j].path + [SLASH] <= path) {
        var k := BelowUnder(t, path, 0, below[j]);
        UnderThrough(path, path + [SLASH] + entries[k].0, below[j].path);
      }
      FirstInOrder(first, below);
    case _ =>
  }

  lemma FirstInOrder(first: Visit, below: seq<Visit>)
    requires Preorder(below)
    requires forall j :: 0 <= j < |below| ==>
             Under(first.path, below[j].path) && !(below[j].path + [SLASH] <= first.path)
    ensures Preorder([first] + below)
  {
    var vs := [first] + below;
    assert forall j :: 0 < j < |vs| ==> vs[j] == below[j - 1];
  }

  lemma Named(t: Node, i: nat)
    requires t.Dir? && WellNamed(t) && i < |t.entries|
    ensures WellNamed(t.entries[i].1)
  {
  }

  lemma {:induction false} BelowInOrder(t: Node, path: string, i: nat)
    requires t.Dir? && WellNamed(t) && i <= |t.entries|
    ensures Preorder(Below(t, path, i))
    decreases t, |t.entries| - i
  {
    hide Preorder, Under, Visits, WellNamed;
    if i == |t.entries| {
      EmptyInOrder();
    } else {
      var (name, child) := t.entries[i];
      var rest := Below(t, path, i + 1);
      assert WellNamed(child) by { Named(t, i); }
      BelowInOrder(t, path, i + 1);
      if IsDot(name) {
        assert [] + rest == rest;
      } else {
        var block := Visits(child, path + [SLASH] + name);
        VisitsInOrder(child, path + [SLASH] + name);
        forall a, b | 0 <= a < |block| && 0 <= b < |rest|
          ensures !Under(block[a].path, rest[b].path) && !Under(rest[b].path, block[a].path)
        {
          assert block[a] in block && rest[b] in rest;
          BlocksApart(t, path, i, block[a], rest[b]);
        }
        JoinInOrder(block, rest);
      }
    }
  }

  lemma BlocksApart(t: Node, path: string, i: nat, v: Visit, w: Visit)
    requires t.Dir? && WellNamed(t) && i < |t.entries| && !IsDot(t.entries[i].0)
    requires v in Visits(t.entries[i].1, path + [SLASH] + t.entries[i].0) && w in Below(t, path, i + 1)
    ensures !Under(v.path, w.path) && !Under(w.path, v.path)
  {
    var at := path + [SLASH] + t.entries[i].0;
    ReportUnder(t.entries[i].1, at, v);
    var k := BelowUnder(t, path, i + 1, w);
    var at' := path + [SLASH] + t.entries[k].0;
    if Under(v.path, w.path) {
      UnderThrough(at, v.path, w.path);
      OtherName(t, path, i, w.path);
      assert Reached(t, path, i + 1, w.path);
    }
    if Under(w.path, v.path) {
      UnderThrough(at', w.path, v.path);
      OtherName(t, path, i, v.path);
      assert Reached(t, path, i + 1, v.path);
    }
  }

  /** Where the reports from below one name stand among those from the names from k on. */
  lemma {:induction false} SiblingsApart(t: Node, path: string, k: nat, i: nat, j: nat, a: nat, b: nat)
    requires t.Dir? && WellNamed(t) && k <= i < j < |t.entries|
    requires a < |Below(t, path, k)| && Under(path + [SLASH] + t.entries[i].0, Below(t, path, k)[a].path)
    requires b < |Below(t, path, k)| && Under(path + [SLASH] + t.entries[j].0, Below(t, path, k)[b].path)
    ensures a < b
    decreases i - k
  {
    hide WellNamed, Under;
    var (name, child) := t.entries[k];
    var rest := Below(t, path, k + 1);
    var block := if IsDot(name) then [] else Visits(child, path + [SLASH] + name);
    var vs := Below(t, path, k);
    assert vs == block + rest;
    if k < i {
      NotInBlock(t, path, k, i, block, vs, a);
      NotInBlock(t, path, k, j, block, vs, b);
      SiblingsApart(t, path, k + 1, i, j, a - |block|, b - |block|);
    } else {
      NotInBlock(t, path, k, j, block, vs, b);
      if a >= |block| {
        assert vs[a] == rest[a - |block|] && vs[a] in rest;
        NotBehind(t, path, k, vs[a]);
        assert false;
      }
    }
  }

  lemma NotInBlock(t: Node, path: string, k: nat, i: nat, block: seq<Visit>, vs: seq<Visit>, a: nat)
    requires t.Dir? && WellNamed(t) && k < i < |t.entries| && a < |vs| && block <= vs
    requires block == if IsDot(t.entries[k].0) then [] else Visits(t.entries[k].1, path + [SLASH] + t.entries[k].0)
    requires Under(path + [SLASH] + t.entries[i].0, vs[a].path)
    ensures a >= |block|
  {
    if a < |block| {
      assert vs[a] == block[a] && block[a] in block;
      ReportUnder(t.entries[k].1, path + [SLASH] + t.entries[k].0, vs[a]);
      assert Reached(t, path, k + 1, vs[a].path);
      OtherName(t, path, k, vs[a].path);
    }
  }

  lemma NotBehind(t: Node, path: string, k: nat, v: Visit)
    requires t.Dir? && WellNamed(t) && k < |t.entries| && v in Below(t, path, k + 1)
    ensures !Under(path + [SLASH] + t.entries[k].0, v.path)
  {
    var l := BelowUnder(t, path, k + 1, v);
    if Under(path + [SLASH] + t.entries[k].0, v.path) {
      assert Reached(t, path, k + 1, v.path);
      OtherName(t, path, k, v.path);
    }
  }

  /** Names are gone through as the directory lists them: all reports from below one come before all reports from below
      a later one. */
  lemma SiblingsInOrder(t: Node, path: string, i: nat, j: nat, a: nat, b: nat)
    requires t.Dir? && WellNamed(t) && i < j < |t.entries|
    requires a < |Visits(t, path)| && Under(path + [SLASH] + t.entries[i].0, Visits(t, path)[a].path)
    requires b < |Visits(t, path)| && Under(path + [SLASH] + t.entries[j].0, Visits(t, path)[b].path)
    ensures a < b
  {
    assert Visits(t, path)[0].path == path;
    SiblingsApart(t, path, 0, i, j, a - 1, b - 1);
  }

  lemma {:induction false} BlockBelow(t: Node, path: string, k: nat, i: nat) returns (a: seq<Visit>, b: seq<Visit>)
    requires t.Dir? && k <= i < |t.entries| && !IsDot(t.entries[i].0)
    ensures Below(t, path, k) == a + Visits(t.entries[i].1, path + [SLASH] + t.entries[i].0) + b
    decreases i - k
  {
    var (name, child) := t.entries[k];
    var block := if IsDot(name) then [] else Visits(child, path + [SLASH] + name);
    if k == i {
      a, b := [], Below(t, path, k + 1);
    } else {
      a, b := BlockBelow(t, path, k + 1, i);
      a := block + a;
    }
  }

  /** Deeper down it is the same: the reports of a node and of what is below it are, in one piece, those of a walk that
      begins there. */
  lemma {:induction false} WalkWithin(t: Node, path: string, names: seq<string>) returns (a: seq<Visit>, b: seq<Visit>)
    requires Lookup(t, names).Some?
    ensures Visits(t, path) == a + Visits(Lookup(t, names).value, PathTo(path, names)) + b
    decreases names
  {
    if names == [] {
      a, b := [], [];
    } else {
      var i := IndexOf(t.entries, names[0]);
      var at := path + [SLASH] + names[0];
      var a1, b1 := WalkWithin(t.entries[i].1, at, names[1..]);
      var a2, b2 := BlockBelow(t, path, 0, i);
      a, b := [Visit(path, FTW_D)] + a2 + a1, b1 + b2;
      var inner := Visits(Lookup(t, names).value, PathTo(path, names));
      assert Visits(t.entries[i].1, at) == a1 + inner + b1;
      assert Below(t, path, 0) == a2 + (a1 + inner + b1) + b2;
      hide Visits, Below, Lookup, PathTo;
      assert [Visit(path, FTW_D)] + (a2 + (a1 + inner + b1) + b2) == a + inner + b;
    }
  }

  lemma EmptyInOrder()
    ensures Preorder([])
  {
  }

  lemma JoinInOrder(a: seq<Visit>, b: seq<Visit>)
    requires Preorder(a) && Preorder(b)
    requires forall i, j :: 0 <= i < |a| && 0 <= j < |b| ==>
             !Under(a[i].path, b[j].path) && !Under(b[j].path, a[i].path)
    ensures Preorder(a + b)
  {
    var vs := a + b;
    forall i, j | 0 <= i < j < |vs| ensures !(vs[j].path + [SLASH] <= vs[i].path) {
      if j < |a| { assert vs[i] == a[i] && vs[j] == a[j]; }
      else if i < |a| { assert vs[i] == a[i] && vs[j] == b[j - |a|]; }
      else { assert vs[i] == b[i - |a|] && vs[j] == b[j - |a|]; }
    }
    forall i, j, k | 0 <= i < j < k < |vs| ensures Under(vs[i].path, vs[k].path) ==> Under(vs[i].path, vs[j].path) {
      if k < |a| { assert vs[i] == a[i] && vs[j] == a[j] && vs[k] == a[k]; }
      else if i < |a| { assert vs[i] == a[i] && vs[k] == b[k - |a|]; }
      else { assert vs[i] == b[i - |a|] && vs[j] == b[j - |a|] && vs[k] == b[k - |a|]; }
    }
  }

  // ---- The program ----

  class Walker {
    const func: Callback
    var fullpath: array<char>
    var pathlen: nat
    var log: seq<Visit>

    /** The buffer is as long as pathlen says. */
    ghost predicate Valid()
      reads this
    {
      fullpath.Length == pathlen > NAME_MAX
    }

    /** The string in the buffer. */
    ghost predicate Spells(path: string)
      requires Valid()
      reads this, fullpath
    {
      NUL !in path && |path| < pathlen && fullpath[..|path|] == path && fullpath[|path|] == NUL
    }

    /** What may have become of the buffer: it is the same or a new one, not shorter, and spells `kept` at its front. */
    twostate predicate Grown(kept: string)
      requires old(Valid())
      reads this, fullpath
    {
      && Valid() && pathlen >= old(pathlen) && (fullpath == old(fullpath) || fresh(fullpath))
      && |kept| < pathlen && fullpath[..|kept|] == kept
    }

    /** path_alloc and the start of myftw: a buffer of `initial` characters, made longer if the path needs it. */
    constructor (func: Callback, pathname: string, initial: nat)
      requires initial > NAME_MAX && NUL !in pathname
      ensures Valid() && Spells(pathname) && log == [] && this.func == func && fresh(fullpath)
      ensures pathlen == if initial <= |pathname| then 2 * |pathname| else initial
    {
      this.func := func;
      var len := if initial <= |pathname| then |pathname| * 2 else initial;
      var buf := new char[len](i => NUL);
      fullpath := buf;
      pathlen := len;
      log := [];
      new;
      Copy(0, pathname);
    }

    /** strcpy(&fullpath[at], s) */
    method Copy(at: nat, s: string)
      requires Valid() && at + |s| < pathlen && NUL !in s
      modifies fullpath
      ensures fullpath[..at] == old(fullpath[..at]) && fullpath[at..at + |s|] == s && fullpath[at + |s|] == NUL
    {
      var i := 0;
      while i < |s|
        invariant i <= |s| && fullpath[..at] == old(fullpath[..at]) && fullpath[at..at + i] == s[..i]
      {
        fullpath[at + i] := s[i];
        i := i + 1;
      }
      fullpath[at + |s|] := NUL;
      assert fullpath[at..at + |s|] == s;
    }

    /** strlen(fullpath) */
    method Length(ghost path: string) returns (n: nat)
      requires Valid() && Spells(path)
      ensures n == |path|
    {
      forall k | 0 <= k < |path| ensures fullpath[k] != NUL {
        assert fullpath[k] == fullpath[..|path|][k] && path[k] in path;
      }
      n := 0;
      while fullpath[n] != NUL
        invariant n <= |path|
        decreases |path| - n
      {
        n := n + 1;
      }
    }

    /** realloc to twice the length. */
    method Double(ghost path: string)
      requires Valid() && Spells(path)
      modifies this
      ensures Valid() && Spells(path) && pathlen == 2 * old(pathlen) && fresh(fullpath) && log == old(log)
    {
      pathlen := pathlen * 2;
      var buf := new char[pathlen](i => NUL);
      var i := 0;
      while i < fullpath.Length
        invariant fullpath == old(fullpath) && pathlen == 2 * fullpath.Length == buf.Length && log == old(log)
        invariant i <= fullpath.Length && buf[..i] == fullpath[..i]
      {
        buf[i] := fullpath[i];
        i := i + 1;
      }
      ghost var was := fullpath;
      assert buf[..was.Length] == was[..];
      assert buf[..|path|] == was[..|path|] && buf[|path|] == was[|path|];
      fullpath := buf;
    }

    /** A call of the user's function. */
    method Report(path: string, kind: Kind) returns (ret: int)
      modifies `log
      ensures log == old(log) + [Visit(path, kind)] && ret == func(log)
    {
      log := log + [Visit(path, kind)];
      ret := func(log);
    }

    /** dopath: the buffer spells the path of a tree. */
    method DoPath(t: Node, ghost path: string) returns (ret: int)
      requires Valid() && Spells(path) && WellNamed(t)
      modifies this, fullpath
      ensures Grown(path)
      ensures (log, ret) == Call(func, old(log), Visits(t, path))
      decreases t, 2
    {
      match t {
        case NoStat => ret := ReportHere(path, FTW_NS);
        case File => ret := ReportHere(path, FTW_F);
        case Unreadable => ret := Closed(path);
        case Dir(_) => ret := Directory(t, path);
      }
    }

    /** A directory that opendir refuses. */
    method Closed(ghost path: string) returns (ret: int)
      requires Valid() && Spells(path)
      modifies this, fullpath
      ensures Grown(path)
      ensures (log, ret) == Call(func, old(log), Visits(Unreadable, path))
    {
      ret := ReportHere(path, FTW_D);
      CallTwo(func, old(log), Visit(path, FTW_D), Visit(path + [SLASH], FTW_DNR));
      if ret != 0 { return; }
      var n := AddSlash(path);
      ret := ReportHere(path + [SLASH], FTW_DNR);
      assert fullpath[..|path|] == fullpath[..|path| + 1][..|path|];
    }

    /** A directory: itself, then a slash, then what is in it; at the end the slash is taken away. */
    method Directory(t: Node, ghost path: string) returns (ret: int)
      requires Valid() && Spells(path) && WellNamed(t) && t.Dir?
      modifies this, fullpath
      ensures Grown(path)
      ensures (log, ret) == Call(func, old(log), Visits(t, path))
      decreases t, 1
    {
      ghost var below := Below(t, path, 0);
      ghost var outcome := Call(func, old(log), [Visit(path, FTW_D)] + below);
      ret := ReportHere(path, FTW_D);
      CallConcat(func, old(log), [Visit(path, FTW_D)], below);
      if ret != 0 { return; }
      assert outcome == Call(func, log, below);
      var n := AddSlash(path);
      ret := Entries(t, path, n);
      CutSlash(path, n);
    }

    /** ptr[-1] = 0 */
    method CutSlash(ghost path: string, n: nat)
      requires n == |path| + 1 && NUL !in path && Valid() && n <= pathlen && fullpath[..n] == path + [SLASH]
      modifies fullpath
      ensures Spells(path)
    {
      assert fullpath[..|path|] == fullpath[..n][..|path|] == path;
      fullpath[n - 1] := NUL;
    }

    /** The user's function called with what the buffer spells. */
    method ReportHere(ghost path: string, kind: Kind) returns (ret: int)
      requires Valid() && Spells(path)
      modifies `log
      ensures log == old(log) + [Visit(path, kind)] && ret == func(log)
      ensures (log, ret) == Call(func, old(log), [Visit(path, kind)])
    {
      var n := Length(path);
      assert fullpath[..n] == path;
      ret := Report(fullpath[..n], kind);
      CallOne(func, old(log), Visit(path, kind));
    }

    /** Make room for any name, and put the slash behind the path. */
    method AddSlash(ghost path: string) returns (n: nat)
      requires Valid() && Spells(path)
      modifies this, fullpath
      ensures Grown(path + [SLASH]) && Spells(path + [SLASH]) && n == |path| + 1 && n + NAME_MAX + 1 <= pathlen
      ensures pathlen == if |path| + NAME_MAX + 2 > old(pathlen) then 2 * old(pathlen) else old(pathlen)
      ensures log == old(log)
    {
      n := Length(path);
      if n + NAME_MAX + 2 > pathlen { Double(path); }
      fullpath[n] := SLASH;
      n := n + 1;
      fullpath[n] := NUL;
      assert fullpath[..n] == fullpath[..n - 1] + [SLASH];
    }

    /** The loop over the names of a directory: the buffer spells the directory and a slash up to n. */
    method Entries(t: Node, ghost path: string, n: nat) returns (ret: int)
      requires t.Dir? && WellNamed(t) && n == |path| + 1
      requires Front(path, n)
      modifies this, fullpath
      ensures Grown(path + [SLASH])
      ensures (log, ret) == Call(func, old(log), Below(t, path, 0))
      decreases t, 0
    {
      ret := 0;
      var i := 0;
      ghost var due := Below(t, path, 0);
      ghost var outcome := Call(func, log, due);
      while i < |t.entries|
        invariant i <= |t.entries| && ret == 0
        invariant Front(path, n) && pathlen >= old(pathlen) && (fullpath == old(fullpath) || fresh(fullpath))
        invariant due == Below(t, path, i) && outcome == Call(func, log, due)
      {
        var (name, child) := t.entries[i];
        ghost var next := Below(t, path, i + 1);
        if IsDot(name) {
          assert [] + next == next;
        } else {
          CallConcat(func, log, Visits(child, path + [SLASH] + name), next);
          ret := Entry(name, child, path, n);
          if ret != 0 { return; }
        }
        i := i + 1;
        due := next;
      }
    }

    /** The buffer begins with the directory and a slash, and has room for a name. */
    ghost predicate Front(path: string, n: nat)
      reads this, fullpath
    {
      n == |path| + 1 && NUL !in path && Valid() && n + NAME_MAX + 1 <= pathlen && fullpath[..n] == path + [SLASH]
    }

    /** One name of a directory is put behind the slash, and its tree is walked. */
    method Entry(name: string, child: Node, ghost path: string, n: nat) returns (ret: int)
      requires GoodName(name) && WellNamed(child) && Front(path, n)
      modifies this, fullpath
      ensures Front(path, n) && pathlen >= old(pathlen) && (fullpath == old(fullpath) || fresh(fullpath))
      ensures (log, ret) == Call(func, old(log), Visits(child, path + [SLASH] + name))
      decreases child, 3
    {
      ghost var at := path + [SLASH] + name;
      Copy(n, name);
      assert fullpath[..|at|] == fullpath[..n] + fullpath[n..|at|];
      ret := DoPath(child, at);
      assert fullpath[..n] == fullpath[..|at|][..n] && at[..n] == path + [SLASH];
    }
  }

  lemma CallOne(func: Callback, log: seq<Visit>, v: Visit)
    ensures Call(func, log, [v]) == (log + [v], func(log + [v]))
  {
    assert [v][1..] == [];
  }

  lemma CallTwo(func: Callback, log: seq<Visit>, v: Visit, w: Visit)
    ensures Call(func, log, [v, w]) == if func(log + [v]) != 0 then (log + [v], func(log + [v]))
            else Call(func, log + [v], [w])
  {
    assert [v, w][1..] == [w];
  }

  /** myftw: the calls are those for the visits of the tree, in order, until the first that is not answered with 0,
      whose answer is the result. The first buffer need only be longer than a file name. */
  method Myftw(pathname: string, t: Node, func: Callback, initial: nat) returns (ret: int, log: seq<Visit>)
    requires initial > NAME_MAX && NUL !in pathname && WellNamed(t)
    ensures (log, ret) == Call(func, [], Visits(t, pathname))
  {
    var w := new Walker(func, pathname, initial);
    ret := w.DoPath(t, pathname);
    log := w.log;
  }
}
