/** CPU time by process tree. Every process belongs to the first root that reaches it through child
    links, whatever the parent graph looks like, and the groups' figures add up to all CPU used. */
module HostStats {
  import opened Lists
  import opened Wrappers

  type Pid = nat
  type Group = string

  datatype Proc = Proc(ppid: Pid, cpu: real, args: string)

  /** A sample of ps: the processes in its order. */
  datatype Procs = Procs(pids: seq<Pid>, info: map<Pid, Proc>)

  ghost predicate Ok(ps: Procs) {
    NoDup(ps.pids) && forall p :: p in ps.pids <==> p in ps.info
  }

  /** One step up from each process: q's ancestor after n parent links. */
  function Up(ps: Procs, q: Pid, n: nat): Option<Pid>
    decreases n
  {
    if n == 0 then Some(q)
    else if q in ps.info then Up(ps, ps.info[q].ppid, n - 1)
    else None
  }

  /** root reaches q through child links. */
  ghost predicate Reaches(ps: Procs, root: Pid, q: Pid) {
    exists n: nat :: Up(ps, q, n) == Some(root)
  }

  ghost predicate IsChild(ps: Procs, p: Pid, q: Pid) {
    q in ps.info && ps.info[q].ppid == p
  }

  lemma ReachesItself(ps: Procs, root: Pid)
    ensures Reaches(ps, root, root)
  {
    assert Up(ps, root, 0) == Some(root);
  }

  lemma ChildIsReached(ps: Procs, root: Pid, p: Pid, q: Pid)
    requires Reaches(ps, root, p) && IsChild(ps, p, q)
    ensures Reaches(ps, root, q)
  {
    var n: nat :| Up(ps, p, n) == Some(root);
    assert Up(ps, q, n + 1) == Some(root);
  }

  /** A set with root that is closed under children holds everything root reaches. */
  lemma {:induction false} ClosedHoldsReached(ps: Procs, root: Pid, q: Pid, n: nat, s: set<Pid>)
    requires root in s && (forall p, c :: p in s && IsChild(ps, p, c) ==> c in s)
    requires Up(ps, q, n) == Some(root)
    ensures q in s
    decreases n
  {
    if n > 0 {
      ClosedHoldsReached(ps, root, ps.info[q].ppid, n - 1, s);
      assert IsChild(ps, ps.info[q].ppid, q);
    }
  }

  // ----- groups -----------------------------------------------------------------------------------

  const OWN := "diy-port"
  const OTHER := "other"

  datatype Root = Root(pid: Pid, name: Group)

  /** The group of q: that of the first root reaching it. */
  ghost function GroupFor(ps: Procs, roots: seq<Root>, q: Pid): Option<Group> {
    if roots == [] then None
    else
      var first := GroupFor(ps, roots[..|roots| - 1], q);
      if first.Some? then first
      else if Reaches(ps, roots[|roots| - 1].pid, q) then Some(roots[|roots| - 1].name)
      else None
  }

  function Lookup(groups: map<Pid, Group>, q: Pid): Option<Group> {
    if q in groups then Some(groups[q]) else None
  }

  function PidKey(): Pid -> real {
    (p: Pid) => p as real
  }

  function Sorted(pids: seq<Pid>): seq<Pid> {
    SortStable(pids, PidKey())
  }

  /** The pids in rising order, each once. */
  lemma SortedRises(pids: seq<Pid>)
    requires NoDup(pids)
    ensures forall p :: p in Sorted(pids) <==> p in pids
    ensures forall i, j :: 0 <= i < j < |Sorted(pids)| ==> Sorted(pids)[i] < Sorted(pids)[j]
  {
    var r := Sorted(pids);
    SortStableKeeps(pids, PidKey());
    NoDupByMultiset(pids, r);
    SortStableAscends(pids, PidKey());
    forall i, j | 0 <= i < j < |r|
      ensures r[i] < r[j]
    {
      assert PidKey()(r[i]) <= PidKey()(r[j]) && r[i] != r[j];
    }
  }

  /** A pattern's roots among pids, in their order. */
  function Matching(ps: Procs, pids: seq<Pid>, name: Group, pattern: string -> bool): (r: seq<Root>)
  {
    if pids == [] then []
    else
      var last := pids[|pids| - 1];
      Matching(ps, pids[..|pids| - 1], name, pattern)
      + (if last in ps.info && pattern(ps.info[last].args) then [Root(last, name)] else [])
  }

  /** The roots of the first n patterns, each in pid order, behind the port's own. */
  function Roots(ps: Procs, own: Pid, patterns: seq<(Group, string -> bool)>, n: nat): seq<Root>
    requires n <= |patterns|
  {
    if n == 0 then if own in ps.info then [Root(own, OWN)] else []
    else
      Roots(ps, own, patterns, n - 1) + Matching(ps, Sorted(ps.pids), patterns[n - 1].0, patterns[n - 1].1)
  }

  /** groups is what the roots so far give, and closed under children. */
  ghost predicate Marked(ps: Procs, roots: seq<Root>, groups: map<Pid, Group>) {
    && (forall q :: Lookup(groups, q) == GroupFor(ps, roots, q))
    && (forall p, c :: p in groups && IsChild(ps, p, c) ==> c in groups)
    && (forall p :: p in groups ==> p in ps.info)
  }

  method Children(ps: Procs) returns (children: map<Pid, seq<Pid>>)
    requires Ok(ps)
    ensures forall p :: p in children ==> forall c :: c in children[p] <==> IsChild(ps, p, c)
    ensures forall c :: c in ps.info ==> ps.info[c].ppid in children
  {
    children := map[];
    for n := 0 to |ps.pids|
      invariant forall p :: p in children ==> forall c :: c in children[p] <==> c in ps.pids[..n] && IsChild(ps, p, c)
      invariant forall c :: c in ps.pids[..n] ==> c in ps.info && ps.info[c].ppid in children
    {
      var c := ps.pids[n];
      assert c in ps.pids && ps.pids[..n + 1] == ps.pids[..n] + [c];
      var p := ps.info[c].ppid;
      children := children[p := (if p in children then children[p] else []) + [c]];
    }
    assert ps.pids[..|ps.pids|] == ps.pids;
  }

  /** The tree under root joins a group, except what is in one already. */
  method Mark(ps: Procs, children: map<Pid, seq<Pid>>, groups: map<Pid, Group>, root: Pid, name: Group)
    returns (r: map<Pid, Group>)
    requires root in ps.info
    requires forall p, c :: p in groups && IsChild(ps, p, c) ==> c in groups
    requires forall p :: p in groups ==> p in ps.info
    requires forall p :: p in children ==> forall c :: c in children[p] <==> IsChild(ps, p, c)
    requires forall c :: c in ps.info ==> ps.info[c].ppid in children
    ensures forall q :: Lookup(r, q) == if q in groups then Some(groups[q]) else if Reaches(ps, root, q) then Some(name) else None
    ensures forall p, c :: p in r && IsChild(ps, p, c) ==> c in r
    ensures forall p :: p in r ==> p in ps.info
  {
    r := groups;
    var stack := [root];
    ReachesItself(ps, root);
    while stack != []
      invariant forall p :: p in groups ==> p in r && r[p] == groups[p]
      invariant forall p :: p in r && p !in groups ==> r[p] == name && Reaches(ps, root, p)
      invariant forall p :: p in r || p in stack ==> p in ps.info
      invariant forall p :: p in stack ==> Reaches(ps, root, p)
      invariant root in r || root in stack
      invariant forall p, c :: p in r && IsChild(ps, p, c) ==> c in r || c in stack
      decreases ps.info.Keys - r.Keys, |stack|
    {
      var pid := stack[|stack| - 1];
      assert stack == stack[..|stack| - 1] + [pid];
      stack := stack[..|stack| - 1];
      if pid in r { continue; }
      assert ps.info.Keys - r.Keys == (ps.info.Keys - r[pid := name].Keys) + {pid};
      r := r[pid := name];
      if pid in children {
        forall c | c in children[pid]
          ensures Reaches(ps, root, c)
        {
          ChildIsReached(ps, root, pid, c);
        }
        stack := stack + children[pid];
      }
    }
    forall q | Reaches(ps, root, q)
      ensures q in r
    {
      var n: nat :| Up(ps, q, n) == Some(root);
      ClosedHoldsReached(ps, root, q, n, r.Keys);
    }
  }

  /** A root that is in a group already adds nothing: all it reaches is. */
  lemma KnownRootAddsNothing(ps: Procs, roots: seq<Root>, groups: map<Pid, Group>, root: Root)
    requires Marked(ps, roots, groups) && root.pid in groups
    ensures Marked(ps, roots + [root], groups)
  {
    assert (roots + [root])[..|roots|] == roots;
    forall q
      ensures Lookup(groups, q) == GroupFor(ps, roots + [root], q)
    {
      if Reaches(ps, root.pid, q) {
        var n: nat :| Up(ps, q, n) == Some(root.pid);
        ClosedHoldsReached(ps, root.pid, q, n, groups.Keys);
      }
    }
  }

  lemma MarkedNext(ps: Procs, roots: seq<Root>, groups: map<Pid, Group>, root: Root, r: map<Pid, Group>)
    requires Marked(ps, roots, groups)
    requires forall q :: Lookup(r, q) == if q in groups then Some(groups[q]) else if Reaches(ps, root.pid, q) then Some(root.name) else None
    requires forall p, c :: p in r && IsChild(ps, p, c) ==> c in r
    requires forall p :: p in r ==> p in ps.info
    ensures Marked(ps, roots + [root], r)
  {
    assert (roots + [root])[..|roots|] == roots;
    forall q
      ensures Lookup(r, q) == GroupFor(ps, roots + [root], q)
    {
      assert Lookup(groups, q) == GroupFor(ps, roots, q);
    }
  }

  method GroupOf(ps: Procs, own: Pid, patterns: seq<(Group, string -> bool)>) returns (groups: map<Pid, Group>)
    requires Ok(ps)
    ensures forall q :: Lookup(groups, q) == GroupFor(ps, Roots(ps, own, patterns, |patterns|), q)
    ensures forall p :: p in groups ==> p in ps.info
  {
    var children := Children(ps);
    groups := map[];
    ghost var roots: seq<Root> := [];
    if own in ps.info {
      groups := Mark(ps, children, groups, own, OWN);
      MarkedNext(ps, [], map[], Root(own, OWN), groups);
      roots := [Root(own, OWN)];
    }
    for n := 0 to |patterns|
      invariant roots == Roots(ps, own, patterns, n) && Marked(ps, roots, groups)
    {
      groups := MarkMatching(ps, children, groups, patterns[n].0, patterns[n].1, roots);
      roots := Roots(ps, own, patterns, n + 1);
    }
  }

  /** The trees of one pattern's processes, in pid order. */
  method MarkMatching(ps: Procs, children: map<Pid, seq<Pid>>, groups: map<Pid, Group>, name: Group,
                      pattern: string -> bool, ghost roots: seq<Root>) returns (r: map<Pid, Group>)
    requires Ok(ps) && Marked(ps, roots, groups)
    requires forall p :: p in children ==> forall c :: c in children[p] <==> IsChild(ps, p, c)
    requires forall c :: c in ps.info ==> ps.info[c].ppid in children
    ensures Marked(ps, roots + Matching(ps, Sorted(ps.pids), name, pattern), r)
  {
    r := groups;
    var pids := Sorted(ps.pids);
    SortStableKeeps(ps.pids, PidKey());
    NoDupByMultiset(ps.pids, pids);
    assert roots + [] == roots;
    hide Marked, Sorted, Reaches;
    for n := 0 to |pids|
      invariant Marked(ps, roots + Matching(ps, pids[..n], name, pattern), r)
    {
      assert pids[n] in pids;
      MatchingNext(ps, pids, n, name, pattern, roots);
      r := MarkOne(ps, children, r, pids[n], name, pattern, roots + Matching(ps, pids[..n], name, pattern));
    }
    assert pids[..|pids|] == pids;
  }

  lemma MatchingNext(ps: Procs, pids: seq<Pid>, n: nat, name: Group, pattern: string -> bool, roots: seq<Root>)
    requires n < |pids| && pids[n] in ps.info
    ensures var before := roots + Matching(ps, pids[..n], name, pattern);
            roots + Matching(ps, pids[..n + 1], name, pattern)
            == if pattern(ps.info[pids[n]].args) then before + [Root(pids[n], name)] else before
  {
    assert pids[..n + 1][..n] == pids[..n];
    var found := Matching(ps, pids[..n], name, pattern);
    assert roots + (found + [Root(pids[n], name)]) == roots + found + [Root(pids[n], name)];
    assert found + [] == found;
  }

  method MarkOne(ps: Procs, children: map<Pid, seq<Pid>>, groups: map<Pid, Group>, pid: Pid, name: Group,
                 pattern: string -> bool, ghost roots: seq<Root>) returns (r: map<Pid, Group>)
    requires pid in ps.info && Marked(ps, roots, groups)
    requires forall p :: p in children ==> forall c :: c in children[p] <==> IsChild(ps, p, c)
    requires forall c :: c in ps.info ==> ps.info[c].ppid in children
    ensures Marked(ps, if pattern(ps.info[pid].args) then roots + [Root(pid, name)] else roots, r)
  {
    r := groups;
    if !pattern(ps.info[pid].args) { return; }
    if pid in groups {
      KnownRootAddsNothing(ps, roots, groups, Root(pid, name));
    } else {
      r := Mark(ps, children, groups, pid, name);
      MarkedNext(ps, roots, groups, Root(pid, name), r);
    }
  }

  // ----- CPU figures ------------------------------------------------------------------------------

  /** CPU seconds used between two samples; a process that started in between, or whose counter went
      back, counts from zero. */
  function Used(before: Procs, after: Procs, p: Pid): real {
    if p !in after.info then 0.0
    else if p in before.info && before.info[p].cpu <= after.info[p].cpu then after.info[p].cpu - before.info[p].cpu
    else after.info[p].cpu
  }

  function GroupName(groups: map<Pid, Group>, p: Pid): Group {
    if p in groups then groups[p] else OTHER
  }

  /** CPU used by the processes of one group among pids. */
  function UsedBy(before: Procs, after: Procs, groups: map<Pid, Group>, name: Group, pids: seq<Pid>): real {
    if pids == [] then 0.0
    else
      var last := pids[|pids| - 1];
      UsedBy(before, after, groups, name, pids[..|pids| - 1])
      + (if GroupName(groups, last) == name then Used(before, after, last) else 0.0)
  }

  function UsedByAll(before: Procs, after: Procs, pids: seq<Pid>): real {
    if pids == [] then 0.0
    else UsedByAll(before, after, pids[..|pids| - 1]) + Used(before, after, pids[|pids| - 1])
  }

  /** The figures of the groups, added up in the order the groups first came up. */
  function Sum(names: seq<Group>, cores: map<Group, real>): real
    requires forall k :: 0 <= k < |names| ==> names[k] in cores
  {
    if names == [] then 0.0 else Sum(names[..|names| - 1], cores) + cores[names[|names| - 1]]
  }

  lemma {:induction false} SumElsewhere(names: seq<Group>, cores: map<Group, real>, name: Group, v: real)
    requires (forall k :: 0 <= k < |names| ==> names[k] in cores) && name !in names
    ensures Sum(names, cores[name := v]) == Sum(names, cores)
  {
    if names != [] { SumElsewhere(names[..|names| - 1], cores, name, v); }
  }

  lemma {:induction false} SumGrows(names: seq<Group>, cores: map<Group, real>, name: Group, v: real)
    requires (forall k :: 0 <= k < |names| ==> names[k] in cores) && NoDup(names) && name in names
    ensures Sum(names, cores[name := v]) == Sum(names, cores) + v - cores[name]
  {
    var front, last := names[..|names| - 1], names[|names| - 1];
    assert names == front + [last] && last !in front;
    if last == name {
      SumElsewhere(front, cores, name, v);
    } else {
      SumGrows(front, cores, name, v);
    }
  }

  /** CPU seconds of a figure, and the figure of CPU seconds. */
  function Spent(cores: real, seconds: real): real {
    cores * seconds
  }

  function Share(used: real, seconds: real): real
    requires seconds > 0.0
  {
    used / seconds
  }

  lemma SpentMore(x: real, used: real, seconds: real)
    requires seconds > 0.0
    ensures Spent(x + Share(used, seconds), seconds) == Spent(x, seconds) + used
  {}

  function Figure(cores: map<Group, real>, n: Group): real {
    if n in cores then cores[n] else 0.0
  }

  /** The figures after the first pids. */
  ghost predicate Counted(before: Procs, after: Procs, groups: map<Pid, Group>, seconds: real, pids: seq<Pid>,
                          names: seq<Group>, cores: map<Group, real>) {
    && NoDup(names) && (forall n :: n in names <==> n in cores)
    && (forall n :: UsedBy(before, after, groups, n, pids) == Spent(Figure(cores, n), seconds))
    && Spent(Sum(names, cores), seconds) == UsedByAll(before, after, pids)
  }

  lemma CountOne(before: Procs, after: Procs, groups: map<Pid, Group>, seconds: real, pids: seq<Pid>,
                 names: seq<Group>, cores: map<Group, real>, pid: Pid)
    requires Counted(before, after, groups, seconds, pids, names, cores) && seconds > 0.0
    ensures var used, name := Used(before, after, pid), GroupName(groups, pid);
            Counted(before, after, groups, seconds, pids + [pid], if name in cores then names else names + [name],
                    cores[name := Figure(cores, name) + Share(used, seconds)])
  {
    hide Used, GroupName, Share, Spent, UsedBy, UsedByAll, Sum, NoDup;
    var used, name := Used(before, after, pid), GroupName(groups, pid);
    UsedNext(before, after, groups, pids, pid);
    SpentMore(Figure(cores, name), used, seconds);
    SpentMore(Sum(names, cores), used, seconds);
    SumOneMore(names, cores, name, Share(used, seconds));
  }

  lemma UsedNext(before: Procs, after: Procs, groups: map<Pid, Group>, pids: seq<Pid>, pid: Pid)
    ensures UsedByAll(before, after, pids + [pid]) == UsedByAll(before, after, pids) + Used(before, after, pid)
    ensures forall n :: UsedBy(before, after, groups, n, pids + [pid])
                        == UsedBy(before, after, groups, n, pids)
                           + (if GroupName(groups, pid) == n then Used(before, after, pid) else 0.0)
  {
    hide Used, GroupName;
    assert (pids + [pid])[..|pids|] == pids;
  }

  lemma SumOneMore(names: seq<Group>, cores: map<Group, real>, name: Group, more: real)
    requires NoDup(names) && forall n :: n in names <==> n in cores
    ensures var r, cores1 := if name in cores then names else names + [name], cores[name := Figure(cores, name) + more];
            && NoDup(r) && (forall n :: n in r <==> n in cores1)
            && Sum(r, cores1) == Sum(names, cores) + more
  {
    var v := Figure(cores, name) + more;
    if name in cores {
      SumGrows(names, cores, name, v);
    } else {
      assert (names + [name])[..|names|] == names;
      SumElsewhere(names, cores, name, v);
    }
  }

  /** Cores busy per group. Each group's figure is the CPU its processes used, and together they are
      exactly the CPU that all processes of the later sample used. */
  method CpuByGroup(before: Procs, after: Procs, own: Pid, patterns: seq<(Group, string -> bool)>, seconds: real)
    returns (names: seq<Group>, cores: map<Group, real>, ghost groups: map<Pid, Group>)
    requires Ok(after) && seconds > 0.0
    ensures forall q :: Lookup(groups, q) == GroupFor(after, Roots(after, own, patterns, |patterns|), q)
    ensures NoDup(names) && forall n :: n in names <==> n in cores
    ensures forall n :: n in cores ==> Spent(cores[n], seconds) == UsedBy(before, after, groups, n, after.pids)
    ensures Spent(Sum(names, cores), seconds) == UsedByAll(before, after, after.pids)
  {
    hide *;
    var marked := GroupOf(after, own, patterns);
    groups := marked;
    names, cores := CountAll(before, after, marked, seconds);
    CountedFigures(before, after, marked, seconds, after.pids, names, cores);
  }

  lemma CountedFigures(before: Procs, after: Procs, groups: map<Pid, Group>, seconds: real, pids: seq<Pid>,
                       names: seq<Group>, cores: map<Group, real>)
    requires Counted(before, after, groups, seconds, pids, names, cores)
    ensures NoDup(names) && forall n :: n in names <==> n in cores
    ensures forall n :: n in cores ==> Spent(cores[n], seconds) == UsedBy(before, after, groups, n, pids)
    ensures Spent(Sum(names, cores), seconds) == UsedByAll(before, after, pids)
  {
    hide Spent, UsedBy, UsedByAll, Sum, NoDup;
    forall n | n in cores
      ensures Spent(cores[n], seconds) == UsedBy(before, after, groups, n, pids)
    {
      assert UsedBy(before, after, groups, n, pids) == Spent(Figure(cores, n), seconds);
    }
  }

  method CountAll(before: Procs, after: Procs, groups: map<Pid, Group>, seconds: real)
    returns (names: seq<Group>, cores: map<Group, real>)
    requires Ok(after) && seconds > 0.0
    ensures Counted(before, after, groups, seconds, after.pids, names, cores)
  {
    names, cores := [], map[];
    NothingCounted(before, after, groups, seconds);
    hide Counted, Used;
    for k := 0 to |after.pids|
      invariant Counted(before, after, groups, seconds, after.pids[..k], names, cores)
    {
      var pid := after.pids[k];
      assert after.pids[..k + 1] == after.pids[..k] + [pid];
      CountOne(before, after, groups, seconds, after.pids[..k], names, cores, pid);
      var used, name := Used(before, after, pid), GroupName(groups, pid);
      if name !in cores { names := names + [name]; }
      cores := cores[name := Figure(cores, name) + Share(used, seconds)];
    }
    assert after.pids[..|after.pids|] == after.pids;
  }

  lemma NothingCounted(before: Procs, after: Procs, groups: map<Pid, Group>, seconds: real)
    ensures Counted(before, after, groups, seconds, after.pids[..0], [], map[])
  {}
}
