/** Every successful fork keeps the process table well formed. */
module ForkInvariant {
  import opened Lists
  import opened TaskForest
  import opened SubreaperMarks
  import opened ForkTable

  /** A fork that passed the checks of copy_process, with what the allocators returned. */
  ghost predicate Enabled(t: Table, current: Pid, f: Flags, n: Fresh, cpu: nat) {
    Structure(t) && Given(t, current) && Permitted(t, current, f) && FreshIn(t, n) && cpu < |t.processCounts|
  }

  lemma LeaderListed(t: Table, p: Pid)
    requires Structure(t) && p in t.links.leaderOf
    ensures var l := t.links.leaderOf[p];
      && l in t.tasks && l in t.links.threads && p in t.links.threads[l]
      && p in t.links.children && p in t.links.realParent
      && l in t.links.leaderOf && t.links.leaderOf[l] == l
  {
    assert TaskFormed(t.links, p);
    assert GroupFormed(t.links, t.links.leaderOf[p]);
    assert Listed(t, t.links.leaderOf[p]);
  }

  /** The objects a linked task uses are alive and counted. */
  lemma UsesListed(t: Table, p: Pid)
    requires Structure(t) && Counters(t) && p in t.links.leaderOf
    ensures p in t.objs.signal && t.objs.signal[p] in t.objs.groupSize
    ensures p in t.objs.sighand && t.objs.sighand[p] in t.objs.sighandCount
    ensures p in t.objs.mm && (t.objs.mm[p].Some? ==> t.objs.mm[p].value in t.objs.mmUsers)
  {
    assert Shares(t, p);
    assert UseOf(t.objs.signal, t.objs.groupSize, p) && UseOf(t.objs.sighand, t.objs.sighandCount, p);
    if t.objs.mm[p].Some? { assert UseOf(WithMm(t.objs.mm), t.objs.mmUsers, p); }
  }

  /** The refusal of CLONE_PARENT to unkillable groups is what keeps the tree single-rooted. */
  lemma ParentInTable(t: Table, current: Pid, f: Flags, n: Fresh, cpu: nat)
    requires Enabled(t, current, f, n, cpu) && !f.thread
    ensures RealParent(t, current, f) in t.links.leaderOf && RealParent(t, current, f) in t.links.children
  {
    LeaderListed(t, current);
    if f.parent {
      assert Shares(t, current);
      var j :| 0 <= j < |t.tasks| && t.tasks[j] == t.links.leaderOf[current];
      assert Leader(t.links, t.tasks, j);
    }
  }

  lemma EnabledIsCopyable(t: Table, current: Pid, f: Flags, n: Fresh, cpu: nat)
    requires Enabled(t, current, f, n, cpu) && Counters(t)
    ensures Copyable(t.objs, current, n)
  {
    UsesListed(t, current);
  }

  lemma EnabledIsLinkable(t: Table, current: Pid, f: Flags, n: Fresh, cpu: nat)
    requires Enabled(t, current, f, n, cpu) && Counters(t)
    ensures Linkable(t, current, f, n, cpu)
  {
    LeaderListed(t, current);
    UsesListed(t, current);
    if !f.thread {
      ParentInTable(t, current, f, n, cpu);
      assert Shares(t, RealParent(t, current, f));
    }
  }

  lemma CopyKeepsLinkable(t: Table, current: Pid, f: Flags, n: Fresh, cpu: nat)
    requires Copyable(t.objs, current, n) && Linkable(t, current, f, n, cpu)
    ensures Linkable(t.(objs := Copied(t.objs, current, f, n)), current, f, n, cpu)
  {
  }

  /** The two ways a task is linked: as a thread of current's group, or as a new group below parent. */
  ghost predicate CanLink(t: Links, current: Pid, leader: Pid, parent: Pid, pid: Pid) {
    Formed(t) && pid !in t.leaderOf && pid !in t.threads
    && (if leader == pid then parent in t.leaderOf else current in t.leaderOf && leader == t.leaderOf[current])
  }

  lemma TaskLinked(t: Links, current: Pid, leader: Pid, parent: Pid, pid: Pid, p: Pid)
    requires CanLink(t, current, leader, parent, pid)
    requires p == pid || p in t.leaderOf
    ensures TaskFormed(LinksAfter(t, current, leader, parent, pid), p)
  {
    if p != pid { assert TaskFormed(t, p); }
  }

  lemma GroupLinked(t: Links, current: Pid, leader: Pid, parent: Pid, pid: Pid, l: Pid)
    requires CanLink(t, current, leader, parent, pid)
    requires l == leader || l in t.threads
    ensures GroupFormed(LinksAfter(t, current, leader, parent, pid), l)
  {
    if l == leader != pid {
      assert TaskFormed(t, current);
      assert GroupFormed(t, l);
      DistinctAppend(t.threads[l], pid);
    } else if l != pid {
      assert GroupFormed(t, l);
    }
  }

  lemma ListLinked(t: Links, current: Pid, leader: Pid, parent: Pid, pid: Pid, p: Pid)
    requires CanLink(t, current, leader, parent, pid)
    requires p == pid || p in t.leaderOf
    ensures ListFormed(LinksAfter(t, current, leader, parent, pid), p)
  {
    if p != pid {
      assert ListFormed(t, p);
      if leader == pid && p == parent { DistinctAppend(t.children[p], pid); }
    }
  }

  lemma KeysLinked(t: Links, current: Pid, leader: Pid, parent: Pid, pid: Pid)
    requires CanLink(t, current, leader, parent, pid)
    ensures var t' := LinksAfter(t, current, leader, parent, pid);
      && t'.children.Keys == t'.leaderOf.Keys == t'.realParent.Keys == t.leaderOf.Keys + {pid}
      && t'.threads.Keys == t.threads.Keys + {leader}
  {
    if leader != pid { assert TaskFormed(t, current); }
  }

  lemma LinkKeepsFormed(t: Links, current: Pid, leader: Pid, parent: Pid, pid: Pid)
    requires CanLink(t, current, leader, parent, pid)
    ensures Formed(LinksAfter(t, current, leader, parent, pid))
  {
    var t' := LinksAfter(t, current, leader, parent, pid);
    KeysLinked(t, current, leader, parent, pid);
    forall p | p in t'.leaderOf ensures TaskFormed(t', p) {
      assert p in t'.leaderOf.Keys;
      TaskLinked(t, current, leader, parent, pid, p);
    }
    forall l | l in t'.threads ensures GroupFormed(t', l) {
      assert l in t'.threads.Keys;
      GroupLinked(t, current, leader, parent, pid, l);
    }
    forall p | p in t'.children ensures ListFormed(t', p) {
      assert p in t'.children.Keys;
      ListLinked(t, current, leader, parent, pid, p);
    }
  }

  lemma LeaderKept(t: Links, tasks: seq<Pid>, j: nat, current: Pid, leader: Pid, parent: Pid, pid: Pid)
    requires CanLink(t, current, leader, parent, pid)
    requires j < |tasks| && Leader(t, tasks, j)
    ensures Leader(LinksAfter(t, current, leader, parent, pid), tasks, j)
  {
    assert GroupFormed(t, tasks[j]);
  }

  lemma LeaderAppend(t: Links, tasks: seq<Pid>, j: nat, pid: Pid)
    requires j < |tasks| && Leader(t, tasks, j)
    ensures Leader(t, tasks + [pid], j)
  {
    assert (tasks + [pid])[..j] == tasks[..j];
  }

  lemma NewLeader(t: Links, tasks: seq<Pid>, current: Pid, parent: Pid, pid: Pid)
    requires CanLink(t, current, pid, parent, pid) && tasks != [] && t.leaderOf[parent] in tasks
    ensures Leader(LinksAfter(t, current, pid, parent, pid), tasks + [pid], |tasks|)
  {
    assert (tasks + [pid])[..|tasks|] == tasks;
    assert TaskFormed(t, parent);
  }

  lemma ForkOrderKept(t: Table, current: Pid, f: Flags, n: Fresh, cpu: nat)
    requires Enabled(t, current, f, n, cpu)
    ensures ForkOrder(Forked(t, current, f, n, cpu))
  {
    var t' := Forked(t, current, f, n, cpu);
    var parent := RealParent(t, current, f);
    var leader := if f.thread then t.links.leaderOf[current] else n.pid;
    LeaderListed(t, current);
    if !f.thread {
      ParentInTable(t, current, f, n, cpu);
      LeaderListed(t, parent);
      NewLeader(t.links, t.tasks, current, parent, n.pid);
      DistinctAppend(t.tasks, n.pid);
    }
    forall j | 0 <= j < |t'.tasks| ensures Leader(t'.links, t'.tasks, j) {
      if j < |t.tasks| {
        assert Leader(t.links, t.tasks, j);
        LeaderKept(t.links, t.tasks, j, current, leader, parent, n.pid);
        LeaderAppend(t'.links, t.tasks, j, n.pid);
      }
    }
    forall l | l in t'.links.threads ensures Listed(t', l) {
      if l != n.pid { assert Listed(t, l); }
    }
  }

  lemma SharesKept(t: Table, current: Pid, f: Flags, n: Fresh, cpu: nat)
    requires Enabled(t, current, f, n, cpu)
    ensures Sharing(Forked(t, current, f, n, cpu))
  {
    var t' := Forked(t, current, f, n, cpu);
    LeaderListed(t, current);
    forall p | p in t'.links.leaderOf ensures Shares(t', p) {
      assert Shares(t, current);
      if p != n.pid {
        LeaderListed(t, p);
        assert Shares(t, p);
      }
    }
  }

  lemma SignalsStayOwn(t: Links, t': Links, signal: map<Pid, SignalId>, pid: Pid, x: SignalId)
    requires OwnSignals(t, signal) && pid !in t.threads && t'.threads.Keys <= t.threads.Keys + {pid}
    requires pid in t'.threads ==> forall l :: l in t.threads ==> signal[l] != x
    ensures OwnSignals(t', signal[pid := x])
  {
  }

  lemma SignalsKept(t: Table, current: Pid, f: Flags, n: Fresh, cpu: nat)
    requires Enabled(t, current, f, n, cpu) && Counts(t.objs.signal, t.objs.groupSize)
    ensures OwnSignals(Forked(t, current, f, n, cpu).links, Forked(t, current, f, n, cpu).objs.signal)
  {
    LeaderListed(t, current);
    forall l | l in t.links.threads ensures t.objs.signal[l] != n.signal {
      assert GroupFormed(t.links, l);
      assert UseOf(t.objs.signal, t.objs.groupSize, l);
    }
    SignalsStayOwn(t.links, Forked(t, current, f, n, cpu).links, t.objs.signal, n.pid,
                   if f.thread then t.objs.signal[current] else n.signal);
  }

  lemma SameTasksKept(t: Table, current: Pid, f: Flags, n: Fresh, cpu: nat)
    requires SameTasks(t) && Given(t, current) && cpu < |t.processCounts|
    ensures SameTasks(Forked(t, current, f, n, cpu))
  {
    var t' := Forked(t, current, f, n, cpu);
    var tasks := t.links.leaderOf.Keys + {n.pid};
    assert t'.links.leaderOf.Keys == tasks;
    assert t'.tgid.Keys == tasks;
    assert t'.objs.signal.Keys == tasks;
    assert t'.objs.sighand.Keys == tasks;
    assert t'.objs.mm.Keys == tasks;
  }

  lemma RootKept(t: Table, current: Pid, f: Flags, n: Fresh, cpu: nat)
    requires Enabled(t, current, f, n, cpu)
    ensures RootUnkillable(Forked(t, current, f, n, cpu))
  {
    assert t.tasks[0] in t.objs.signal.Keys && t.tasks[0] != n.pid;
  }

  lemma LinksKept(t: Table, current: Pid, f: Flags, n: Fresh, cpu: nat)
    requires Enabled(t, current, f, n, cpu)
    ensures Formed(Forked(t, current, f, n, cpu).links)
  {
    LeaderListed(t, current);
    if !f.thread { ParentInTable(t, current, f, n, cpu); }
    var leader := if f.thread then t.links.leaderOf[current] else n.pid;
    LinkKeepsFormed(t.links, current, leader, RealParent(t, current, f), n.pid);
  }

  lemma StructureKept(t: Table, current: Pid, f: Flags, n: Fresh, cpu: nat)
    requires Enabled(t, current, f, n, cpu) && Counts(t.objs.signal, t.objs.groupSize)
    ensures Structure(Forked(t, current, f, n, cpu))
  {
    LinksKept(t, current, f, n, cpu);
    SameTasksKept(t, current, f, n, cpu);
    RootKept(t, current, f, n, cpu);
    ForkOrderKept(t, current, f, n, cpu);
    SharesKept(t, current, f, n, cpu);
    SignalsKept(t, current, f, n, cpu);
  }

  // ----- Counters -----

  /** One more user of x: its count grows by one and no other count changes. */
  lemma CountsBump(uses: map<Pid, Id>, count: map<Id, nat>, pid: Pid, x: Id)
    requires Counts(uses, count) && pid !in uses
    ensures Counts(uses[pid := x], Bump(count, x))
  {
    var uses', count' := uses[pid := x], Bump(count, x);
    assert Users(uses', x) == Users(uses, x) + {pid};
    forall p | p in uses' ensures UseOf(uses', count', p) {
      if p != pid { assert UseOf(uses, count, p); }
    }
    forall y | y in count' ensures CountOf(uses', count', y) {
      if y != x {
        assert CountOf(uses, count, y);
        assert Users(uses', y) == Users(uses, y);
      } else if x in count {
        assert CountOf(uses, count, x);
      } else {
        forall p | p in uses ensures uses[p] != x { assert UseOf(uses, count, p); }
        assert Users(uses, x) == {};
      }
    }
  }

  lemma {:induction false} SumBump(counts: seq<nat>, cpu: nat)
    requires cpu < |counts|
    ensures Sum(counts[cpu := counts[cpu] + 1]) == Sum(counts) + 1
  {
    var counts' := counts[cpu := counts[cpu] + 1];
    if cpu == 0 {
      assert counts'[1..] == counts[1..];
    } else {
      SumBump(counts[1..], cpu - 1);
      assert counts'[1..] == counts[1..][cpu - 1 := counts[1..][cpu - 1] + 1];
    }
  }

  lemma MmCountsKept(mm: map<Pid, Option<Id>>, count: map<Id, nat>, pid: Pid, x: Option<Id>)
    requires Counts(WithMm(mm), count) && pid !in mm
    ensures Counts(WithMm(mm[pid := x]), if x.None? then count else Bump(count, x.value))
  {
    if x.Some? {
      assert WithMm(mm[pid := x]) == WithMm(mm)[pid := x.value];
      CountsBump(WithMm(mm), count, pid, x.value);
    } else {
      assert WithMm(mm[pid := x]) == WithMm(mm);
    }
  }

  lemma ObjectCountsKept(t: Table, current: Pid, f: Flags, n: Fresh, cpu: nat)
    requires Enabled(t, current, f, n, cpu) && Counters(t)
    ensures var t' := Forked(t, current, f, n, cpu);
      Counts(t'.objs.signal, t'.objs.groupSize) && Counts(t'.objs.sighand, t'.objs.sighandCount)
        && Counts(WithMm(t'.objs.mm), t'.objs.mmUsers)
  {
    var t' := Forked(t, current, f, n, cpu);
    CountsBump(t.objs.signal, t.objs.groupSize, n.pid, t'.objs.signal[n.pid]);
    CountsBump(t.objs.sighand, t.objs.sighandCount, n.pid, t'.objs.sighand[n.pid]);
    MmCountsKept(t.objs.mm, t.objs.mmUsers, n.pid, t'.objs.mm[n.pid]);
  }

  lemma OneMore(m: map<Pid, Pid>, p: Pid, x: Pid)
    requires p !in m
    ensures |m[p := x]| == |m| + 1
  {
    assert m[p := x].Keys == m.Keys + {p};
    assert |m[p := x].Keys| == |m.Keys| + 1;
  }

  lemma TotalsKept(t: Table, current: Pid, f: Flags, n: Fresh, cpu: nat)
    requires Given(t, current) && cpu < |t.processCounts| && n.pid !in t.links.leaderOf
    requires t.nrThreads == |t.links.leaderOf| && Sum(t.processCounts) == |t.tasks|
    ensures var t' := Forked(t, current, f, n, cpu);
      t'.nrThreads == |t'.links.leaderOf| && Sum(t'.processCounts) == |t'.tasks|
  {
    OneMore(t.links.leaderOf, n.pid, if f.thread then t.links.leaderOf[current] else n.pid);
    SumBump(t.processCounts, cpu);
  }

  // ----- Inheritance of has_child_subreaper -----

  lemma KidsAfter(t: Links, current: Pid, leader: Pid, parent: Pid, pid: Pid, l: Pid, c: Pid)
    requires CanLink(t, current, leader, parent, pid)
    requires l in LinksAfter(t, current, leader, parent, pid).threads
    requires c in Kids(LinksAfter(t, current, leader, parent, pid), l)
    ensures l in t.threads
    ensures (c != pid && c in Kids(t, l)) || (c == pid == leader && l == t.leaderOf[parent])
  {
    var t' := LinksAfter(t, current, leader, parent, pid);
    LinkKeepsFormed(t, current, leader, parent, pid);
    KidsMember(t', l, c);
    var p := t'.realParent[c];
    assert p != pid;
    assert TaskFormed(t, p);
    assert ListFormed(t, p);
    if c != pid { KidsMember(t, l, c); }
  }

  lemma HeirBefore(t: Table, current: Pid, f: Flags, n: Fresh, cpu: nat, l: Pid)
    requires Enabled(t, current, f, n, cpu) && Counts(t.objs.signal, t.objs.groupSize)
    requires l in t.links.threads && Heir(Forked(t, current, f, n, cpu), l)
    ensures Heir(t, l)
  {
    assert GroupFormed(t.links, l);
    assert UseOf(t.objs.signal, t.objs.groupSize, l);
  }

  lemma NewIsHeir(t: Table, current: Pid, f: Flags, n: Fresh, cpu: nat)
    requires Enabled(t, current, f, n, cpu) && !f.thread
    requires RealParent(t, current, f) in t.links.leaderOf && Heir(t, t.links.leaderOf[RealParent(t, current, f)])
    ensures Marked(Forked(t, current, f, n, cpu).objs.signal, Forked(t, current, f, n, cpu).marks.hasReaper, n.pid)
  {
    assert Shares(t, RealParent(t, current, f));
  }

  lemma StillMarked(t: Table, current: Pid, f: Flags, n: Fresh, cpu: nat, l: Pid, c: Pid)
    requires Enabled(t, current, f, n, cpu) && ReapersInherited(t)
    requires l in t.links.threads && Heir(t, l) && c in Kids(t.links, l) && c != n.pid
    ensures Marked(Forked(t, current, f, n, cpu).objs.signal, Forked(t, current, f, n, cpu).marks.hasReaper, c)
  {
    assert Marked(t.objs.signal, t.marks.hasReaper, c);
  }

  lemma ReapersKept(t: Table, current: Pid, f: Flags, n: Fresh, cpu: nat)
    requires Enabled(t, current, f, n, cpu) && Counts(t.objs.signal, t.objs.groupSize) && ReapersInherited(t)
    ensures ReapersInherited(Forked(t, current, f, n, cpu))
  {
    var t' := Forked(t, current, f, n, cpu);
    var parent := RealParent(t, current, f);
    LeaderListed(t, current);
    if !f.thread { ParentInTable(t, current, f, n, cpu); }
    forall l, c {:trigger c in Kids(t'.links, l)} | l in t'.links.threads && Heir(t', l) && c in Kids(t'.links, l)
      ensures Marked(t'.objs.signal, t'.marks.hasReaper, c)
    {
      KidsAfter(t.links, current, if f.thread then t.links.leaderOf[current] else n.pid, parent, n.pid, l, c);
      HeirBefore(t, current, f, n, cpu, l);
      if c == n.pid {
        NewIsHeir(t, current, f, n, cpu);
      } else {
        StillMarked(t, current, f, n, cpu, l, c);
      }
    }
  }

  /** Every successful fork keeps the table well formed. */
  lemma ForkKeepsWellFormed(t: Table, current: Pid, f: Flags, n: Fresh, cpu: nat)
    requires WellFormed(t) && Enabled(t, current, f, n, cpu)
    ensures WellFormed(Forked(t, current, f, n, cpu))
  {
    StructureKept(t, current, f, n, cpu);
    ObjectCountsKept(t, current, f, n, cpu);
    TotalsKept(t, current, f, n, cpu);
    ReapersKept(t, current, f, n, cpu);
  }
}
