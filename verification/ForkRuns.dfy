/** Whole runs: forks interleaved with processes that declare themselves subreapers. */
module ForkRuns {
  import opened Lists
  import opened TaskForest
  import opened SubreaperMarks
  import opened ForkTable
  import opened ForkInvariant

  datatype Event =
    | Clone(current: Pid, flags: Flags, given: Fresh, cpu: nat)
    | BecomeSubreaper(task: Pid)

  /** Position in fork order. */
  ghost function Age(tasks: seq<Pid>, l: Pid): nat {
    if l in tasks then (var j: nat :| j < |tasks| && tasks[j] == l; j) else 0
  }

  /** Fork order witnesses that the tree has no cycle: children come after their parents. */
  ghost function Heights(t: Table): map<Pid, nat> {
    map l | l in t.links.threads :: if Age(t.tasks, l) <= |t.tasks| then |t.tasks| - Age(t.tasks, l) else 0
  }

  lemma ForkOrderRanks(t: Table)
    requires Formed(t.links) && ForkOrder(t)
    ensures Ranked(t.links, Heights(t))
  {
    forall l, c {:trigger c in Kids(t.links, l)} | l in t.links.threads && c in Kids(t.links, l)
      ensures c in Heights(t) && Heights(t)[c] < Heights(t)[l]
    {
      KidsMember(t.links, l, c);
      assert Listed(t, c) && Listed(t, l);
      var j := Age(t.tasks, c);
      assert Leader(t.links, t.tasks, j);
      var i :| 0 <= i < j && t.tasks[i] == l;
      assert Age(t.tasks, l) == i;
    }
  }

  ghost predicate CanStep(t: Table, e: Event) {
    match e
    case Clone(current, f, n, cpu) => Enabled(t, current, f, n, cpu)
    case BecomeSubreaper(p) => Structure(t) && p in t.links.leaderOf
  }

  /** A subreaper marks its descendants with the pruning walk; a fork passes the mark on. */
  ghost function Step(t: Table, e: Event): Table
    requires CanStep(t, e)
  {
    match e
    case Clone(current, f, n, cpu) => Forked(t, current, f, n, cpu)
    case BecomeSubreaper(p) =>
      ForkOrderRanks(t);
      t.(marks := t.marks.(
           isReaper := t.marks.isReaper + {t.objs.signal[p]},
           hasReaper := WalkFrom(t.links, Heights(t), p, MarkUnmarked(t.objs.signal), t.marks.hasReaper).data))
  }

  lemma StructureAlike(t: Table, t': Table)
    requires Structure(t) && t' == t.(marks := t'.marks) && t'.marks.unkillable == t.marks.unkillable
    ensures Structure(t')
  {
    assert Sharing(t') by {
      forall p | p in t'.links.leaderOf ensures Shares(t', p) { assert Shares(t, p); }
    }
    assert ForkOrder(t') by {
      forall l | l in t'.links.threads ensures Listed(t', l) { assert Listed(t, l); }
    }
  }

  /** Marking everything below a new subreaper keeps the inheritance rule, old marks included. */
  lemma MarksAfterWalk(t: Table, p: Pid)
    requires Structure(t) && ReapersInherited(t) && p in t.links.leaderOf
    ensures ReapersInherited(Step(t, BecomeSubreaper(p)))
  {
    var t' := Step(t, BecomeSubreaper(p));
    ForkOrderRanks(t);
    PrunedWalkMarksAllBelow(t.links, Heights(t), p, t.objs.signal, t.marks.hasReaper);
    assert Shares(t, p);
    forall l, c {:trigger c in Kids(t'.links, l)} | l in t'.links.threads && Heir(t', l) && c in Kids(t'.links, l)
      ensures Marked(t'.objs.signal, t'.marks.hasReaper, c)
    {
      assert c in Kids(t.links, l);
      if Heir(t, l) {
        assert Marked(t.objs.signal, t.marks.hasReaper, c);
      } else if !Marked(t'.objs.signal, t'.marks.hasReaper, l) {
        assert l == t.links.leaderOf[p];
      }
    }
  }

  lemma SubreaperKeepsWellFormed(t: Table, p: Pid)
    requires WellFormed(t) && p in t.links.leaderOf
    ensures WellFormed(Step(t, BecomeSubreaper(p)))
  {
    var t' := Step(t, BecomeSubreaper(p));
    MarksAfterWalk(t, p);
    StructureAlike(t, t');
  }

  ghost predicate Run(t: Table, events: seq<Event>, t': Table)
    decreases |events|
  {
    if events == [] then t' == t
    else CanStep(t, events[0]) && Run(Step(t, events[0]), events[1..], t')
  }

  /** Every table reached from a well-formed one is well formed. */
  lemma {:induction false} RunKeepsWellFormed(t: Table, events: seq<Event>, t': Table)
    requires WellFormed(t) && Run(t, events, t')
    ensures WellFormed(t')
    decreases |events|
  {
    if events != [] {
      match events[0] {
        case Clone(current, f, n, cpu) => ForkKeepsWellFormed(t, current, f, n, cpu);
        case BecomeSubreaper(p) => SubreaperKeepsWellFormed(t, p);
      }
      RunKeepsWellFormed(Step(t, events[0]), events[1..], t');
    }
  }

  /** The table when only init runs: process 1, unkillable, child of the idle task. */
  function Boot(): Table {
    Table(Links(map[1 := 1], map[1 := 0], map[1 := []], map[1 := [1]]),
          Objects(map[1 := 10], map[1 := 20], map[1 := Some(30)], map[10 := 1], map[20 := 1], map[30 := 1]),
          Marks({10}, {}, {}), [1], map[1 := 1], 1, [1])
  }

  lemma OneUser(p: Pid, x: Id)
    ensures Counts(map[p := x], map[x := 1])
  {
    assert Users(map[p := x], x) == {p};
    assert CountOf(map[p := x], map[x := 1], x);
  }

  lemma BootCounters()
    ensures Counters(Boot())
  {
    OneUser(1, 10);
    OneUser(1, 20);
    OneUser(1, 30);
    assert WithMm(Boot().objs.mm) == map[1 := 30];
    assert Boot().links.leaderOf.Keys == {1} && Sum([1]) == 1;
  }

  lemma BootStructure()
    ensures Structure(Boot())
  {
    var t := Boot();
    assert TaskFormed(t.links, 1) && GroupFormed(t.links, 1) && ListFormed(t.links, 1);
    assert t.links.leaderOf.Keys == {1} == t.links.threads.Keys == t.links.children.Keys == t.links.realParent.Keys;
    assert ForkOrder(t) by {
      assert Leader(t.links, t.tasks, 0) && Listed(t, 1);
    }
    assert Sharing(t) by { assert Shares(t, 1); }
  }

  /** So there is a table to begin with. */
  lemma BootWellFormed()
    ensures WellFormed(Boot())
  {
    BootCounters();
    BootStructure();
    var t := Boot();
    forall l, c | l in t.links.threads ensures c !in Kids(t.links, l) {
      KidsMember(t.links, l, c);
    }
  }

  // ----- What a fork says to a reader -----

  /** Whose child a new process is, and the rest of what is new in the table, flag by flag. */
  lemma NewProcess(t: Table, current: Pid, f: Flags, n: Fresh, cpu: nat)
    requires Enabled(t, current, f, n, cpu) && !f.thread
    ensures var t' := Forked(t, current, f, n, cpu);
      var p := if f.parent then t.links.realParent[current] else current;
      && p in t.links.children && p in t.objs.signal
      && t'.links.realParent == t.links.realParent[n.pid := p]
      && t'.links.children == t.links.children[n.pid := []][p := t.links.children[p] + [n.pid]]
      && t'.links.leaderOf == t.links.leaderOf[n.pid := n.pid] && t'.links.threads == t.links.threads[n.pid := [n.pid]]
      && t'.tgid == t.tgid[n.pid := n.pid] && t'.tasks == t.tasks + [n.pid]
      && t'.objs.signal == t.objs.signal[n.pid := n.signal]
  {
    ParentInTable(t, current, f, n, cpu);
    assert [] + [n.pid] == [n.pid];
  }

  lemma NewThread(t: Table, current: Pid, f: Flags, n: Fresh, cpu: nat)
    requires Enabled(t, current, f, n, cpu) && f.thread
    ensures var t' := Forked(t, current, f, n, cpu);
      var l := t.links.leaderOf[current];
      && l in t.links.threads && t'.links.threads == t.links.threads[l := t.links.threads[l] + [n.pid]]
      && t'.links.realParent == t.links.realParent[n.pid := t.links.realParent[current]]
      && t'.links.children == t.links.children[n.pid := []] && t'.links.leaderOf == t.links.leaderOf[n.pid := l]
      && t'.tgid == t.tgid[n.pid := t.tgid[current]] && t'.tasks == t.tasks
      && t'.objs.signal == t.objs.signal[n.pid := t.objs.signal[current]] && t'.marks == t.marks
  {
    LeaderListed(t, current);
  }

  /** Its marks: unkillable if it is the first of a namespace, has_child_subreaper if its parent's group
      has it or is a subreaper. */
  lemma NewMarks(t: Table, current: Pid, f: Flags, n: Fresh, cpu: nat)
    requires Given(t, current) && cpu < |t.processCounts| && !f.thread && current != n.pid
    requires f.parent ==> t.links.realParent[current] != n.pid && t.links.realParent[current] in t.objs.signal
    ensures var marks := Forked(t, current, f, n, cpu).marks;
      var signal := t.objs.signal[if f.parent then t.links.realParent[current] else current];
      && marks.unkillable == t.marks.unkillable + (if n.childReaper then {n.signal} else {})
      && marks.isReaper == t.marks.isReaper
      && marks.hasReaper ==
         t.marks.hasReaper + if signal in t.marks.hasReaper + t.marks.isReaper then {n.signal} else {}
  {
  }

  lemma NewObjects(t: Table, current: Pid, f: Flags, n: Fresh, cpu: nat)
    requires Given(t, current) && cpu < |t.processCounts|
    ensures var o := Forked(t, current, f, n, cpu).objs;
      && o.sighand == t.objs.sighand[n.pid := if f.sighand then t.objs.sighand[current] else n.sighand]
      && (f.vm || t.objs.mm[current].None? ==> o.mm == t.objs.mm[n.pid := t.objs.mm[current]])
      && (!f.vm && t.objs.mm[current].Some? ==> o.mm == t.objs.mm[n.pid := Some(n.mm)])
  {
  }

  /** Who becomes a subreaper: p's group is one, the groups strictly below it get has_child_subreaper, and
      nothing else changes. */
  lemma NewSubreaper(t: Table, p: Pid)
    requires WellFormed(t) && p in t.links.leaderOf
    ensures CanStep(t, BecomeSubreaper(p))
    ensures var t' := Step(t, BecomeSubreaper(p));
      && t' == t.(marks := t'.marks) && t'.marks.unkillable == t.marks.unkillable
      && p in t.objs.signal && t'.marks.isReaper == t.marks.isReaper + {t.objs.signal[p]}
      && forall x :: x in t.links.threads ==>
           (Marked(t.objs.signal, t'.marks.hasReaper, x) <==>
             Marked(t.objs.signal, t.marks.hasReaper, x) || StrictlyBelow(t.links, t.links.leaderOf[p], x))
  {
    ForkOrderRanks(t);
    PrunedWalkMarksAllBelow(t.links, Heights(t), p, t.objs.signal, t.marks.hasReaper);
  }

  // ----- What well-formedness says to a reader -----

  /** A leader other than the root is in one children list, its real parent's, and there once;
      its parent's group is older, so the tree has no cycle. */
  lemma OneParent(t: Table, l: Pid)
    requires WellFormed(t) && l in t.links.threads && l != t.tasks[0]
    ensures l in t.links.realParent && t.links.realParent[l] in t.links.children
    ensures forall q :: q in t.links.children ==> (l in t.links.children[q] <==> q == t.links.realParent[l])
    ensures var s := t.links.children[t.links.realParent[l]];
      forall i, j :: 0 <= i < |s| && 0 <= j < |s| && s[i] == l && s[j] == l ==> i == j
    ensures t.links.realParent[l] in t.links.leaderOf
            && Age(t.tasks, t.links.leaderOf[t.links.realParent[l]]) < Age(t.tasks, l)
  {
    assert Listed(t, l);
    var j := Age(t.tasks, l);
    assert Leader(t.links, t.tasks, j);
    var p := t.links.realParent[l];
    forall q | q in t.links.children && l in t.links.children[q] ensures q == p { assert ListFormed(t.links, q); }
    assert ListFormed(t.links, p);
    ParentOlder(t.links, t.tasks, j);
  }

  lemma AgeOf(tasks: seq<Pid>, i: nat)
    requires Distinct(tasks) && i < |tasks|
    ensures Age(tasks, tasks[i]) == i
  {
  }

  lemma ParentOlder(t: Links, tasks: seq<Pid>, j: nat)
    requires Distinct(tasks) && 0 < j < |tasks| && Leader(t, tasks, j)
    ensures Age(tasks, t.leaderOf[t.realParent[tasks[j]]]) < j
  {
    var l := t.leaderOf[t.realParent[tasks[j]]];
    var i :| 0 <= i < j && tasks[..j][i] == l;
    AgeOf(tasks, i);
  }

  ghost function Elements(s: seq<Pid>): set<Pid> {
    set x | x in s
  }

  lemma {:induction false} DistinctCount(s: seq<Pid>)
    requires Distinct(s)
    ensures |Elements(s)| == |s|
  {
    if s == [] {
      assert Elements(s) == {};
    } else {
      DistinctCount(s[1..]);
      assert s == [s[0]] + s[1..];
      assert Elements(s) == {s[0]} + Elements(s[1..]);
    }
  }

  lemma SameSignalSameGroup(t: Table, l: Pid, p: Pid)
    requires Structure(t) && l in t.links.threads && l in t.objs.signal
    ensures p in Users(t.objs.signal, t.objs.signal[l]) <==> p in t.links.threads[l]
  {
    assert GroupFormed(t.links, l);
    if p in t.links.leaderOf {
      assert Shares(t, p) && TaskFormed(t.links, p);
    }
  }

  /** signal->nr_threads is the length of the group's thread list. */
  lemma GroupSizeIsThreadCount(t: Table, l: Pid)
    requires WellFormed(t) && l in t.links.threads
    ensures l in t.objs.signal && t.objs.signal[l] in t.objs.groupSize
      && t.objs.groupSize[t.objs.signal[l]] == |t.links.threads[l]|
  {
    assert GroupFormed(t.links, l);
    assert UseOf(t.objs.signal, t.objs.groupSize, l) && CountOf(t.objs.signal, t.objs.groupSize, t.objs.signal[l]);
    DistinctCount(t.links.threads[l]);
    forall p ensures p in Users(t.objs.signal, t.objs.signal[l]) <==> p in Elements(t.links.threads[l]) {
      SameSignalSameGroup(t, l, p);
    }
    assert Users(t.objs.signal, t.objs.signal[l]) == Elements(t.links.threads[l]);
  }
}
