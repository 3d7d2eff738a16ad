/** The process table of fork.c with the operations that walk it and grow it. */
module ProcessTable {
  import opened Lists
  import opened TaskForest
  import opened StacklessWalk
  import opened SubreaperMarks
  import opened ForkTable
  import opened ForkInvariant
  import opened ForkRuns

  class Tasks {
    var links: Links
    var objs: Objects
    var marks: Marks
    var tasks: seq<Pid>
    var tgid: map<Pid, Pid>
    var nrThreads: nat
    var processCounts: seq<nat>

    ghost function Whole(): Table
      reads this
    {
      Table(links, objs, marks, tasks, tgid, nrThreads, processCounts)
    }

    /** walk_process_tree. The three variables of the source are the whole state of the walk:
        no stack, no marks; `child` is None when the cursor has run off parent's list. */
    method WalkProcessTree<S>(top: Pid, visitor: Visitor<S>, data: S, ghost height: map<Pid, nat>)
      returns (data': S, visited: seq<Pid>, stopped: bool)
      requires Formed(links) && Ranked(links, height) && top in links.leaderOf
      ensures Walk(data', visited, stopped) == WalkFrom(links, height, top, visitor, data)
    {
      ghost var t := links;
      ghost var goal := WalkFrom(t, height, top, visitor, data);
      assert TaskFormed(t, top);
      EnterGroup(t, t.leaderOf[top]);
      var topLeader := links.leaderOf[top];
      var leader := topLeader;
      var parent := links.threads[leader][0];
      var child := First(links.children[parent]);
      data', visited, stopped := data, [], false;
      ghost var path := Top(leader);
      ThenNothing(data, goal);
      while true
        invariant Linked(t, path) && OnLists(t, Position(leader, parent, child))
        invariant path.leader == leader && Root(path) == topLeader
        invariant goal == Then(Walk(data', visited, false),
          Resume(t, height, path, Position(leader, parent, child), visitor, data'))
        decreases |goal.visited| - |visited|, Depth(path), |After(links.threads[leader], parent)|
      {
        ghost var at := Position(leader, parent, child);
        if child.Some? {
          var c := child.value;
          var (res, d) := visitor(c, data');
          if res > 0 { ResumeDown(t, height, path, at, visitor, data'); }
          else { ResumeSkip(t, height, path, at, visitor, data'); }
          ghost var before, here := Walk(data', visited, false), Walk(d, [c], false);
          data', visited := d, visited + [c];
          if res != 0 {
            if res < 0 {
              stopped := true;
              break;
            }
            leader := c;                                // goto down
            parent := links.threads[leader][0];
            child := First(links.children[parent]);
            path := Under(path, c);
            assert Position(leader, parent, child) == Enter(t, c, t.threads[c][0]);
            ThenAssociative(before, here, Resume(t, height, path, Position(leader, parent, child), visitor, data'));
          } else {
            child := Next(links.children[parent], c);         // label up
            assert Position(leader, parent, child) == PastChild(t, leader, parent, c);
            ThenAssociative(before, here, Resume(t, height, path, Position(leader, parent, child), visitor, data'));
          }
        } else if After(links.threads[leader], parent) != [] {
          ResumeNextThread(t, height, path, at, visitor, data');
          parent := After(links.threads[leader], parent)[0];  // for_each_thread
          child := First(links.children[parent]);
          assert Position(leader, parent, child) == Enter(t, leader, parent);
        } else {
          ResumeUp(t, height, path, at, visitor, data');
          if leader == topLeader {
            break;
          }
          path := path.above;
          var c := leader;
          parent := links.realParent[c];
          leader := links.leaderOf[parent];
          child := Next(links.children[parent], c);           // goto up
          assert Position(leader, parent, child) == PastChild(t, leader, parent, c);
        }
      }
    }

    /** copy_sighand: take a reference to current's handlers, or get new ones. */
    method CopySighand(current: Pid, f: Flags, pid: Pid, unused: Id)
      requires current in objs.sighand && objs.sighand[current] in objs.sighandCount && unused !in objs.sighandCount
      modifies this`objs
      ensures var id := if f.sighand then old(objs).sighand[current] else unused;
        objs == old(objs).(sighand := old(objs).sighand[pid := id], sighandCount := Bump(old(objs).sighandCount, id))
    {
      var count := objs.sighandCount;
      if f.sighand {
        var id := objs.sighand[current];
        objs := objs.(sighandCount := count[id := count[id] + 1], sighand := objs.sighand[pid := id]);
        return;
      }
      objs := objs.(sighandCount := count[unused := 1], sighand := objs.sighand[pid := unused]);
    }

    /** copy_signal: a thread keeps current's signal struct, uncounted for now; a process gets
        a new one with nr_threads == 1. */
    method CopySignal(current: Pid, f: Flags, pid: Pid, unused: SignalId)
      requires current in objs.signal && unused !in objs.groupSize
      modifies this`objs
      ensures objs == old(objs).(
        signal := old(objs).signal[pid := if f.thread then old(objs).signal[current] else unused],
        groupSize := if f.thread then old(objs).groupSize else Bump(old(objs).groupSize, unused))
    {
      if f.thread {
        objs := objs.(signal := objs.signal[pid := objs.signal[current]]);
        return;
      }
      objs := objs.(signal := objs.signal[pid := unused], groupSize := objs.groupSize[unused := 1]);
    }

    /** copy_mm: nothing for a kernel thread, else share current's mm or duplicate it. */
    method CopyMm(current: Pid, f: Flags, pid: Pid, unused: Id)
      requires current in objs.mm && (objs.mm[current].Some? ==> objs.mm[current].value in objs.mmUsers)
      requires unused !in objs.mmUsers
      modifies this`objs
      ensures var m := if old(objs).mm[current].None? || f.vm then old(objs).mm[current] else Some(unused);
        objs == old(objs).(mm := old(objs).mm[pid := m],
                           mmUsers := if m.None? then old(objs).mmUsers else Bump(old(objs).mmUsers, m.value))
    {
      var oldmm := objs.mm[current];
      if oldmm.None? {
        objs := objs.(mm := objs.mm[pid := None]);
        return;
      }
      if f.vm {
        var users := objs.mmUsers;
        objs := objs.(mmUsers := users[oldmm.value := users[oldmm.value] + 1], mm := objs.mm[pid := oldmm]);
      } else {
        objs := objs.(mmUsers := objs.mmUsers[unused := 1], mm := objs.mm[pid := Some(unused)]);
      }
    }

    method CopyObjects(current: Pid, f: Flags, n: Fresh)
      requires Copyable(objs, current, n)
      modifies this`objs
      ensures objs == Copied(old(objs), current, f, n)
    {
      CopySighand(current, f, n.pid, n.sighand);
      CopySignal(current, f, n.pid, n.signal);
      CopyMm(current, f, n.pid, n.mm);
    }

    /** A new thread: kin of its group, counted in the signal struct, last on the thread list. */
    method LinkThread(current: Pid, n: Fresh)
      requires Given(Whole(), current) && links.leaderOf[current] in links.threads && n.pid !in links.threads
      requires objs.signal[current] in objs.groupSize
      modifies this`links, this`objs, this`tgid, this`nrThreads
      ensures Whole() == old(JoinedGroup(Whole(), current, n))
    {
      var pid, leader, signal := n.pid, links.leaderOf[current], objs.signal[current];
      tgid := tgid[pid := tgid[current]];
      links := links.(leaderOf := links.leaderOf[pid := leader],
                      realParent := links.realParent[pid := links.realParent[current]],
                      children := links.children[pid := []]);
      objs := objs.(groupSize := objs.groupSize[signal := objs.groupSize[signal] + 1]);
      links := links.(threads := links.threads[leader := links.threads[leader] + [pid]]);
      nrThreads := nrThreads + 1;
    }

    /** The first process of a namespace is unkillable; has_child_subreaper comes from the parent. */
    method InheritMarks(parent: Pid, signal: SignalId, childReaper: bool)
      requires parent in objs.signal
      modifies this`marks
      ensures marks == old(marks).(
        unkillable := if childReaper then old(marks).unkillable + {signal} else old(marks).unkillable,
        hasReaper := if Heir(old(Whole()), parent) then old(marks).hasReaper + {signal} else old(marks).hasReaper)
    {
      if childReaper {
        marks := marks.(unkillable := marks.unkillable + {signal});
      }
      if objs.signal[parent] in marks.hasReaper || objs.signal[parent] in marks.isReaper {
        marks := marks.(hasReaper := marks.hasReaper + {signal});
      }
    }

    /** A new process: leader of its own group, last on its parent's children list and on the
        task list, heir to has_child_subreaper. */
    method LinkLeader(current: Pid, parent: Pid, n: Fresh, cpu: nat)
      requires n.pid in objs.signal && cpu < |processCounts| && n.pid !in links.threads
      requires parent in links.children && parent in objs.signal && parent != n.pid
      modifies this`links, this`marks, this`tgid, this`tasks, this`processCounts, this`nrThreads
      ensures Whole() == old(JoinedSystem(Whole(), current, parent, n, cpu))
    {
      ghost var before := links;
      var pid, signal := n.pid, objs.signal[n.pid];
      tgid := tgid[pid := pid];
      links := links.(leaderOf := links.leaderOf[pid := pid],
                      realParent := links.realParent[pid := parent],
                      children := links.children[pid := []]);
      InheritMarks(parent, signal, n.childReaper);
      links := links.(children := links.children[parent := links.children[parent] + [pid]]);
      tasks := tasks + [pid];
      links := links.(threads := links.threads[pid := [] + [pid]]);
      assert links == LinksAfter(before, current, pid, parent, pid);
      processCounts := processCounts[cpu := processCounts[cpu] + 1];
      nrThreads := nrThreads + 1;
    }

    /** copy_process past its flag checks: share or create the counted objects, then link. */
    method CopyAndLink(current: Pid, f: Flags, n: Fresh, cpu: nat)
      requires Copyable(objs, current, n) && Linkable(Whole(), current, f, n, cpu)
      modifies this
      ensures Whole() == old(Forked(Whole(), current, f, n, cpu))
    {
      CopyKeepsLinkable(Whole(), current, f, n, cpu);
      CopyObjects(current, f, n);
      if f.thread {
        LinkThread(current, n);
      } else {
        LinkLeader(current, if f.parent then links.realParent[current] else current, n, cpu);
      }
    }

    /** copy_process as far as the table goes: refuse impossible flags, or add one task. */
    method CloneTask(current: Pid, f: Flags, n: Fresh, cpu: nat) returns (ok: bool)
      requires WellFormed(Whole()) && Given(Whole(), current) && FreshIn(Whole(), n) && cpu < |processCounts|
      modifies this
      ensures ok <==>
        && (f.thread ==> f.sighand) && (f.sighand ==> f.vm)
        && (f.parent ==> old(objs.signal[current] !in marks.unkillable))
      ensures Whole() == old(if ok then Forked(Whole(), current, f, n, cpu) else Whole())
      ensures WellFormed(Whole())
      ensures ok && !f.thread ==>
        var p := if f.parent then old(links.realParent)[current] else current;
        && p in old(links.children) && links.realParent == old(links.realParent)[n.pid := p]
        && links.children == old(links.children)[n.pid := []][p := old(links.children)[p] + [n.pid]]
      ensures ok && f.thread ==>
        var l := old(links.leaderOf)[current];
        && l in old(links.threads) && links.threads == old(links.threads)[l := old(links.threads)[l] + [n.pid]]
        && links.realParent == old(links.realParent)[n.pid := old(links.realParent)[current]]
        && links.children == old(links.children)[n.pid := []]
    {
      if f.thread && !f.sighand { return false; }
      if f.sighand && !f.vm { return false; }
      if f.parent && objs.signal[current] in marks.unkillable { return false; }
      EnabledIsCopyable(Whole(), current, f, n, cpu);
      EnabledIsLinkable(Whole(), current, f, n, cpu);
      ForkKeepsWellFormed(Whole(), current, f, n, cpu);
      if f.thread { NewThread(Whole(), current, f, n, cpu); } else { NewProcess(Whole(), current, f, n, cpu); }
      CopyAndLink(current, f, n, cpu);
      return true;
    }

    /** nr_processes: the per-CPU counters add up to the number of thread groups. */
    method NrProcesses() returns (total: nat)
      requires Counters(Whole())
      ensures total == |tasks|
    {
      total := 0;
      for cpu := 0 to |processCounts|
        invariant total + Sum(processCounts[cpu..]) == |tasks|
      {
        total := total + processCounts[cpu];
      }
    }
  }
}
