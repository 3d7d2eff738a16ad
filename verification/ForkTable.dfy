/** What a successful fork does to the process table, and what every fork keeps. */
module ForkTable {
  import opened Lists
  import opened TaskForest
  import opened SubreaperMarks

  type Id = nat

  /** The objects tasks use, with the counters kept in them: signal->nr_threads,
      sighand->count and mm->mm_users. */
  datatype Objects = Objects(
    signal: map<Pid, SignalId>,
    sighand: map<Pid, Id>,
    mm: map<Pid, Option<Id>>,
    groupSize: map<SignalId, nat>,
    sighandCount: map<Id, nat>,
    mmUsers: map<Id, nat>)

  /** Signal structs with SIGNAL_UNKILLABLE, is_child_subreaper and has_child_subreaper set. */
  datatype Marks = Marks(unkillable: set<SignalId>, isReaper: set<SignalId>, hasReaper: set<SignalId>)

  /** The linked tasks; tasks is init_task.tasks and processCounts is per CPU. */
  datatype Table = Table(
    links: Links,
    objs: Objects,
    marks: Marks,
    tasks: seq<Pid>,
    tgid: map<Pid, Pid>,
    nrThreads: nat,
    processCounts: seq<nat>)

  /** CLONE_THREAD, CLONE_SIGHAND, CLONE_VM and CLONE_PARENT. */
  datatype Flags = Flags(thread: bool, sighand: bool, vm: bool, parent: bool)

  /** What the allocators hand out: a pid in no use and addresses of new objects.
      childReaper says that the pid is the first of its namespace. */
  datatype Fresh = Fresh(pid: Pid, signal: SignalId, sighand: Id, mm: Id, childReaper: bool)

  predicate Permitted(t: Table, current: Pid, f: Flags) {
    && (f.thread ==> f.sighand)
    && (f.sighand ==> f.vm)
    && !(f.parent && current in t.objs.signal && t.objs.signal[current] in t.marks.unkillable)
  }

  ghost predicate FreshIn(t: Table, n: Fresh) {
    && n.pid != 0 && n.pid !in t.links.leaderOf && n.pid !in t.links.threads && n.pid !in t.tasks
    && n.signal !in t.objs.groupSize && n.signal !in t.marks.unkillable && n.signal !in t.marks.isReaper
      && n.signal !in t.marks.hasReaper
    && n.sighand !in t.objs.sighandCount && n.mm !in t.objs.mmUsers
  }

  // ----- The invariant -----

  /** Each group leader but the root sits in its real parent's children list (ListFormed in
      TaskForest says: in no other list, and once), behind its parent's group in fork order. */
  ghost predicate Leader(t: Links, tasks: seq<Pid>, j: nat)
    requires j < |tasks|
  {
    var l := tasks[j];
    l in t.threads && l in t.realParent
    && var p := t.realParent[l];
    if j == 0 then p == 0
    else p in t.leaderOf && t.leaderOf[p] in tasks[..j] && p in t.children && l in t.children[p]
  }

  /** The members of a thread group share everything CLONE_THREAD implies. */
  ghost predicate Shares(t: Table, p: Pid) {
    p in t.links.leaderOf && p in t.links.realParent
    && var l := t.links.leaderOf[p];
    && l in t.links.realParent && t.links.realParent[p] == t.links.realParent[l]
    && p in t.tgid && t.tgid[p] == l
    && p in t.objs.signal && l in t.objs.signal && t.objs.signal[p] == t.objs.signal[l]
    && p in t.objs.sighand && l in t.objs.sighand && t.objs.sighand[p] == t.objs.sighand[l]
    && p in t.objs.mm && l in t.objs.mm && t.objs.mm[p] == t.objs.mm[l]
  }

  ghost function Users(uses: map<Pid, Id>, x: Id): set<Pid> {
    set p | p in uses && uses[p] == x
  }

  ghost predicate CountOf(uses: map<Pid, Id>, count: map<Id, nat>, x: Id) {
    x in count && count[x] == |Users(uses, x)|
  }

  ghost predicate UseOf(uses: map<Pid, Id>, count: map<Id, nat>, p: Pid) {
    p in uses && uses[p] in count
  }

  /** count is, for each live object, the number of tasks that use it. */
  ghost predicate Counts(uses: map<Pid, Id>, count: map<Id, nat>) {
    && (forall p {:trigger UseOf(uses, count, p)} :: p in uses ==> UseOf(uses, count, p))
    && (forall x {:trigger CountOf(uses, count, x)} :: x in count ==> CountOf(uses, count, x))
  }

  /** Tasks that have an mm, with it: kernel threads have none. */
  ghost function WithMm(mm: map<Pid, Option<Id>>): map<Pid, Id> {
    map p | p in mm && mm[p].Some? :: mm[p].value
  }

  function Sum(counts: seq<nat>): nat {
    if counts == [] then 0 else counts[0] + Sum(counts[1..])
  }

  predicate Listed(t: Table, l: Pid) {
    l in t.tasks
  }

  ghost predicate ForkOrder(t: Table) {
    && 0 !in t.links.leaderOf
    && t.tasks != [] && Distinct(t.tasks)
    && (forall l {:trigger Listed(t, l)} :: l in t.links.threads ==> Listed(t, l))
    && (forall j {:trigger Leader(t.links, t.tasks, j)} :: 0 <= j < |t.tasks| ==> Leader(t.links, t.tasks, j))
  }

  ghost predicate SameTasks(t: Table) {
    t.links.leaderOf.Keys == t.tgid.Keys == t.objs.signal.Keys == t.objs.sighand.Keys == t.objs.mm.Keys
  }

  ghost predicate Sharing(t: Table) {
    forall p {:trigger Shares(t, p)} :: p in t.links.leaderOf ==> Shares(t, p)
  }

  ghost predicate RootUnkillable(t: Table) {
    t.tasks != [] && t.tasks[0] in t.objs.signal && t.objs.signal[t.tasks[0]] in t.marks.unkillable
  }

  ghost predicate Structure(t: Table) {
    Formed(t.links) && ForkOrder(t) && SameTasks(t) && Sharing(t) && OwnSignals(t.links, t.objs.signal)
      && RootUnkillable(t)
  }

  ghost predicate Counters(t: Table) {
    && Counts(t.objs.signal, t.objs.groupSize)
    && Counts(t.objs.sighand, t.objs.sighandCount)
    && Counts(WithMm(t.objs.mm), t.objs.mmUsers)
    && t.nrThreads == |t.links.leaderOf|
    && Sum(t.processCounts) == |t.tasks|
  }

  /** The group of l is marked, or has declared itself a subreaper. */
  predicate Heir(t: Table, l: Pid) {
    Marked(t.objs.signal, t.marks.hasReaper, l) || Marked(t.objs.signal, t.marks.isReaper, l)
  }

  /** has_child_subreaper is inherited: it is set in every child group of such a group. */
  ghost predicate ReapersInherited(t: Table) {
    forall l, c {:trigger c in Kids(t.links, l)} ::
      l in t.links.threads && Heir(t, l) && c in Kids(t.links, l) ==> Marked(t.objs.signal, t.marks.hasReaper, c)
  }

  ghost predicate WellFormed(t: Table) {
    Structure(t) && Counters(t) && ReapersInherited(t)
  }

  // ----- A successful fork -----

  function RealParent(t: Table, current: Pid, f: Flags): Pid {
    if (f.parent || f.thread) && current in t.links.realParent then t.links.realParent[current] else current
  }

  function Bump(count: map<Id, nat>, x: Id): map<Id, nat> {
    count[x := (if x in count then count[x] else 0) + 1]
  }

  function Push(lists: map<Pid, seq<Pid>>, at: Pid, x: Pid): map<Pid, seq<Pid>> {
    lists[at := (if at in lists then lists[at] else []) + [x]]
  }

  function LinksAfter(t: Links, current: Pid, leader: Pid, parent: Pid, pid: Pid): Links {
    Links(t.leaderOf[pid := leader],
          t.realParent[pid := parent],
          if leader == pid then Push(t.children[pid := []], parent, pid) else t.children[pid := []],
          Push(t.threads, leader, pid))
  }

  ghost predicate Given(t: Table, current: Pid) {
    && current in t.links.leaderOf && current in t.links.realParent && current in t.tgid
    && current in t.objs.signal && current in t.objs.sighand && current in t.objs.mm
  }

  /** copy_sighand, copy_signal and copy_mm: share current's objects or create new ones. */
  ghost function Copied(o: Objects, current: Pid, f: Flags, n: Fresh): Objects
    requires current in o.signal && current in o.sighand && current in o.mm
  {
    var sighand := if f.sighand then o.sighand[current] else n.sighand;
    var mm := if o.mm[current].None? || f.vm then o.mm[current] else Some(n.mm);
    Objects(o.signal[n.pid := if f.thread then o.signal[current] else n.signal],
            o.sighand[n.pid := sighand],
            o.mm[n.pid := mm],
            if f.thread then o.groupSize else Bump(o.groupSize, n.signal),
            Bump(o.sighandCount, sighand),
            if mm.None? then o.mmUsers else Bump(o.mmUsers, mm.value))
  }

  /** The new task joins the thread list of current's group. */
  ghost function JoinedGroup(t: Table, current: Pid, n: Fresh): Table
    requires Given(t, current)
  {
    t.(links := LinksAfter(t.links, current, t.links.leaderOf[current], t.links.realParent[current], n.pid),
       objs := t.objs.(groupSize := Bump(t.objs.groupSize, t.objs.signal[current])),
       tgid := t.tgid[n.pid := t.tgid[current]],
       nrThreads := t.nrThreads + 1)
  }

  /** The new task goes onto its parent's children list and the task list. */
  ghost function JoinedSystem(t: Table, current: Pid, parent: Pid, n: Fresh, cpu: nat): Table
    requires n.pid in t.objs.signal && cpu < |t.processCounts|
  {
    var signal := t.objs.signal[n.pid];
    t.(links := LinksAfter(t.links, current, n.pid, parent, n.pid),
       marks := t.marks.(
         unkillable := if n.childReaper then t.marks.unkillable + {signal} else t.marks.unkillable,
         hasReaper := if Heir(t, parent) then t.marks.hasReaper + {signal} else t.marks.hasReaper),
       tgid := t.tgid[n.pid := n.pid],
       tasks := t.tasks + [n.pid],
       processCounts := t.processCounts[cpu := t.processCounts[cpu] + 1],
       nrThreads := t.nrThreads + 1)
  }

  ghost function Joined(t: Table, current: Pid, f: Flags, n: Fresh, cpu: nat): Table
    requires Given(t, current) && n.pid in t.objs.signal && cpu < |t.processCounts|
  {
    if f.thread then JoinedGroup(t, current, n) else JoinedSystem(t, current, RealParent(t, current, f), n, cpu)
  }

  /** The table after a successful fork. */
  ghost function Forked(t: Table, current: Pid, f: Flags, n: Fresh, cpu: nat): Table
    requires Given(t, current) && cpu < |t.processCounts|
  {
    Joined(t.(objs := Copied(t.objs, current, f, n)), current, f, n, cpu)
  }

  /** What sharing the objects relies on; a well-formed table provides it. */
  ghost predicate Copyable(o: Objects, current: Pid, n: Fresh) {
    && current in o.signal && n.signal !in o.groupSize
    && current in o.sighand && o.sighand[current] in o.sighandCount && n.sighand !in o.sighandCount
    && current in o.mm && (o.mm[current].Some? ==> o.mm[current].value in o.mmUsers) && n.mm !in o.mmUsers
  }

  /** What linking relies on. */
  ghost predicate Linkable(t: Table, current: Pid, f: Flags, n: Fresh, cpu: nat) {
    && Given(t, current) && current != n.pid && cpu < |t.processCounts|
    && t.links.leaderOf[current] in t.links.threads && n.pid !in t.links.threads
    && t.objs.signal[current] in t.objs.groupSize
    && (!f.thread ==> var p := RealParent(t, current, f); p in t.links.children && p in t.objs.signal && p != n.pid)
  }
}
