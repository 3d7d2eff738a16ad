/** Hiding processes from /proc: the cloak written by the two system calls, the flag behind
    /proc/hide, and the directory entries the dentry cache keeps although nothing checks the cloak
    again when they are used. */
module Hiding {
  import opened Lists

  type TaskId = nat

  const TASK_COMM_LEN: nat := 16

  /** comm is the text before its NUL. */
  datatype Task = Task(pid: nat, leader: bool, uid: nat, comm: string, cloak: nat)

  /** procs is the order of for_each_process. cache maps the names under /proc that have a dentry to
      the task whose pid the inode holds; the task may be gone. */
  datatype World = World(tasks: map<TaskId, Task>, pids: map<nat, TaskId>, procs: seq<TaskId>, cache: map<nat, TaskId>,
    flag: int)

  /** A pointer into user memory: unreadable, or a NUL-terminated string. */
  datatype UserString = Fault | Text(s: string)

  ghost predicate TaskOk(w: World, t: TaskId) {
    t in w.tasks ==>
      var x := w.tasks[t];
      x.pid > 0 && x.pid in w.pids && w.pids[x.pid] == t && |x.comm| < TASK_COMM_LEN && '\0' !in x.comm
  }

  ghost predicate PidOk(w: World, p: nat) {
    p in w.pids ==> w.pids[p] in w.tasks && w.tasks[w.pids[p]].pid == p
  }

  ghost predicate WellFormed(w: World) {
    && (forall t {:trigger TaskOk(w, t)} :: TaskOk(w, t))
    && (forall p {:trigger PidOk(w, p)} :: PidOk(w, p))
    && ProcsAreLeaders(w)
  }

  ghost predicate ProcsAreLeaders(w: World) {
    Distinct(w.procs) && forall t :: t in w.procs <==> t in w.tasks && w.tasks[t].leader
  }

  predicate Hidden(w: World, t: TaskId) {
    w.flag == 1 && t in w.tasks && w.tasks[t].cloak == 1
  }

  /** A dentry that revalidation accepts. */
  predicate Cached(w: World, name: nat) {
    name in w.cache && w.cache[name] in w.tasks
  }

  /** proc_pid_readdir emits the name, with hidepid off. */
  predicate Listed(w: World, name: nat) {
    name in w.pids && w.pids[name] in w.tasks && w.tasks[w.pids[name]].leader && !Hidden(w, w.pids[name])
  }

  // ---- What the operations do

  function SetCloak(w: World, t: TaskId, v: nat): World {
    if t in w.tasks then w.(tasks := w.tasks[t := w.tasks[t].(cloak := v)]) else w
  }

  /** proc_flush_pid. */
  function Flush(w: World, t: TaskId): World {
    w.(cache := map n | n in w.cache && w.cache[n] != t :: w.cache[n])
  }

  /** An int stored in an unsigned int. */
  function Unsigned(v: int): nat {
    v % 0x1_0000_0000
  }

  predicate Selected(x: Task, uid: nat, name: Option<string>) {
    x.uid == uid && (name.Some? ==> x.comm == name.value)
  }

  /** Every selected task of the set s is cloaked, and has lost its dentries. */
  function BulkOver(w: World, s: set<TaskId>, uid: nat, name: Option<string>): World {
    w.(tasks := map t | t in w.tasks ::
         if t in s && Selected(w.tasks[t], uid, name) then w.tasks[t].(cloak := 1) else w.tasks[t],
       cache := map n | n in w.cache
         && !(w.cache[n] in s && w.cache[n] in w.tasks && Selected(w.tasks[w.cache[n]], uid, name)) :: w.cache[n])
  }

  function Recover(w: World, s: set<TaskId>): World {
    w.(tasks := map t | t in w.tasks :: if t in s then w.tasks[t].(cloak := 0) else w.tasks[t])
  }

  function Procs(s: seq<TaskId>): set<TaskId> {
    set t | t in s
  }

  datatype Event =
    | Hide(caller: nat, pid: int, on: int)
    | HideUser(caller: nat, uid: nat, binname: Option<UserString>, recover: int)
    | Fork(child: TaskId, nr: nat, parent: TaskId, thread: bool)
    | Exit(task: TaskId)
    | Lookup(name: nat)       // a path walk through /proc/name
    | Offer(name: nat)        // readdir reaches the tgid
    | SetUid(task: TaskId, uid: nat)
    | SetComm(task: TaskId, comm: string)
    | WriteFlag(value: int)   // proc_write_hidden stores the flag and flushes nothing

  predicate Possible(w: World, e: Event) {
    match e
    case Fork(t, p, parent, _) => t !in w.tasks && t !in w.cache.Values && p > 0 && p !in w.pids && parent in w.tasks
    case SetComm(_, comm) => |comm| < TASK_COMM_LEN && '\0' !in comm
    case _ => true
  }

  function Apply(w: World, e: Event): World {
    match e
    case Hide(caller, pid, on) =>
      if pid > 0 && caller == 0 && pid in w.pids then Flush(SetCloak(w, w.pids[pid], Unsigned(on)), w.pids[pid]) else w
    case HideUser(caller, uid, name, recover) =>
      if caller != 0 || (recover == 0 && name.Some? && name.value.Fault?) then w
      else if recover != 0 then Recover(w, Procs(w.procs))
      else BulkOver(w, Procs(w.procs), uid, if name.Some? then Some(name.value.s) else None)
    case Fork(t, p, parent, thread) =>
      if parent in w.tasks then
        w.(tasks := w.tasks[t := w.tasks[parent].(pid := p, leader := !thread, cloak := 0)], pids := w.pids[p := t],
           procs := if thread then w.procs else w.procs + [t])
      else w
    case Exit(t) =>
      if t in w.tasks then
        w.(tasks := w.tasks - {t}, pids := w.pids - {w.tasks[t].pid}, procs := Without(w.procs, t))
      else w
    case Lookup(name) =>
      if Cached(w, name) then w
      else if name in w.pids && !Hidden(w, w.pids[name]) then w.(cache := w.cache[name := w.pids[name]])
      else w.(cache := w.cache - {name})
    case Offer(name) =>
      if Listed(w, name) && name !in w.cache then w.(cache := w.cache[name := w.pids[name]]) else w
    case SetUid(t, uid) => if t in w.tasks then w.(tasks := w.tasks[t := w.tasks[t].(uid := uid)]) else w
    case SetComm(t, comm) => if t in w.tasks then w.(tasks := w.tasks[t := w.tasks[t].(comm := comm)]) else w
    case WriteFlag(v) => w.(flag := v)
  }

  function Without(s: seq<TaskId>, t: TaskId): (r: seq<TaskId>)
    ensures forall x :: x in r <==> x in s && x != t
    ensures Distinct(s) ==> Distinct(r)
  {
    if s == [] then []
    else
      assert Distinct(s) ==> Distinct(s[1..]) && s[0] !in s[1..];
      var r := Without(s[1..], t);
      if s[0] == t then r else [s[0]] + r
  }

  predicate PossibleRun(w: World, run: seq<Event>)
    decreases |run|
  {
    run == [] || (Possible(w, run[0]) && PossibleRun(Apply(w, run[0]), run[1..]))
  }

  function After(w: World, run: seq<Event>): World
    decreases |run|
  {
    if run == [] then w else After(Apply(w, run[0]), run[1..])
  }

  lemma EachStaysOk(w: World, e: Event, t: TaskId, p: nat)
    requires Possible(w, e) && TaskOk(w, t) && PidOk(w, p)
    requires e.Fork? ==> TaskOk(w, e.parent)
    requires e.Exit? ==> TaskOk(w, e.task)
    requires p in w.pids ==> TaskOk(w, w.pids[p])
    ensures TaskOk(Apply(w, e), t) && PidOk(Apply(w, e), p)
  {
    assert e.Exit? && t in w.tasks && e.task in w.tasks && t != e.task ==> w.tasks[t].pid != w.tasks[e.task].pid;
  }

  lemma ForkKeepsProcs(w: World, e: Event)
    requires ProcsAreLeaders(w) && Possible(w, e) && e.Fork?
    ensures ProcsAreLeaders(Apply(w, e))
  {
    assert e.child !in w.procs;
    DistinctAppend(w.procs, e.child);
  }

  lemma ExitKeepsProcs(w: World, e: Event)
    requires ProcsAreLeaders(w) && Possible(w, e) && e.Exit?
    ensures ProcsAreLeaders(Apply(w, e))
  {
  }

  lemma ProcsStayLeaders(w: World, e: Event)
    requires ProcsAreLeaders(w) && Possible(w, e)
    ensures ProcsAreLeaders(Apply(w, e))
  {
    if e.Fork? {
      ForkKeepsProcs(w, e);
    } else if e.Exit? {
      ExitKeepsProcs(w, e);
    }
  }

  lemma StepKeepsWellFormed(w: World, e: Event)
    requires WellFormed(w) && Possible(w, e)
    ensures WellFormed(Apply(w, e))
  {
    var w' := Apply(w, e);
    forall t ensures TaskOk(w', t) {
      assert TaskOk(w, t);
      Touch(w, e, t, 0);
    }
    forall p ensures PidOk(w', p) {
      Touch(w, e, 0, p);
    }
    ProcsStayLeaders(w, e);
  }

  lemma Touch(w: World, e: Event, t: TaskId, p: nat)
    requires WellFormed(w) && Possible(w, e)
    ensures TaskOk(Apply(w, e), t) && PidOk(Apply(w, e), p)
  {
    assert TaskOk(w, t) && PidOk(w, p);
    if e.Fork? { assert TaskOk(w, e.parent); }
    if e.Exit? { assert TaskOk(w, e.task); }
    if p in w.pids { assert TaskOk(w, w.pids[p]); }
    EachStaysOk(w, e, t, p);
  }

  // ---- The dentry cache

  /** No dentry that revalidation accepts belongs to a task the listing leaves out. */
  ghost predicate Coherent(w: World) {
    forall n {:trigger Cached(w, n)} :: Cached(w, n) ==> !Hidden(w, w.cache[n])
  }

  /** A dentry is for the pid its name spells. */
  ghost predicate Named(w: World) {
    forall n {:trigger Cached(w, n)} :: Cached(w, n) ==> w.tasks[w.cache[n]].pid == n
  }

  /** Whether a path walk through /proc/name succeeds, with hidepid off. */
  predicate Reachable(w: World, name: nat) {
    Cached(w, name) || (name in w.pids && !Hidden(w, w.pids[name]))
  }

  lemma StepKeepsNamed(w: World, e: Event)
    requires WellFormed(w) && Named(w) && Possible(w, e)
    ensures Named(Apply(w, e))
  {
    var w' := Apply(w, e);
    forall n | Cached(w', n) ensures w'.tasks[w'.cache[n]].pid == n {
      if Cached(w, n) {
        assert TaskOk(w, w.cache[n]);
      } else {
        assert PidOk(w, n);
      }
    }
  }

  lemma StepKeepsCoherent(w: World, e: Event)
    requires WellFormed(w) && Named(w) && Coherent(w) && Possible(w, e) && !e.WriteFlag?
    ensures Coherent(Apply(w, e))
  {
    var w' := Apply(w, e);
    forall n | Cached(w', n) ensures !Hidden(w', w'.cache[n]) {
      if Cached(w, n) {
        assert TaskOk(w, w.cache[n]);
      } else {
        assert PidOk(w, n);
      }
    }
  }

  /** Whatever happens, flag writes included. */
  lemma {:induction false} RunKeepsNamed(w: World, run: seq<Event>)
    requires WellFormed(w) && Named(w) && PossibleRun(w, run)
    ensures WellFormed(After(w, run)) && Named(After(w, run))
    decreases |run|
  {
    if run != [] {
      StepKeepsWellFormed(w, run[0]);
      StepKeepsNamed(w, run[0]);
      RunKeepsNamed(Apply(w, run[0]), run[1..]);
    }
  }

  predicate FlagUntouched(run: seq<Event>) {
    forall e :: e in run ==> !e.WriteFlag?
  }

  lemma {:induction false} RunKeepsCoherent(w: World, run: seq<Event>)
    requires WellFormed(w) && Named(w) && Coherent(w) && PossibleRun(w, run) && FlagUntouched(run)
    ensures Coherent(After(w, run))
    decreases |run|
  {
    if run != [] {
      StepKeepsWellFormed(w, run[0]);
      StepKeepsNamed(w, run[0]);
      StepKeepsCoherent(w, run[0]);
      RunKeepsCoherent(Apply(w, run[0]), run[1..]);
    }
  }

  predicate LeaderAt(w: World, name: nat) {
    name in w.pids && w.pids[name] in w.tasks && w.tasks[w.pids[name]].leader
  }

  lemma CoherentReach(w: World, name: nat)
    requires WellFormed(w) && Named(w) && Coherent(w) && LeaderAt(w, name)
    ensures Reachable(w, name) <==> Listed(w, name)
  {
    if Cached(w, name) {
      assert TaskOk(w, w.cache[name]);
    }
  }

  /** Whatever is hidden, recovered, forked, looked up and listed while hidden_flag stays the same: a
      thread-group leader can be reached by its path exactly if it is listed, although revalidation
      never looks at the cloak. */
  lemma ReachableIffListed(w: World, run: seq<Event>, name: nat)
    requires WellFormed(w) && w.cache == map[] && PossibleRun(w, run) && FlagUntouched(run)
      && LeaderAt(After(w, run), name)
    ensures Reachable(After(w, run), name) <==> Listed(After(w, run), name)
  {
    RunKeepsNamed(w, run);
    RunKeepsCoherent(w, run);
    CoherentReach(After(w, run), name);
  }

  ghost predicate Agrees(w: World) {
    forall n {:trigger LeaderAt(w, n)} :: LeaderAt(w, n) ==> (Reachable(w, n) <==> Listed(w, n))
  }

  ghost predicate CachedCloakedLeader(w: World, n: nat) {
    Cached(w, n) && w.tasks[w.cache[n]].leader && w.tasks[w.cache[n]].cloak == 1
  }

  lemma AgreesExactly(w: World)
    requires WellFormed(w) && Named(w)
    ensures Agrees(w) <==> w.flag != 1 || forall n :: !CachedCloakedLeader(w, n)
  {
    forall n | CachedCloakedLeader(w, n) && w.flag == 1 ensures !Agrees(w) {
      assert TaskOk(w, w.cache[n]);
      assert LeaderAt(w, n);
    }
    forall n | LeaderAt(w, n) && !(Reachable(w, n) <==> Listed(w, n)) ensures w.flag == 1 && CachedCloakedLeader(w, n) {
      if Cached(w, n) {
        assert TaskOk(w, w.cache[n]);
      }
    }
  }

  /** In every state any run leads to, flag writes included, paths and listing agree exactly if the flag
      hides nothing or no cloaked leader has a live dentry; so a write of the flag keeps or restores
      the agreement exactly if this holds with the value written. */
  lemma FlagWriteExact(w: World, run: seq<Event>, v: int)
    requires WellFormed(w) && w.cache == map[] && PossibleRun(w, run)
    ensures var w' := After(w, run);
      && (Agrees(w') <==> w'.flag != 1 || forall n :: !CachedCloakedLeader(w', n))
      && (Agrees(Apply(w', WriteFlag(v))) <==> v != 1 || forall n :: !CachedCloakedLeader(w', n))
  {
    RunKeepsNamed(w, run);
    var w' := After(w, run);
    AgreesExactly(w');
    StepKeepsWellFormed(w', WriteFlag(v));
    StepKeepsNamed(w', WriteFlag(v));
    var w2 := Apply(w', WriteFlag(v));
    AgreesExactly(w2);
    forall n ensures CachedCloakedLeader(w2, n) <==> CachedCloakedLeader(w', n) {}
  }

  /** Hide with the flag off, walk the path, switch the flag on: reachable but not listed. */
  lemma StaleDentry()
    ensures
      var w := World(map[7 := Task(5, true, 0, "sh", 0)], map[5 := 7], [7], map[], 0);
      var w' := After(w, [Hide(0, 5, 1), Lookup(5), WriteFlag(1)]);
      WellFormed(w) && Reachable(w', 5) && !Listed(w', 5)
  {
    var w := World(map[7 := Task(5, true, 0, "sh", 0)], map[5 := 7], [7], map[], 0);
    var w1 := Apply(w, Hide(0, 5, 1));
    assert w1.tasks[7].cloak == 1;
    assert Apply(w1, Lookup(5)).cache[5] == 7;
    AfterLast(w, [], Hide(0, 5, 1));
    AfterLast(w, [Hide(0, 5, 1)], Lookup(5));
    AfterLast(w, [Hide(0, 5, 1), Lookup(5)], WriteFlag(1));
    assert [] + [Hide(0, 5, 1)] == [Hide(0, 5, 1)];
    assert [Hide(0, 5, 1)] + [Lookup(5)] == [Hide(0, 5, 1), Lookup(5)];
    assert [Hide(0, 5, 1), Lookup(5)] + [WriteFlag(1)] == [Hide(0, 5, 1), Lookup(5), WriteFlag(1)];
  }

  // ---- The history of a cloak

  /** What event e writes into the cloak of t, if it is a root call that covers t, or t's fork. */
  function Writes(w: World, e: Event, t: TaskId): Option<nat> {
    match e
    case Hide(caller, pid, on) =>
      if caller == 0 && t in w.tasks && w.tasks[t].pid == pid then Some(on % 0x1_0000_0000) else None
    case HideUser(caller, uid, binname, recover) =>
      if caller != 0 || t !in w.tasks || !w.tasks[t].leader then None
      else if recover != 0 then Some(0)
      else if w.tasks[t].uid == uid && (binname.None? || (binname.value.Text? && binname.value.s == w.tasks[t].comm))
      then Some(1)
      else None
    case Fork(child, _, _, _) => if child == t then Some(0) else None
    case _ => None
  }

  lemma StepWrites(w: World, e: Event, t: TaskId)
    requires WellFormed(w) && Possible(w, e) && t in Apply(w, e).tasks
    ensures t in w.tasks || Writes(w, e, t) == Some(0)
    ensures Apply(w, e).tasks[t].cloak == if Writes(w, e, t).Some? then Writes(w, e, t).value else w.tasks[t].cloak
  {
    assert TaskOk(w, t);
    match e
    case Hide(_, pid, _) => assert pid > 0 ==> PidOk(w, pid);
    case HideUser(_, _, _, _) => assert t in w.tasks ==> (t in Procs(w.procs) <==> w.tasks[t].leader);
    case _ =>
  }

  /** hide stores the value it is given, as an unsigned int, in the one task with that pid, and takes its
      dentries away. */
  lemma HideExactly(w: World, pid: int, on: int)
    requires WellFormed(w) && pid > 0 && pid in w.pids && -0x8000_0000 <= on < 0x1_0000_0000
    ensures var w' := Apply(w, Hide(0, pid, on));
      var t := w.pids[pid];
      && t in w.tasks && w.tasks[t].pid == pid
      && w'.tasks == w.tasks[t := w.tasks[t].(cloak := if on >= 0 then on else on + 0x1_0000_0000)]
      && (forall n :: n in w'.cache <==> n in w.cache && w.cache[n] != t)
      && (forall n :: n in w'.cache ==> w'.cache[n] == w.cache[n])
      && w'.pids == w.pids && w'.procs == w.procs && w'.flag == w.flag
  {
    assert PidOk(w, pid);
  }

  /** With 0 a process can be listed and reached again, whatever the flag is; with 1 neither while the flag
      is 1. */
  lemma HideAndShow(w: World, pid: int)
    requires WellFormed(w) && pid > 0 && pid in w.pids && w.pids[pid] in w.tasks && w.tasks[w.pids[pid]].leader
    ensures Listed(Apply(w, Hide(0, pid, 0)), pid) && Reachable(Apply(w, Hide(0, pid, 0)), pid)
    ensures w.flag == 1 && Named(w) ==>
      !Listed(Apply(w, Hide(0, pid, 1)), pid) && !Reachable(Apply(w, Hide(0, pid, 1)), pid)
  {
    HideExactly(w, pid, 0);
    HideExactly(w, pid, 1);
    if Cached(w, pid) { assert TaskOk(w, w.cache[pid]); }
  }

  /** A fork shows the child whatever its parent's cloak is: it starts with 0. */
  lemma ForkExactly(w: World, child: TaskId, nr: nat, parent: TaskId, thread: bool)
    requires WellFormed(w) && Possible(w, Fork(child, nr, parent, thread))
    ensures var w' := Apply(w, Fork(child, nr, parent, thread));
      && parent in w.tasks
      && w'.tasks == w.tasks[child := Task(nr, !thread, w.tasks[parent].uid, w.tasks[parent].comm, 0)]
      && w'.pids == w.pids[nr := child] && w'.cache == w.cache && w'.flag == w.flag
      && (!thread ==> Listed(w', nr) && Reachable(w', nr))
  {
  }

  /** The bulk call, task by task. */
  lemma BulkExactly(w: World, uid: nat, binname: Option<UserString>, recover: int, t: TaskId)
    requires WellFormed(w) && t in w.tasks && !(recover == 0 && binname == Some(Fault))
    ensures var w' := Apply(w, HideUser(0, uid, binname, recover));
      var was := w.tasks[t];
      var chosen := was.leader && was.uid == uid && (binname == None || binname == Some(Text(was.comm)));
      && t in w'.tasks
      && w'.tasks[t] == (if recover != 0 && was.leader then was.(cloak := 0)
                         else if recover == 0 && chosen then was.(cloak := 1) else was)
      && (forall n :: n in w.cache && w.cache[n] == t ==>
            (n in w'.cache <==> recover != 0 || !chosen) && (n in w'.cache ==> w'.cache[n] == t))
  {
    assert t in Procs(w.procs) <==> w.tasks[t].leader;
  }

  /** Recovering shows exactly the leaders: a thread that was cloaked by its own id stays cloaked. */
  lemma RecoverExact(w: World, uid: nat, binname: Option<UserString>, recover: int, t: TaskId)
    requires WellFormed(w) && recover != 0 && t in w.tasks
    ensures Apply(w, HideUser(0, uid, binname, recover)).tasks[t].cloak == 0
      <==> w.tasks[t].leader || w.tasks[t].cloak == 0
  {
    StepWrites(w, HideUser(0, uid, binname, recover), t);
  }

  /** Such a thread: hidden by its id, it is hidden still after all have been recovered. */
  lemma ThreadStaysHidden()
    ensures
      var w := World(map[7 := Task(5, true, 0, "sh", 0), 8 := Task(6, false, 0, "sh", 0)], map[5 := 7, 6 := 8], [7],
        map[], 1);
      WellFormed(w) && Hidden(After(w, [Hide(0, 6, 1), HideUser(0, 0, None, 1)]), 8)
  {
    var w := World(map[7 := Task(5, true, 0, "sh", 0), 8 := Task(6, false, 0, "sh", 0)], map[5 := 7, 6 := 8], [7],
      map[], 1);
    AfterLast(w, [], Hide(0, 6, 1));
    AfterLast(w, [Hide(0, 6, 1)], HideUser(0, 0, None, 1));
    assert [] + [Hide(0, 6, 1)] == [Hide(0, 6, 1)];
    assert [Hide(0, 6, 1)] + [HideUser(0, 0, None, 1)] == [Hide(0, 6, 1), HideUser(0, 0, None, 1)];
    assert Procs(w.procs) == {7};
  }

  /** The state before event i of the run. */
  function At(w: World, run: seq<Event>, i: nat): World
    requires i <= |run|
  {
    After(w, run[..i])
  }

  lemma {:induction false} AfterLast(w: World, run: seq<Event>, e: Event)
    ensures After(w, run + [e]) == Apply(After(w, run), e)
    ensures PossibleRun(w, run + [e]) <==> PossibleRun(w, run) && Possible(After(w, run), e)
    decreases |run|
  {
    if run == [] {
      assert [e][1..] == [];
    } else {
      assert (run + [e])[1..] == run[1..] + [e];
      AfterLast(Apply(w, run[0]), run[1..], e);
    }
  }

  lemma {:induction false} RunKeepsWellFormed(w: World, run: seq<Event>)
    requires WellFormed(w) && PossibleRun(w, run)
    ensures WellFormed(After(w, run))
    decreases |run|
  {
    if run != [] {
      StepKeepsWellFormed(w, run[0]);
      RunKeepsWellFormed(Apply(w, run[0]), run[1..]);
    }
  }

  /** A task that is there at the end has the cloak that the last event covering it wrote. */
  lemma {:induction false} LastWriteWins(w: World, run: seq<Event>, i: nat, t: TaskId)
    requires WellFormed(w) && PossibleRun(w, run) && i < |run| && t in After(w, run).tasks
    requires Writes(At(w, run, i), run[i], t).Some?
    requires forall j :: i < j < |run| ==> Writes(At(w, run, j), run[j], t).None?
    ensures After(w, run).tasks[t].cloak == Writes(At(w, run, i), run[i], t).value
    decreases |run|
  {
    var n := |run| - 1;
    var r := run[..n];
    assert run == r + [run[n]];
    AfterLast(w, r, run[n]);
    RunKeepsWellFormed(w, r);
    StepWrites(After(w, r), run[n], t);
    if i < n {
      assert Writes(At(w, run, n), run[n], t).None?;
      assert forall j :: 0 <= j < n ==> r[..j] == run[..j];
      LastWriteWins(w, r, i, t);
    }
  }

  /** A task no event covers keeps the cloak it had: nobody but root changes one. */
  lemma {:induction false} NoWriteNoChange(w: World, run: seq<Event>, t: TaskId)
    requires WellFormed(w) && PossibleRun(w, run) && t in After(w, run).tasks
    requires forall j :: 0 <= j < |run| ==> Writes(At(w, run, j), run[j], t).None?
    ensures t in w.tasks && After(w, run).tasks[t].cloak == w.tasks[t].cloak
    decreases |run|
  {
    if run != [] {
      var n := |run| - 1;
      var r := run[..n];
      assert run == r + [run[n]];
      AfterLast(w, r, run[n]);
      RunKeepsWellFormed(w, r);
      StepWrites(After(w, r), run[n], t);
      assert Writes(At(w, run, n), run[n], t).None?;
      assert forall j :: 0 <= j < n ==> r[..j] == run[..j];
      NoWriteNoChange(w, r, t);
    }
  }

  // ---- A bulk hide is a series of single hides

  /** hide(pid, 1) by root for each selected task of the list, in order. */
  function SingleHides(w: World, ts: seq<TaskId>, uid: nat, name: Option<string>): seq<Event> {
    if ts == [] then []
    else
      var r := SingleHides(w, ts[1..], uid, name);
      if ts[0] in w.tasks && Selected(w.tasks[ts[0]], uid, name) then [Hide(0, w.tasks[ts[0]].pid, 1)] + r else r
  }

  lemma BulkStep(w: World, s: set<TaskId>, t: TaskId, uid: nat, name: Option<string>)
    requires t in w.tasks
    ensures BulkOver(w, s + {t}, uid, name) ==
      if Selected(w.tasks[t], uid, name) then Flush(SetCloak(BulkOver(w, s, uid, name), t, 1), t)
      else BulkOver(w, s, uid, name)
  {
    var a := BulkOver(w, s + {t}, uid, name);
    var b := Flush(SetCloak(BulkOver(w, s, uid, name), t, 1), t);
    if Selected(w.tasks[t], uid, name) {
      assert a.tasks == b.tasks;
      assert a.cache == b.cache;
    } else {
      assert a.tasks == BulkOver(w, s, uid, name).tasks;
      assert a.cache == BulkOver(w, s, uid, name).cache;
    }
  }

  lemma {:induction false} SinglesAreBulk(w: World, done: set<TaskId>, ts: seq<TaskId>, uid: nat, name: Option<string>)
    requires WellFormed(w) && forall t :: t in ts ==> t in w.tasks
    ensures After(BulkOver(w, done, uid, name), SingleHides(w, ts, uid, name))
      == BulkOver(w, done + Procs(ts), uid, name)
    decreases |ts|
  {
    if ts == [] {
      assert done + Procs(ts) == done;
    } else {
      var t := ts[0];
      BulkStep(w, done, t, uid, name);
      SinglesAreBulk(w, done + {t}, ts[1..], uid, name);
      assert done + {t} + Procs(ts[1..]) == done + Procs(ts);
      assert TaskOk(w, t);
      var r := SingleHides(w, ts[1..], uid, name);
      if Selected(w.tasks[t], uid, name) {
        var e := Hide(0, w.tasks[t].pid, 1);
        assert ([e] + r)[0] == e && ([e] + r)[1..] == r;
      }
    }
  }

  /** Hiding a user's processes, or those of one name, is hiding exactly the leaders with that uid and
      exactly that comm, one by one. */
  lemma BulkIsSingleHides(w: World, uid: nat, binname: Option<UserString>)
    requires WellFormed(w) && !(binname.Some? && binname.value.Fault?)
    ensures After(w, SingleHides(w, w.procs, uid, if binname.Some? then Some(binname.value.s) else None))
         == Apply(w, HideUser(0, uid, binname, 0))
  {
    var name := if binname.Some? then Some(binname.value.s) else None;
    var b := BulkOver(w, {}, uid, name);
    assert b.tasks == w.tasks && b.cache == w.cache;
    SinglesAreBulk(w, {}, w.procs, uid, name);
    assert {} + Procs(w.procs) == Procs(w.procs);
  }
}
