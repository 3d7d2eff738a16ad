/** The vfork handshake as a state machine: any number of parents and children, any interleaving of
    the child's mm_release with the parent's killable wait, and kills at any moment. The completion
    sits on the parent's stack, so a child that signals too late writes into somebody else's frame:
    such stray accesses are counted, and the count is proved to stay zero. */
module Vfork {
  import opened Lists

  type Pid = nat

  /** Where a task is inside kernel_clone with CLONE_VFORK: blocked on the completion, returned from
      the wait by a fatal signal, or about to drop its reference to the child. */
  datatype Phase = Idle | Waiting(child: Pid) | Killed(child: Pid) | Leaving(child: Pid)

  datatype Task = Task(
    born: nat,                // creation order
    parent: Pid,              // who forked it
    vforkDone: Option<Pid>,   // the task whose stack holds the completion vfork_done points to
    refs: nat,                // references taken by get_task_struct in kernel_clone
    phase: Phase,
    done: nat,                // the completion on this task's own stack
    call: nat,                // the vfork call it is in, when its phase is not Idle
    saw: bool,                // in mm_release, between the unlocked test and the lock
    released: bool,           // has been through mm_release
    exited: bool)

  /** The history of one vfork call. */
  datatype Call = Call(owner: Pid, signals: nat, puts: nat, killed: bool)

  datatype System = System(tasks: map<Pid, Task>, calls: seq<Call>, clock: nat, stray: nat)

  datatype Event =
    | Fork(parent: Pid, child: Pid, vfork: bool)   // up to wake_up_new_task
    | Check(task: Pid)                             // mm_release: test vfork_done without the lock
    | Complete(task: Pid)                          // complete_vfork_done, under task_lock
    | Wake(task: Pid)                              // the wait finds the completion done
    | Kill(task: Pid)                              // the wait finds a fatal signal and no completion
    | Clear(task: Pid)                             // after a kill: child->vfork_done = NULL, under task_lock
    | Put(task: Pid)                               // put_task_struct(child), and kernel_clone returns
    | Exit(task: Pid)
    | Free(task: Pid)                              // the task_struct goes away

  /** Running its own code, not inside kernel_clone or mm_release. */
  predicate Runnable(s: System, p: Pid) {
    p in s.tasks && s.tasks[p].phase.Idle? && !s.tasks[p].saw && !s.tasks[p].exited
  }

  predicate Enabled(s: System, e: Event) {
    match e
    case Fork(p, c, _) => Runnable(s, p) && c !in s.tasks
    case Check(t) => Runnable(s, t)
    case Complete(t) => t in s.tasks && s.tasks[t].saw
    case Wake(p) => p in s.tasks && s.tasks[p].phase.Waiting? && s.tasks[p].done > 0
    case Kill(p) => p in s.tasks && s.tasks[p].phase.Waiting? && s.tasks[p].done == 0
    case Clear(p) => p in s.tasks && s.tasks[p].phase.Killed?
    case Put(p) => p in s.tasks && s.tasks[p].phase.Leaving?
    case Exit(t) => Runnable(s, t) && s.tasks[t].released
    case Free(t) => t in s.tasks && s.tasks[t].exited && s.tasks[t].refs == 0
  }

  function Set(s: System, p: Pid, t: Task): System {
    s.(tasks := s.tasks[p := t])
  }

  /** complete(): the slot is on p's stack, and p may no longer be in the call it belongs to. */
  function Signal(s: System, p: Pid): System {
    if p in s.tasks && (s.tasks[p].phase.Waiting? || s.tasks[p].phase.Killed?) && s.tasks[p].call < |s.calls| then
      var t := s.tasks[p];
      Set(s, p, t.(done := t.done + 1)).(
        calls := s.calls[t.call := s.calls[t.call].(signals := s.calls[t.call].signals + 1)])
    else
      s.(stray := s.stray + 1)
  }

  function Launch(s: System, p: Pid, c: Pid, vfork: bool): System
    requires p in s.tasks
  {
    var child := Task(s.clock, p, None, 0, Idle, 0, 0, false, false, false);
    var s' := s.(clock := s.clock + 1);
    if vfork then
      var parent := s.tasks[p].(phase := Waiting(c), done := 0, call := |s.calls|);
      Set(Set(s', p, parent), c, child.(vforkDone := Some(p), refs := 1)).(calls := s.calls + [Call(p, 0, 0, false)])
    else
      Set(s', c, child)
  }

  function ClearChild(s: System, p: Pid): System
    requires p in s.tasks && s.tasks[p].phase.Killed?
  {
    var c := s.tasks[p].phase.child;
    var s' := if c in s.tasks then Set(s, c, s.tasks[c].(vforkDone := None)) else s.(stray := s.stray + 1);
    if p in s'.tasks then Set(s', p, s'.tasks[p].(phase := Leaving(c))) else s'
  }

  function PutChild(s: System, p: Pid): System
    requires p in s.tasks && s.tasks[p].phase.Leaving?
  {
    var c, n := s.tasks[p].phase.child, s.tasks[p].call;
    var s1 := Set(s, p, s.tasks[p].(phase := Idle));
    var s2 := if n < |s.calls| then s1.(calls := s.calls[n := s.calls[n].(puts := s.calls[n].puts + 1)]) else s1;
    if c in s2.tasks && s2.tasks[c].refs > 0 then Set(s2, c, s2.tasks[c].(refs := s2.tasks[c].refs - 1))
    else s2.(stray := s2.stray + 1)
  }

  function Apply(s: System, e: Event): System
    requires Enabled(s, e)
  {
    match e
    case Fork(p, c, vfork) => Launch(s, p, c, vfork)
    case Check(t) =>
      if s.tasks[t].vforkDone.Some? then Set(s, t, s.tasks[t].(saw := true))
      else Set(s, t, s.tasks[t].(released := true))
    case Complete(t) =>
      var s' := Set(s, t, s.tasks[t].(vforkDone := None, saw := false, released := true));
      if s.tasks[t].vforkDone.Some? then Signal(s', s.tasks[t].vforkDone.value) else s'
    case Wake(p) => Set(s, p, s.tasks[p].(done := s.tasks[p].done - 1, phase := Leaving(s.tasks[p].phase.child)))
    case Kill(p) =>
      var n := s.tasks[p].call;
      var s' := Set(s, p, s.tasks[p].(phase := Killed(s.tasks[p].phase.child)));
      if n < |s.calls| then s'.(calls := s.calls[n := s.calls[n].(killed := true)]) else s'
    case Clear(p) => ClearChild(s, p)
    case Put(p) => PutChild(s, p)
    case Exit(t) => Set(s, t, s.tasks[t].(exited := true))
    case Free(t) => s.(tasks := s.tasks - {t})
  }

  predicate Initial(s: System) {
    && s.calls == [] && s.stray == 0
    && forall t {:trigger s.tasks[t]} :: t in s.tasks ==>
      var x := s.tasks[t];
      x.born < s.clock && x.vforkDone.None? && x.refs == 0 && x.phase.Idle? && !x.saw && (x.exited ==> x.released)
  }

  predicate Possible(s: System, run: seq<Event>)
    decreases |run|
  {
    run == [] || (Enabled(s, run[0]) && Possible(Apply(s, run[0]), run[1..]))
  }

  function After(s: System, run: seq<Event>): System
    requires Possible(s, run)
    decreases |run|
  {
    if run == [] then s else After(Apply(s, run[0]), run[1..])
  }

  /** p is inside a vfork call for c. */
  predicate WaitsFor(s: System, p: Pid, c: Pid) {
    p in s.tasks && !s.tasks[p].phase.Idle? && s.tasks[p].phase.child == c
  }

  /** The parent's side: the child exists, is younger and pinned, and the completion is done exactly
      when the child no longer points to it. */
  predicate ParentOk(s: System, p: Pid)
    requires p in s.tasks
  {
    var x := s.tasks[p];
    !x.phase.Idle? ==>
      && x.phase.child in s.tasks && !x.exited && !x.saw
      && var c := s.tasks[x.phase.child];
      && c.parent == p && c.born > x.born
      && (c.vforkDone == None || c.vforkDone == Some(p))
      && x.call < |s.calls| && s.calls[x.call].owner == p && s.calls[x.call].puts == 0
      && (x.phase.Waiting? ==> !s.calls[x.call].killed)
      && (x.phase.Killed? ==> s.calls[x.call].killed)
      && (!x.phase.Leaving? ==> x.done == s.calls[x.call].signals == if c.vforkDone.None? then 1 else 0)
      && (x.phase.Leaving? ==>
          && c.vforkDone.None? && s.calls[x.call].signals <= 1
          && (s.calls[x.call].killed || s.calls[x.call].signals == 1))
  }

  /** The child's side: what it points to is a parent still in the wait for it. */
  predicate ChildOk(s: System, t: Pid)
    requires t in s.tasks
  {
    var x := s.tasks[t];
    && x.born < s.clock
    && (x.released ==> x.vforkDone.None?) && (x.exited ==> x.released)
    && (x.saw ==> x.phase.Idle? && !x.exited)
    && x.refs == (if WaitsFor(s, x.parent, t) then 1 else 0)
    && (x.vforkDone.Some? ==> WaitsFor(s, x.vforkDone.value, t) && !s.tasks[x.vforkDone.value].phase.Leaving?)
  }

  predicate TaskOk(s: System, t: Pid) {
    t in s.tasks ==> ParentOk(s, t) && ChildOk(s, t)
  }

  predicate Open(s: System, n: nat)
    requires n < |s.calls|
  {
    var p := s.calls[n].owner;
    p in s.tasks && !s.tasks[p].phase.Idle? && s.tasks[p].call == n
  }

  /** A call that is over was signalled at most once, exactly once unless killed, and put its child once. */
  predicate CallOk(s: System, n: nat) {
    n < |s.calls| && !Open(s, n) ==>
      s.calls[n].puts == 1 && s.calls[n].signals <= 1 && (s.calls[n].killed || s.calls[n].signals == 1)
  }

  ghost predicate Inv(s: System) {
    && s.stray == 0
    && (forall t {:trigger TaskOk(s, t)} :: TaskOk(s, t))
    && (forall n: nat {:trigger CallOk(s, n)} :: CallOk(s, n))
  }

  lemma ForkKeepsInv(s: System, p: Pid, c: Pid, vfork: bool)
    requires Inv(s) && Enabled(s, Fork(p, c, vfork))
    ensures Inv(Launch(s, p, c, vfork))
  {
    var s' := Launch(s, p, c, vfork);
    assert TaskOk(s, p);
    forall t ensures TaskOk(s', t) {
      assert TaskOk(s, t);
    }
    forall n: nat ensures CallOk(s', n) {
      assert CallOk(s, n);
    }
  }

  lemma CompleteKeepsEach(s: System, c: Pid, t: Pid)
    requires Enabled(s, Complete(c)) && TaskOk(s, c) && TaskOk(s, t)
    requires s.tasks[c].vforkDone.Some? ==> TaskOk(s, s.tasks[c].vforkDone.value)
    ensures TaskOk(Apply(s, Complete(c)), t)
  {
    var s' := Apply(s, Complete(c));
    if t != c && t in s.tasks && s.tasks[c].vforkDone != Some(t) {
      assert s'.tasks[t] == s.tasks[t];
    }
  }

  lemma CompleteKeepsInv(s: System, c: Pid)
    requires Inv(s) && Enabled(s, Complete(c))
    ensures Inv(Apply(s, Complete(c)))
  {
    var s' := Apply(s, Complete(c));
    assert TaskOk(s, c);
    if s.tasks[c].vforkDone.Some? {
      assert TaskOk(s, s.tasks[c].vforkDone.value);
    }
    forall t ensures TaskOk(s', t) {
      assert TaskOk(s, t);
      CompleteKeepsEach(s, c, t);
    }
    forall n: nat ensures CallOk(s', n) {
      assert CallOk(s, n);
    }
  }

  lemma ClearKeepsEach(s: System, p: Pid, t: Pid)
    requires Enabled(s, Clear(p)) && TaskOk(s, p) && TaskOk(s, s.tasks[p].phase.child) && TaskOk(s, t)
    ensures TaskOk(ClearChild(s, p), t)
  {
    var c := s.tasks[p].phase.child;
    assert c != p;
    var s' := ClearChild(s, p);
    assert s'.tasks == s.tasks[c := s.tasks[c].(vforkDone := None)][p := s.tasks[p].(phase := Leaving(c))];
    if t != p && t != c && t in s.tasks {
      assert s'.tasks[t] == s.tasks[t];
    }
  }

  lemma ClearKeepsInv(s: System, p: Pid)
    requires Inv(s) && Enabled(s, Clear(p))
    ensures Inv(ClearChild(s, p))
  {
    assert TaskOk(s, p) && TaskOk(s, s.tasks[p].phase.child);
    forall t ensures TaskOk(ClearChild(s, p), t) {
      assert TaskOk(s, t);
      ClearKeepsEach(s, p, t);
    }
    forall n: nat ensures CallOk(ClearChild(s, p), n) {
      assert CallOk(s, n);
    }
  }

  lemma PutKeepsEach(s: System, p: Pid, t: Pid)
    requires Enabled(s, Put(p)) && TaskOk(s, p) && TaskOk(s, s.tasks[p].phase.child) && TaskOk(s, t)
    ensures TaskOk(PutChild(s, p), t)
  {
    var c := s.tasks[p].phase.child;
    assert c != p;
    var s' := PutChild(s, p);
    assert s'.tasks == s.tasks[p := s.tasks[p].(phase := Idle)][c := s.tasks[c].(refs := 0)];
    if t != p && t != c && t in s.tasks {
      assert s'.tasks[t] == s.tasks[t];
    }
  }

  lemma PutKeepsInv(s: System, p: Pid)
    requires Inv(s) && Enabled(s, Put(p))
    ensures Inv(PutChild(s, p))
  {
    assert TaskOk(s, p) && TaskOk(s, s.tasks[p].phase.child);
    forall t ensures TaskOk(PutChild(s, p), t) {
      assert TaskOk(s, t);
      PutKeepsEach(s, p, t);
    }
    forall n: nat ensures CallOk(PutChild(s, p), n) {
      assert CallOk(s, n);
    }
  }

  lemma WaitKeepsEach(s: System, e: Event, t: Pid)
    requires Enabled(s, e) && (e.Wake? || e.Kill?)
    requires TaskOk(s, e.task) && TaskOk(s, s.tasks[e.task].phase.child) && TaskOk(s, t)
    ensures TaskOk(Apply(s, e), t)
  {
    if t != e.task && t in s.tasks {
      assert Apply(s, e).tasks[t] == s.tasks[t];
    }
  }

  lemma WaitKeepsInv(s: System, e: Event)
    requires Inv(s) && Enabled(s, e) && (e.Wake? || e.Kill?)
    ensures Inv(Apply(s, e))
  {
    var s' := Apply(s, e);
    assert TaskOk(s, e.task) && TaskOk(s, s.tasks[e.task].phase.child);
    forall t ensures TaskOk(s', t) {
      assert TaskOk(s, t);
      WaitKeepsEach(s, e, t);
    }
    forall n: nat ensures CallOk(s', n) {
      assert CallOk(s, n);
    }
  }

  lemma OwnStepKeepsInv(s: System, e: Event)
    requires Inv(s) && Enabled(s, e) && (e.Check? || e.Exit? || e.Free?)
    ensures Inv(Apply(s, e))
  {
    var s' := Apply(s, e);
    assert TaskOk(s, e.task);
    forall t ensures TaskOk(s', t) {
      assert TaskOk(s, t);
    }
    forall n: nat ensures CallOk(s', n) {
      assert CallOk(s, n);
    }
  }

  lemma StepKeepsInv(s: System, e: Event)
    requires Inv(s) && Enabled(s, e)
    ensures Inv(Apply(s, e))
  {
    match e
    case Fork(p, c, vfork) => ForkKeepsInv(s, p, c, vfork);
    case Complete(c) => CompleteKeepsInv(s, c);
    case Clear(p) => ClearKeepsInv(s, p);
    case Put(p) => PutKeepsInv(s, p);
    case Wake(_) => WaitKeepsInv(s, e);
    case Kill(_) => WaitKeepsInv(s, e);
    case _ => OwnStepKeepsInv(s, e);
  }

  lemma {:induction false} RunKeepsInv(s: System, run: seq<Event>)
    requires Inv(s) && Possible(s, run)
    ensures Inv(After(s, run))
    decreases |run|
  {
    if run != [] {
      StepKeepsInv(s, run[0]);
      RunKeepsInv(Apply(s, run[0]), run[1..]);
    }
  }

  lemma InitialInv(s: System)
    requires Initial(s)
    ensures Inv(s)
  {
    forall t ensures TaskOk(s, t) {
      assert t in s.tasks ==> s.tasks[t].phase.Idle?;
    }
  }

  /** In every run: nobody touches a stack frame or a task that is gone; a vfork call that has returned
      was signalled at most once, exactly once unless a kill ended it, and has put its child exactly once;
      and one that has not returned has not put it yet and has been signalled at most once. */
  lemma EveryCallBalances(s: System, run: seq<Event>, n: nat)
    requires Initial(s) && Possible(s, run) && n < |After(s, run).calls|
    ensures After(s, run).stray == 0
    ensures After(s, run).calls[n].puts == if Open(After(s, run), n) then 0 else 1
    ensures After(s, run).calls[n].signals <= 1
    ensures !Open(After(s, run), n) && !After(s, run).calls[n].killed ==> After(s, run).calls[n].signals == 1
  {
    InitialInv(s);
    RunKeepsInv(s, run);
    var s' := After(s, run);
    assert CallOk(s', n) && TaskOk(s', s'.calls[n].owner);
    if Open(s', n) {
      var p := s'.tasks[s'.calls[n].owner];
      assert p.phase.child in s'.tasks;
    }
  }

  /** In every run: a child about to signal finds its parent still in the wait for it, not signalled
      yet, and is itself pinned by the parent's reference until the parent has put it. */
  lemma SignalFindsParentWaiting(s: System, run: seq<Event>, c: Pid)
    requires Initial(s) && Possible(s, run) && Enabled(After(s, run), Complete(c))
    ensures var s' := After(s, run);
      s'.tasks[c].vforkDone.Some? ==>
        var p := s'.tasks[c].vforkDone.value;
        WaitsFor(s', p, c) && !s'.tasks[p].phase.Leaving? && s'.tasks[p].done == 0 && s'.tasks[c].refs == 1
  {
    InitialInv(s);
    RunKeepsInv(s, run);
    var s' := After(s, run);
    assert TaskOk(s', c);
    if s'.tasks[c].vforkDone.Some? {
      assert TaskOk(s', s'.tasks[c].vforkDone.value);
    }
  }

  /** In every run: a parent whose child has been through mm_release is not blocked; and the child it
      waits for is still there. */
  lemma NoLostWakeup(s: System, run: seq<Event>, p: Pid, c: Pid)
    requires Initial(s) && Possible(s, run) && WaitsFor(After(s, run), p, c)
    ensures var s' := After(s, run);
      && c in s'.tasks && !Enabled(s', Free(c))
      && (s'.tasks[p].phase.Waiting? && s'.tasks[c].released ==> Enabled(s', Wake(p)) && !Enabled(s', Kill(p)))
  {
    InitialInv(s);
    RunKeepsInv(s, run);
    var s' := After(s, run);
    assert TaskOk(s', p) && TaskOk(s', c);
  }

  /** A vfork opens a call: the parent waits for the child, whose vfork_done points to the parent and whom
      the parent has pinned. A plain fork does not. */
  lemma ForkOpens(s: System, p: Pid, c: Pid, vfork: bool)
    requires Inv(s) && Runnable(s, p) && c !in s.tasks
    ensures Enabled(s, Fork(p, c, vfork))
    ensures var s' := Apply(s, Fork(p, c, vfork));
      && p in s'.tasks && c in s'.tasks && p != c
      && s'.tasks[c].parent == p && s'.tasks[c].born == s.clock && !s'.tasks[c].released
      && (vfork ==>
        && s'.tasks[p].phase == Waiting(c) && s'.tasks[p].done == 0 && s'.tasks[p].call == |s.calls|
        && s'.tasks[c].vforkDone == Some(p) && s'.tasks[c].refs == 1
        && s'.calls == s.calls + [Call(p, 0, 0, false)] && !Runnable(s', p)
        && Enabled(s', Kill(p)) && !Enabled(s', Wake(p)))
      && (!vfork ==> Runnable(s', p) && s'.tasks[c].vforkDone == None && s'.tasks[c].refs == 0 && s'.calls == s.calls)
  {
  }

  /** The task that was created as c at moment b has been through mm_release. */
  predicate Released(s: System, c: Pid, b: nat) {
    c in s.tasks && s.tasks[c].born == b && s.tasks[c].released
  }

  predicate EverReleased(s: System, run: seq<Event>, c: Pid, b: nat)
    requires Possible(s, run)
    decreases |run|
  {
    Released(s, c, b) || (run != [] && EverReleased(Apply(s, run[0]), run[1..], c, b))
  }

  /** p is blocked on the child born at b. */
  predicate Blocked(s: System, p: Pid, c: Pid, b: nat) {
    && p in s.tasks && s.tasks[p].phase == Waiting(c) && s.tasks[p].done == 0
    && c in s.tasks && s.tasks[c].born == b
  }

  lemma StaysBlocked(s: System, e: Event, p: Pid, c: Pid, b: nat)
    requires Inv(s) && Enabled(s, e) && Blocked(s, p, c, b) && !Released(s, c, b) && e != Kill(p)
    ensures Blocked(Apply(s, e), p, c, b) || Released(Apply(s, e), c, b)
  {
    assert TaskOk(s, p) && TaskOk(s, c);
    match e
    case Complete(t) => assert TaskOk(s, t);
    case Clear(q) => assert TaskOk(s, q);
    case Put(q) => assert TaskOk(s, q);
    case _ =>
  }

  lemma {:induction false} BlockedUntilReleased(s: System, run: seq<Event>, p: Pid, c: Pid, b: nat)
    requires Inv(s) && Possible(s, run) && Blocked(s, p, c, b) && Runnable(After(s, run), p)
    ensures EverReleased(s, run, c, b) || Kill(p) in run
    decreases |run|
  {
    if !Released(s, c, b) && run != [] && run[0] != Kill(p) {
      StepKeepsInv(s, run[0]);
      StaysBlocked(s, run[0], p, c, b);
      if Blocked(Apply(s, run[0]), p, c, b) {
        BlockedUntilReleased(Apply(s, run[0]), run[1..], p, c, b);
      }
    }
  }

  /** What vfork is for. In every run: after a vfork the parent does not run again before the child has
      been through mm_release, unless a kill ends its wait. */
  lemma VforkBlocks(s: System, before: seq<Event>, p: Pid, c: Pid, run: seq<Event>)
    requires Initial(s) && Possible(s, before) && Enabled(After(s, before), Fork(p, c, true))
    requires Possible(Apply(After(s, before), Fork(p, c, true)), run)
    requires Runnable(After(Apply(After(s, before), Fork(p, c, true)), run), p)
    ensures var forked := Apply(After(s, before), Fork(p, c, true));
      EverReleased(forked, run, c, After(s, before).clock) || Kill(p) in run
  {
    InitialInv(s);
    RunKeepsInv(s, before);
    var s' := After(s, before);
    ForkOpens(s', p, c, true);
    StepKeepsInv(s', Fork(p, c, true));
    BlockedUntilReleased(Apply(s', Fork(p, c, true)), run, p, c, s'.clock);
  }

  lemma {:induction false} Extend(s: System, run: seq<Event>, e: Event)
    requires Possible(s, run) && Enabled(After(s, run), e)
    ensures Possible(s, run + [e]) && After(s, run + [e]) == Apply(After(s, run), e)
    decreases |run|
  {
    if run == [] {
      assert [e][1..] == [];
    } else {
      Extend(Apply(s, run[0]), run[1..], e);
      assert (run + [e])[1..] == run[1..] + [e];
    }
  }

  /** The steps that only finish what has been started. */
  predicate Calm(e: Event) {
    e.Check? || e.Complete? || e.Wake? || e.Clear? || e.Put?
  }

  predicate AllCalm(run: seq<Event>) {
    forall i :: 0 <= i < |run| ==> Calm(run[i])
  }

  /** Nothing has happened to the calls of tasks born before b. */
  predicate OlderUntouched(s: System, s': System, b: nat) {
    && s'.clock == s.clock
    && forall q {:trigger q in s.tasks} {:trigger s'.tasks[q]} :: q in s.tasks ==>
      && q in s'.tasks && s'.tasks[q].born == s.tasks[q].born && s'.tasks[q].exited == s.tasks[q].exited
      && (s.tasks[q].born < b ==> s'.tasks[q].phase == s.tasks[q].phase)
  }

  /** A calm run so far, that only involves tasks born at b or later. */
  predicate Course(s: System, run: seq<Event>, b: nat) {
    Possible(s, run) && AllCalm(run) && OlderUntouched(s, After(s, run), b)
  }

  lemma CalmLeavesOlder(s: System, s': System, b: nat, e: Event)
    requires OlderUntouched(s, s', b) && Inv(s') && Calm(e) && Enabled(s', e)
    requires e.Check? || e.Complete? || s'.tasks[e.task].born >= b
    ensures OlderUntouched(s, Apply(s', e), b)
  {
    assert TaskOk(s', e.task);
  }

  lemma Go(s: System, run: seq<Event>, b: nat, e: Event) returns (run': seq<Event>)
    requires Inv(s) && Course(s, run, b) && Calm(e) && Enabled(After(s, run), e)
    requires (e.Check? || e.Complete? || After(s, run).tasks[e.task].born >= b)
    ensures Course(s, run', b) && After(s, run') == Apply(After(s, run), e) && Inv(After(s, run'))
  {
    RunKeepsInv(s, run);
    StepKeepsInv(After(s, run), e);
    Extend(s, run, e);
    CalmLeavesOlder(s, After(s, run), b, e);
    run' := run + [e];
  }

  /** There is no deadlock: from every reachable state, any task in a vfork call gets out of it in a
      finite run of steps that involves no new fork, no kill and no exit. */
  lemma {:induction false} EveryCallCanReturn(s: System, p: Pid) returns (run: seq<Event>)
    requires Inv(s) && p in s.tasks && !s.tasks[p].exited
    ensures Course(s, run, s.tasks[p].born) && Runnable(After(s, run), p) && Inv(After(s, run))
    decreases s.clock - s.tasks[p].born, 0
  {
    if s.tasks[p].phase.Waiting? {
      var c := s.tasks[p].phase.child;
      assert TaskOk(s, p) && TaskOk(s, c);
      run := WakeOrDrain(s, p, c);
      run := Go(s, run, s.tasks[p].born, Wake(p));
      assert TaskOk(After(s, run), p);
    } else {
      run := Finish(s, p);
    }
    run := Return(s, run, s.tasks[p].born, p);
  }

  /** A task that is not blocked gets out of mm_release, or to the end of its wait. */
  lemma Finish(s: System, p: Pid) returns (run: seq<Event>)
    requires Inv(s) && p in s.tasks && !s.tasks[p].exited && !s.tasks[p].phase.Waiting?
    ensures Course(s, run, s.tasks[p].born) && Inv(After(s, run)) && Returning(After(s, run), p)
  {
    var b := s.tasks[p].born;
    assert TaskOk(s, p);
    run := [];
    if s.tasks[p].phase.Killed? {
      assert s.tasks[p].phase.child != p;
      run := Go(s, run, b, Clear(p));
    } else if s.tasks[p].saw {
      run := Go(s, run, b, Complete(p));
    }
  }

  /** Nothing but put_task_struct is left of the call, if it is in one. */
  predicate Returning(s: System, p: Pid) {
    p in s.tasks && !s.tasks[p].saw && !s.tasks[p].exited && (s.tasks[p].phase.Idle? || s.tasks[p].phase.Leaving?)
  }

  lemma Return(s: System, run: seq<Event>, b: nat, p: Pid) returns (run': seq<Event>)
    requires Inv(s) && Course(s, run, b) && Inv(After(s, run)) && p in s.tasks && s.tasks[p].born >= b
    requires Returning(After(s, run), p)
    ensures Course(s, run', b) && Runnable(After(s, run'), p) && Inv(After(s, run'))
  {
    run' := run;
    if After(s, run).tasks[p].phase.Leaving? {
      assert TaskOk(After(s, run), p);
      run' := Go(s, run, b, Put(p));
    }
  }

  /** While p waits for c, some calm run of c and its descendants makes p's completion done. */
  lemma {:induction false} WakeOrDrain(s: System, p: Pid, c: Pid) returns (run: seq<Event>)
    requires Inv(s) && p in s.tasks && s.tasks[p].phase == Waiting(c)
    requires c in s.tasks && s.tasks[c].born > s.tasks[p].born && s.tasks[c].born < s.clock
    ensures Course(s, run, s.tasks[p].born) && Enabled(After(s, run), Wake(p)) && Inv(After(s, run))
    ensures After(s, run).tasks[p].phase == Waiting(c)
    decreases s.clock - s.tasks[c].born, 1
  {
    var b := s.tasks[p].born;
    run := [];
    assert TaskOk(s, p) && TaskOk(s, c);
    if s.tasks[p].done == 0 {
      run := EveryCallCanReturn(s, c);
      assert TaskOk(After(s, run), p);
      if After(s, run).tasks[p].done == 0 {
        run := Release(s, run, b, p, c);
      }
    }
  }

  /** The child goes through mm_release. */
  lemma Release(s: System, run: seq<Event>, b: nat, p: Pid, c: Pid) returns (run': seq<Event>)
    requires Inv(s) && Course(s, run, b) && Inv(After(s, run))
    requires WaitsFor(After(s, run), p, c) && After(s, run).tasks[p].phase.Waiting? && After(s, run).tasks[p].done == 0
    requires Runnable(After(s, run), c)
    ensures Course(s, run', b) && Enabled(After(s, run'), Wake(p)) && Inv(After(s, run'))
    ensures After(s, run').tasks[p].phase == Waiting(c)
  {
    assert TaskOk(After(s, run), p) && TaskOk(After(s, run), c);
    run' := Go(s, run, b, Check(c));
    run' := Go(s, run', b, Complete(c));
  }
}
