/** oom_score_adj of processes that share an mm: forks that publish a child before fixing it
    up, against __set_oom_adj, over every interleaving of their steps. `score` stands for
    oom_score_adj (a write always carries a value) and equally for oom_score_adj_min (a write
    carries a value only when it is privileged and not legacy). */
module OomScore {
  import opened Lists

  type Id = nat

  /** Private: copy_process has not linked the group yet. Listed: visible in the task list, but
      not past copy_oom_score_adj. Ready: kernel_clone has let it go. */
  datatype Stage = Private | Listed | Ready

  /** clean: neither global init nor created by vfork, nor forked with CLONE_VM from such a
      group, since it last got an mm of its own. vfork, vm: how it was cloned. */
  datatype Group = Group(mm: Option<Id>, score: int, stage: Stage, clean: bool, isInit: bool,
                         vforkDone: bool, parent: Id, vm: bool, vfork: bool)

  /** oom_adj_mutex. mm is the mm to propagate to; todo is what for_each_process still owes. */
  datatype Mutex = Free | Writing(target: Id, value: Option<int>, mm: Option<Id>, own: bool, todo: set<Id>)

  datatype State = State(groups: map<Id, Group>, multiprocess: set<Id>, mutex: Mutex)

  datatype Action =
    | Snapshot(parent: Id, child: Id, vm: bool, vfork: bool, newMm: Id)  // copy_signal reads the score
    | Publish(child: Id)                                                 // list_add_tail_rcu(&p->tasks)
    | Fixup(child: Id)                                                   // copy_oom_score_adj, under the mutex
    | Skip(child: Id)                                                    // copy_oom_score_adj returns early
    | VforkEnds(group: Id)                                               // vfork_done becomes NULL
    | Exit(group: Id)
    | Exec(group: Id, newMm: Id)
    | TakeMutex(target: Id, value: Option<int>, thread: bool, seesVfork: bool)
    | WriteOwn
    | Visit(group: Id)
    | DropMutex

  predicate Unused(s: State, mm: Id) {
    && mm !in s.multiprocess
    && (s.mutex.Writing? ==> s.mutex.mm != Some(mm))
    && forall g :: g in s.groups ==> s.groups[g].mm != Some(mm)
  }

  /** A thread of the group is inside copy_process, so the group cannot exit or exec. */
  predicate Forking(s: State, g: Id) {
    exists c :: c in s.groups && s.groups[c].stage != Ready && s.groups[c].parent == g
  }

  /** Sharing the mm without being a thread or a vfork child. */
  predicate NeedsFixup(g: Group) {
    g.mm.Some? && g.vm && !g.vfork
  }

  predicate Enabled(s: State, a: Action) {
    match a
    case Snapshot(parent, child, vm, vfork, newMm) =>
      parent in s.groups && s.groups[parent].stage == Ready && child !in s.groups && Unused(s, newMm)
    case Publish(child) => child in s.groups && s.groups[child].stage == Private
    case Fixup(child) =>
      child in s.groups && s.groups[child].stage == Listed && NeedsFixup(s.groups[child])
      && s.groups[child].parent in s.groups && s.mutex.Free?
    case Skip(child) => child in s.groups && s.groups[child].stage == Listed && !NeedsFixup(s.groups[child])
    case VforkEnds(g) => g in s.groups
    case Exit(g) => g in s.groups && s.groups[g].stage == Ready && !Forking(s, g)
    case Exec(g, newMm) => g in s.groups && s.groups[g].stage == Ready && !Forking(s, g) && Unused(s, newMm)
    case TakeMutex(g, value, thread, sees) =>
      s.mutex.Free? && g in s.groups && s.groups[g].stage != Private && (!thread ==> sees == s.groups[g].vforkDone)
    case WriteOwn => s.mutex.Writing? && !s.mutex.own
    case Visit(p) => s.mutex.Writing? && s.mutex.own && s.mutex.mm.Some? && p in s.groups && p != s.mutex.target
                     && s.groups[p].stage != Private
    case DropMutex => s.mutex.Writing? && s.mutex.own && s.mutex.todo == {}
  }

  function Store(groups: map<Id, Group>, g: Id, value: Option<int>): map<Id, Group> {
    if g in groups && value.Some? then groups[g := groups[g].(score := value.value)] else groups
  }

  function ListedGroups(groups: map<Id, Group>): set<Id> {
    set g | g in groups && groups[g].stage != Private
  }

  function Step(s: State, a: Action): State
    requires Enabled(s, a)
  {
    match a
    case Snapshot(parent, child, vm, vfork, newMm) =>
      var p := s.groups[parent];
      s.(groups := s.groups[child := Group(
        if p.mm.None? || vm then p.mm else Some(newMm),
        p.score, Private, !vfork && (vm ==> p.clean), false, false, parent, vm, vfork)])
    case Publish(child) => s.(groups := s.groups[child := s.groups[child].(stage := Listed)])
    case Fixup(child) =>
      var c := s.groups[child];
      State(s.groups[child := c.(score := s.groups[c.parent].score, stage := Ready)],
            s.multiprocess + {c.mm.value}, s.mutex)
    case Skip(child) =>
      s.(groups := s.groups[child := s.groups[child].(stage := Ready, vforkDone := s.groups[child].vfork)])
    case VforkEnds(g) => s.(groups := s.groups[g := s.groups[g].(vforkDone := false)])
    case Exit(g) =>
      s.(groups := s.groups - {g}, mutex := if s.mutex.Free? then Free else s.mutex.(todo := s.mutex.todo - {g}))
    case Exec(g, newMm) =>
      s.(groups := s.groups[g := s.groups[g].(mm := Some(newMm), vforkDone := false, clean := !s.groups[g].isInit)])
    case TakeMutex(g, value, thread, sees) =>
      var mm := s.groups[g].mm;
      s.(mutex := Writing(g, value, if !sees && mm.Some? && mm.value in s.multiprocess then mm else None, false, {}))
    case WriteOwn =>
      var m := s.mutex;
      s.(groups := Store(s.groups, m.target, m.value),
         mutex := m.(own := true, todo := if m.mm.None? then {} else ListedGroups(s.groups) - {m.target}))
    case Visit(p) =>
      var m := s.mutex;
      var g := s.groups[p];
      s.(groups := if !g.isInit && !g.vforkDone && g.mm == m.mm then Store(s.groups, p, m.value) else s.groups,
         mutex := m.(todo := m.todo - {p}))
    case DropMutex => s.(mutex := Free)
  }

  // ----- The claim -----

  /** A fixed-up clean group. */
  predicate Member(s: State, g: Id) {
    g in s.groups && s.groups[g].stage == Ready && s.groups[g].clean && s.groups[g].mm.Some?
  }

  predicate Sharers(s: State, g: Id, h: Id) {
    Member(s, g) && Member(s, h) && g != h && s.groups[g].mm == s.groups[h].mm
  }

  ghost predicate Agree(s: State) {
    forall g, h :: Sharers(s, g, h) ==> s.groups[g].score == s.groups[h].score
  }

  ghost predicate FlagSet(s: State) {
    forall g, h :: Sharers(s, g, h) ==> s.groups[g].mm.value in s.multiprocess
  }

  // ----- The invariant -----

  predicate ParentOk(s: State, x: Group) {
    && x.parent in s.groups && s.groups[x.parent].stage == Ready
    && (NeedsFixup(x) ==> x.mm == s.groups[x.parent].mm && (x.clean ==> s.groups[x.parent].clean))
  }

  predicate OwnMm(s: State, g: Id)
    requires g in s.groups
  {
    forall h :: h in s.groups && h != g ==> s.groups[h].mm != s.groups[g].mm
  }

  predicate GroupOk(s: State, g: Id) {
    g in s.groups
    && var x := s.groups[g];
    && (x.clean ==> !x.isInit && !x.vforkDone && !(x.stage != Ready && x.vfork))
    && (x.stage != Ready ==> ParentOk(s, x))
    && (x.stage != Ready && !x.vm && x.mm.Some? ==> x.mm.value !in s.multiprocess && OwnMm(s, g))
  }

  ghost predicate GroupsOk(s: State) {
    forall g {:trigger GroupOk(s, g)} :: g in s.groups ==> GroupOk(s, g)
  }

  /** An mm no two groups can be on unless one forked from the other with CLONE_VM. */
  ghost predicate Alone(s: State, g: Id) {
    forall h :: !Sharers(s, g, h)
  }

  /** What a writer has achieved so far. */
  ghost predicate WriterOk(s: State) {
    match s.mutex
    case Free => Agree(s)
    case Writing(target, value, mm, own, todo) =>
      if mm.None? then Agree(s) && Alone(s, target)
      else if mm.value !in s.multiprocess then false
      else if !own then Agree(s) && (Alone(s, target) || (target in s.groups && s.groups[target].mm == mm))
      else if value.None? then Agree(s)
      else
        && (forall g, h :: Sharers(s, g, h) && s.groups[g].mm != mm ==> s.groups[g].score == s.groups[h].score)
        && (forall g :: Member(s, g) && s.groups[g].mm == mm && g !in todo ==> s.groups[g].score == value.value)
  }

  ghost predicate Inv(s: State) {
    GroupsOk(s) && FlagSet(s) && WriterOk(s)
  }

  /** Writes that reach the group through a non-leader thread with vfork_done set. */
  predicate ThroughVforkThread(a: Action) {
    a.TakeMutex? && a.thread && a.seesVfork
  }

  predicate ForkStep(a: Action) {
    a.Snapshot? || a.Publish? || a.Fixup? || a.Skip?
  }

  lemma ForkKeepsGroup(s: State, a: Action, g: Id)
    requires GroupsOk(s) && Enabled(s, a) && ForkStep(a) && g in Step(s, a).groups
    ensures GroupOk(Step(s, a), g)
  {
    assert g in s.groups ==> GroupOk(s, g);
  }

  lemma EndKeepsGroup(s: State, a: Action, g: Id)
    requires GroupsOk(s) && Enabled(s, a) && (a.VforkEnds? || a.Exit? || a.Exec?) && g in Step(s, a).groups
    ensures GroupOk(Step(s, a), g)
  {
    assert GroupOk(s, g);
    if s.groups[g].stage != Ready {
      assert a.Exit? ==> a.group != s.groups[g].parent;
      assert a.Exec? ==> a.group != s.groups[g].parent;
    }
  }

  lemma WriteKeepsGroup(s: State, a: Action, g: Id)
    requires GroupsOk(s) && Enabled(s, a) && (a.TakeMutex? || a.WriteOwn? || a.Visit? || a.DropMutex?)
      && g in Step(s, a).groups
    ensures GroupOk(Step(s, a), g)
  {
    assert GroupOk(s, g);
  }

  lemma StepKeepsGroups(s: State, a: Action)
    requires Inv(s) && Enabled(s, a)
    ensures GroupsOk(Step(s, a))
  {
    forall g | g in Step(s, a).groups ensures GroupOk(Step(s, a), g) {
      if ForkStep(a) {
        ForkKeepsGroup(s, a, g);
      } else if a.VforkEnds? || a.Exit? || a.Exec? {
        EndKeepsGroup(s, a, g);
      } else {
        WriteKeepsGroup(s, a, g);
      }
    }
  }

  /** Only a fixup adds a sharer: every other way to become a member is on an mm of one's own. */
  lemma SharersBefore(s: State, a: Action, g: Id, h: Id)
    requires Inv(s) && Enabled(s, a) && Sharers(Step(s, a), g, h)
    ensures Sharers(s, g, h) || (a.Fixup? && (g == a.child || h == a.child))
    ensures Sharers(s, g, h) ==> Step(s, a).groups[g].mm == s.groups[g].mm
  {
    assert g in s.groups ==> GroupOk(s, g);
    assert h in s.groups ==> GroupOk(s, h);
  }

  lemma FixupJoins(s: State, child: Id, h: Id)
    requires Inv(s) && Enabled(s, Fixup(child)) && Sharers(Step(s, Fixup(child)), child, h)
    ensures Step(s, Fixup(child)).groups[child].score == s.groups[h].score
  {
    assert GroupOk(s, child);
    var parent := s.groups[child].parent;
    if h != parent { assert Sharers(s, parent, h); }
  }

  lemma StepKeepsFlag(s: State, a: Action)
    requires Inv(s) && Enabled(s, a)
    ensures FlagSet(Step(s, a))
  {
    var s' := Step(s, a);
    forall g, h | Sharers(s', g, h) ensures s'.groups[g].mm.value in s'.multiprocess {
      SharersBefore(s, a, g, h);
    }
  }

  /** The steps of a write, and forks, exits and execs around it. */
  lemma WriteSteps(s: State, a: Action)
    requires Inv(s) && Enabled(s, a) && !ThroughVforkThread(a)
    requires a.TakeMutex? || a.WriteOwn? || a.Visit? || a.DropMutex?
    ensures WriterOk(Step(s, a))
  {
    var s' := Step(s, a);
    forall g, h | Sharers(s', g, h) ensures Sharers(s, g, h) { SharersBefore(s, a, g, h); }
    match a {
      case TakeMutex(target, value, thread, sees) =>
        assert GroupOk(s, target);
      case WriteOwn =>
        forall g, h | Sharers(s', g, h) ensures Sharers(s, h, g) && Sharers(s, g, h) {}
      case Visit(p) =>
        assert GroupOk(s, p);
        forall g | Member(s', g) ensures Member(s, g) {}
      case DropMutex =>
        forall g, h | Sharers(s', g, h) ensures s'.groups[g].score == s'.groups[h].score {
          assert Member(s, g) && Member(s, h);
        }
    }
  }

  lemma OtherSteps(s: State, a: Action)
    requires Inv(s) && Enabled(s, a)
    requires !a.Fixup? && !(a.TakeMutex? || a.WriteOwn? || a.Visit? || a.DropMutex?)
    ensures WriterOk(Step(s, a))
  {
    var s' := Step(s, a);
    forall g, h | Sharers(s', g, h)
      ensures Sharers(s, g, h) && s'.groups[g].mm == s.groups[g].mm
      ensures s'.groups[g].score == s.groups[g].score && s'.groups[h].score == s.groups[h].score
    {
      SharersBefore(s, a, g, h);
    }
    if s.mutex.Writing? && s.mutex.mm.Some? && s.mutex.own && s.mutex.value.Some? {
      forall g | Member(s', g) && s'.groups[g].mm == s.mutex.mm && g !in s'.mutex.todo
        ensures s'.groups[g].score == s.mutex.value.value
      {
        assert GroupOk(s, g);
        assert Member(s, g);
      }
    }
  }

  lemma FixupStep(s: State, child: Id)
    requires Inv(s) && Enabled(s, Fixup(child))
    ensures WriterOk(Step(s, Fixup(child)))
  {
    var s' := Step(s, Fixup(child));
    forall g, h | Sharers(s', g, h) ensures s'.groups[g].score == s'.groups[h].score {
      SharersBefore(s, Fixup(child), g, h);
      if g == child { FixupJoins(s, child, h); }
      else if h == child { FixupJoins(s, child, g); }
      else { assert Sharers(s, g, h); }
    }
  }

  lemma StepKeepsInv(s: State, a: Action)
    requires Inv(s) && Enabled(s, a) && !ThroughVforkThread(a)
    ensures Inv(Step(s, a))
  {
    StepKeepsGroups(s, a);
    StepKeepsFlag(s, a);
    if a.Fixup? { FixupStep(s, a.child); }
    else if a.TakeMutex? || a.WriteOwn? || a.Visit? || a.DropMutex? { WriteSteps(s, a); }
    else { OtherSteps(s, a); }
  }

  // ----- What a fork and a write do to the score -----

  /** The child has the score its parent had at the snapshot; nobody looks at it again unless the mm is
      shared and the parent does not wait. */
  lemma ForkInheritsScore(s: State, parent: Id, child: Id, vm: bool, vfork: bool, newMm: Id)
    requires Enabled(s, Snapshot(parent, child, vm, vfork, newMm))
    ensures var listed := Step(Step(s, Snapshot(parent, child, vm, vfork, newMm)), Publish(child));
      && child in listed.groups && listed.groups[child].score == s.groups[parent].score
      && listed.groups[child].mm == (if vm || s.groups[parent].mm.None? then s.groups[parent].mm else Some(newMm))
      && listed.groups[child].clean == (!vfork && (vm ==> s.groups[parent].clean))
      && (forall g :: g in s.groups ==> g in listed.groups && listed.groups[g] == s.groups[g])
      && (Enabled(listed, Skip(child)) <==> !(vm && !vfork && s.groups[parent].mm.Some?))
      && (Enabled(listed, Skip(child)) ==> Step(listed, Skip(child)).groups[child].score == s.groups[parent].score)
  {
  }

  /** An exec leaves the score and starts on an mm of the group's own. */
  lemma ExecKeepsScore(s: State, g: Id, newMm: Id)
    requires g in s.groups && s.groups[g].stage == Ready && !Forking(s, g) && Unused(s, newMm)
    ensures Enabled(s, Exec(g, newMm))
    ensures var s' := Step(s, Exec(g, newMm));
      && s'.groups == s.groups[g := s'.groups[g]] && s'.groups[g].score == s.groups[g].score
      && s'.groups[g].mm == Some(newMm) && OwnMm(s', g)
      && (s'.groups[g].clean <==> !s.groups[g].isInit) && !s'.groups[g].vforkDone
  {
  }

  // ----- Whole runs -----

  ghost predicate Run(s: State, actions: seq<Action>, end: State)
    decreases |actions|
  {
    if actions == [] then end == s
    else Enabled(s, actions[0]) && Run(Step(s, actions[0]), actions[1..], end)
  }

  function Boot(mm: Id, score: int): State {
    State(map[1 := Group(Some(mm), score, Ready, false, true, false, 0, false, false)], {}, Free)
  }

  lemma {:induction false} RunKeepsInv(s: State, actions: seq<Action>, end: State)
    requires Inv(s) && Run(s, actions, end)
    requires forall i :: 0 <= i < |actions| ==> !ThroughVforkThread(actions[i])
    ensures Inv(end)
    decreases |actions|
  {
    if actions != [] {
      assert !ThroughVforkThread(actions[0]);
      StepKeepsInv(s, actions[0]);
      RunKeepsInv(Step(s, actions[0]), actions[1..], end);
    }
  }

  /** In every interleaving whose writes do not go through a vforked thread: whenever the mutex
      is free, fixed-up clean groups on one mm have one score, and MMF_MULTIPROCESS is set as
      soon as there are two of them. */
  lemma SharersAgree(mm: Id, score: int, actions: seq<Action>, end: State)
    requires Run(Boot(mm, score), actions, end)
    requires forall i :: 0 <= i < |actions| ==> !ThroughVforkThread(actions[i])
    ensures FlagSet(end) && (end.mutex.Free? ==> Agree(end))
  {
    RunKeepsInv(Boot(mm, score), actions, end);
  }

  /** The state after an uninterrupted write whose task has vfork_done set. */
  function WrittenThroughThread(s: State, g: Id, x: int): State
    requires s.mutex.Free? && g in s.groups && s.groups[g].stage != Private
  {
    Step(Step(Step(s, TakeMutex(g, Some(x), true, true)), WriteOwn), DropMutex)
  }

  lemma OnlyScoreWritten(s: State, g: Id, x: int)
    requires s.mutex.Free? && g in s.groups && s.groups[g].stage != Private
    ensures WrittenThroughThread(s, g, x) == s.(groups := s.groups[g := s.groups[g].(score := x)])
    ensures forall a, b :: Sharers(WrittenThroughThread(s, g, x), a, b) <==> Sharers(s, a, b)
  {
    assert WrittenThroughThread(s, g, x) == s.(groups := s.groups[g := s.groups[g].(score := x)]);
  }

  /** Such a write is not passed on. It keeps the agreement exactly when the other sharers
      already had the written value. */
  lemma ThreadWriteExact(s: State, g: Id, x: int)
    requires Inv(s) && s.mutex.Free? && g in s.groups && s.groups[g].stage != Private
    ensures Agree(WrittenThroughThread(s, g, x)) <==> forall h :: Sharers(s, g, h) ==> s.groups[h].score == x
  {
    var end := WrittenThroughThread(s, g, x);
    OnlyScoreWritten(s, g, x);
    if Agree(end) {
      forall h | Sharers(s, g, h) ensures s.groups[h].score == x {
        assert Sharers(end, g, h);
      }
    } else {
      var a, b :| Sharers(end, a, b) && end.groups[a].score != end.groups[b].score;
      assert Sharers(s, a, b) && Sharers(s, b, a);
    }
  }

  /** The steps of one writer, with nothing in between. */
  predicate Uninterrupted(actions: seq<Action>) {
    forall a :: a in actions ==> a.WriteOwn? || a.Visit?
  }

  lemma {:induction false} RunAppend(s: State, actions: seq<Action>, a: Action, end: State)
    requires Run(s, actions + [a], end)
    ensures exists mid :: Run(s, actions, mid) && Enabled(mid, a) && end == Step(mid, a)
    decreases |actions|
  {
    if actions == [] {
      assert Run(s, [], s) && [a][1..] == [];
    } else {
      assert (actions + [a])[0] == actions[0] && (actions + [a])[1..] == actions[1..] + [a];
      RunAppend(Step(s, actions[0]), actions[1..], a, end);
      var mid :| Run(Step(s, actions[0]), actions[1..], mid) && Enabled(mid, a) && end == Step(mid, a);
      assert Run(s, actions, mid);
    }
  }

  lemma NextAction(actions: seq<Action>)
    requires actions != []
    ensures var rest := actions[1..] + [DropMutex];
      rest[0] in actions || (rest[0] == DropMutex && rest[1..] == [])
  {
  }

  /** A writer that has just taken the mutex writes to its own group before it does anything else. */
  lemma OwnWriteFirst(s: State, actions: seq<Action>, end: State)
    requires s.mutex.Writing? && !s.mutex.own && Uninterrupted(actions) && Run(s, actions + [DropMutex], end)
    ensures actions != [] && actions[0] == WriteOwn && Enabled(s, WriteOwn)
    ensures Run(Step(s, WriteOwn), actions[1..] + [DropMutex], end)
  {
    var all := actions + [DropMutex];
    assert all[0] == DropMutex || all[0] in actions;
    assert all[0] == WriteOwn && all[1..] == actions[1..] + [DropMutex];
  }

  /** A write that saw vfork_done has only its own group to write to. */
  lemma OnlyOwnWrite(s: State, g: Id, x: int, actions: seq<Action>, end: State)
    requires s.mutex.Free? && g in s.groups && s.groups[g].stage != Private && Uninterrupted(actions)
    requires Run(Step(s, TakeMutex(g, Some(x), true, true)), actions + [DropMutex], end)
    ensures end == WrittenThroughThread(s, g, x)
  {
    var s1 := Step(s, TakeMutex(g, Some(x), true, true));
    OwnWriteFirst(s1, actions, end);
    var s2 := Step(s1, WriteOwn);
    var rest := actions[1..] + [DropMutex];
    NextAction(actions);
    assert rest[0] == DropMutex && rest[1..] == [];
    assert Run(Step(s2, DropMutex), rest[1..], end);
  }

  /** The groups a write to g is for: g, and, unless it saw vfork_done, those listed on an mm of g's that is
      marked as shared, except global init and vfork children not let go yet. */
  predicate Reaches(s: State, g: Id, sees: bool, h: Id) {
    g in s.groups && h in s.groups
    && var (x, y) := (s.groups[g], s.groups[h]);
    h == g || (!sees && x.mm.Some? && x.mm.value in s.multiprocess
               && y.mm == x.mm && y.stage != Private && !y.isInit && !y.vforkDone)
  }

  predicate HalfDone(s: State, g: Id, x: int, sees: bool, now: State, h: Id) {
    h in s.groups && h in now.groups && now.mutex.Writing?
    && var written := s.groups[h].(score := x);
    && (now.groups[h] == s.groups[h] || (Reaches(s, g, sees, h) && now.groups[h] == written))
    && (Reaches(s, g, sees, h) && h !in now.mutex.todo ==> now.groups[h] == written)
  }

  /** A write to s that has stored its own value and has still to visit what is in todo. */
  ghost predicate Halfway(s: State, g: Id, x: int, sees: bool, now: State) {
    && g in s.groups && now.groups.Keys == s.groups.Keys && now.mutex.Writing? && now.mutex.own
    && now.mutex.target == g && now.mutex.value == Some(x) && g !in now.mutex.todo
    && var mm := s.groups[g].mm;
    && now.mutex.mm == (if !sees && mm.Some? && mm.value in s.multiprocess then mm else None)
    && (now.mutex.mm.None? ==> now.mutex.todo == {}) && now.mutex.todo <= ListedGroups(s.groups)
    && forall h {:trigger HalfDone(s, g, x, sees, now, h)} :: h in s.groups ==> HalfDone(s, g, x, sees, now, h)
  }

  lemma OwnWriteHalfway(s: State, g: Id, x: int, thread: bool, sees: bool)
    requires Enabled(s, TakeMutex(g, Some(x), thread, sees))
    ensures Enabled(Step(s, TakeMutex(g, Some(x), thread, sees)), WriteOwn)
    ensures Halfway(s, g, x, sees, Step(Step(s, TakeMutex(g, Some(x), thread, sees)), WriteOwn))
  {
  }

  lemma VisitHalfway(s: State, g: Id, x: int, sees: bool, now: State, p: Id)
    requires Halfway(s, g, x, sees, now) && Enabled(now, Visit(p))
    ensures Halfway(s, g, x, sees, Step(now, Visit(p)))
  {
    assert HalfDone(s, g, x, sees, now, p);
    forall h | h in s.groups ensures HalfDone(s, g, x, sees, Step(now, Visit(p)), h) {
      assert HalfDone(s, g, x, sees, now, h);
    }
  }

  lemma {:induction false} VisitsReach(s: State, g: Id, x: int, sees: bool, now: State, actions: seq<Action>,
      end: State)
    requires Halfway(s, g, x, sees, now) && Uninterrupted(actions) && Run(now, actions + [DropMutex], end)
    ensures end.groups.Keys == s.groups.Keys && end.mutex.Free?
    ensures forall h :: h in s.groups ==>
      end.groups[h] == if Reaches(s, g, sees, h) then s.groups[h].(score := x) else s.groups[h]
    decreases |actions|
  {
    var all := actions + [DropMutex];
    if actions == [] {
      assert all[0] == DropMutex && all[1..] == [];
      forall h | h in s.groups
        ensures end.groups[h] == if Reaches(s, g, sees, h) then s.groups[h].(score := x) else s.groups[h]
      {
        assert HalfDone(s, g, x, sees, now, h);
      }
    } else {
      assert all[0] == actions[0] && actions[0] in actions && all[1..] == actions[1..] + [DropMutex];
      VisitHalfway(s, g, x, sees, now, actions[0].group);
      VisitsReach(s, g, x, sees, Step(now, actions[0]), actions[1..], end);
    }
  }

  /** However an uninterrupted write visits the groups: at its end those it is for have the value, all else
      is as before, and the mutex is free. */
  lemma WriteReaches(s: State, g: Id, x: int, thread: bool, sees: bool, actions: seq<Action>, end: State)
    requires Uninterrupted(actions) && Run(s, [TakeMutex(g, Some(x), thread, sees)] + actions + [DropMutex], end)
    ensures g in s.groups && end.groups.Keys == s.groups.Keys && end.mutex.Free?
    ensures forall h :: h in s.groups ==>
      var (from, was) := (s.groups[g], s.groups[h]);
      end.groups[h] ==
        if h == g || (!sees && from.mm.Some? && from.mm.value in s.multiprocess && was.mm == from.mm
                      && was.stage != Private && !was.isInit && !was.vforkDone)
        then was.(score := x) else was
  {
    var first := TakeMutex(g, Some(x), thread, sees);
    var all := [first] + actions + [DropMutex];
    assert all[0] == first && all[1..] == actions + [DropMutex] && Enabled(s, first);
    OwnWriteFirst(Step(s, first), actions, end);
    OwnWriteHalfway(s, g, x, thread, sees);
    VisitsReach(s, g, x, sees, Step(Step(s, first), WriteOwn), actions[1..], end);
  }

  lemma {:induction false} VisitsEnd(s: State, g: Id, x: int, sees: bool, now: State)
      returns (actions: seq<Action>, end: State)
    requires Halfway(s, g, x, sees, now)
    ensures Uninterrupted(actions) && Run(now, actions + [DropMutex], end)
    decreases if now.mutex.Writing? then |now.mutex.todo| else 0
  {
    if now.mutex.todo == {} {
      actions, end := [], Step(now, DropMutex);
      Prepend(now, DropMutex, [], end);
      assert [] + [DropMutex] == [DropMutex] + [];
    } else {
      var p :| p in now.mutex.todo;
      assert HalfDone(s, g, x, sees, now, p);
      VisitHalfway(s, g, x, sees, now, p);
      var more;
      more, end := VisitsEnd(s, g, x, sees, Step(now, Visit(p)));
      actions := [Visit(p)] + more;
      Prepend(now, Visit(p), more + [DropMutex], end);
      assert [Visit(p)] + (more + [DropMutex]) == actions + [DropMutex];
    }
  }

  /** And a write that has the mutex can always be brought to its end. */
  lemma WriteEnds(s: State, g: Id, x: int, thread: bool, sees: bool) returns (actions: seq<Action>, end: State)
    requires s.mutex.Free? && g in s.groups && s.groups[g].stage != Private
      && (!thread ==> sees == s.groups[g].vforkDone)
    ensures Uninterrupted(actions) && Run(s, [TakeMutex(g, Some(x), thread, sees)] + actions + [DropMutex], end)
  {
    var first := TakeMutex(g, Some(x), thread, sees);
    OwnWriteHalfway(s, g, x, thread, sees);
    var more;
    more, end := VisitsEnd(s, g, x, sees, Step(Step(s, first), WriteOwn));
    actions := [WriteOwn] + more;
    Prepend(Step(s, first), WriteOwn, more + [DropMutex], end);
    Prepend(s, first, [WriteOwn] + (more + [DropMutex]), end);
    assert [first] + ([WriteOwn] + (more + [DropMutex])) == [first] + actions + [DropMutex];
  }

  /** An uninterrupted write to any group keeps the agreement exactly if it saw vfork_done NULL or no
      other sharer differs from the value. To a fixed-up clean group it can see anything else only
      through a thread. */
  lemma WriteExact(s: State, g: Id, x: int, thread: bool, sees: bool, actions: seq<Action>, end: State)
    requires Inv(s) && s.mutex.Free? && Uninterrupted(actions)
    requires Run(s, [TakeMutex(g, Some(x), thread, sees)] + actions + [DropMutex], end)
    ensures Agree(end) <==> !sees || forall h :: Sharers(s, g, h) ==> s.groups[h].score == x
    ensures Member(s, g) && sees ==> thread
  {
    var first := TakeMutex(g, Some(x), thread, sees);
    var all := [first] + actions + [DropMutex];
    assert all[0] == first && all[1..] == actions + [DropMutex] && Enabled(s, first);
    assert GroupOk(s, g);
    if sees {
      OnlyOwnWrite(s, g, x, actions, end);
      ThreadWriteExact(s, g, x);
    } else {
      forall i | 0 <= i < |all| ensures !ThroughVforkThread(all[i]) {
        if 1 <= i <= |actions| { assert all[i] == actions[i - 1] && actions[i - 1] in actions; }
      }
      RunKeepsInv(s, all, end);
      assert all == ([first] + actions) + [DropMutex];
      RunAppend(s, [first] + actions, DropMutex, end);
    }
  }

  lemma Prepend(s: State, a: Action, actions: seq<Action>, end: State)
    requires Enabled(s, a) && Run(Step(s, a), actions, end)
    ensures Run(s, [a] + actions, end)
  {
    assert ([a] + actions)[1..] == actions;
  }

  /** Two processes on one mm: 2 and its CLONE_VM child 3. */
  function TwoSharers(first: int, second: int): State {
    State(map[1 := Group(Some(10), 0, Ready, false, true, false, 0, false, false),
              2 := Group(Some(20), first, Ready, true, false, false, 1, false, false),
              3 := Group(Some(20), second, Ready, true, false, false, 2, true, false)], {20}, Free)
  }

  /** The fork of 2, and that of 3 after it. */
  function OneFork(): State {
    State(map[1 := Group(Some(10), 0, Ready, false, true, false, 0, false, false),
              2 := Group(Some(20), 0, Ready, true, false, false, 1, false, false)], {}, Free)
  }

  const SECOND_FORK: seq<Action> := [Snapshot(2, 3, true, false, 30)] + ([Publish(3)] + [Fixup(3)])

  lemma SecondFork()
    ensures Run(OneFork(), SECOND_FORK, TwoSharers(0, 0))
  {
    var s4 := Step(OneFork(), Snapshot(2, 3, true, false, 30));
    var s5 := Step(s4, Publish(3));
    var end := TwoSharers(0, 0);
    assert Step(s5, Fixup(3)) == end;
    Prepend(s5, Fixup(3), [], end);
    Prepend(s4, Publish(3), [Fixup(3)], end);
    Prepend(OneFork(), Snapshot(2, 3, true, false, 30), [Publish(3)] + [Fixup(3)], end);
  }

  lemma TwoSharersReached()
    ensures exists actions :: Run(Boot(10, 0), actions, TwoSharers(0, 0))
  {
    var s0, end := Boot(10, 0), TwoSharers(0, 0);
    var s1 := Step(s0, Snapshot(1, 2, false, false, 20));
    var s2 := Step(s1, Publish(2));
    assert Step(s2, Skip(2)) == OneFork();
    SecondFork();
    Prepend(s2, Skip(2), SECOND_FORK, end);
    Prepend(s1, Publish(2), [Skip(2)] + SECOND_FORK, end);
    Prepend(s0, Snapshot(1, 2, false, false, 20), [Publish(2)] + ([Skip(2)] + SECOND_FORK), end);
  }

  /** The agreement does fail from there, when a write goes through a thread of 3 that was
      created with CLONE_VFORK and is still running. */
  lemma ThreadWriteBreaksAgreement()
    ensures Run(TwoSharers(0, 0), [TakeMutex(3, Some(500), true, true), WriteOwn, DropMutex], TwoSharers(0, 500))
    ensures !Agree(TwoSharers(0, 500))
  {
    var s := TwoSharers(0, 0);
    var end := TwoSharers(0, 500);
    var s1 := Step(s, TakeMutex(3, Some(500), true, true));
    var s2 := Step(s1, WriteOwn);
    assert Step(s2, DropMutex) == end;
    Prepend(s2, DropMutex, [], end);
    Prepend(s1, WriteOwn, [DropMutex], end);
    Prepend(s, TakeMutex(3, Some(500), true, true), [WriteOwn] + [DropMutex], end);
    assert [TakeMutex(3, Some(500), true, true)] + ([WriteOwn] + [DropMutex]) ==
           [TakeMutex(3, Some(500), true, true), WriteOwn, DropMutex];
    assert Sharers(end, 2, 3);
  }
}
