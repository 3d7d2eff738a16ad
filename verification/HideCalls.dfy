/** The two system calls, the path lookup and the directory fill as programs over kernel state. */
module HideCalls {
  import opened CStrings
  import opened Lists
  import opened Hiding

  /** strncpy_from_user: copies up to and including the NUL, or count characters and no NUL. */
  method StrncpyFromUser(dst: array<char>, src: UserString, count: nat) returns (len: int)
    requires count <= dst.Length && (src.Text? ==> NUL !in src.s)
    modifies dst
    ensures src.Fault? ==> len < 0
    ensures src.Text? && |src.s| < count ==> len == |src.s| && dst[..len] == src.s && dst[len] == NUL
    ensures src.Text? && |src.s| >= count ==> len == count && dst[..count] == src.s[..count]
  {
    if src.Fault? { return -14; }
    var i := 0;
    while i < count
      invariant i <= count && i <= |src.s| && dst[..i] == src.s[..i]
    {
      dst[i] := if i < |src.s| then src.s[i] else NUL;
      if i == |src.s| { return i; }
      i := i + 1;
    }
    return count;
  }

  /** get_task_comm pads with NULs. */
  method GetTaskComm(comm: string) returns (s: array<char>)
    requires |comm| < TASK_COMM_LEN && NUL !in comm
    ensures fresh(s) && s.Length == TASK_COMM_LEN && TextOf(s[..]) == comm
  {
    s := new char[TASK_COMM_LEN](i => if 0 <= i < |comm| then comm[i] else NUL);
    assert s[..][..|comm|] == comm;
    TextUntilNul(s[..], comm);
  }

  method CommIs(comm: string, kbinname: array<char>) returns (same: bool)
    requires |comm| < TASK_COMM_LEN && NUL !in comm && kbinname.Length == TASK_COMM_LEN
    ensures same <==> comm == TextOf(kbinname[..])
  {
    var s := GetTaskComm(comm);
    assert s[..TASK_COMM_LEN] == s[..] && kbinname[..TASK_COMM_LEN] == kbinname[..];
    same := Strncmp(s, kbinname, TASK_COMM_LEN);
  }

  class System {
    var tasks: map<TaskId, Task>
    var pids: map<nat, TaskId>
    var procs: seq<TaskId>
    var cache: map<nat, TaskId>
    var flag: int              // hidden_flag

    ghost function State(): World
      reads this
    {
      World(tasks, pids, procs, cache, flag)
    }

    /** p->cloak = v; proc_flush_pid(p->thread_pid). */
    method CloakAndFlush(p: TaskId, v: nat)
      requires p in tasks
      modifies `tasks, `cache
      ensures State() == Flush(SetCloak(old(State()), p, v), p)
    {
      tasks := tasks[p := tasks[p].(cloak := v)];
      cache := map n | n in cache && cache[n] != p :: cache[n];
    }

    /** The system call hide. */
    method Hide(caller: nat, pid: int, on: int) returns (r: int)
      requires WellFormed(State())
      modifies `tasks, `cache
      ensures State() == Apply(old(State()), Event.Hide(caller, pid, on))
      ensures r == if pid > 0 && caller == 0 && pid !in pids then 1 else 0
      ensures caller == 0 && pid > 0 && pid in pids && 0 <= on < 0x1_0000_0000 ==>
        && pids[pid] in old(tasks) && tasks == old(tasks)[pids[pid] := old(tasks)[pids[pid]].(cloak := on)]
        && forall n :: n in cache <==> n in old(cache) && old(cache)[n] != pids[pid]
      ensures !(caller == 0 && pid > 0 && pid in pids) ==> tasks == old(tasks) && cache == old(cache)
    {
      if caller == 0 && pid > 0 && pid in pids && 0 <= on < 0x1_0000_0000 { HideExactly(State(), pid, on); }
      if pid > 0 && caller == 0 {
        if pid !in pids { return 1; }
        assert PidOk(State(), pid);
        CloakAndFlush(pids[pid], Unsigned(on));
      }
      return 0;
    }

    /** The loop that hides all processes of a user. */
    method HideAll(uid: nat)
      requires WellFormed(State())
      modifies `tasks, `cache
      ensures State() == BulkOver(old(State()), Procs(procs), uid, None)
    {
      ghost var w := State();
      BulkOverNone(w, uid, None);
      for i := 0 to |procs|
        invariant State() == BulkOver(w, Procs(procs[..i]), uid, None)
      {
        BulkNext(w, procs, i, uid, None);
        if tasks[procs[i]].uid == uid {
          CloakAndFlush(procs[i], 1);
        }
      }
      assert procs[..|procs|] == procs;
    }

    /** The loop that hides those of one name. */
    method HideNamed(uid: nat, kbinname: array<char>)
      requires WellFormed(State()) && kbinname.Length == TASK_COMM_LEN
      modifies `tasks, `cache
      ensures State() == BulkOver(old(State()), Procs(procs), uid, Some(TextOf(kbinname[..])))
    {
      ghost var w := State();
      ghost var name := Some(TextOf(kbinname[..]));
      BulkOverNone(w, uid, name);
      for i := 0 to |procs|
        invariant State() == BulkOver(w, Procs(procs[..i]), uid, name)
        invariant name == Some(TextOf(kbinname[..]))
      {
        BulkNext(w, procs, i, uid, name);
        var same := CommIs(tasks[procs[i]].comm, kbinname);
        if tasks[procs[i]].uid == uid && same {
          CloakAndFlush(procs[i], 1);
        }
      }
      assert procs[..|procs|] == procs;
    }

    /** The loop that shows all processes again; it flushes nothing. */
    method RecoverAll()
      requires WellFormed(State())
      modifies `tasks
      ensures State() == Recover(old(State()), Procs(procs))
    {
      ghost var w := State();
      assert Recover(w, {}).tasks == w.tasks;
      for i := 0 to |procs|
        invariant State() == Recover(w, Procs(procs[..i]))
      {
        assert procs[i] in w.tasks;
        tasks := tasks[procs[i] := tasks[procs[i]].(cloak := 0)];
        assert procs[..i + 1] == procs[..i] + [procs[i]];
        assert tasks == Recover(w, Procs(procs[..i + 1])).tasks;
      }
      assert procs[..|procs|] == procs;
    }

    /** The system call hide_user_processes. The NUL is put into the last place of the buffer before the
        name is copied over it, so a name that fills the buffer stays without one and matches no comm. */
    method HideUserProcesses(caller: nat, uid: nat, binname: Option<UserString>, recover: int) returns (r: int)
      requires WellFormed(State()) && (binname.Some? && binname.value.Text? ==> NUL !in binname.value.s)
      modifies `tasks, `cache
      ensures State() == Apply(old(State()), HideUser(caller, uid, binname, recover))
      ensures r == if caller != 0 then 1 else if recover == 0 && binname == Some(Fault) then 2 else 0
      ensures r != 0 ==> tasks == old(tasks) && cache == old(cache)
      ensures r == 0 ==> forall t :: t in old(tasks) ==>
        && t in tasks && var was := old(tasks)[t];
        tasks[t] == if recover != 0 then (if was.leader then was.(cloak := 0) else was)
          else if was.leader && was.uid == uid && (binname == None || binname == Some(Text(was.comm)))
          then was.(cloak := 1) else was
    {
      ghost var w := State();
      forall t | t in w.tasks && caller == 0 && !(recover == 0 && binname == Some(Fault))
        ensures var was := w.tasks[t];
          && t in Apply(w, HideUser(caller, uid, binname, recover)).tasks
          && Apply(w, HideUser(caller, uid, binname, recover)).tasks[t] ==
             if recover != 0 then (if was.leader then was.(cloak := 0) else was)
             else if was.leader && was.uid == uid && (binname == None || binname == Some(Text(was.comm)))
             then was.(cloak := 1) else was
      {
        BulkExactly(w, uid, binname, recover, t);
      }
      if caller != 0 { return 1; }
      if recover == 0 {
        if binname.None? {
          HideAll(uid);
        } else {
          var kbinname := new char[TASK_COMM_LEN];
          kbinname[TASK_COMM_LEN - 1] := NUL;
          var len := StrncpyFromUser(kbinname, binname.value, TASK_COMM_LEN);
          if len < 0 { return 2; }
          CopiedName(State(), kbinname[..], uid, binname.value.s);
          HideNamed(uid, kbinname);
        }
      } else {
        RecoverAll();
      }
      return 0;
    }

    /** A path walk to /proc/name: the dentry, if revalidation accepts it, or proc_pid_lookup. */
    method Lookup(name: nat) returns (found: bool)
      requires WellFormed(State())
      modifies `cache
      ensures State() == Apply(old(State()), Event.Lookup(name))
      ensures found <==> Reachable(old(State()), name)
      ensures found <==>
        || (name in old(cache) && old(cache)[name] in tasks)
        || (name in pids && pids[name] in tasks && !(flag == 1 && tasks[pids[name]].cloak == 1))
    {
      assert PidOk(State(), name);
      if name in cache {
        if cache[name] in tasks { return true; }
        cache := cache - {name};
      }
      if name !in pids { return false; }
      var task := pids[name];
      if flag == 1 && tasks[task].cloak == 1 { return false; }
      cache := cache[name := task];
      return true;
    }
  }

  lemma BulkOverNone(w: World, uid: nat, name: Option<string>)
    ensures BulkOver(w, Procs([]), uid, name) == w && Procs(w.procs[..0]) == Procs([])
  {
    assert BulkOver(w, {}, uid, name).tasks == w.tasks && BulkOver(w, {}, uid, name).cache == w.cache;
  }

  lemma BulkNext(w: World, procs: seq<TaskId>, i: nat, uid: nat, name: Option<string>)
    requires WellFormed(w) && i < |procs| && procs == w.procs
    ensures procs[i] in w.tasks
    ensures var b := BulkOver(w, Procs(procs[..i]), uid, name);
      && |w.tasks[procs[i]].comm| < TASK_COMM_LEN && NUL !in w.tasks[procs[i]].comm
      && procs[i] in b.tasks && b.tasks[procs[i]].uid == w.tasks[procs[i]].uid
        && b.tasks[procs[i]].comm == w.tasks[procs[i]].comm
      && BulkOver(w, Procs(procs[..i + 1]), uid, name) ==
         (if Selected(w.tasks[procs[i]], uid, name) then Flush(SetCloak(b, procs[i], 1), procs[i]) else b)
  {
    assert procs[i] in w.tasks && TaskOk(w, procs[i]);
    BulkStep(w, Procs(procs[..i]), procs[i], uid, name);
    assert Procs(procs[..i + 1]) == Procs(procs[..i]) + {procs[i]};
  }

  /** A name of sixteen characters or more hides nothing, even if it starts with a comm. */
  lemma LongNameHidesNothing(w: World, uid: nat, s: string)
    requires WellFormed(w) && |s| >= TASK_COMM_LEN
    ensures Apply(w, HideUser(0, uid, Some(Text(s)), 0)) == w
  {
    forall t | t in w.tasks ensures !Selected(w.tasks[t], uid, Some(s)) {
      assert TaskOk(w, t);
    }
    var b := BulkOver(w, Procs(w.procs), uid, Some(s));
    assert b.tasks == w.tasks && b.cache == w.cache;
  }

  /** The name that would be compared if the NUL were put into the last place after the copy, as
      OSEXP-1.md has it. */
  function Truncated(s: string): string {
    if |s| < TASK_COMM_LEN then s else s[..TASK_COMM_LEN - 1]
  }

  /** The code selects the leaders that the documented order would select exactly if the name is short
      enough or no leader of that user has the first fifteen characters as its comm. */
  lemma DocumentedOrderExact(w: World, uid: nat, s: string)
    requires WellFormed(w)
    ensures
      (forall t :: t in w.procs ==>
        (Selected(w.tasks[t], uid, Some(s)) <==> Selected(w.tasks[t], uid, Some(Truncated(s)))))
      <==> |s| < TASK_COMM_LEN
           || forall t :: t in w.procs ==> !(w.tasks[t].uid == uid && w.tasks[t].comm == s[..TASK_COMM_LEN - 1])
  {
    forall t | t in w.procs ensures |w.tasks[t].comm| < TASK_COMM_LEN {
      assert TaskOk(w, t);
    }
  }

  /** What is in the buffer selects the same tasks as the user's string, which may be longer. */
  lemma CopiedName(w: World, b: seq<char>, uid: nat, s: string)
    requires WellFormed(w) && |b| == TASK_COMM_LEN && NUL !in s
    requires if |s| < TASK_COMM_LEN then b[..|s|] == s && b[|s|] == NUL else b == s[..TASK_COMM_LEN]
    ensures BulkOver(w, Procs(w.procs), uid, Some(TextOf(b))) == BulkOver(w, Procs(w.procs), uid, Some(s))
  {
    if |s| < TASK_COMM_LEN {
      TextUntilNul(b, s);
    } else {
      TextSplit(b, TASK_COMM_LEN);
      assert |TextOf(b)| == TASK_COMM_LEN;
      forall t | t in w.tasks ensures !Selected(w.tasks[t], uid, Some(TextOf(b)))
        && !Selected(w.tasks[t], uid, Some(s)) {
        assert TaskOk(w, t);
      }
      var x, y := BulkOver(w, Procs(w.procs), uid, Some(TextOf(b))), BulkOver(w, Procs(w.procs), uid, Some(s));
      assert x.tasks == y.tasks && x.cache == y.cache;
    }
  }
}
