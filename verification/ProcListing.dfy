/** Listing /proc while processes come, go, hide and reappear: next_tgid and proc_pid_readdir
    as a cursor over a table that may differ at every look. */
module ProcListing {
  import opened Lists

  type TaskId = nat

  /** What a reader can see of the system at one moment. leaders maps the pids that lead a
      thread group to their tasks; a pid in pids but not in leaders is a thread or is dying.
      Tasks with no entry in cloak have cloak == 0. */
  datatype Moment = Moment(
    pids: set<nat>, leaders: map<nat, TaskId>, cloak: map<TaskId, int>, hiddenFlag: int, permitted: set<TaskId>)

  /** Both come from kernel headers outside the patch. */
  const PID_MAX_LIMIT: nat := 4194304
  const FIRST_PROCESS_ENTRY: nat := 256

  const TGID_OFFSET: nat := FIRST_PROCESS_ENTRY + 2

  /** Where the cursor stands when the whole directory has been listed. */
  const END: nat := PID_MAX_LIMIT + TGID_OFFSET

  predicate Cloaked(m: Moment, t: TaskId) {
    t in m.cloak && m.cloak[t] == 1
  }

  ghost predicate Sane(m: Moment) {
    m.leaders.Keys <= m.pids && forall p :: p in m.pids ==> p < PID_MAX_LIMIT
  }

  /** find_ge_pid: the first allocated pid from n on. */
  function FindGe(pids: set<nat>, n: nat): (r: Option<nat>)
    ensures r.Some? ==> r.value in pids && n <= r.value < PID_MAX_LIMIT
    ensures forall p :: p in pids && n <= p < PID_MAX_LIMIT ==> r.Some? && r.value <= p
    decreases PID_MAX_LIMIT - n
  {
    if n >= PID_MAX_LIMIT then None
    else if n in pids then Some(n)
    else FindGe(pids, n + 1)
  }

  lemma NoLeaderBetween(m: Moment, n: nat)
    requires Sane(m)
    ensures var r := FindGe(m.pids, n);
      forall g: nat :: n <= g < (if r.Some? then r.value else PID_MAX_LIMIT) ==> g !in m.leaders
  {
  }

  datatype Entry = Self | ThreadSelf | Tgid(tgid: nat)

  datatype Iter = Iter(tgid: nat, task: Option<TaskId>)

  function Held(iter: Iter): multiset<TaskId> {
    if iter.task.Some? then multiset{iter.task.value} else multiset{}
  }

  type History = nat -> Moment

  /** At some look in the window, g led no thread group. */
  ghost predicate AbsentOnce(h: History, from: nat, to: nat, g: nat) {
    exists n: nat :: from <= n < to && g !in h(n).leaders
  }

  /** A look at hidden_flag and the next one, at the cloak of t, that together hide it. */
  predicate PairHides(h: History, n: nat, t: TaskId) {
    h(n).hiddenFlag == 1 && Cloaked(h(n + 1), t)
  }

  /** What the three looks from n on make of t: not permitted, or hidden. */
  predicate PassedOver(h: History, n: nat, t: TaskId) {
    t !in h(n).permitted || PairHides(h, n + 1, t)
  }

  /** t led group g and was permitted at every look, and no two successive looks hid it. */
  ghost predicate AlwaysListed(h: History, from: nat, to: nat, g: nat, t: TaskId) {
    && (forall n: nat :: from <= n < to ==> g in h(n).leaders && h(n).leaders[g] == t && t in h(n).permitted)
    && forall n: nat {:trigger PairHides(h, n, t)} :: from <= n && n + 1 < to ==> !PairHides(h, n, t)
  }

  /** The flag was 1 at every look and whoever led group g was cloaked at every look. */
  ghost predicate AlwaysHidden(h: History, from: nat, to: nat, g: nat) {
    && (forall n: nat :: from <= n < to ==> h(n).hiddenFlag == 1)
    && (forall n: nat, m: nat :: from <= n < to && from <= m < to && g in h(n).leaders ==>
      Cloaked(h(m), h(n).leaders[g]))
  }

  /** At the look `seen` somebody led group g who was not passed over at the looks from `look` on. */
  ghost predicate ShownAt(h: History, from: nat, to: nat, g: nat, seen: nat, look: nat) {
    from <= seen < look && look + 2 < to && g in h(seen).leaders && !PassedOver(h, look, h(seen).leaders[g])
  }

  ghost predicate Shown(h: History, from: nat, to: nat, g: nat) {
    exists seen: nat, look: nat :: ShownAt(h, from, to, g, seen, look)
  }

  /** The tgids emitted so far strictly increase. */
  ghost predicate Increasing(s: seq<Entry>) {
    forall i, j :: 0 <= i < j < |s| && s[i].Tgid? && s[j].Tgid? ==> s[i].tgid < s[j].tgid
  }

  /** All groups below the cursor have been dealt with, and what is listed was there to be shown. */
  ghost predicate Covered(h: History, from: nat, to: nat, s: seq<Entry>, bound: nat) {
    && Increasing(s)
    && (forall e :: e in s && e.Tgid? ==> e.tgid < bound && Shown(h, from, to, e.tgid))
    && (forall g: nat, t: TaskId :: g < bound && AlwaysListed(h, from, to, g, t) ==> Tgid(g) in s)
  }

  /** The two links come first, and then process groups only. */
  ghost predicate Headed(s: seq<Entry>, pos: nat) {
    if pos == TGID_OFFSET - 2 then s == []
    else if pos == TGID_OFFSET - 1 then s == [Self]
    else |s| >= 2 && s[0] == Self && s[1] == ThreadSelf && forall i :: 2 <= i < |s| ==> s[i].Tgid?
  }

  lemma ShownLater(h: History, from: nat, to: nat, later: nat, g: nat)
    requires Shown(h, from, to, g) && to <= later
    ensures Shown(h, from, later, g)
  {
    var seen: nat, look: nat :| ShownAt(h, from, to, g, seen, look);
    assert ShownAt(h, from, later, g, seen, look);
  }

  /** Whoever led the group was permitted at no look. */
  ghost predicate NeverPermitted(h: History, from: nat, to: nat, g: nat) {
    forall n: nat, m: nat ::
      from <= n < to && from <= m < to && g in h(n).leaders ==> h(n).leaders[g] !in h(m).permitted
  }

  lemma ShownPermitted(h: History, from: nat, to: nat, g: nat)
    requires Shown(h, from, to, g)
    ensures !NeverPermitted(h, from, to, g)
  {
    var seen: nat, look: nat :| ShownAt(h, from, to, g, seen, look);
    assert h(seen).leaders[g] in h(look).permitted;
  }

  /** What was hidden throughout was never there to be shown. */
  lemma ShownNotHidden(h: History, from: nat, to: nat, g: nat)
    requires Shown(h, from, to, g)
    ensures !AlwaysHidden(h, from, to, g)
  {
    var seen: nat, look: nat :| ShownAt(h, from, to, g, seen, look);
    assert h(look + 1).hiddenFlag == 1 ==> !Cloaked(h(look + 2), h(seen).leaders[g]);
  }

  lemma CoveredLater(h: History, from: nat, to: nat, later: nat, s: seq<Entry>, bound: nat)
    requires Covered(h, from, to, s, bound) && to <= later
    ensures Covered(h, from, later, s, bound)
  {
    forall g: nat, t: TaskId | AlwaysListed(h, from, later, g, t) ensures AlwaysListed(h, from, to, g, t) {}
    forall e | e in s && e.Tgid? ensures Shown(h, from, later, e.tgid) { ShownLater(h, from, to, later, e.tgid); }
  }

  /** Every tgid from lo up to hi led no group at some look in the window. */
  ghost predicate Skipped(h: History, from: nat, to: nat, lo: nat, hi: nat) {
    forall g: nat :: lo <= g < hi ==> AbsentOnce(h, from, to, g)
  }

  /** Later looks, and the look at moment n that found nothing between mid and hi. */
  lemma SkippedMore(h: History, from: nat, to: nat, later: nat, lo: nat, mid: nat, hi: nat, n: nat)
    requires Skipped(h, from, to, lo, mid) && from <= n < later && to <= later
    requires forall g: nat :: mid <= g < hi ==> g !in h(n).leaders
    ensures Skipped(h, from, later, lo, hi)
  {
    forall g: nat | lo <= g < hi ensures AbsentOnce(h, from, later, g) {
      if g < mid {
        assert AbsentOnce(h, from, to, g);
        var k: nat :| from <= k < to && g !in h(k).leaders;
        assert g !in h(k).leaders;
      } else {
        assert g !in h(n).leaders;
      }
    }
  }

  lemma SkippedJoin(h: History, from: nat, to: nat, later: nat, lo: nat, mid: nat, hi: nat)
    requires Skipped(h, from, to, lo, mid) && from <= to <= later && Skipped(h, to, later, mid, hi)
    ensures Skipped(h, from, later, lo, hi)
  {
    forall g: nat | lo <= g < hi ensures AbsentOnce(h, from, later, g) {
      assert if g < mid then AbsentOnce(h, from, to, g) else AbsentOnce(h, to, later, g);
      var k: nat :| from <= k < later && g !in h(k).leaders;
      assert g !in h(k).leaders;
    }
  }

  /** The cursor moves over groups that were absent at some later look. */
  lemma CoveredSkip(h: History, from: nat, to: nat, later: nat, s: seq<Entry>, bound: nat, bound': nat)
    requires Covered(h, from, to, s, bound) && from <= to <= later && bound <= bound'
    requires Skipped(h, to, later, bound, bound')
    ensures Covered(h, from, later, s, bound')
  {
    CoveredLater(h, from, to, later, s, bound);
    forall g: nat, t: TaskId | bound <= g < bound' ensures !AlwaysListed(h, from, later, g, t) {
      assert AbsentOnce(h, to, later, g);
    }
  }

  /** The group at the cursor was seen hidden, or was not permitted, so it is passed over. */
  lemma CoveredPass(h: History, from: nat, to: nat, s: seq<Entry>, g: nat, look: nat, seen: nat)
    requires Covered(h, from, to, s, g) && from <= seen < look && look + 2 < to
    requires g in h(seen).leaders && PassedOver(h, look, h(seen).leaders[g])
    ensures Covered(h, from, to, s, g + 1)
  {
    forall t: TaskId ensures !AlwaysListed(h, from, to, g, t) {
      if t == h(seen).leaders[g] {
        assert t in h(look).permitted ==> PairHides(h, look + 1, t);
      }
    }
  }

  /** The group at the cursor was not seen hidden and is emitted. */
  lemma CoveredEmit(h: History, from: nat, to: nat, s: seq<Entry>, g: nat, look: nat, seen: nat)
    requires Covered(h, from, to, s, g) && ShownAt(h, from, to, g, seen, look)
    ensures Covered(h, from, to, s + [Tgid(g)], g + 1)
  {
    var s' := s + [Tgid(g)];
    forall i, j | 0 <= i < j < |s'| && s'[i].Tgid? && s'[j].Tgid? ensures s'[i].tgid < s'[j].tgid {
      assert s[i] in s;
    }
    assert Shown(h, from, to, g);
    assert forall e :: e in s' <==> e in s || e == Tgid(g);
  }

  class ProcDir {
    const history: History       // the system at the reader's successive looks
    var now: nat                 // looks taken so far
    var pos: nat                 // ctx->pos
    var emitted: seq<Entry>
    var refs: multiset<TaskId>   // task references taken by this reader
    ghost var start: nat         // the first look of this listing

    ghost predicate Valid()
      reads this
    {
      && (forall n: nat :: Sane(history(n)))
      && start <= now
      && TGID_OFFSET - 2 <= pos <= END && Headed(emitted, pos)
      && Covered(history, start, now, emitted, if pos < TGID_OFFSET then 0 else pos - TGID_OFFSET)
    }

    constructor (history: History, now: nat)
      requires forall n: nat :: Sane(history(n))
      ensures Valid() && emitted == [] && refs == multiset{} && start == this.now == now && this.history == history
    {
      this.history := history;
      this.now, this.pos, this.emitted, this.refs := now, TGID_OFFSET - 2, [], multiset{};
      this.start := now;
    }

    /** One round of next_tgid's retry loop: find_ge_pid, then pid_task. */
    method Look(tgid: nat) returns (pid: Option<nat>, task: Option<TaskId>, ghost seen: nat)
      requires Sane(history(now))
      modifies this`now
      ensures now > old(now)
      ensures pid.None? ==> task.None? && Skipped(history, old(now), now, tgid, PID_MAX_LIMIT)
      ensures pid.Some? ==> tgid <= pid.value < PID_MAX_LIMIT
      ensures pid.Some? && task.None? ==> Skipped(history, old(now), now, tgid, pid.value + 1)
      ensures task.Some? ==>
        && pid.Some? && Skipped(history, old(now), now, tgid, pid.value)
        && old(now) <= seen < now && pid.value in history(seen).leaders
          && history(seen).leaders[pid.value] == task.value
    {
      ghost var before := now;
      pid, task := FindGe(history(now).pids, tgid), None;
      NoLeaderBetween(history(now), tgid);
      now, seen := now + 1, now + 1;
      if pid.None? {
        SkippedMore(history, before, before, now, tgid, tgid, PID_MAX_LIMIT, before);
        return;
      }
      var leaders := history(now).leaders;
      now := now + 1;
      SkippedMore(history, before, before, now, tgid, tgid, pid.value, before);
      if pid.value in leaders {
        task := Some(leaders[pid.value]);
      } else {
        SkippedMore(history, before, now, now, tgid, pid.value, pid.value + 1, seen);
      }
    }

    /** Since the look `from`, `next` was found to be the first group leader from lo on. */
    ghost predicate Found(lo: nat, from: nat, next: Iter, seen: nat)
      reads this`now
    {
      && lo <= next.tgid && from < now
      && Skipped(history, from, now, lo, if next.task.Some? then next.tgid else PID_MAX_LIMIT)
      && (next.task.Some? ==>
            && next.tgid < PID_MAX_LIMIT && from <= seen < now
            && next.tgid in history(seen).leaders && history(seen).leaders[next.tgid] == next.task.value)
    }

    /** next_tgid: drop the task at hand and take the first group leader from iter.tgid on. */
    method NextTgid(iter: Iter, ghost base: multiset<TaskId>) returns (next: Iter, ghost seen: nat)
      requires (forall n: nat :: Sane(history(n))) && refs == base + Held(iter)
      modifies this`now, this`refs
      ensures refs == base + Held(next)
      ensures Found(iter.tgid, old(now), next, seen)
    {
      refs := refs - Held(iter);
      next, seen := iter.(task := None), 0;
      while true
        invariant now >= old(now) && next.tgid >= iter.tgid && next.task.None?
        invariant refs == base
        invariant Skipped(history, old(now), now, iter.tgid, next.tgid)
        decreases PID_MAX_LIMIT - next.tgid
      {
        ghost var before, done := now, next.tgid;
        var pid, task;
        pid, task, seen := Look(next.tgid);
        if pid.None? {
          SkippedJoin(history, old(now), before, now, iter.tgid, done, PID_MAX_LIMIT);
          return;
        }
        next := Iter(pid.value, task);
        if task.Some? {
          SkippedJoin(history, old(now), before, now, iter.tgid, done, next.tgid);
          refs := refs + multiset{task.value};
          return;
        }
        SkippedJoin(history, old(now), before, now, iter.tgid, done, next.tgid + 1);
        next := next.(tgid := next.tgid + 1);
      }
    }

    /** has_pid_permissions, hidden_flag and cloak, at three successive looks. */
    method Hidden(t: TaskId) returns (hidden: bool)
      modifies this`now
      ensures now == old(now) + 3
      ensures hidden <==> PassedOver(history, old(now), t)
      ensures hidden <==>
        || t !in history(old(now)).permitted
        || (history(old(now) + 1).hiddenFlag == 1
            && t in history(old(now) + 2).cloak && history(old(now) + 2).cloak[t] == 1)
    {
      var permitted := t in history(now).permitted;
      now := now + 1;
      var flag := history(now).hiddenFlag;
      now := now + 1;
      var cloak := Cloaked(history(now), t);
      now := now + 1;
      return !permitted || (flag == 1 && cloak);
    }

    /** The body of the listing loop: skip the group, find the buffer full, or emit it. The buffer takes
        what makes limit entries in all. */
    method Offer(iter: Iter, limit: nat, ghost seen: nat) returns (full: bool)
      requires iter.task.Some? && start <= seen < now && |emitted| <= limit
      requires iter.tgid in history(seen).leaders && history(seen).leaders[iter.tgid] == iter.task.value
      requires Covered(history, start, now, emitted, iter.tgid)
      modifies this`now, this`pos, this`emitted
      ensures now == old(now) + 3
      ensures full <==> !PassedOver(history, old(now), iter.task.value) && |old(emitted)| == limit
      ensures emitted == if full || PassedOver(history, old(now), iter.task.value) then old(emitted)
        else old(emitted) + [Tgid(iter.tgid)]
      ensures pos == if PassedOver(history, old(now), iter.task.value) then old(pos) else iter.tgid + TGID_OFFSET
      ensures Covered(history, start, now, emitted, if full then iter.tgid else iter.tgid + 1)
    {
      ghost var look := now;
      var hidden := Hidden(iter.task.value);
      CoveredLater(history, start, look, now, emitted, iter.tgid);
      if hidden {
        CoveredPass(history, start, now, emitted, iter.tgid, look, seen);
        return false;
      }
      pos := iter.tgid + TGID_OFFSET;
      if |emitted| == limit { return true; }
      CoveredEmit(history, start, now, emitted, iter.tgid, look, seen);
      emitted := emitted + [Tgid(iter.tgid)];
      return false;
    }

    /** proc_pid_readdir: one call, into a buffer that takes room more entries. It gets to the end unless
        the buffer is full, and whatever it emits moves the cursor. */
    method Readdir(room: nat)
      requires Valid()
      modifies this`now, this`pos, this`emitted, this`refs
      ensures Valid() && start == old(start) && refs == old(refs)
      ensures old(emitted) <= emitted && |emitted| <= |old(emitted)| + room && old(now) <= now
      ensures pos == END || |emitted| == |old(emitted)| + room
      ensures old(pos) <= pos && (emitted != old(emitted) ==> old(pos) < pos)
    {
      var limit := |emitted| + room;
      if pos >= END { return; }
      if pos == TGID_OFFSET - 2 {
        if |emitted| == limit { return; }
        emitted := emitted + [Self];
        pos := pos + 1;
      }
      if pos == TGID_OFFSET - 1 {
        if |emitted| == limit { return; }
        emitted := emitted + [ThreadSelf];
        pos := pos + 1;
      }
      ListGroups(limit);
    }

    /** A call is over, from the loop's point of view: at the end, or the buffer is full at a group the
        next call will go on with. */
    ghost predicate Stopped(iter: Iter, limit: nat)
      reads this
    {
      Valid() && iter.task.None? && (pos == END || |emitted| == limit)
    }

    /** One turn of the loop of proc_pid_readdir: next_tgid, then the group it found. */
    method Turn(iter: Iter, limit: nat, ghost base: multiset<TaskId>) returns (stop: bool, next: Iter)
      requires AtGroup(iter, limit) && iter.tgid <= PID_MAX_LIMIT && refs == base + Held(iter)
      modifies this`now, this`pos, this`emitted, this`refs
      ensures old(emitted) <= emitted && refs == base + Held(next) && old(now) <= now
      ensures stop ==> Stopped(next, limit) && emitted == old(emitted) && pos >= iter.tgid + TGID_OFFSET
      ensures !stop ==> AtGroup(next, limit) && iter.tgid < next.tgid <= PID_MAX_LIMIT
    {
      ghost var from, seen := now, 0;
      next, seen := NextTgid(iter, base);
      if next.task.None? {
        CoveredSkip(history, start, from, now, emitted, iter.tgid, PID_MAX_LIMIT);
        pos := END;
        return true, next;
      }
      CoveredSkip(history, start, from, now, emitted, iter.tgid, next.tgid);
      stop, next := Settle(next, limit, seen, base);
    }

    /** The second half of a turn: offer the group found, and go on or let go of its task. */
    method Settle(found: Iter, limit: nat, ghost seen: nat, ghost base: multiset<TaskId>)
        returns (stop: bool, next: Iter)
      requires AtGroup(found, limit) && found.tgid < PID_MAX_LIMIT && found.task.Some? && refs == base + Held(found)
      requires start <= seen < now && found.tgid in history(seen).leaders
        && history(seen).leaders[found.tgid] == found.task.value
      modifies this`now, this`pos, this`emitted, this`refs
      ensures old(emitted) <= emitted && refs == base + Held(next) && old(now) <= now
      ensures stop ==> Stopped(next, limit) && emitted == old(emitted) && pos == found.tgid + TGID_OFFSET
      ensures !stop ==> AtGroup(next, limit) && next.tgid == found.tgid + 1
    {
      stop := Offer(found, limit, seen);
      if stop {
        refs := refs - Held(found);
        next := found.(task := None);
      } else {
        next := found.(tgid := found.tgid + 1);
      }
    }

    /** Everything below iter.tgid has been dealt with. */
    ghost predicate AtGroup(iter: Iter, limit: nat)
      reads this
    {
      && (forall n: nat :: Sane(history(n))) && start <= now
      && TGID_OFFSET <= pos < END && Headed(emitted, pos) && |emitted| <= limit
      && Covered(history, start, now, emitted, iter.tgid)
    }

    /** The loop of proc_pid_readdir over thread groups. */
    method ListGroups(limit: nat)
      requires Valid() && TGID_OFFSET <= pos < END && |emitted| <= limit
      modifies this`now, this`pos, this`emitted, this`refs
      ensures Valid() && start == old(start) && refs == old(refs)
      ensures old(emitted) <= emitted && |emitted| <= limit && old(now) <= now
      ensures pos == END || |emitted| == limit
      ensures old(pos) <= pos && (emitted != old(emitted) ==> old(pos) < pos)
    {
      var iter := Iter(pos - TGID_OFFSET, None);
      var stop := false;
      while !stop
        invariant refs == old(refs) + Held(iter) && old(emitted) <= emitted && old(now) <= now
        invariant if stop then Stopped(iter, limit) else AtGroup(iter, limit) && iter.tgid <= PID_MAX_LIMIT
        invariant |emitted| <= limit && old(pos) <= (if stop then pos else iter.tgid + TGID_OFFSET)
        invariant emitted != old(emitted) ==> old(pos) < if stop then pos else iter.tgid + TGID_OFFSET
        decreases !stop, PID_MAX_LIMIT - iter.tgid
      {
        stop, iter := Turn(iter, limit, old(refs));
      }
    }
  }

  ghost function Places(s: seq<Entry>, e: Entry): set<nat> {
    set i: nat | i < |s| && s[i] == e
  }

  /** A group that was there and visible at every look is in the listing once and only once. */
  lemma ListedExactlyOnce(h: History, from: nat, to: nat, s: seq<Entry>, bound: nat, g: nat, t: TaskId)
    requires Covered(h, from, to, s, bound) && g < bound && AlwaysListed(h, from, to, g, t)
    ensures |Places(s, Tgid(g))| == 1
  {
    assert Tgid(g) in s;
    var i: nat :| i < |s| && s[i] == Tgid(g);
    assert Places(s, Tgid(g)) == {i};
  }

  /** Calls into buffers of any sizes until one returns nothing although it had room, while processes
      come, go, hide and reappear. The calls come to an end. The listing is the two links and then
      tgids in increasing order; every one of them was there and not seen hidden; none that was hidden
      throughout is among them, and every one that was there and visible throughout is, once. */
  method ListAll(d: ProcDir, rooms: nat -> nat)
    requires d.Valid() && d.emitted == [] && d.start == d.now && d.refs == multiset{} && forall n :: rooms(n) > 0
    modifies d`now, d`pos, d`emitted, d`refs
    ensures d.pos == END && d.refs == multiset{} && Headed(d.emitted, END) && Increasing(d.emitted)
    ensures forall g: nat :: Tgid(g) in d.emitted ==> Shown(d.history, old(d.now), d.now, g)
    ensures forall g: nat :: AlwaysHidden(d.history, old(d.now), d.now, g) ==> Tgid(g) !in d.emitted
    ensures forall g: nat :: NeverPermitted(d.history, old(d.now), d.now, g) ==> Tgid(g) !in d.emitted
    ensures forall g: nat, t: TaskId :: g < PID_MAX_LIMIT && AlwaysListed(d.history, old(d.now), d.now, g, t) ==>
      |Places(d.emitted, Tgid(g))| == 1
  {
    ghost var from := d.now;
    var n, done := 0, false;
    while !done
      invariant d.Valid() && d.start == from && d.refs == multiset{} && (done ==> d.pos == END)
      decreases !done, END - d.pos
    {
      var before := |d.emitted|;
      d.Readdir(rooms(n));
      n, done := n + 1, |d.emitted| == before;
    }
    forall g: nat | Tgid(g) in d.emitted
      ensures !AlwaysHidden(d.history, from, d.now, g) && !NeverPermitted(d.history, from, d.now, g)
    {
      ShownNotHidden(d.history, from, d.now, g);
      ShownPermitted(d.history, from, d.now, g);
    }
    forall g: nat, t: TaskId | g < PID_MAX_LIMIT && AlwaysListed(d.history, from, d.now, g, t)
      ensures |Places(d.emitted, Tgid(g))| == 1
    {
      ListedExactlyOnce(d.history, from, d.now, d.emitted, PID_MAX_LIMIT, g, t);
    }
  }

  /** t was permitted throughout, and at no single moment hidden. */
  ghost predicate VisibleAtEach(h: History, from: nat, to: nat, t: TaskId) {
    forall n: nat :: from <= n < to ==> t in h(n).permitted && !(h(n).hiddenFlag == 1 && Cloaked(h(n), t))
  }

  /** That does not make sure that t is listed: flag and cloak are read one after the other. */
  lemma VisibleYetPassedOver()
    ensures
      var h: History := n => Moment({5}, map[5 := 7], map[7 := if n % 2 == 0 then 1 else 0], n % 2, {7});
      PassedOver(h, 0, 7) && forall to: nat :: VisibleAtEach(h, 0, to, 7)
  {
  }

  /** It does if hidden_flag, or the cloak of t, is the same at all looks. */
  lemma VisibleListed(h: History, from: nat, to: nat, g: nat, t: TaskId)
    requires forall n: nat :: from <= n < to ==> g in h(n).leaders && h(n).leaders[g] == t
    requires
      || (forall n: nat, m: nat :: from <= n < to && from <= m < to ==> h(n).hiddenFlag == h(m).hiddenFlag)
      || (forall n: nat, m: nat :: from <= n < to && from <= m < to ==> (Cloaked(h(n), t) <==> Cloaked(h(m), t)))
    requires VisibleAtEach(h, from, to, t)
    ensures AlwaysListed(h, from, to, g, t)
  {
    forall n: nat | from <= n && n + 1 < to ensures !PairHides(h, n, t) {
      assert Cloaked(h(n), t) || !Cloaked(h(n), t);
      assert h(n + 1).hiddenFlag == h(n).hiddenFlag || h(n + 1).hiddenFlag != h(n).hiddenFlag;
    }
  }
}
