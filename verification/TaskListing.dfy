/** Listing /proc/tgid/task: first_tid with its remembered tid, and any sequence of short reads. */
module TaskListing {
  import opened Lists

  datatype Entry = Dot | DotDot | Tid(tid: nat)

  /** The directory: the two dots, then the threads in group order. */
  function EntryAt(threads: seq<nat>, k: nat): Entry
    requires k < |threads| + 2
  {
    if k == 0 then Dot else if k == 1 then DotDot else Tid(threads[k - 2])
  }

  /** The entries from position a up to b. */
  function Part(threads: seq<nat>, a: nat, b: nat): (r: seq<Entry>)
    decreases b
  {
    if a < b <= |threads| + 2 then Part(threads, a, b - 1) + [EntryAt(threads, b - 1)] else []
  }

  /** Each position once, in order. */
  lemma {:induction false} PartIsTheDirectory(threads: seq<nat>, a: nat, b: nat)
    requires a <= b <= |threads| + 2
    ensures |Part(threads, a, b)| == b - a
    ensures forall k :: a <= k < b ==> Part(threads, a, b)[k - a] == EntryAt(threads, k)
    decreases b
  {
    if a < b {
      PartIsTheDirectory(threads, a, b - 1);
    }
  }

  /** The directory is the two dots and then each thread's tid, in group order. */
  lemma WholeDirectory(threads: seq<nat>)
    ensures var dir := Part(threads, 0, |threads| + 2);
      && |dir| == |threads| + 2 && dir[0] == Dot && dir[1] == DotDot
      && forall i :: 0 <= i < |threads| ==> dir[i + 2] == Tid(threads[i])
  {
    PartIsTheDirectory(threads, 0, |threads| + 2);
    var dir := Part(threads, 0, |threads| + 2);
    assert dir[0 - 0] == EntryAt(threads, 0) && dir[1 - 0] == EntryAt(threads, 1);
    forall i | 0 <= i < |threads| ensures dir[i + 2] == Tid(threads[i]) {
      assert dir[i + 2 - 0] == EntryAt(threads, i + 2);
    }
  }

  lemma {:induction false} PartJoin(threads: seq<nat>, a: nat, b: nat, c: nat)
    requires a <= b <= c <= |threads| + 2
    ensures Part(threads, a, c) == Part(threads, a, b) + Part(threads, b, c)
    decreases c
  {
    if b < c {
      PartJoin(threads, a, b, c - 1);
    } else {
      assert Part(threads, a, b) + [] == Part(threads, a, b);
    }
  }

  function ThreadAt(threads: seq<nat>, nr: nat): Option<nat> {
    if nr < |threads| then Some(threads[nr]) else None
  }

  /** What first_tid returns for a tid and a position: any thread of the group wins over the position. */
  function FirstOf(threads: seq<nat>, tid: nat, nr: nat): Option<nat> {
    if tid != 0 && nr != 0 && tid in threads then Some(tid) else ThreadAt(threads, nr)
  }

  function Held(task: Option<nat>): multiset<nat> {
    if task.Some? then multiset{task.value} else multiset{}
  }

  class TaskDir {
    const threads: seq<nat>    // the group, leader first, none of them changing meanwhile
    var pos: nat               // ctx->pos
    var version: nat           // file->f_version: the tid the last read could not return, or 0
    var refs: multiset<nat>    // task references

    constructor (threads: seq<nat>)
      requires Distinct(threads) && threads != [] && 0 !in threads
      ensures Valid() && this.threads == threads && pos == 0 && refs == multiset{}
    {
      this.threads := threads;
      pos, version, refs := 0, 0, multiset{};
    }

    /** A remembered tid is the thread the position stands for. */
    ghost predicate Valid()
      reads this
    {
      && Distinct(threads) && threads != [] && 0 !in threads
      && (version != 0 ==> pos >= 2 && ThreadAt(threads, pos - 2) == Some(version))
    }

    /** next_thread: the group is a ring. */
    function NextThread(t: nat): nat
      requires threads != []
    {
      if Next(threads, t).Some? then Next(threads, t).value else threads[0]
    }

    lemma NextThreadAt(i: nat)
      requires Distinct(threads) && i < |threads|
      ensures NextThread(threads[i]) == if i + 1 < |threads| then threads[i + 1] else threads[0]
    {
      AfterIndex(threads, i);
    }

    /** first_tid: the thread with the tid, or nr steps round the ring from the leader. */
    method FirstTid(tid: nat, nr: nat) returns (r: Option<nat>)
      requires Distinct(threads) && threads != []
      modifies this`refs
      ensures r == FirstOf(threads, tid, nr)
      ensures refs == old(refs) + Held(r)
    {
      if tid != 0 && nr != 0 {
        if tid in threads {
          refs := refs + multiset{tid};
          return Some(tid);
        }
      }
      if nr >= |threads| { return None; }
      var walk, left := threads[0], nr;
      ghost var i := 0;
      while left != 0
        invariant i + left == nr && walk == threads[i] && refs == old(refs)
        decreases left
      {
        NextThreadAt(i);
        left, walk, i := left - 1, NextThread(walk), i + 1;
      }
      refs := refs + multiset{walk};
      return Some(walk);
    }

    /** next_tid: the reference moves on. */
    method NextTid(start: nat, ghost i: nat) returns (r: Option<nat>)
      requires Distinct(threads) && i < |threads| && start == threads[i] && start in refs
      modifies this`refs
      ensures r == ThreadAt(threads, i + 1)
      ensures refs == old(refs) - multiset{start} + Held(r)
    {
      NextThreadAt(i);
      var next := NextThread(start);
      assert i + 1 < |threads| ==> threads[i + 1] != threads[0];
      if next == threads[0] {
        r := None;
      } else {
        r, refs := Some(next), refs + multiset{next};
      }
      refs := refs - multiset{start};
    }

    /** proc_task_readdir, into a buffer that takes room more entries. */
    method Readdir(room: nat) returns (out: seq<Entry>)
      requires Valid()
      modifies this`pos, this`version, this`refs
      ensures Valid() && refs == old(refs)
      ensures out == Part(threads, old(pos), pos) && |out| <= room
      ensures old(pos) <= pos && (old(pos) <= |threads| + 2 ==> pos <= |threads| + 2)
      ensures |out| < room ==> pos >= |threads| + 2
    {
      out := [];
      if pos == 0 {
        if room == 0 { return; }
        out, pos := [Dot], 1;
      }
      if pos == 1 {
        if |out| == room { return; }
        out, pos := out + [DotDot], 2;
      }
      var tids := ReadTids(room - |out|);
      if old(pos) < 2 { PartJoin(threads, old(pos), 2, pos); }
      out := out + tids;
    }

    /** The task in hand is the thread the position stands for, and nothing is remembered. */
    ghost predicate InHand(task: Option<nat>)
      reads this
    {
      Distinct(threads) && threads != [] && 0 !in threads && version == 0 && pos >= 2
        && task == ThreadAt(threads, pos - 2)
    }

    /** One turn of the loop: emit the tid and go on, or remember it and stop. */
    method Turn(tid: nat, room: nat, out: seq<Entry>, ghost base: multiset<nat>)
      returns (full: bool, next: Option<nat>, out': seq<Entry>)
      requires InHand(Some(tid)) && refs == base + Held(Some(tid))
      modifies this`pos, this`version, this`refs
      ensures full <==> |out| == room
      ensures full ==> Valid() && pos == old(pos) && next.None? && out' == out
      ensures !full ==> InHand(next) && pos == old(pos) + 1 && out' == out + [EntryAt(threads, old(pos))]
      ensures refs == base + Held(next)
    {
      if |out| == room {
        version := tid;
        refs := refs - multiset{tid};
        return true, None, out;
      }
      out' := out + [Tid(tid)];
      next := NextTid(tid, pos - 2);
      pos := pos + 1;
      full := false;
    }

    /** Take the remembered tid, if there is one, and find the first thread to emit. */
    method Start() returns (task: Option<nat>)
      requires Valid() && pos >= 2
      modifies this`version, this`refs
      ensures InHand(task) && refs == old(refs) + Held(task)
    {
      var tid := version;
      version := 0;
      task := FirstTid(tid, pos - 2);
    }

    method ReadTids(room: nat) returns (out: seq<Entry>)
      requires Valid() && pos >= 2
      modifies this`pos, this`version, this`refs
      ensures Valid() && refs == old(refs)
      ensures out == Part(threads, old(pos), pos) && |out| <= room
      ensures old(pos) <= pos && (old(pos) <= |threads| + 2 ==> pos <= |threads| + 2)
      ensures |out| < room ==> pos >= |threads| + 2
    {
      out := [];
      var task := Start();
      var full := false;
      while task.Some?
        invariant if full then task.None? && Valid() && |out| == room else InHand(task)
        invariant 2 <= old(pos) <= pos && (pos == old(pos) || pos <= |threads| + 2)
        invariant out == Part(threads, old(pos), pos) && |out| <= room
        invariant refs == old(refs) + Held(task)
        decreases task.Some?, |threads| + 2 - pos
      {
        full, task, out := Turn(task.value, room, out, old(refs));
      }
    }

    /** lseek forgets the remembered tid. */
    method Seek(to: nat)
      requires Valid()
      modifies this`pos, this`version
      ensures Valid() && pos == to
    {
      pos, version := to, 0;
    }
  }

  /** In every state between reads, starting at the remembered tid is walking from the leader. */
  lemma ShortcutIsWalk(d: TaskDir)
    requires d.Valid() && d.pos >= 2
    ensures FirstOf(d.threads, d.version, d.pos - 2) == FirstOf(d.threads, 0, d.pos - 2)
  {
  }

  /** Reads of any sizes, from any place sought, until one returns nothing although it had room: what
      they return together is the directory from that place on, each thread once, in group order. */
  method ReadFrom(d: TaskDir, place: nat, rooms: nat -> nat) returns (got: seq<Entry>)
    requires d.Valid() && place <= |d.threads| + 2 && forall n :: rooms(n) > 0
    modifies d
    ensures got == Part(d.threads, place, |d.threads| + 2) && d.refs == old(d.refs)
    ensures place == 0 ==>
      && |got| == |d.threads| + 2 && got[0] == Dot && got[1] == DotDot
      && forall i :: 0 <= i < |d.threads| ==> got[i + 2] == Tid(d.threads[i])
  {
    WholeDirectory(d.threads);
    d.Seek(place);
    got := [];
    var n, done := 0, false;
    while !done
      invariant d.Valid() && place <= d.pos <= |d.threads| + 2 && d.refs == old(d.refs)
      invariant got == Part(d.threads, place, d.pos) && (done ==> d.pos == |d.threads| + 2)
      decreases !done, |d.threads| + 2 - d.pos
    {
      ghost var from := d.pos;
      var out := d.Readdir(rooms(n));
      PartJoin(d.threads, place, from, d.pos);
      got, n, done := got + out, n + 1, out == [];
    }
  }
}
