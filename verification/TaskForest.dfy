/** The process tree of fork.c: thread groups, per-thread children lists and the
    recursive traversal that walk_process_tree has to reproduce without a stack. */
module TaskForest {
  import opened Lists

  type Pid = nat

  /** The links of every task on the lists that tasklist_lock protects.
      `threads` is keyed by group leader and stands for signal->thread_head. */
  datatype Links = Links(
    leaderOf: map<Pid, Pid>,
    realParent: map<Pid, Pid>,
    children: map<Pid, seq<Pid>>,
    threads: map<Pid, seq<Pid>>)

  ghost predicate TaskFormed(t: Links, p: Pid) {
    p in t.leaderOf && p in t.realParent && p in t.children
    && t.leaderOf[p] in t.threads && p in t.threads[t.leaderOf[p]]
  }

  ghost predicate GroupFormed(t: Links, l: Pid) {
    l in t.threads && l in t.threads[l] && Distinct(t.threads[l])
    && (forall p :: p in t.threads[l] ==> p in t.leaderOf && t.leaderOf[p] == l)
  }

  ghost predicate ListFormed(t: Links, p: Pid) {
    p in t.children && Distinct(t.children[p])
    && (forall c :: c in t.children[p] ==> c in t.threads && c in t.realParent && t.realParent[c] == p)
  }

  /** The links are consistent. Each clause is used only where it is asked for by name. */
  ghost predicate Formed(t: Links) {
    && t.children.Keys == t.leaderOf.Keys == t.realParent.Keys
    && (forall p {:trigger TaskFormed(t, p)} :: p in t.leaderOf ==> TaskFormed(t, p))
    && (forall l {:trigger GroupFormed(t, l)} :: l in t.threads ==> GroupFormed(t, l))
    && (forall p {:trigger ListFormed(t, p)} :: p in t.children ==> ListFormed(t, p))
  }

  /** The children of the listed threads, in the order of the two nested loops. */
  ghost function ChildrenOf(t: Links, ts: seq<Pid>): seq<Pid> {
    if ts == [] then []
    else (if ts[0] in t.children then t.children[ts[0]] else []) + ChildrenOf(t, ts[1..])
  }

  lemma {:induction false} ChildrenOfMember(t: Links, ts: seq<Pid>, c: Pid)
    ensures c in ChildrenOf(t, ts) <==> exists p :: p in ts && p in t.children && c in t.children[p]
  {
    if ts != [] {
      ChildrenOfMember(t, ts[1..], c);
      if ts[0] in t.children && c in t.children[ts[0]] { assert ts[0] in ts; }
      if c in ChildrenOf(t, ts[1..]) {
        var p :| p in ts[1..] && p in t.children && c in t.children[p];
        assert p in ts;
      }
    }
  }

  /** All child groups of the group led by l. */
  ghost function Kids(t: Links, l: Pid): seq<Pid>
    requires l in t.threads
  {
    ChildrenOf(t, t.threads[l])
  }

  lemma KidsMember(t: Links, l: Pid, c: Pid)
    requires Formed(t) && l in t.threads
    ensures c in Kids(t, l) <==>
            exists p :: p in t.threads[l] && p in t.children && c in t.children[p]
    ensures c in Kids(t, l) ==>
            && c in t.threads && c in t.realParent
            && var p := t.realParent[c]; p in t.leaderOf && t.leaderOf[p] == l && p in t.children && c in t.children[p]
                                         && p in t.threads[l]
  {
    ChildrenOfMember(t, t.threads[l], c);
    assert GroupFormed(t, l);
    if c in Kids(t, l) {
      var p :| p in t.threads[l] && p in t.children && c in t.children[p];
      assert ListFormed(t, p);
    }
  }

  /** The parent relation between groups has no cycle: some height falls along it. */
  ghost predicate Ranked(t: Links, height: map<Pid, nat>) {
    && t.threads.Keys <= height.Keys
    && (forall l, c {:trigger c in Kids(t, l)} :: l in t.threads && c in Kids(t, l) ==>
      c in height && height[c] < height[l])
  }

  /** Every entry of kids is a group leader strictly lower than h. */
  ghost predicate Below(t: Links, height: map<Pid, nat>, kids: seq<Pid>, h: nat) {
    forall c :: c in kids ==> c in t.threads && c in height && height[c] < h
  }

  lemma KidsBelow(t: Links, height: map<Pid, nat>, l: Pid)
    requires Formed(t) && Ranked(t, height) && l in t.threads
    ensures Below(t, height, Kids(t, l), height[l])
  {
    forall c | c in Kids(t, l) ensures c in t.threads {
      KidsMember(t, l, c);
    }
  }

  /** A visitor updates its private data and says: < 0 stop, 0 skip the subtree, > 0 descend. */
  type Visitor<!S> = (Pid, S) -> (int, S)

  datatype Walk<S> = Walk(data: S, visited: seq<Pid>, stopped: bool)

  function Then<S>(w: Walk<S>, rest: Walk<S>): Walk<S> {
    Walk(rest.data, w.visited + rest.visited, rest.stopped)
  }

  /** The textbook recursive pre-order traversal of the subtrees rooted at kids. */
  ghost function Preorder<S>(t: Links, height: map<Pid, nat>, kids: seq<Pid>, h: nat, visitor: Visitor<S>,
      data: S): Walk<S>
    requires Formed(t) && Ranked(t, height) && Below(t, height, kids, h)
    decreases h, |kids|
  {
    if kids == [] then Walk(data, [], false)
    else
      var (res, data') := visitor(kids[0], data);
      var here := Walk(data', [kids[0]], res < 0);
      if res < 0 then here
      else if res == 0 then Then(here, Preorder(t, height, kids[1..], h, visitor, data'))
      else
        var below := (KidsBelow(t, height, kids[0]);
                      Preorder(t, height, Kids(t, kids[0]), height[kids[0]], visitor, data'));
        if below.stopped then Then(here, below)
        else Then(here, Then(below, Preorder(t, height, kids[1..], h, visitor, below.data)))
  }

  /** walk_process_tree as specified: pre-order over everything below top's group. */
  ghost function WalkFrom<S>(t: Links, height: map<Pid, nat>, top: Pid, visitor: Visitor<S>, data: S): Walk<S>
    requires Formed(t) && Ranked(t, height) && top in t.leaderOf
  {
    assert TaskFormed(t, top);
    var l := t.leaderOf[top];
    KidsBelow(t, height, l);
    Preorder(t, height, Kids(t, l), height[l], visitor, data)
  }
}
