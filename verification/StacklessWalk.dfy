/** Why walk_process_tree needs no stack: from any position of its nested loops the links
    alone determine what the recursive traversal would still do. */
module StacklessWalk {
  import opened Lists
  import opened TaskForest

  /** The groups from top down to the current one; the code keeps no such record. */
  datatype Chain = Top(leader: Pid) | Under(above: Chain, leader: Pid)

  ghost predicate Linked(t: Links, path: Chain) {
    path.leader in t.threads
    && (path.Under? ==> Linked(t, path.above) && path.leader in Kids(t, path.above.leader))
  }

  function Depth(path: Chain): nat {
    if path.Top? then 0 else 1 + Depth(path.above)
  }

  function Root(path: Chain): Pid {
    if path.Top? then path.leader else Root(path.above)
  }

  /** Only the first group of the chain is top's: the test `leader != top` is exact. */
  lemma {:induction false} ChainFalls(t: Links, height: map<Pid, nat>, path: Chain)
    requires Formed(t) && Ranked(t, height) && Linked(t, path)
    ensures Root(path) in height && path.leader in height
    ensures path.Under? ==> height[path.leader] < height[Root(path)]
  {
    if path.Under? {
      ChainFalls(t, height, path.above);
      assert path.leader in Kids(t, path.above.leader);
    }
  }

  /** The cursors of for_each_thread and list_for_each_entry; child is None at the list head. */
  datatype Position = Position(leader: Pid, parent: Pid, child: Option<Pid>)

  ghost predicate OnLists(t: Links, at: Position) {
    at.leader in t.threads && at.parent in t.threads[at.leader] && at.parent in t.children
    && (at.child.Some? ==> at.child.value in t.children[at.parent])
  }

  ghost function Rest(t: Links, parent: Pid, leader: Pid): seq<Pid>
    requires leader in t.threads
  {
    ChildrenOf(t, After(t.threads[leader], parent))
  }

  /** What the nested loops still have to visit in the group at.leader. */
  ghost function Pending(t: Links, at: Position): seq<Pid>
    requires OnLists(t, at)
  {
    (if at.child.None? then [] else [at.child.value] + After(t.children[at.parent], at.child.value))
    + Rest(t, at.parent, at.leader)
  }

  lemma PendingAreKids(t: Links, at: Position, c: Pid)
    requires OnLists(t, at) && c in Pending(t, at)
    ensures c in Kids(t, at.leader)
  {
    ChildrenOfMember(t, t.threads[at.leader], c);
    ChildrenOfMember(t, After(t.threads[at.leader], at.parent), c);
    AfterMembers(t.threads[at.leader], at.parent);
    if at.child.Some? { AfterMembers(t.children[at.parent], at.child.value); }
  }

  lemma PendingBelow(t: Links, height: map<Pid, nat>, at: Position)
    requires Formed(t) && Ranked(t, height) && OnLists(t, at)
    ensures at.leader in height && Below(t, height, Pending(t, at), height[at.leader])
  {
    KidsBelow(t, height, at.leader);
    forall c | c in Pending(t, at) ensures c in Kids(t, at.leader) {
      PendingAreKids(t, at, c);
    }
  }

  // ----- The cursor moves -----

  /** The first entry of parent's children list. */
  function Enter(t: Links, leader: Pid, parent: Pid): Position {
    Position(leader, parent, First(if parent in t.children then t.children[parent] else []))
  }

  /** The position after c in the list of its real parent: the label `up`. */
  function PastChild(t: Links, leader: Pid, parent: Pid, c: Pid): Position {
    Position(leader, parent, Next(if parent in t.children then t.children[parent] else [], c))
  }

  lemma EnterPending(t: Links, leader: Pid, parent: Pid)
    requires leader in t.threads && parent in t.threads[leader] && parent in t.children
    ensures OnLists(t, Enter(t, leader, parent))
    ensures Pending(t, Enter(t, leader, parent)) == t.children[parent] + Rest(t, parent, leader)
  {
    var s := t.children[parent];
    if s != [] { assert [s[0]] + s[1..] == s; }
  }

  lemma EnterGroup(t: Links, leader: Pid)
    requires Formed(t) && leader in t.threads
    ensures t.threads[leader] != [] && t.threads[leader][0] in t.children
    ensures var at := Enter(t, leader, t.threads[leader][0]);
      OnLists(t, at) && Pending(t, at) == Kids(t, leader)
  {
    assert GroupFormed(t, leader);
    EnterPending(t, leader, t.threads[leader][0]);
  }

  lemma PastChildPending(t: Links, leader: Pid, parent: Pid, c: Pid)
    requires Formed(t) && OnLists(t, Position(leader, parent, Some(c)))
    ensures OnLists(t, PastChild(t, leader, parent, c))
    ensures Pending(t, PastChild(t, leader, parent, c)) == Pending(t, Position(leader, parent, Some(c)))[1..]
  {
    var s := t.children[parent];
    assert ListFormed(t, parent);
    if After(s, c) != [] {
      AfterNext(s, c);
      assert [After(s, c)[0]] + After(s, c)[1..] == After(s, c);
    }
  }

  lemma NextThreadPending(t: Links, leader: Pid, parent: Pid)
    requires Formed(t) && OnLists(t, Position(leader, parent, None))
    requires After(t.threads[leader], parent) != []
    ensures var q := After(t.threads[leader], parent)[0]; var at := Enter(t, leader, q);
      && q in t.children && OnLists(t, at) && Pending(t, at) == Pending(t, Position(leader, parent, None))
      && After(t.threads[leader], q) == After(t.threads[leader], parent)[1..]
  {
    var q := After(t.threads[leader], parent)[0];
    assert GroupFormed(t, leader);
    AfterNext(t.threads[leader], parent);
    assert TaskFormed(t, q);
    EnterPending(t, leader, q);
  }

  lemma UpPosition(t: Links, path: Chain)
    requires Formed(t) && Linked(t, path) && path.Under?
    ensures path.leader in t.realParent
    ensures var p := t.realParent[path.leader];
      && p in t.leaderOf && t.leaderOf[p] == path.above.leader
      && OnLists(t, Position(path.above.leader, p, Some(path.leader)))
      && OnLists(t, PastChild(t, path.above.leader, p, path.leader))
  {
    KidsMember(t, path.above.leader, path.leader);
    PastChildPending(t, path.above.leader, t.realParent[path.leader], path.leader);
  }

  // ----- The rest of the recursive traversal, seen from a position -----

  /** Once w is done in the current group, climb the chain and finish group after group. */
  ghost function Climb<S>(t: Links, height: map<Pid, nat>, path: Chain, w: Walk<S>, visitor: Visitor<S>): Walk<S>
    requires Formed(t) && Ranked(t, height) && Linked(t, path)
  {
    if w.stopped || path.Top? then w
    else
      UpPosition(t, path);
      var at := PastChild(t, path.above.leader, t.realParent[path.leader], path.leader);
      PendingBelow(t, height, at);
      Then(w, Climb(t, height, path.above, Preorder(t, height, Pending(t, at), height[at.leader], visitor, w.data),
        visitor))
  }

  /** The rest of the walk from a position: the pending children, then everything above. */
  ghost function Resume<S>(t: Links, height: map<Pid, nat>, path: Chain, at: Position, visitor: Visitor<S>,
      data: S): Walk<S>
    requires Formed(t) && Ranked(t, height) && Linked(t, path) && OnLists(t, at) && at.leader == path.leader
  {
    PendingBelow(t, height, at);
    Climb(t, height, path, Preorder(t, height, Pending(t, at), height[at.leader], visitor, data), visitor)
  }

  lemma ThenAssociative<S>(a: Walk<S>, b: Walk<S>, c: Walk<S>)
    ensures Then(Then(a, b), c) == Then(a, Then(b, c))
  {
    assert (a.visited + b.visited) + c.visited == a.visited + (b.visited + c.visited);
  }

  lemma ThenNothing<S>(data: S, w: Walk<S>)
    ensures Then(Walk(data, [], false), w) == w
  {
    assert [] + w.visited == w.visited;
  }

  /** Finishing a then b and only then climbing is a, then climbing after b. */
  lemma ClimbThen<S>(t: Links, height: map<Pid, nat>, path: Chain, a: Walk<S>, b: Walk<S>, visitor: Visitor<S>)
    requires Formed(t) && Ranked(t, height) && Linked(t, path)
    ensures Climb(t, height, path, Then(a, b), visitor) == Then(a, Climb(t, height, path, b, visitor))
  {
    if !b.stopped && path.Under? {
      UpPosition(t, path);
      var at := PastChild(t, path.above.leader, t.realParent[path.leader], path.leader);
      ThenAssociative(a, b, Resume(t, height, path.above, at, visitor, b.data));
    }
  }

  /** The visitor stopped the walk or skipped the subtree of the child under the cursor. */
  lemma ResumeSkip<S>(t: Links, height: map<Pid, nat>, path: Chain, at: Position, visitor: Visitor<S>, data: S)
    requires Formed(t) && Ranked(t, height) && Linked(t, path) && OnLists(t, at) && at.leader == path.leader
    requires at.child.Some? && visitor(at.child.value, data).0 <= 0
    ensures var (res, data') := visitor(at.child.value, data);
      var here := Walk(data', [at.child.value], res < 0);
      var next := PastChild(t, at.leader, at.parent, at.child.value);
      && OnLists(t, next)
      && Resume(t, height, path, at, visitor, data) ==
         if res < 0 then here else Then(here, Resume(t, height, path, next, visitor, data'))
  {
    var (res, data') := visitor(at.child.value, data);
    var next := PastChild(t, at.leader, at.parent, at.child.value);
    PastChildPending(t, at.leader, at.parent, at.child.value);
    PendingBelow(t, height, next);
    PendingBelow(t, height, at);
    if res == 0 {
      ClimbThen(t, height, path, Walk(data', [at.child.value], false),
                Preorder(t, height, Pending(t, next), height[at.leader], visitor, data'), visitor);
    }
  }

  lemma DownPosition(t: Links, path: Chain, at: Position)
    requires Formed(t) && Linked(t, path) && OnLists(t, at) && at.leader == path.leader && at.child.Some?
    ensures var c := at.child.value;
      && c in t.threads && t.threads[c] != [] && t.threads[c][0] in t.children && Linked(t, Under(path, c))
      && OnLists(t, Enter(t, c, t.threads[c][0])) && Pending(t, Enter(t, c, t.threads[c][0])) == Kids(t, c)
  {
    var c := at.child.value;
    assert c in Pending(t, at) by { assert Pending(t, at)[0] == c; }
    PendingAreKids(t, at, c);
    KidsMember(t, at.leader, c);
    EnterGroup(t, c);
  }

  lemma PendingAfter(t: Links, at: Position)
    requires Formed(t) && OnLists(t, at) && at.child.Some?
    ensures var next := PastChild(t, at.leader, at.parent, at.child.value);
      OnLists(t, next) && Pending(t, at) == [at.child.value] + Pending(t, next)
  {
    PastChildPending(t, at.leader, at.parent, at.child.value);
    assert Pending(t, at)[0] == at.child.value;
    assert Pending(t, at) == [at.child.value] + Pending(t, at)[1..];
  }

  lemma PreorderDown<S>(t: Links, height: map<Pid, nat>, c: Pid, more: seq<Pid>, h: nat, visitor: Visitor<S>, data: S)
    requires Formed(t) && Ranked(t, height) && Below(t, height, [c] + more, h) && visitor(c, data).0 > 0
    ensures c in t.threads && Below(t, height, more, h) && c in height && Below(t, height, Kids(t, c), height[c])
    ensures var data' := visitor(c, data).1;
      var sub := Preorder(t, height, Kids(t, c), height[c], visitor, data');
      var here := Walk(data', [c], false);
      Preorder(t, height, [c] + more, h, visitor, data) ==
        if sub.stopped then Then(here, sub) else Then(here, Then(sub, Preorder(t, height, more, h, visitor, sub.data)))
  {
    var kids := [c] + more;
    assert kids[0] == c && kids[1..] == more;
    KidsBelow(t, height, c);
  }

  /** Descending into c, whose list is sub, with rest to come in the current group. */
  lemma ClimbDown<S>(t: Links, height: map<Pid, nat>, path: Chain, here: Walk<S>, sub: Walk<S>, rest: Walk<S>,
      visitor: Visitor<S>)
    requires Formed(t) && Ranked(t, height) && Linked(t, path)
    ensures Climb(t, height, path, if sub.stopped then Then(here, sub) else Then(here, Then(sub, rest)), visitor)
      == Then(here, if sub.stopped then sub else Then(sub, Climb(t, height, path, rest, visitor)))
  {
    if sub.stopped {
      ClimbThen(t, height, path, here, sub, visitor);
    } else {
      ClimbThen(t, height, path, here, Then(sub, rest), visitor);
      ClimbThen(t, height, path, sub, rest, visitor);
    }
  }

  /** The visitor asked to descend: `goto down`. */
  lemma ResumeDown<S>(t: Links, height: map<Pid, nat>, path: Chain, at: Position, visitor: Visitor<S>, data: S)
    requires Formed(t) && Ranked(t, height) && Linked(t, path) && OnLists(t, at) && at.leader == path.leader
    requires at.child.Some? && visitor(at.child.value, data).0 > 0
    ensures at.child.value in t.threads && t.threads[at.child.value] != []
    ensures var c := at.child.value; var down := Enter(t, c, t.threads[c][0]);
      && Linked(t, Under(path, c)) && OnLists(t, down)
      && Resume(t, height, path, at, visitor, data) ==
         Then(Walk(visitor(c, data).1, [c], false),
           Resume(t, height, Under(path, c), down, visitor, visitor(c, data).1))
  {
    var c := at.child.value;
    var data' := visitor(c, data).1;
    var next := PastChild(t, at.leader, at.parent, c);
    DownPosition(t, path, at);
    PendingAfter(t, at);
    PendingBelow(t, height, next);
    PendingBelow(t, height, at);
    KidsBelow(t, height, c);
    assert ListFormed(t, at.parent);
    var here := Walk(data', [c], false);
    var sub := Preorder(t, height, Kids(t, c), height[c], visitor, data');
    var rest := Preorder(t, height, Pending(t, next), height[at.leader], visitor, sub.data);
    PreorderDown(t, height, c, Pending(t, next), height[at.leader], visitor, data);
    ClimbDown(t, height, path, here, sub, rest, visitor);
    assert Resume(t, height, Under(path, c), Enter(t, c, t.threads[c][0]), visitor, data')
      == Climb(t, height, Under(path, c), sub, visitor);
  }

  /** This thread's list is done: for_each_thread moves on. */
  lemma ResumeNextThread<S>(t: Links, height: map<Pid, nat>, path: Chain, at: Position, visitor: Visitor<S>, data: S)
    requires Formed(t) && Ranked(t, height) && Linked(t, path) && OnLists(t, at) && at.leader == path.leader
    requires at.child.None? && After(t.threads[at.leader], at.parent) != []
    ensures var q := After(t.threads[at.leader], at.parent)[0]; var next := Enter(t, at.leader, q);
      && q in t.children && OnLists(t, next)
      && After(t.threads[at.leader], q) == After(t.threads[at.leader], at.parent)[1..]
      && Resume(t, height, path, at, visitor, data) == Resume(t, height, path, next, visitor, data)
  {
    NextThreadPending(t, at.leader, at.parent);
  }

  /** The whole group is done: `goto up`, or the end of the walk. */
  lemma ResumeUp<S>(t: Links, height: map<Pid, nat>, path: Chain, at: Position, visitor: Visitor<S>, data: S)
    requires Formed(t) && Ranked(t, height) && Linked(t, path) && OnLists(t, at) && at.leader == path.leader
    requires at.child.None? && After(t.threads[at.leader], at.parent) == []
    ensures at.leader == Root(path) <==> path.Top?
    ensures path.Top? ==> Resume(t, height, path, at, visitor, data) == Walk(data, [], false)
    ensures path.Under? ==>
      && Linked(t, path.above)
      && at.leader in t.realParent && t.realParent[at.leader] in t.leaderOf
      && var p := t.realParent[at.leader]; var next := PastChild(t, t.leaderOf[p], p, at.leader);
      && p in t.children && OnLists(t, next) && next.leader == path.above.leader
      && Resume(t, height, path, at, visitor, data) == Resume(t, height, path.above, next, visitor, data)
  {
    ChainFalls(t, height, path);
    PendingBelow(t, height, at);
    assert Pending(t, at) == [];
    if path.Under? {
      UpPosition(t, path);
      var p := t.realParent[at.leader];
      ThenNothing(data, Resume(t, height, path.above, PastChild(t, t.leaderOf[p], p, at.leader), visitor, data));
    }
  }
}
