/** The pruning that has_child_subreaper buys: a walk that skips marked groups still marks
    everything below top, because marks are closed downwards. */
module SubreaperMarks {
  import opened TaskForest
  import opened StacklessWalk

  /** The mark is a flag of p->signal, so a group is marked through its signal struct. */
  type SignalId = nat

  predicate Marked(signal: map<Pid, SignalId>, marks: set<SignalId>, p: Pid) {
    p in signal && signal[p] in marks
  }

  /** Mark a group and descend, or skip the subtree of one that is marked already. */
  function MarkUnmarked(signal: map<Pid, SignalId>): Visitor<set<SignalId>> {
    (p: Pid, marks: set<SignalId>) =>
      if Marked(signal, marks, p) then (0, marks) else (1, if p in signal then marks + {signal[p]} else marks)
  }

  /** No two groups share a signal struct. */
  ghost predicate OwnSignals(t: Links, signal: map<Pid, SignalId>) {
    t.threads.Keys <= signal.Keys
    && forall k, l {:trigger signal[k], signal[l]} :: k in t.threads && l in t.threads && signal[k] == signal[l] ==>
      k == l
  }

  /** Every child group of a marked group is marked, except below the groups in `open`. */
  ghost predicate ClosedDown(t: Links, signal: map<Pid, SignalId>, marks: set<SignalId>, open: set<Pid>) {
    forall l, c {:trigger c in Kids(t, l)} ::
      l in t.threads && Marked(signal, marks, l) && l !in open && c in Kids(t, l) ==> Marked(signal, marks, c)
  }

  /** x leads a group strictly below the group led by top. */
  ghost predicate StrictlyBelow(t: Links, top: Pid, x: Pid) {
    exists path: Chain :: Linked(t, path) && path.Under? && Root(path) == top && path.leader == x
  }

  /** A group just marked is open until its list has been walked. */
  lemma MarkOpens(t: Links, signal: map<Pid, SignalId>, marks: set<SignalId>, open: set<Pid>, c: Pid)
    requires OwnSignals(t, signal) && ClosedDown(t, signal, marks, open) && c in t.threads
    ensures ClosedDown(t, signal, marks + {signal[c]}, open + {c})
    ensures forall x :: x in t.threads && Marked(signal, marks + {signal[c]}, x) ==> x == c || Marked(signal, marks, x)
  {
  }

  lemma ListCloses(t: Links, signal: map<Pid, SignalId>, marks: set<SignalId>, open: set<Pid>, c: Pid)
    requires c in t.threads && ClosedDown(t, signal, marks, open + {c})
    requires forall k :: k in Kids(t, c) ==> Marked(signal, marks, k)
    ensures ClosedDown(t, signal, marks, open)
  {
  }

  lemma {:induction false} PruneList(t: Links, height: map<Pid, nat>, path: Chain, kids: seq<Pid>, h: nat,
                                     signal: map<Pid, SignalId>, marks: set<SignalId>, open: set<Pid>)
    requires Formed(t) && Ranked(t, height) && Below(t, height, kids, h) && OwnSignals(t, signal)
    requires Linked(t, path) && (forall c :: c in kids ==> c in Kids(t, path.leader))
    requires ClosedDown(t, signal, marks, open)
    ensures var w := Preorder(t, height, kids, h, MarkUnmarked(signal), marks);
      && !w.stopped && marks <= w.data && ClosedDown(t, signal, w.data, open)
      && (forall c :: c in kids ==> Marked(signal, w.data, c))
      && (forall x :: x in t.threads && Marked(signal, w.data, x) && !Marked(signal, marks, x) ==>
        StrictlyBelow(t, Root(path), x))
    decreases h, |kids|
  {
    if kids != [] {
      var c := kids[0];
      assert c in Kids(t, path.leader);
      if Marked(signal, marks, c) {
        PruneList(t, height, path, kids[1..], h, signal, marks, open);
      } else {
        var down := Under(path, c);
        var marks' := marks + {signal[c]};
        KidsBelow(t, height, c);
        MarkOpens(t, signal, marks, open, c);
        PruneList(t, height, down, Kids(t, c), height[c], signal, marks', open + {c});
        ListCloses(t, signal, Preorder(t, height, Kids(t, c), height[c], MarkUnmarked(signal), marks').data, open, c);
        var below := Preorder(t, height, Kids(t, c), height[c], MarkUnmarked(signal), marks');
        assert StrictlyBelow(t, Root(path), c);
        PruneList(t, height, path, kids[1..], h, signal, below.data, open);
      }
    }
  }

  lemma {:induction false} MarkedBelow(t: Links, signal: map<Pid, SignalId>, marks: set<SignalId>, path: Chain)
    requires Linked(t, path) && path.Under? && ClosedDown(t, signal, marks, {})
    requires Root(path) in t.threads && forall c :: c in Kids(t, Root(path)) ==> Marked(signal, marks, c)
    ensures Marked(signal, marks, path.leader)
  {
    if path.above.Under? { MarkedBelow(t, signal, marks, path.above); }
  }

  /** The pruned walk marks exactly the groups below top, and marks stay closed downwards. */
  lemma PrunedWalkMarksAllBelow(t: Links, height: map<Pid, nat>, top: Pid, signal: map<Pid, SignalId>,
      marks: set<SignalId>)
    requires Formed(t) && Ranked(t, height) && top in t.leaderOf && OwnSignals(t, signal)
    requires ClosedDown(t, signal, marks, {})
    ensures t.leaderOf[top] in t.threads
    ensures var w := WalkFrom(t, height, top, MarkUnmarked(signal), marks);
      && !w.stopped && marks <= w.data
      && ClosedDown(t, signal, w.data, {})
      && (forall c :: c in Kids(t, t.leaderOf[top]) ==> Marked(signal, w.data, c))
      && forall x :: x in t.threads ==>
           (Marked(signal, w.data, x) <==> Marked(signal, marks, x) || StrictlyBelow(t, t.leaderOf[top], x))
  {
    assert TaskFormed(t, top);
    var l := t.leaderOf[top];
    KidsBelow(t, height, l);
    PruneList(t, height, Top(l), Kids(t, l), height[l], signal, marks, {});
    var w := WalkFrom(t, height, top, MarkUnmarked(signal), marks);
    forall x | StrictlyBelow(t, l, x) ensures Marked(signal, w.data, x) {
      var path: Chain :| Linked(t, path) && path.Under? && Root(path) == l && path.leader == x;
      MarkedBelow(t, signal, w.data, path);
    }
  }
}
