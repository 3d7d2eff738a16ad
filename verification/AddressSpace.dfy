/** dup_mmap: copying a doubly linked list of mappings in place, with commit accounting and a
    failure that may come at any step of any iteration. */
module AddressSpace {
  import opened Lists

  type Id = nat

  const PAGE_SIZE: nat := 4096

  datatype VmFlags = VmFlags(dontCopy: bool, account: bool, wipeOnFork: bool, locked: bool, lockOnFault: bool)

  /** What a mapping is, apart from its place in the list. */
  datatype Mapping = Mapping(start: nat, end: nat, flags: VmFlags, file: Option<Id>)

  function Pages(m: Mapping): nat {
    if m.end < m.start then 0 else (m.end - m.start) / PAGE_SIZE
  }

  /** The pages of the first n mappings. */
  function Total(s: seq<Mapping>, n: nat): nat
    requires n <= |s|
  {
    if n == 0 then 0 else Total(s, n - 1) + Pages(s[n - 1])
  }

  /** Those charged against the commit limit. */
  function Charged(s: seq<Mapping>, n: nat): nat
    requires n <= |s|
  {
    if n == 0 then 0 else Charged(s, n - 1) + if s[n - 1].flags.account then Pages(s[n - 1]) else 0
  }

  function FilesOf(s: seq<Mapping>, n: nat): multiset<Id>
    requires n <= |s|
  {
    if n == 0 then multiset{}
    else FilesOf(s, n - 1) + if s[n - 1].file.Some? then multiset{s[n - 1].file.value} else multiset{}
  }

  lemma {:induction false} SameBefore(s: seq<Mapping>, m: Mapping, n: nat)
    requires n <= |s|
    ensures Total(s + [m], n) == Total(s, n) && Charged(s + [m], n) == Charged(s, n)
      && FilesOf(s + [m], n) == FilesOf(s, n)
  {
    if n > 0 { SameBefore(s, m, n - 1); }
  }

  /** A copy is not locked in memory. */
  function CopyOf(m: Mapping): Mapping {
    m.(flags := m.flags.(locked := false, lockOnFault := false))
  }

  /** What a child gets of the first k mappings: those without VM_DONTCOPY, in order. */
  function Inherited(s: seq<Mapping>, k: nat): seq<Mapping>
    requires k <= |s|
  {
    if k == 0 then []
    else if s[k - 1].flags.dontCopy then Inherited(s, k - 1)
    else Inherited(s, k - 1) + [CopyOf(s[k - 1])]
  }

  /** The pages of those that are left out. */
  function Dropped(s: seq<Mapping>, k: nat): nat
    requires k <= |s|
  {
    if k == 0 then 0 else Dropped(s, k - 1) + if s[k - 1].flags.dontCopy then Pages(s[k - 1]) else 0
  }

  lemma {:induction false} InheritedTotal(s: seq<Mapping>, k: nat)
    requires k <= |s|
    ensures Total(Inherited(s, k), |Inherited(s, k)|) + Dropped(s, k) == Total(s, k)
  {
    if k > 0 {
      InheritedTotal(s, k - 1);
      SameBefore(Inherited(s, k - 1), CopyOf(s[k - 1]), |Inherited(s, k - 1)|);
    }
  }

  /** New mapping i is old mapping at[i]: what it maps and how is the same, only it is not locked. */
  predicate SameMapping(new_: Mapping, old_: Mapping) {
    && new_.start == old_.start && new_.end == old_.end && new_.file == old_.file
    && new_.flags.account == old_.flags.account && new_.flags.wipeOnFork == old_.flags.wipeOnFork
    && new_.flags.dontCopy == old_.flags.dontCopy && !new_.flags.locked && !new_.flags.lockOnFault
  }

  /** The places at[0] < at[1] < ... are those of the first k mappings without VM_DONTCOPY. */
  ghost predicate Kept(s: seq<Mapping>, k: nat, at: seq<nat>) {
    && k <= |s| && (forall i, j :: 0 <= i < j < |at| ==> at[i] < at[j]) && (forall i :: 0 <= i < |at| ==> at[i] < k)
    && forall j :: 0 <= j < k ==> (j in at <==> !s[j].flags.dontCopy)
  }

  lemma OnePlaceMore(s: seq<Mapping>, k: nat, before: seq<nat>) returns (at: seq<nat>)
    requires k < |s| && !s[k].flags.dontCopy && Kept(s, k, before)
    ensures at == before + [k] && Kept(s, k + 1, at)
  {
    at := before + [k];
    assert forall j :: j in at <==> j in before || j == k;
  }

  ghost predicate PlaceOk(s: seq<Mapping>, r: seq<Mapping>, at: seq<nat>, i: nat) {
    i < |at| == |r| && at[i] < |s| && SameMapping(r[i], s[at[i]])
  }

  /** r are the mappings of s at those places. */
  ghost predicate FromPlaces(s: seq<Mapping>, r: seq<Mapping>, at: seq<nat>) {
    |at| == |r| && forall i: nat {:trigger PlaceOk(s, r, at, i)} :: i < |at| ==> PlaceOk(s, r, at, i)
  }

  lemma OneMoreFrom(s: seq<Mapping>, r: seq<Mapping>, at: seq<nat>, m: Mapping, k: nat)
    requires FromPlaces(s, r, at) && k < |s| && SameMapping(m, s[k])
    ensures FromPlaces(s, r + [m], at + [k])
  {
    forall i: nat | i < |at| + 1 ensures PlaceOk(s, r + [m], at + [k], i) {
      if i < |at| { assert PlaceOk(s, r, at, i); }
    }
  }

  lemma {:induction false} InheritedPlaces(s: seq<Mapping>, k: nat) returns (at: seq<nat>)
    requires k <= |s|
    ensures Kept(s, k, at) && FromPlaces(s, Inherited(s, k), at)
  {
    if k == 0 {
      at := [];
    } else {
      var before := InheritedPlaces(s, k - 1);
      at := before;
      if !s[k - 1].flags.dontCopy {
        at := OnePlaceMore(s, k - 1, before);
        OneMoreFrom(s, Inherited(s, k - 1), before, CopyOf(s[k - 1]), k - 1);
      }
    }
  }

  /** What the mappings are charged for, told from outside: nothing without VM_ACCOUNT, every page with it;
      and the pages of a list are those of its mappings. */
  lemma {:induction false} ChargedExactly(s: seq<Mapping>, n: nat)
    requires n <= |s|
    ensures n > 0 && s[n - 1].start <= s[n - 1].end ==>
      var pages := (s[n - 1].end - s[n - 1].start) / 4096;
      && Total(s, n) == Total(s, n - 1) + pages
      && Charged(s, n) == Charged(s, n - 1) + if s[n - 1].flags.account then pages else 0
    ensures (forall i :: 0 <= i < n ==> !s[i].flags.account) ==> Charged(s, n) == 0
    ensures (forall i :: 0 <= i < n ==> s[i].flags.account) ==> Charged(s, n) == Total(s, n)
  {
    if n > 0 { ChargedExactly(s, n - 1); }
  }

  lemma PagesOfRange(m: Mapping, first: nat, last: nat)
    requires first <= last && m.start == first * PAGE_SIZE && m.end == last * PAGE_SIZE
    ensures Pages(m) == last - first
  {
  }

  ghost function MappingsOf(s: seq<Mapping>, n: nat, file: Id): set<nat>
    requires n <= |s|
  {
    set i: nat | i < n && s[i].file == Some(file)
  }

  lemma OneMoreOf(s: seq<Mapping>, n: nat, file: Id)
    requires n < |s|
    ensures |MappingsOf(s, n + 1, file)| == |MappingsOf(s, n, file)| + if s[n].file == Some(file) then 1 else 0
  {
    var before := MappingsOf(s, n, file);
    if s[n].file == Some(file) {
      assert MappingsOf(s, n + 1, file) == before + {n} && n !in before;
    } else {
      assert MappingsOf(s, n + 1, file) == before;
    }
  }

  /** A file has one reference for each mapping of it. */
  lemma {:induction false} FilesExactly(s: seq<Mapping>, n: nat, file: Id)
    requires n <= |s|
    ensures FilesOf(s, n)[file] == |MappingsOf(s, n, file)|
  {
    if n > 0 {
      FilesExactly(s, n - 1, file);
      OneMoreOf(s, n - 1, file);
    }
  }

  class Vma {
    var mapping: Mapping
    var next: Vma?
    var prev: Vma?

    /** vm_area_dup: a copy that is on no list. */
    constructor (m: Mapping)
      ensures mapping == m && next == null && prev == null
    {
      mapping, next, prev := m, null, null;
    }
  }

  /** The i-th node is linked to its neighbours and holds the i-th mapping. */
  ghost predicate NodeAt(nodes: seq<Vma>, s: seq<Mapping>, i: nat)
    reads nodes
  {
    && i < |nodes| == |s| && nodes[i].mapping == s[i]
    && nodes[i].prev == (if i == 0 then null else nodes[i - 1])
    && nodes[i].next == (if i == |nodes| - 1 then null else nodes[i + 1])
  }

  /** The list from head is exactly nodes, linked in both directions, and holds the mappings s. */
  ghost predicate Doubly(head: Vma?, nodes: seq<Vma>, s: seq<Mapping>)
    reads nodes
  {
    && |nodes| == |s| && head == (if nodes == [] then null else nodes[0])
    && forall i: nat {:trigger NodeAt(nodes, s, i)} :: i < |nodes| ==> NodeAt(nodes, s, i)
  }

  lemma NodesHold(nodes: seq<Vma>, r: seq<Mapping>, s: seq<Mapping>, at: seq<nat>)
    requires FromPlaces(s, r, at)
    requires |nodes| == |r| && forall i: nat {:trigger NodeAt(nodes, r, i)} :: i < |nodes| ==> NodeAt(nodes, r, i)
    ensures forall i :: 0 <= i < |at| ==> at[i] < |s| && SameMapping(nodes[i].mapping, s[at[i]])
  {
    forall i | 0 <= i < |at| ensures at[i] < |s| && SameMapping(nodes[i].mapping, s[at[i]]) {
      assert NodeAt(nodes, r, i) && PlaceOk(s, r, at, i);
    }
  }

  /** So no node occurs twice. */
  lemma {:induction false} DoublyDistinct(head: Vma?, nodes: seq<Vma>, s: seq<Mapping>, i: nat, j: nat)
    requires Doubly(head, nodes, s) && i < j < |nodes|
    ensures nodes[i] != nodes[j]
  {
    assert NodeAt(nodes, s, i) && NodeAt(nodes, s, j);
    if i > 0 {
      DoublyDistinct(head, nodes, s, i - 1, j - 1);
    }
  }

  /** Where an iteration, or the code around the loop, may fail. */
  datatype Step =
    | MmapLock | KsmFork | KhugepagedFork | FatalSignal | EnoughMemory | AllocVma | DupPolicy | DupUserfault
    | AnonVmaFork | CopyPageRange | ArchDupMmap

  /** An error of dup_mmap's own, or the one that the callee of a step has returned. */
  datatype Error = EINTR | ENOMEM | Of(step: Step)

  /** Whether iteration i, for the mapping m, fails before the copy is linked. */
  predicate Refuses(m: Mapping, i: nat, fails: (nat, Step) -> bool) {
    || fails(i, FatalSignal) || (m.flags.account && fails(i, EnoughMemory)) || fails(i, AllocVma)
    || fails(i, DupPolicy) || fails(i, DupUserfault) || (!m.flags.wipeOnFork && fails(i, AnonVmaFork))
  }

  /** The error of iteration i, for the mapping m, if it fails. */
  function ErrorAt(m: Mapping, i: nat, fails: (nat, Step) -> bool): Error {
    if fails(i, FatalSignal) then EINTR else if Refuses(m, i, fails) then ENOMEM else Of(CopyPageRange)
  }

  predicate StopsAt(s: seq<Mapping>, i: nat, fails: (nat, Step) -> bool) {
    && i < |s| && !s[i].flags.dontCopy
    && (Refuses(s[i], i, fails) || (!s[i].flags.wipeOnFork && fails(i, CopyPageRange)))
  }

  /** No iteration before the k-th fails. */
  ghost predicate Passes(s: seq<Mapping>, k: nat, fails: (nat, Step) -> bool) {
    forall i: nat {:trigger StopsAt(s, i, fails)} :: i < k ==> !StopsAt(s, i, fails)
  }

  lemma PassOver(s: seq<Mapping>, k: nat, fails: (nat, Step) -> bool)
    requires Passes(s, k, fails) && !StopsAt(s, k, fails)
    ensures Passes(s, k + 1, fails)
  {
  }

  /** No mapping that is copied meets a step that fails, each asked only where it is needed. */
  lemma PassesExactly(s: seq<Mapping>, fails: (nat, Step) -> bool)
    ensures Passes(s, |s|, fails) <==>
      forall j: nat {:trigger s[j]} :: j < |s| && !s[j].flags.dontCopy ==>
        && !fails(j, FatalSignal) && (s[j].flags.account ==> !fails(j, EnoughMemory))
        && !fails(j, AllocVma) && !fails(j, DupPolicy) && !fails(j, DupUserfault)
        && (!s[j].flags.wipeOnFork ==> !fails(j, AnonVmaFork) && !fails(j, CopyPageRange))
  {
    if Passes(s, |s|, fails) {
      assert forall j: nat {:trigger s[j]} :: j < |s| ==> !StopsAt(s, j, fails);
    } else {
      var j: nat :| j < |s| && StopsAt(s, j, fails);
      assert !s[j].flags.dontCopy;
    }
  }

  /** Iteration i is the first that fails; what it leaves copied is the first k mappings. */
  ghost predicate StoppedBy(s: seq<Mapping>, i: nat, k: nat, fails: (nat, Step) -> bool, err: Error) {
    && Passes(s, i, fails) && StopsAt(s, i, fails) && err == ErrorAt(s[i], i, fails)
    && k == if Refuses(s[i], i, fails) then i else i + 1
  }

  /** The loop has copied k mappings: all of them, or up to the iteration that fails. */
  ghost predicate LoopEnds(s: seq<Mapping>, k: nat, fails: (nat, Step) -> bool, err: Option<Error>) {
    if err.None? then k == |s| && Passes(s, k, fails)
    else StoppedBy(s, k, k, fails, err.value) || (k > 0 && StoppedBy(s, k - 1, k, fails, err.value))
  }

  /** What dup_mmap returns and how many mappings it has dealt with, by the first step that fails. */
  ghost predicate Outcome(s: seq<Mapping>, k: nat, fails: (nat, Step) -> bool, err: Option<Error>) {
    if fails(0, MmapLock) then k == 0 && err == Some(EINTR)
    else if fails(0, KsmFork) then k == 0 && err == Some(Of(KsmFork))
    else if fails(0, KhugepagedFork) then k == 0 && err == Some(Of(KhugepagedFork))
    else if !Passes(s, |s|, fails) then err.Some? && LoopEnds(s, k, fails, err)
    else k == |s| && err == if fails(0, ArchDupMmap) then Some(Of(ArchDupMmap)) else None
  }

  class Mm {
    var mmap: Vma?
    var mapCount: nat
    var totalVm: int
  }

  class System {
    var committed: int         // vm_committed_as, in pages
    var files: multiset<Id>    // references to mapped files
    var policies: int          // references to memory policies held by mappings

    /** Link tmp at the tail: *pprev = tmp, where pprev is &mm->mmap or &tail->vm_next. */
    method Link(mm: Mm, tail: Vma?, tmp: Vma, ghost nodes: seq<Vma>, ghost r: seq<Mapping>)
      requires Copied(mm, nodes, tail, r) && tmp !in nodes && tmp.next == null
      modifies mm`mmap, mm`mapCount, nodes, tmp
      ensures Copied(mm, nodes + [tmp], tmp, r + [old(tmp.mapping)])
    {
      ghost var n := |nodes|;
      ghost var nodes', r' := nodes + [tmp], r + [tmp.mapping];
      assert n > 0 ==> NodeAt(nodes, r, n - 1);
      if tail == null {
        mm.mmap := tmp;
      } else {
        tail.next := tmp;
      }
      tmp.prev := tail;
      mm.mapCount := mm.mapCount + 1;
      forall i: nat {:trigger NodeAt(nodes', r', i)} | i < n + 1
        ensures NodeAt(nodes', r', i)
      {
        if i < n {
          assert old(NodeAt(nodes, r, i)) && old(NodeAt(nodes, r, n - 1));
        }
      }
      assert Doubly(mm.mmap, nodes', r');
    }

    /** What has been taken for one more mapping, and nothing else. */
    twostate predicate TookFor(m: Mapping)
      reads this
    {
      && committed == old(committed) + (if m.flags.account then Pages(m) else 0)
      && files == old(files) + (if m.file.Some? then multiset{m.file.value} else multiset{})
      && policies == old(policies) + 1
    }

    /** The first half of an iteration: charge, allocate and fill in the copy, or undo it all. The
        unwinding labels of the source are nested blocks. */
    method PrepareVma(mpnt: Vma, i: nat, fails: (nat, Step) -> bool) returns (err: Error, tmp: Vma?)
      modifies this
      ensures tmp == null ==> committed == old(committed) && files == old(files) && policies == old(policies)
      ensures tmp != null ==>
        fresh(tmp) && tmp.next == null && tmp.mapping == CopyOf(mpnt.mapping) && TookFor(mpnt.mapping)
      ensures tmp == null <==> Refuses(mpnt.mapping, i, fails)
      ensures tmp == null ==> err == if fails(i, FatalSignal) then EINTR else ENOMEM
    {
      err, tmp := ENOMEM, null;
      if fails(i, FatalSignal) { return EINTR, null; }
      var charge := 0;
      var m := mpnt.mapping;
      label fail_nomem: {
        if m.flags.account {
          if fails(i, EnoughMemory) { break fail_nomem; }
          charge := Pages(m);
          committed := committed + charge;
        }
        if fails(i, AllocVma) { break fail_nomem; }
        tmp := new Vma(m);
        label fail_nomem_policy: {
          if fails(i, DupPolicy) { break fail_nomem_policy; }
          policies := policies + 1;
          label fail_nomem_anon_vma_fork: {
            if fails(i, DupUserfault) { break fail_nomem_anon_vma_fork; }
            if !m.flags.wipeOnFork && fails(i, AnonVmaFork) { break fail_nomem_anon_vma_fork; }
            tmp.mapping := CopyOf(tmp.mapping);
            if tmp.mapping.file.Some? { files := files + multiset{tmp.mapping.file.value}; }
            return ENOMEM, tmp;
          }
          policies := policies - 1;
        }
      }
      committed := committed - charge;
      return ENOMEM, null;
    }

    /** The new address space holds exactly the mappings r; tail is the last node. */
    static ghost predicate Copied(mm: Mm, nodes: seq<Vma>, tail: Vma?, r: seq<Mapping>)
      reads mm`mmap, mm`mapCount, nodes
    {
      && Doubly(mm.mmap, nodes, r) && mm.mapCount == |nodes|
      && tail == if nodes == [] then null else nodes[|nodes| - 1]
    }

    /** What has been taken is what the mappings r account for. */
    ghost predicate Taken(base: (int, multiset<Id>, int), r: seq<Mapping>)
      reads this
    {
      committed == base.0 + Charged(r, |r|) && files == base.1 + FilesOf(r, |r|) && policies == base.2 + |r|
    }

    /** Seen from the whole list: what is charged is what the list with the copy accounts for. */
    method PrepareNext(mpnt: Vma, i: nat, fails: (nat, Step) -> bool, ghost r: seq<Mapping>,
        ghost base: (int, multiset<Id>, int))
      returns (err: Error, tmp: Vma?)
      requires Taken(base, r)
      modifies this
      ensures tmp == null <==> Refuses(mpnt.mapping, i, fails)
      ensures tmp == null ==> Taken(base, r) && err == if fails(i, FatalSignal) then EINTR else ENOMEM
      ensures tmp != null ==>
        && fresh(tmp) && tmp.next == null && tmp.mapping == CopyOf(mpnt.mapping)
          && Taken(base, r + [CopyOf(mpnt.mapping)])
    {
      err, tmp := PrepareVma(mpnt, i, fails);
      ExtendTaken(r, CopyOf(mpnt.mapping));
    }

    /** One iteration for a mapping that is copied; a failing copy_page_range comes after the link,
        so it leaves the mapping in the list. */
    method CopyVma(mm: Mm, mpnt: Vma, tail: Vma?, i: nat, fails: (nat, Step) -> bool, ghost nodes: seq<Vma>,
        ghost r: seq<Mapping>,
                   ghost base: (int, multiset<Id>, int))
      returns (err: Option<Error>, linked: Vma?)
      requires Copied(mm, nodes, tail, r) && Taken(base, r) && mpnt !in nodes
      modifies this, mm`mmap, mm`mapCount, nodes
      ensures mm.totalVm == old(mm.totalVm)
      ensures linked == null <==> Refuses(old(mpnt.mapping), i, fails)
      ensures linked == null ==>
        && err == Some(if fails(i, FatalSignal) then EINTR else ENOMEM)
        && Copied(mm, nodes, tail, r) && Taken(base, r)
      ensures linked != null ==>
        && fresh(linked) && Copied(mm, nodes + [linked], linked, r + [CopyOf(old(mpnt.mapping))])
        && Taken(base, r + [CopyOf(old(mpnt.mapping))])
        && err == if !old(mpnt.mapping).flags.wipeOnFork && fails(i, CopyPageRange) then Some(Of(CopyPageRange))
          else None
    {
      var e;
      e, linked := PrepareNext(mpnt, i, fails, r, base);
      if linked == null { return Some(e), null; }
      var wipe := linked.mapping.flags.wipeOnFork;
      Link(mm, tail, linked, nodes, r);
      err := if !wipe && fails(i, CopyPageRange) then Some(Of(CopyPageRange)) else None;
    }

    /** The state of the loop: the first k old mappings are dealt with. */
    ghost predicate Progress(mm: Mm, nodes: seq<Vma>, tail: Vma?, s: seq<Mapping>, k: nat,
                             base: (int, multiset<Id>, int), total: int)
      reads this, mm, nodes
    {
      && k <= |s| && Copied(mm, nodes, tail, Inherited(s, k)) && Taken(base, Inherited(s, k))
      && mm.totalVm == total - Dropped(s, k)
    }

    /** A mapping marked VM_DONTCOPY only leaves the page total. */
    method SkipVma(mm: Mm, mpnt: Vma, ghost nodes: seq<Vma>, ghost tail: Vma?, ghost s: seq<Mapping>, ghost k: nat,
                   ghost base: (int, multiset<Id>, int), ghost total: int)
      requires Progress(mm, nodes, tail, s, k, base, total)
      requires k < |s| && mpnt.mapping == s[k] && s[k].flags.dontCopy
      modifies mm`totalVm
      ensures Progress(mm, nodes, tail, s, k + 1, base, total)
    {
      mm.totalVm := mm.totalVm - Pages(mpnt.mapping);
    }

    /** One iteration. */
    method Iterate(mm: Mm, mpnt: Vma, tail: Vma?, i: nat, fails: (nat, Step) -> bool, ghost nodes: seq<Vma>,
                   ghost s: seq<Mapping>, ghost base: (int, multiset<Id>, int), ghost total: int)
      returns (err: Option<Error>, tail': Vma?, ghost nodes': seq<Vma>, ghost k: nat)
      requires Progress(mm, nodes, tail, s, i, base, total) && mpnt !in nodes
      requires i < |s| && mpnt.mapping == s[i] && Passes(s, i, fails)
      modifies this, mm, nodes
      ensures mpnt.next == old(mpnt.next)
      ensures nodes' == nodes || (tail' != null && fresh(tail') && nodes' == nodes + [tail'])
      ensures Progress(mm, nodes', tail', s, k, base, total)
      ensures if err.None? then k == i + 1 && Passes(s, k, fails) else LoopEnds(s, k, fails, err)
    {
      if mpnt.mapping.flags.dontCopy {
        PassOver(s, i, fails);
        SkipVma(mm, mpnt, nodes, tail, s, i, base, total);
        return None, tail, nodes, i + 1;
      }
      err, tail' := CopyVma(mm, mpnt, tail, i, fails, nodes, Inherited(s, i), base);
      if tail' == null {
        tail', nodes', k := tail, nodes, i;
      } else {
        nodes', k := nodes + [tail'], i + 1;
        if err.None? { PassOver(s, i, fails); }
      }
    }

    /** The loop over the old list. */
    method CopyList(mm: Mm, oldmm: Mm, fails: (nat, Step) -> bool, ghost olds: seq<Vma>, ghost s: seq<Mapping>)
      returns (err: Option<Error>, tail: Vma?, ghost nodes: seq<Vma>, ghost k: nat)
      requires mm != oldmm && mm.mmap == null && mm.mapCount == 0
      requires Doubly(oldmm.mmap, olds, s)
      modifies this, mm
      ensures LoopEnds(s, k, fails, err)
      ensures fresh(nodes) && Progress(mm, nodes, tail, s, k, old((committed, files, policies)), old(mm.totalVm))
    {
      err, nodes, k, tail := None, [], 0, null;
      ghost var base, total := (committed, files, policies), mm.totalVm;
      var mpnt := oldmm.mmap;
      var i := 0;
      Begin(mm, s);
      while mpnt != null && err.None?
        invariant if err.None? then i == k && At(olds, s, mpnt, k) && Passes(s, k, fails)
          else LoopEnds(s, k, fails, err)
        invariant fresh(nodes) && Progress(mm, nodes, tail, s, k, base, total)
        decreases err.None?, |s| - k
      {
        Advance(oldmm.mmap, olds, s, mpnt, k);
        ghost var next := mpnt.next;
        err, tail, nodes, k := Iterate(mm, mpnt, tail, i, fails, nodes, s, base, total);
        mpnt, i := mpnt.next, i + 1;
        assert mpnt == next;
      }
    }

    lemma Begin(mm: Mm, s: seq<Mapping>)
      requires mm.mmap == null && mm.mapCount == 0
      ensures Progress(mm, [], null, s, 0, (committed, files, policies), mm.totalVm)
    {
    }

    /** dup_mmap. Whatever happens, the new list is a well-formed doubly linked copy of the
        inheritable mappings of some prefix of the old list, and what is charged is what that
        list accounts for; without an error the prefix is everything. */
    method DupMmap(mm: Mm, oldmm: Mm, fails: (nat, Step) -> bool, ghost olds: seq<Vma>, ghost s: seq<Mapping>)
      returns (err: Option<Error>, ghost nodes: seq<Vma>, ghost k: nat, ghost at: seq<nat>)
      requires mm != oldmm && mm.mmap == null && mm.mapCount == 0
      requires Doubly(oldmm.mmap, olds, s)
      modifies this, mm
      ensures k <= |s| && (err.None? ==> k == |s|)
      ensures err.None? <==>
        && !fails(0, MmapLock) && !fails(0, KsmFork) && !fails(0, KhugepagedFork) && !fails(0, ArchDupMmap)
        && Passes(s, |s|, fails)
      ensures Outcome(s, k, fails, err)
      ensures fresh(nodes) && Doubly(mm.mmap, nodes, Inherited(s, k)) && mm.mapCount == |nodes|
      ensures committed == old(committed) + Charged(Inherited(s, k), |nodes|) && policies == old(policies) + |nodes|
      ensures files == old(files) + FilesOf(Inherited(s, k), |nodes|)
      ensures err.None? && old(oldmm.totalVm) == Total(s, |s|)
        ==> mm.totalVm == Total(Inherited(s, |s|), |Inherited(s, |s|)|)
      ensures |nodes| == |at| && (forall i, j :: 0 <= i < j < |at| ==> at[i] < at[j])
      ensures forall j :: 0 <= j < k ==> (j in at <==> !s[j].flags.dontCopy)
      ensures forall i :: 0 <= i < |at| ==>
        && at[i] < k && var (m, was) := (nodes[i].mapping, s[at[i]]);
        && m.start == was.start && m.end == was.end && m.file == was.file
        && m.flags.account == was.flags.account && m.flags.wipeOnFork == was.flags.wipeOnFork
        && !m.flags.dontCopy && !m.flags.locked && !m.flags.lockOnFault
    {
      err, nodes, k := DupList(mm, oldmm, fails, olds, s);
      at := InheritedPlaces(s, k);
      NodesHold(nodes, Inherited(s, k), s, at);
      forall i | 0 <= i < |at| ensures at[i] in at && !s[at[i]].flags.dontCopy {}
    }

    /** Locks, the callees before and after, and the list in between. */
    method DupList(mm: Mm, oldmm: Mm, fails: (nat, Step) -> bool, ghost olds: seq<Vma>, ghost s: seq<Mapping>)
      returns (err: Option<Error>, ghost nodes: seq<Vma>, ghost k: nat)
      requires mm != oldmm && mm.mmap == null && mm.mapCount == 0
      requires Doubly(oldmm.mmap, olds, s)
      modifies this, mm
      ensures k <= |s| && (err.None? ==> k == |s|)
      ensures err.None? <==>
        && !fails(0, MmapLock) && !fails(0, KsmFork) && !fails(0, KhugepagedFork) && !fails(0, ArchDupMmap)
        && Passes(s, |s|, fails)
      ensures Outcome(s, k, fails, err)
      ensures fresh(nodes) && Doubly(mm.mmap, nodes, Inherited(s, k)) && mm.mapCount == |nodes|
      ensures Taken(old((committed, files, policies)), Inherited(s, k))
      ensures err.None? && old(oldmm.totalVm) == Total(s, |s|)
        ==> mm.totalVm == Total(Inherited(s, |s|), |Inherited(s, |s|)|)
    {
      nodes, k := [], 0;
      if fails(0, MmapLock) { return Some(EINTR), [], 0; }
      mm.totalVm := oldmm.totalVm;
      if fails(0, KsmFork) { return Some(Of(KsmFork)), [], 0; }
      if fails(0, KhugepagedFork) { return Some(Of(KhugepagedFork)), [], 0; }
      var tail;
      err, tail, nodes, k := CopyList(mm, oldmm, fails, olds, s);
      if err.None? {
        InheritedTotal(s, k);
        err := if fails(0, ArchDupMmap) then Some(Of(ArchDupMmap)) else None;
      }
    }
  }

  /** mpnt is the k-th node of the list, or the end. */
  ghost predicate At(olds: seq<Vma>, s: seq<Mapping>, mpnt: Vma?, k: nat) {
    k <= |s| == |olds| && mpnt == if k < |s| then olds[k] else null
  }

  lemma Advance(head: Vma?, olds: seq<Vma>, s: seq<Mapping>, mpnt: Vma, k: nat)
    requires Doubly(head, olds, s) && At(olds, s, mpnt, k)
    ensures k < |s| && mpnt in olds && mpnt.mapping == s[k] && At(olds, s, mpnt.next, k + 1)
  {
    assert NodeAt(olds, s, k);
  }

  lemma ExtendTaken(s: seq<Mapping>, m: Mapping)
    ensures Charged(s + [m], |s| + 1) == Charged(s, |s|) + if m.flags.account then Pages(m) else 0
    ensures FilesOf(s + [m], |s| + 1) == FilesOf(s, |s|) + if m.file.Some? then multiset{m.file.value} else multiset{}
  {
    SameBefore(s, m, |s|);
  }
}
