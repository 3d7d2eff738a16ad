/** /proc/hidden_process: the pids of the cloaked leaders as text. */
module HiddenList {
  import opened CStrings
  import opened Hiding

  /** The pids of the tasks with cloak == 1, in list order. */
  function CloakedPids(w: World, procs: seq<TaskId>): seq<nat> {
    if procs == [] then []
    else
      var p := procs[|procs| - 1];
      CloakedPids(w, procs[..|procs| - 1]) + if p in w.tasks && w.tasks[p].cloak == 1 then [w.tasks[p].pid] else []
  }

  /** These are, in list order, the pids of exactly the places where a cloaked leader stands. */
  lemma {:induction false} CloakedPlaces(w: World, procs: seq<TaskId>) returns (at: seq<nat>)
    ensures |at| == |CloakedPids(w, procs)| && forall i, j :: 0 <= i < j < |at| ==> at[i] < at[j]
    ensures forall k: nat :: k < |procs| ==> (k in at <==> procs[k] in w.tasks && w.tasks[procs[k]].cloak == 1)
    ensures forall i :: 0 <= i < |at| ==>
      at[i] < |procs| && procs[at[i]] in w.tasks && CloakedPids(w, procs)[i] == w.tasks[procs[at[i]]].pid
  {
    if procs == [] {
      at := [];
    } else {
      var n := |procs| - 1;
      at := CloakedPlaces(w, procs[..n]);
      if procs[n] in w.tasks && w.tasks[procs[n]].cloak == 1 { at := at + [n]; }
    }
  }

  /** Each number in decimal, with a blank after it. */
  function Printed(pids: seq<nat>): (s: string)
    ensures NUL !in s
  {
    if pids == [] then [] else Printed(pids[..|pids| - 1]) + Decimal(pids[|pids| - 1]) + " "
  }

  /** Numbers read back: n is the value of the digits since the last blank. */
  function Parsed(s: string, n: nat): seq<nat> {
    if s == [] then []
    else if s[0] == ' ' then [n] + Parsed(s[1..], 0)
    else Parsed(s[1..], n * 10 + if '0' <= s[0] <= '9' then (s[0] - '0') as nat else 0)
  }

  lemma {:induction false} ParseDecimal(n: nat, rest: string)
    ensures Parsed(Decimal(n) + rest, 0) == Parsed(rest, n)
    decreases n
  {
    var d := ['0' + (n % 10) as char];
    var step := Parsed(d + rest, n / 10);
    assert (d + rest)[1..] == rest;
    assert step == Parsed(rest, n);
    if n >= 10 {
      ParseDecimal(n / 10, d + rest);
      assert Decimal(n) + rest == Decimal(n / 10) + (d + rest);
    }
  }

  lemma {:induction false} ParseAppend(pids: seq<nat>, rest: string)
    ensures Parsed(Printed(pids) + rest, 0) == pids + Parsed(rest, 0)
    decreases |pids|
  {
    if pids == [] {
      assert Printed(pids) + rest == rest;
    } else {
      var n := |pids| - 1;
      var tail := " " + rest;
      assert Printed(pids) + rest == Printed(pids[..n]) + (Decimal(pids[n]) + tail);
      ParseAppend(pids[..n], Decimal(pids[n]) + tail);
      ParseDecimal(pids[n], tail);
      assert tail[1..] == rest;
      assert pids == pids[..n] + [pids[n]];
    }
  }

  /** The text reads back as exactly the cloaked leaders, in list order. */
  lemma ListReadsBack(w: World)
    ensures Parsed(Printed(CloakedPids(w, w.procs)), 0) == CloakedPids(w, w.procs)
  {
    ParseAppend(CloakedPids(w, w.procs), "");
    assert Printed(CloakedPids(w, w.procs)) + "" == Printed(CloakedPids(w, w.procs));
  }

  lemma PrintedGrows(w: World, procs: seq<TaskId>, i: nat)
    requires i <= |procs|
    ensures |Printed(CloakedPids(w, procs[..i]))| <= |Printed(CloakedPids(w, procs))|
    decreases |procs| - i
  {
    if i < |procs| {
      assert procs[..i + 1][..i] == procs[..i];
      PrintedNext(w, procs, i);
      PrintedGrows(w, procs, i + 1);
    } else {
      assert procs[..i] == procs;
    }
  }

  lemma PrintedNext(w: World, procs: seq<TaskId>, i: nat)
    requires i < |procs|
    ensures Printed(CloakedPids(w, procs[..i + 1])) == Printed(CloakedPids(w, procs[..i])) +
      if procs[i] in w.tasks && w.tasks[procs[i]].cloak == 1 then Decimal(w.tasks[procs[i]].pid) + " " else ""
  {
    var r := CloakedPids(w, procs[..i]);
    assert procs[..i + 1][..i] == procs[..i];
    if procs[i] in w.tasks && w.tasks[procs[i]].cloak == 1 {
      assert (r + [w.tasks[procs[i]].pid])[..|r|] == r;
    } else {
      assert r + [] == r;
    }
  }

  /** proc_read_hidden_process, for a list that fits its buffer. failed is what copy_to_user could not
      copy; count is not looked at. */
  method Read(w: World, ppos: nat, failed: nat) returns (out: string, ret: nat, ppos': nat)
    requires forall t :: t in w.procs ==> t in w.tasks
    requires |Printed(CloakedPids(w, w.procs))| < 1000 && failed <= |Printed(CloakedPids(w, w.procs))|
    ensures var text := Printed(CloakedPids(w, w.procs));
      out == text[..|text| - failed] && ppos' == ppos + |out| && ret == if ppos' > |text| then 0 else |text|
  {
    var kbuf := new char[1000];
    kbuf[0] := NUL;
    for i := 0 to |w.procs|
      invariant TextOf(kbuf[..]) == Printed(CloakedPids(w, w.procs[..i]))
    {
      PrintedNext(w, w.procs, i);
      PrintedGrows(w, w.procs, i + 1);
      var p := w.procs[i];
      if w.tasks[p].cloak == 1 {
        Strcat(kbuf, Decimal(w.tasks[p].pid) + " ");
      }
    }
    assert w.procs[..|w.procs|] == w.procs;
    var text := TextOf(kbuf[..]);
    var cnt := |text|;
    out, ppos' := text[..cnt - failed], ppos + cnt - failed;
    ret := if ppos' > cnt then 0 else cnt;
  }

  /** A reader that reads until it gets 0 gets the text once, as it was at the first read;
      what the list has become by the second read does not matter. */
  method ReadAll(w: World, later: World) returns (got: string, times: nat)
    requires forall t :: t in w.procs ==> t in w.tasks
    requires forall t :: t in later.procs ==> t in later.tasks
    requires |Printed(CloakedPids(w, w.procs))| < 1000 && |Printed(CloakedPids(later, later.procs))| < 1000
    ensures Parsed(got, 0) == CloakedPids(w, w.procs)
    ensures times == if CloakedPids(w, w.procs) == [] then 1 else 2
  {
    ListReadsBack(w);
    ghost var pids := CloakedPids(w, w.procs);
    assert |Printed(pids)| == 0 <==> pids == [];
    var out, ret, ppos := Read(w, 0, 0);
    assert out == Printed(pids);
    got, times := out, 1;
    if ret != 0 {
      out, ret, ppos := Read(later, ppos, 0);
      assert out[..ret] == "" && got + "" == got;
      got, times := got + out[..ret], times + 1;
    }
  }
}
