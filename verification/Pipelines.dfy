/** handle_pipe of the shell: close, dup and fork on descriptor tables compute the composition
    of the stages and give the shell its standard descriptors back. */
module Pipelines {
  /** Where bytes wait to be read: the n-th pipe created, or something outside the shell. A
      terminal counts as two devices, one for each direction. Pipes have no size limit. */
  datatype Stream = Pipe(n: nat) | Device(n: nat)

  /** An open file description: the read or the write end of a stream. */
  datatype End = End(stream: Stream, write: bool)

  type Fds = map<nat, End>

  /** What a stage computes from its whole standard input. */
  type Program = string -> string

  const STDIN := 0
  const STDOUT := 1
  const STDERR := 2

  /** The lowest descriptor not in use, from n on. */
  function LowestFree(fds: Fds, n: nat): (r: nat)
    ensures r !in fds && n <= r && forall k :: n <= k < r ==> k in fds
    decreases |set k | k in fds && k >= n|
  {
    if n !in fds then n
    else
      assert (set k | k in fds && k >= n) == {n} + (set k | k in fds && k >= n + 1);
      LowestFree(fds, n + 1)
  }

  /** No descriptor of the table can still write to the stream. */
  ghost predicate NoWriter(fds: Fds, s: Stream) {
    forall f :: f in fds ==> fds[f] != End(s, true)
  }

  function Compose(stages: seq<Program>, input: string): string {
    if stages == [] then input else Compose(stages[1..], stages[0](input))
  }

  /** The standard descriptors are open, and every open stream exists. */
  ghost predicate Sound(fds: Fds, data: map<Stream, string>, pipes: nat) {
    && STDIN in fds && STDOUT in fds && STDERR in fds
    && (forall f :: f in fds ==> fds[f].stream in data)
    && (forall n: nat :: Pipe(n) in data ==> n < pipes)
  }

  /** Reading a new pipe that nobody writes any more. */
  lemma PipeAsInput(fds: Fds, data: map<Stream, string>, n: nat, text: string)
    requires Sound(fds, data, n)
    ensures var fds', data' := fds[STDIN := End(Pipe(n), false)], data[fds[STDIN].stream := ""][Pipe(n) := text];
      Sound(fds', data', n + 1) && NoWriter(fds', Pipe(n)) && fds'[STDOUT].stream != Pipe(n) && Pipe(n) !in data
  {
  }

  /** Two descriptors that were not in use are the ends of pipe n. */
  ghost predicate WithPipe(before: Fds, after: Fds, fd: (nat, nat), n: nat) {
    && fd.0 !in before && fd.1 !in before && fd.0 != fd.1
    && after == before[fd.0 := End(Pipe(n), false)][fd.1 := End(Pipe(n), true)]
  }

  /** What was read from one stream, to its end, has come out at another, and no third stream has changed. */
  ghost predicate Ran(before: map<Stream, string>, after: map<Stream, string>, from: Stream, to: Stream, out: string) {
    Written(before, after, from, to, out) && from in after && after[from] == ""
  }

  /** What was open is what it was. */
  ghost predicate Kept(before: Fds, after: Fds) {
    forall f :: f in before ==> f in after && after[f] == before[f]
  }

  lemma TwoMore(before: Fds, after: Fds, a: nat, b: nat, x: End, y: End)
    requires a !in before && b !in before && a != b && after == before[a := x][b := y]
    ensures Kept(before, after) && after.Keys == before.Keys + {a, b} && |after| == |before| + 2
  {
    OneMore(before, a, x);
    OneMore(before[a := x], b, y);
  }

  lemma OneMore(fds: Fds, a: nat, x: End)
    requires a !in fds
    ensures fds[a := x].Keys == fds.Keys + {a} && |fds[a := x]| == |fds| + 1
  {
    assert |fds[a := x].Keys| == |fds.Keys + {a}|;
  }

  lemma KeptOn(a: Fds, b: Fds, c: Fds)
    requires Kept(a, b) && Kept(b, c)
    ensures Kept(a, c)
  {
  }

  /** One stream has grown by out; the others are as they were, but for the one that is read. */
  ghost predicate Written(before: map<Stream, string>, after: map<Stream, string>, from: Stream, to: Stream,
      out: string) {
    && to in before && to in after && after[to] == before[to] + out
    && forall s :: s in before && s != from && s != to ==> s in after && after[s] == before[s]
  }

  lemma WrittenOn(a: map<Stream, string>, b: map<Stream, string>, c: map<Stream, string>, from: Stream, to: Stream,
      x: string, y: string)
    requires Written(a, b, from, to, x) && Ran(b, c, from, to, y)
    ensures Written(a, c, from, to, x + y)
  {
    assert a[to] + x + y == a[to] + (x + y);
  }

  lemma PutBack(before: Fds, after: Fds, fd: (nat, nat), n: nat, saved: nat, data: map<Stream, string>, pipes: nat)
    requires STDIN in before && saved in before && WithPipe(before, after, fd, n) && Sound(after, data, pipes)
    ensures WithPipe(before[STDIN := before[saved]], after[STDIN := after[saved]], fd, n)
    ensures Sound(after[STDIN := after[saved]], data, pipes)
  {
  }

  lemma SavedIsKept(fds: Fds, mid: End, saved: nat)
    requires STDOUT in fds && saved in fds && saved > STDERR
    ensures var fds' := fds[STDIN := mid];
      fds'[STDOUT] == fds[STDOUT] && fds'[STDIN := fds'[saved]] == fds[STDIN := fds[saved]]
  {
  }

  /** A stage into the last stream, with a pipe n that nobody uses. */
  lemma RanIntoOutput(d: map<Stream, string>, n: nat, from: Stream, to: Stream, out: string)
    requires from in d && to in d && from != to && Pipe(n) !in d
    ensures var before := d[Pipe(n) := ""];
      Ran(d, before[from := ""][to := before[to] + out], from, to, out)
  {
  }

  /** A stage into pipe n, and the rest from there. */
  lemma RanThrough(d: map<Stream, string>, d': map<Stream, string>, n: nat, from: Stream, to: Stream,
      stages: seq<Program>)
    requires stages != [] && from in d && to in d && from != to && Pipe(n) !in d
    requires var text := stages[0](d[from]);
      Ran(d[from := ""][Pipe(n) := text], d', Pipe(n), to, Compose(stages[1..], text))
    ensures Ran(d, d', from, to, Compose(stages, d[from]))
  {
  }

  class Shell {
    var fds: Fds                   // the shell's own descriptor table
    var data: map<Stream, string>  // unread bytes
    var pipes: nat                 // pipes created so far
    var children: set<nat>         // forked and not yet waited for
    var pids: nat                  // processes created so far
    var fd: (nat, nat)             // the globals fd[2], save_in and save_out
    var saveIn: nat
    var saveOut: nat

    ghost predicate Valid()
      reads this
    {
      Sound(fds, data, pipes) && forall p :: p in children ==> p < pids
    }

    /** pipe(2): two new descriptors, the lowest free ones, the read end first. */
    method MakePipe()
      requires Valid()
      modifies this`fds, this`data, this`pipes, this`fd
      ensures Valid() && pipes == old(pipes) + 1
      ensures fd.0 == LowestFree(old(fds), 0) && fd.1 !in old(fds) && fd.0 != fd.1
      ensures fds == old(fds)[fd.0 := End(Pipe(old(pipes)), false)][fd.1 := End(Pipe(old(pipes)), true)]
      ensures fd.0 > STDERR && fd.1 > STDERR && fds - {fd.0, fd.1} == old(fds)
      ensures data == old(data)[Pipe(old(pipes)) := ""]
    {
      var r := LowestFree(fds, 0);
      var w := LowestFree(fds[r := End(Pipe(pipes), false)], 0);
      fd := (r, w);
      fds := fds[r := End(Pipe(pipes), false)][w := End(Pipe(pipes), true)];
      data := data[Pipe(pipes) := ""];
      pipes := pipes + 1;
    }

    method Fork() returns (pid: nat, table: Fds)
      requires Valid()
      modifies this`children, this`pids
      ensures Valid() && pid !in old(children) && children == old(children) + {pid} && table == fds
    {
      pid := pids;
      pids := pids + 1;
      children := children + {pid};
      table := fds;
    }

    /** A stage runs to its end: it reads standard input up to end of file, which it sees only
        when nobody, itself included, can still write there, and writes what it computes. */
    method Exec(table: Fds, stage: Program)
      requires Valid() && STDIN in table && STDOUT in table
      requires table[STDIN].stream in data && table[STDOUT].stream in data
      requires !table[STDIN].write && table[STDOUT].write && table[STDIN].stream != table[STDOUT].stream
      requires NoWriter(fds, table[STDIN].stream) && NoWriter(table, table[STDIN].stream)
      modifies this`data
      ensures Valid()
      ensures var from := table[STDIN].stream; var to := table[STDOUT].stream;
        data == old(data)[from := ""][to := old(data)[to] + stage(old(data)[from])]
    {
      var input := data[table[STDIN].stream];
      data := data[table[STDIN].stream := ""];
      data := data[table[STDOUT].stream := data[table[STDOUT].stream] + stage(input)];
    }

    /** waitpid(-1): some child that has ended. */
    method WaitAny() returns (pid: nat)
      requires children != {}
      modifies this`children
      ensures pid in old(children) && children == old(children) - {pid}
    {
      pid :| pid in children;
      children := children - {pid};
    }

    /** The child of a stage that is not the last: its output goes into the new pipe. */
    method RunIntoPipe(table: Fds, stage: Program)
      requires Valid() && table == fds && fd.0 in fds && fd.1 in fds && fd.0 > STDERR && fd.1 > STDERR && fd.0 != fd.1
      requires fds[fd.1].write && fds[fd.1].stream != fds[STDIN].stream && !fds[STDIN].write
      requires NoWriter(fds, fds[STDIN].stream)
      modifies this`data
      ensures Valid()
      ensures var from := fds[STDIN].stream; var to := fds[fd.1].stream;
        data == old(data)[from := ""][to := old(data)[to] + stage(old(data)[from])]
    {
      var t := table - {fd.0};
      t := t - {STDOUT};
      var one := LowestFree(t, 0);
      t := t[one := t[fd.1]];
      t := t - {fd.1};
      Exec(t, stage);
    }

    /** Ready to run a stage on standard input. */
    ghost predicate CanRun()
      reads this
    {
      && Valid() && children == {}
      && !fds[STDIN].write && fds[STDOUT].write && fds[STDOUT].stream != fds[STDIN].stream
      && NoWriter(fds, fds[STDIN].stream)
    }

    /** The parent's side: its standard input becomes the read end, and no descriptor of the new
        pipe stays open. */
    method ReadFromPipe()
      requires fd.0 in fds && fd.1 in fds && fd.0 > STDERR && fd.1 > STDERR && fd.0 != fd.1 && STDIN in fds
      modifies this`fds
      ensures fds == (old(fds) - {fd.0, fd.1})[STDIN := old(fds)[fd.0]]
    {
      fds := fds - {fd.1};
      fds := fds - {STDIN};
      var zero := LowestFree(fds, 0);
      fds := fds[zero := fds[fd.0]];
      fds := fds - {fd.0};
    }

    /** The pipe and the child of a stage that is not the last. */
    method StartStage(stage: Program) returns (pid: nat)
      requires CanRun()
      modifies this`fds, this`data, this`pipes, this`fd, this`children, this`pids
      ensures children == {pid} && pid < pids && pipes == old(pipes) + 1 && Pipe(old(pipes)) !in old(data)
      ensures WithPipe(old(fds), fds, fd, old(pipes)) && fd.0 > STDERR && fd.1 > STDERR
      ensures var from := old(fds)[STDIN].stream;
        data == old(data)[from := ""][Pipe(old(pipes)) := stage(old(data)[from])]
    {
      ghost var f, d, n := fds, data, pipes;
      MakePipe();
      assert NoWriter(fds, f[STDIN].stream);
      var table;
      pid, table := Fork();
      RunIntoPipe(table, stage);
      assert "" + stage(d[f[STDIN].stream]) == stage(d[f[STDIN].stream]);
    }

    /** A stage that is not the last: afterwards the shell's standard input is the new pipe. */
    method RunStage(stage: Program)
      requires CanRun()
      modifies this`fds, this`data, this`pipes, this`fd, this`children, this`pids
      ensures CanRun() && pipes == old(pipes) + 1 && Pipe(old(pipes)) !in old(data)
      ensures fds == old(fds)[STDIN := End(Pipe(old(pipes)), false)]
      ensures var from := old(fds)[STDIN].stream;
        data == old(data)[from := ""][Pipe(old(pipes)) := stage(old(data)[from])]
    {
      ghost var f, d, n := fds, data, pipes;
      var pid := StartStage(stage);
      ReadFromPipe();
      assert fds == f[STDIN := End(Pipe(n), false)];
      PipeAsInput(f, d, n, stage(d[f[STDIN].stream]));
      var reaped := WaitAny();
      assert reaped == pid;
    }

    /** The last stage writes to the shell's output. The pipe made for it is used by nobody. */
    method RunToOutput(stage: Program)
      requires CanRun()
      modifies this`fds, this`data, this`pipes, this`fd, this`children, this`pids
      ensures Valid() && children == {} && pipes == old(pipes) + 1 && WithPipe(old(fds), fds, fd, old(pipes))
      ensures Ran(old(data), data, old(fds)[STDIN].stream, old(fds)[STDOUT].stream,
        stage(old(data)[old(fds)[STDIN].stream]))
    {
      ghost var f, d, n := fds, data, pipes;
      MakePipe();
      assert fds[STDIN] == f[STDIN] && fds[STDOUT] == f[STDOUT] && Pipe(n) !in d;
      assert NoWriter(fds, f[STDIN].stream);
      var pid, table := Fork();
      Exec(table, stage);
      RanIntoOutput(d, n, f[STDIN].stream, f[STDOUT].stream, stage(d[f[STDIN].stream]));
      var reaped := WaitAny();
      assert reaped == pid;
    }

    /** Then standard input is put back; the last pipe stays open. */
    method RunLastStage(stage: Program)
      requires CanRun() && saveIn in fds && saveIn > STDERR
      modifies this`fds, this`data, this`pipes, this`fd, this`children, this`pids
      ensures Valid() && children == {} && pipes == old(pipes) + 1
      ensures WithPipe(old(fds)[STDIN := old(fds)[saveIn]], fds, fd, old(pipes))
      ensures Ran(old(data), data, old(fds)[STDIN].stream, old(fds)[STDOUT].stream,
        stage(old(data)[old(fds)[STDIN].stream]))
    {
      ghost var f, n := fds, pipes;
      RunToOutput(stage);
      PutBack(f, fds, fd, n, saveIn, data, pipes);
      fds := fds[STDIN := fds[saveIn]];
    }

    /** handle_pipe below the leader: the remaining stages, fed from standard input. */
    method HandlePipe(stages: seq<Program>)
      requires CanRun() && stages != [] && saveIn in fds && saveIn > STDERR
      modifies this`fds, this`data, this`pipes, this`fd, this`children, this`pids
      ensures Valid() && children == {} && pipes == old(pipes) + |stages|
      ensures WithPipe(old(fds)[STDIN := old(fds)[saveIn]], fds, fd, pipes - 1)
      ensures var from := old(fds)[STDIN].stream;
        Ran(old(data), data, from, old(fds)[STDOUT].stream, Compose(stages, old(data)[from]))
      decreases |stages|, 1
    {
      if |stages| == 1 {
        RunLastStage(stages[0]);
        assert stages[1..] == [];
      } else {
        RunRest(stages);
      }
    }

    /** A stage into a new pipe, and the rest of handle_pipe from there. */
    method RunRest(stages: seq<Program>)
      requires CanRun() && |stages| > 1 && saveIn in fds && saveIn > STDERR
      modifies this`fds, this`data, this`pipes, this`fd, this`children, this`pids
      ensures Valid() && children == {} && pipes == old(pipes) + |stages|
      ensures WithPipe(old(fds)[STDIN := old(fds)[saveIn]], fds, fd, pipes - 1)
      ensures var from := old(fds)[STDIN].stream;
        Ran(old(data), data, from, old(fds)[STDOUT].stream, Compose(stages, old(data)[from]))
      decreases |stages|, 0
    {
      ghost var f, d, n := fds, data, pipes;
      ghost var from, to := f[STDIN].stream, f[STDOUT].stream;
      RunStage(stages[0]);
      SavedIsKept(f, End(Pipe(n), false), saveIn);
      HandlePipe(stages[1..]);
      RanThrough(d, data, n, from, to, stages);
    }

    /** dup(2) of a standard descriptor into save_in or save_out. */
    method Dup(f: nat) returns (copy: nat)
      requires Valid() && f in fds
      modifies this`fds
      ensures Valid() && copy !in old(fds) && copy > STDERR && fds == old(fds)[copy := old(fds)[f]]
    {
      copy := LowestFree(fds, 0);
      fds := fds[copy := fds[f]];
    }

    /** handle_pipe called as leader on a command with a `|`: the output of the whole pipeline is
        the composition of its stages, and of the pipes only the last one stays open. */
    method LeadPipe(stages: seq<Program>)
      requires CanRun() && |stages| > 1 && saveIn in fds && saveIn > STDERR && fds[saveIn] == fds[STDIN]
      modifies this`fds, this`data, this`pipes, this`fd, this`children, this`pids
      ensures CanRun() && pipes == old(pipes) + |stages|
      ensures Kept(old(fds), fds) && fds.Keys == old(fds).Keys + {fd.0, fd.1} && |fds| == |old(fds)| + 2
      ensures fds[fd.0] == End(Pipe(pipes - 1), false) && fds[fd.1] == End(Pipe(pipes - 1), true)
      ensures var from := old(fds)[STDIN].stream;
        Ran(old(data), data, from, old(fds)[STDOUT].stream, Compose(stages, old(data)[from]))
    {
      ghost var f := fds;
      assert f[STDIN := f[saveIn]] == f;
      RunRest(stages);
      TwoMore(f, fds, fd.0, fd.1, End(Pipe(pipes - 1), false), End(Pipe(pipes - 1), true));
      assert NoWriter(fds, f[STDIN].stream);
    }

    /** One command of parse_command: save the standard descriptors, then run the pipeline if
        there is a `|`. What was open is as it was, standard descriptors included; left behind
        are the two saved copies and the last pipe. */
    method RunPipeline(stages: seq<Program>) returns (handled: bool)
      requires CanRun() && stages != []
      modifies this
      ensures CanRun() && (handled <==> |stages| > 1)
      ensures Kept(old(fds), fds)
      ensures fds.Keys == old(fds).Keys + if handled then {saveIn, saveOut} + {fd.0, fd.1} else {saveIn, saveOut}
      ensures |fds| == |old(fds)| + if handled then 4 else 2
      ensures var from, to := old(fds)[STDIN].stream, old(fds)[STDOUT].stream;
        if handled then Ran(old(data), data, from, to, Compose(stages, old(data)[from])) else data == old(data)
    {
      ghost var f := fds;
      SaveStandard();
      handled := |stages| > 1;
      if handled {
        ghost var g := fds;
        assert g[STDIN] == f[STDIN] && g[STDOUT] == f[STDOUT];
        LeadPipe(stages);
        KeptOn(f, g, fds);
        assert fds.Keys == f.Keys + ({saveIn, saveOut} + {fd.0, fd.1});
      }
    }

    /** save_in = dup(STDIN_FILENO); save_out = dup(STDOUT_FILENO). */
    method SaveStandard()
      requires CanRun()
      modifies this`fds, this`saveIn, this`saveOut
      ensures CanRun() && Kept(old(fds), fds) && fds.Keys == old(fds).Keys + {saveIn, saveOut}
        && |fds| == |old(fds)| + 2
      ensures saveIn > STDERR && fds[saveIn] == fds[STDIN] && fds[saveOut] == fds[STDOUT]
    {
      ghost var f := fds;
      saveIn := Dup(STDIN);
      saveOut := Dup(STDOUT);
      TwoMore(f, fds, saveIn, saveOut, f[STDIN], f[STDOUT]);
    }
  }

  /** What commands with a `|` write, one after the other; the first of them reads the whole input. */
  function Outputs(commands: seq<seq<Program>>, input: string): string {
    if commands == [] then ""
    else if |commands[0]| > 1 then Compose(commands[0], input) + Outputs(commands[1..], "")
    else Outputs(commands[1..], input)
  }

  /** The descriptors commands leave open. */
  function LeftOpen(commands: seq<seq<Program>>): nat {
    if commands == [] then 0 else (if |commands[0]| > 1 then 4 else 2) + LeftOpen(commands[1..])
  }

  /** From tables and data f0 and d0 to f and d by the first i commands, which have written out. */
  ghost predicate Along(f0: Fds, d0: map<Stream, string>, f: Fds, d: map<Stream, string>, from: Stream, to: Stream,
                        commands: seq<seq<Program>>, i: nat, out: string) {
    && i <= |commands| && Kept(f0, f) && |f| + LeftOpen(commands[i..]) == |f0| + LeftOpen(commands)
    && Written(d0, d, from, to, out) && from in d0 && from in d
    && out + Outputs(commands[i..], d[from]) == Outputs(commands, d0[from])
  }

  lemma AlongPlain(f0: Fds, d0: map<Stream, string>, f: Fds, d: map<Stream, string>, f': Fds,
                   from: Stream, to: Stream, commands: seq<seq<Program>>, i: nat, out: string)
    requires Along(f0, d0, f, d, from, to, commands, i, out) && i < |commands| && |commands[i]| <= 1
    requires Kept(f, f') && |f'| == |f| + 2
    ensures Along(f0, d0, f', d, from, to, commands, i + 1, out)
  {
    assert commands[i..][0] == commands[i] && commands[i..][1..] == commands[i + 1..];
    KeptOn(f0, f, f');
  }

  lemma AlongPiped(f0: Fds, d0: map<Stream, string>, f: Fds, d: map<Stream, string>, f': Fds, d': map<Stream, string>,
                   from: Stream, to: Stream, commands: seq<seq<Program>>, i: nat, out: string)
    requires Along(f0, d0, f, d, from, to, commands, i, out) && i < |commands| && |commands[i]| > 1
    requires Kept(f, f') && |f'| == |f| + 4 && Ran(d, d', from, to, Compose(commands[i], d[from]))
    ensures Along(f0, d0, f', d', from, to, commands, i + 1, out + Compose(commands[i], d[from]))
  {
    assert commands[i..][0] == commands[i] && commands[i..][1..] == commands[i + 1..];
    KeptOn(f0, f, f');
    WrittenOn(d0, d, d', from, to, out, Compose(commands[i], d[from]));
    JoinOutputs(out, Compose(commands[i], d[from]), Outputs(commands[i + 1..], ""));
  }

  lemma JoinOutputs(a: string, b: string, c: string)
    ensures a + (b + c) == a + b + c
  {
  }

  /** However many commands are run: the output has grown by what those with a `|` compute, in order; every
      descriptor that was open is what it was; and two to four more stay open for each command. */
  method RunAll(shell: Shell, commands: seq<seq<Program>>)
    requires shell.CanRun() && forall c :: c in commands ==> c != []
    modifies shell
    ensures shell.CanRun() && Kept(old(shell.fds), shell.fds)
    ensures |shell.fds| == |old(shell.fds)| + LeftOpen(commands)
    ensures var from, to := old(shell.fds)[STDIN].stream, old(shell.fds)[STDOUT].stream;
      Written(old(shell.data), shell.data, from, to, Outputs(commands, old(shell.data)[from]))
  {
    ghost var from, to, out := shell.fds[STDIN].stream, shell.fds[STDOUT].stream, "";
    ghost var f0, d0 := shell.fds, shell.data;
    for i := 0 to |commands|
      invariant shell.CanRun() && Along(f0, d0, shell.fds, shell.data, from, to, commands, i, out)
    {
      assert commands[i] in commands;
      ghost var f, d := shell.fds, shell.data;
      var handled := shell.RunPipeline(commands[i]);
      if handled {
        AlongPiped(f0, d0, f, d, shell.fds, shell.data, from, to, commands, i, out);
        out := out + Compose(commands[i], d[from]);
      } else {
        AlongPlain(f0, d0, f, d, shell.fds, from, to, commands, i, out);
      }
    }
  }
}
