/** Command lines as a user means them, and the parser that gets them back. */
module CommandLines {
  import opened Lists
  import opened Redirections
  import opened ShellParser
  import opened ShellText

  // ---- Splitting at & and |, with clean in between, is splitting once and cleaning each part

  ghost predicate NoneBlank(ts: seq<string>) {
    forall t :: t in ts ==> Cleaned(t) != []
  }

  lemma NoneBlankSingle(t: string, inRun: bool, ts: seq<string>)
    requires '\n' !in t && (t != [] ==> Cleaned(t) != []) && NoneBlank(ts)
    ensures NoneBlank(Single(Squeeze(t, inRun)) + ts) && NoneBlank(Single(TrimRight(Squeeze(t, inRun))))
    ensures NoneBlank(Single(Squeeze(t, inRun)))
  {
    CleanedPart(t, inRun);
  }

  lemma NoneBlankJoined(s: string, inRun: bool, d: char)
    requires '\n' !in s && !Blank(d) && d in s && (UpTo(s, d) != [] ==> Cleaned(UpTo(s, d)) != [])
    requires NoneBlank(Tokens(Squeeze(Behind(s, d), false), d))
      && NoneBlank(Tokens(TrimRight(Squeeze(Behind(s, d), false)), d))
    ensures NoneBlank(Tokens(Squeeze(s, inRun), d)) && NoneBlank(Tokens(TrimRight(Squeeze(s, inRun)), d))
  {
    SplitSqueezed(s, inRun, d);
    SplitTrimmed(s, inRun, d);
    NoneBlankSingle(UpTo(s, d), inRun, Tokens(Squeeze(Behind(s, d), false), d));
    NoneBlankSingle(UpTo(s, d), inRun, Tokens(TrimRight(Squeeze(Behind(s, d), false)), d));
  }

  lemma NoneBlankWhole(s: string, inRun: bool, d: char)
    requires '\n' !in s && !Blank(d) && d !in s && (s != [] ==> Cleaned(s) != [])
    ensures NoneBlank(Tokens(Squeeze(s, inRun), d)) && NoneBlank(Tokens(TrimRight(Squeeze(s, inRun)), d))
  {
    SqueezeMembers(s, inRun);
    NoneBlankSingle(s, inRun, []);
    TokensAlone(Squeeze(s, inRun), d);
    TokensAlone(TrimRight(Squeeze(s, inRun)), d);
  }

  lemma {:induction false} NoneBlankSqueezed(s: string, inRun: bool, d: char)
    requires '\n' !in s && !Blank(d) && NoneBlank(Tokens(s, d))
    ensures NoneBlank(Tokens(Squeeze(s, inRun), d)) && NoneBlank(Tokens(TrimRight(Squeeze(s, inRun)), d))
    decreases |s|
  {
    if d in s {
      SplitFirst(s, d);
      assert UpTo(s, d) != [] ==> UpTo(s, d) in Tokens(s, d);
      assert forall t :: t in Tokens(Behind(s, d), d) ==> t in Tokens(s, d);
      NoneBlankSqueezed(Behind(s, d), false, d);
      NoneBlankJoined(s, inRun, d);
    } else {
      TokensAlone(s, d);
      assert s != [] ==> s in Tokens(s, d);
      NoneBlankWhole(s, inRun, d);
    }
  }

  lemma FirstToken(s: string, d: char)
    requires SkipDelim(s, d) != []
    ensures var r := SkipDelim(s, d);
      Tokens(s, d) == [UpTo(r, d)] + Tokens(Rest(r, d), d) && ('\n' !in s ==> '\n' !in r && '\n' !in Rest(r, d))
  {
    SkipMembers(s, d);
  }

  lemma {:induction false} SkipMembers(s: string, d: char)
    ensures forall c :: c in SkipDelim(s, d) ==> c in s
  {
    if s != [] && s[0] == d {
      SkipMembers(s[1..], d);
    }
  }

  lemma FirstStage(s: string)
    requires '\n' !in s && NoneBlank(Tokens(s, '|')) && SkipDelim(s, '|') != []
    ensures var r := SkipDelim(s, '|');
      var rest := Rest(r, '|');
      && |rest| < |s| && '\n' !in rest && NoneBlank(Tokens(rest, '|'))
      && Collect(Tokens(s, '|'), StageOf) == [Cleaned(UpTo(r, '|'))] + Collect(Tokens(rest, '|'), StageOf)
  {
    FirstToken(s, '|');
    var r := SkipDelim(s, '|');
    var rest := Rest(r, '|');
    var t, ts := UpTo(r, '|'), Tokens(rest, '|');
    assert ([t] + ts)[0] == t && ([t] + ts)[1..] == ts;
    assert t in Tokens(s, '|') && forall t' :: t' in ts ==> t' in Tokens(s, '|');
  }

  lemma RestCleaned(rest: string)
    requires '\n' !in rest && NoneBlank(Tokens(rest, '|'))
    ensures '\n' !in Cleaned(rest) && NoneBlank(Tokens(Cleaned(rest), '|'))
    ensures Collect(Tokens(Cleaned(rest), '|'), StageOf) == Collect(Tokens(rest, '|'), StageOf)
  {
    SqueezeMembers(rest, true);
    NoneBlankSqueezed(rest, true, '|');
    StageOfInsensitive();
    CollectCleaned(rest, true, '|', StageOf);
  }

  /** handle_pipe, which cleans the rest of the line again at every stage, runs each token cleaned once. */
  lemma {:induction false} StagesAreTokens(s: string)
    requires '\n' !in s && NoneBlank(Tokens(s, '|'))
    ensures StageTexts(s) == Collect(Tokens(s, '|'), StageOf)
    decreases |s|
  {
    var r := SkipDelim(s, '|');
    if r != [] {
      FirstStage(s);
      var rest := Rest(r, '|');
      if rest != [] {
        RestCleaned(rest);
        StagesAreTokens(Cleaned(rest));
      }
    }
  }

  /** Every command that is not blank has no blank stage. */
  ghost predicate Proper(commands: seq<string>) {
    forall t :: t in commands ==> ProperCommand(t)
  }

  ghost predicate ProperCommand(t: string) {
    '\n' !in t && (Cleaned(t) == [] || NoneBlank(Tokens(t, '|')))
  }

  lemma ProperSqueezed(t: string, inRun: bool)
    requires ProperCommand(t)
    ensures ProperCommand(Squeeze(t, inRun)) && ProperCommand(TrimRight(Squeeze(t, inRun)))
  {
    SqueezeMembers(t, inRun);
    CleanedPart(t, inRun);
    if Cleaned(t) != [] {
      NoneBlankSqueezed(t, inRun, '|');
    }
  }

  lemma ProperSingle(t: string, inRun: bool, ts: seq<string>)
    requires (t != [] ==> ProperCommand(t)) && Proper(ts)
    ensures Proper(Single(Squeeze(t, inRun)) + ts) && Proper(Single(TrimRight(Squeeze(t, inRun))))
  {
    if t != [] { ProperSqueezed(t, inRun); }
  }

  lemma ProperJoined(s: string, inRun: bool)
    requires '\n' !in s && '&' in s && (UpTo(s, '&') != [] ==> ProperCommand(UpTo(s, '&')))
    requires Proper(Tokens(TrimRight(Squeeze(Behind(s, '&'), false)), '&'))
    ensures Proper(Tokens(TrimRight(Squeeze(s, inRun)), '&'))
  {
    SplitTrimmed(s, inRun, '&');
    ProperSingle(UpTo(s, '&'), inRun, Tokens(TrimRight(Squeeze(Behind(s, '&'), false)), '&'));
  }

  lemma ProperWhole(s: string, inRun: bool)
    requires '&' !in s && (s != [] ==> ProperCommand(s))
    ensures Proper(Tokens(TrimRight(Squeeze(s, inRun)), '&'))
  {
    SqueezeMembers(s, inRun);
    TokensAlone(TrimRight(Squeeze(s, inRun)), '&');
    ProperSingle(s, inRun, []);
  }

  lemma {:induction false} ProperAfterClean(s: string, inRun: bool)
    requires '\n' !in s && Proper(Tokens(s, '&'))
    ensures Proper(Tokens(TrimRight(Squeeze(s, inRun)), '&'))
    decreases |s|
  {
    if '&' in s {
      SplitFirst(s, '&');
      assert UpTo(s, '&') != [] ==> UpTo(s, '&') in Tokens(s, '&');
      assert forall t :: t in Tokens(Behind(s, '&'), '&') ==> t in Tokens(s, '&');
      ProperAfterClean(Behind(s, '&'), false);
      ProperJoined(s, inRun);
    } else {
      TokensAlone(s, '&');
      assert s != [] ==> s in Tokens(s, '&');
      ProperWhole(s, inRun);
    }
  }

  lemma {:induction false} SameJobs(commands: seq<string>)
    requires Proper(commands)
    ensures Collect(commands, PipeOf) == Collect(commands, JobOf)
  {
    if commands != [] {
      assert ProperCommand(commands[0]);
      if Cleaned(commands[0]) != [] {
        StagesAreTokens(commands[0]);
      }
      SameJobs(commands[1..]);
    }
  }

  /** parse_command runs the &-separated commands that are not blank, each as its |-separated stages. */
  lemma JobsAreTokens(line: string)
    requires Proper(Tokens(Cut(line), '&'))
    ensures JobTexts(line) == Collect(Tokens(Cut(line), '&'), JobOf)
  {
    ProperAfterClean(Cut(line), true);
    SameJobs(Tokens(Cleaned(line), '&'));
    JobOfInsensitive();
    CollectCleaned(Cut(line), true, '&', JobOf);
  }

  // ---- From what a user means to the text and back

  /** A command and its redirections, and any text that spells them once cleaned. */
  datatype Piece = Piece(text: string, command: string, redi: Redirection, gaps: Gaps)

  predicate Spells(p: Piece) {
    && CommandText(p.command) && FilesFormed(p.redi, p.gaps) && Cleaned(p.text) == Written(p.command, p.redi, p.gaps)
    && '\n' !in p.text && '&' !in p.text && '|' !in p.text
  }

  /** The stage that is meant: the words of the command, and the redirections. */
  function StageMeant(p: Piece): Stage {
    Stage(Words(p.command, []), p.redi)
  }

  predicate Read(p: Piece) {
    Faithful(p.command, p.redi, p.gaps)
  }

  predicate SpellsJob(job: seq<Piece>) {
    job != [] && forall p :: p in job ==> Spells(p)
  }

  function Texts(job: seq<Piece>): (r: seq<string>)
    ensures |r| == |job| && forall i :: 0 <= i < |job| ==> r[i] == job[i].text
  {
    if job == [] then [] else [job[0].text] + Texts(job[1..])
  }

  function Meant(job: seq<Piece>): seq<Option<Stage>> {
    if job == [] then [] else [Some(StageMeant(job[0]))] + Meant(job[1..])
  }

  function PipeTexts(jobs: seq<seq<Piece>>): (r: seq<string>)
    ensures |r| == |jobs| && forall i :: 0 <= i < |jobs| ==> r[i] == Joined(Texts(jobs[i]), '|')
  {
    if jobs == [] then [] else [Joined(Texts(jobs[0]), '|')] + PipeTexts(jobs[1..])
  }

  function AllMeant(jobs: seq<seq<Piece>>): seq<seq<Option<Stage>>> {
    if jobs == [] then [] else [Meant(jobs[0])] + AllMeant(jobs[1..])
  }

  function ParseStages(texts: seq<string>): seq<Option<Stage>> {
    if texts == [] then [] else [ParseStage(texts[0])] + ParseStages(texts[1..])
  }

  function ParseJobs(jobs: seq<seq<string>>): seq<seq<Option<Stage>>> {
    if jobs == [] then [] else [ParseStages(jobs[0])] + ParseJobs(jobs[1..])
  }

  /** Everything the shell makes of a line. */
  function ParseLine(line: string): seq<seq<Option<Stage>>> {
    ParseJobs(JobTexts(line))
  }

  lemma {:induction false} TokensJoined(ts: seq<string>, d: char)
    requires forall t :: t in ts ==> t != [] && d !in t
    ensures Tokens(Joined(ts, d), d) == ts
  {
    if ts == [] {
    } else if |ts| == 1 {
      TokensAlone(ts[0], d);
      assert ts == [ts[0]];
    } else {
      TokensAppend(ts[0], d, Joined(ts[1..], d));
      TokensJoined(ts[1..], d);
      assert ts == [ts[0]] + ts[1..];
    }
  }

  lemma {:induction false} JoinedMembers(ts: seq<string>, d: char, c: char)
    requires ts != [] && c != d
    ensures c in Joined(ts, d) <==> exists t :: t in ts && c in t
  {
    if |ts| > 1 {
      JoinedMembers(ts[1..], d, c);
      assert forall t :: t in ts <==> t == ts[0] || t in ts[1..];
    }
  }

  lemma {:induction false} TrimBlank(s: string)
    ensures TrimRight(s) == [] <==> forall c :: c in s ==> Blank(c)
    decreases |s|
  {
    if s != [] && Blank(s[|s| - 1]) {
      TrimBlank(s[..|s| - 1]);
      assert forall c :: c in s <==> c in s[..|s| - 1] || c == s[|s| - 1];
    } else if s != [] {
      assert s[|s| - 1] in s;
    }
  }

  lemma CleanedBlank(s: string)
    requires '\n' !in s
    ensures Cleaned(s) == [] <==> forall c :: c in s ==> Blank(c)
  {
    TrimBlank(Squeeze(s, true));
    SqueezeMembers(s, true);
  }

  lemma PieceNotBlank(p: Piece)
    requires Spells(p)
    ensures Cleaned(p.text) != [] && p.text != []
  {
    assert p.command != [];
  }

  /** The text of a job is a proper command, and its stages are the cleaned texts of the pieces. */
  lemma JobText(job: seq<Piece>)
    requires SpellsJob(job)
    ensures var t := Joined(Texts(job), '|');
      t != [] && '&' !in t && ProperCommand(t) && JobOf(t) == Some(Collect(Texts(job), StageOf))
  {
    var ts := Texts(job);
    var t := Joined(ts, '|');
    forall x | x in ts ensures x != [] && '|' !in x && '\n' !in x && '&' !in x && Cleaned(x) != [] {
      var i :| 0 <= i < |ts| && ts[i] == x;
      PieceNotBlank(job[i]);
    }
    TokensJoined(ts, '|');
    JoinedMembers(ts, '|', '\n');
    JoinedMembers(ts, '|', '&');
    assert ts[0] in ts;
    CleanedBlank(ts[0]);
    var c :| c in ts[0] && !Blank(c);
    JoinedMembers(ts, '|', c);
    CleanedBlank(t);
  }

  predicate AllRead(job: seq<Piece>) {
    forall p :: p in job ==> Read(p)
  }

  lemma AllReadSplit(job: seq<Piece>)
    requires job != []
    ensures AllRead(job) <==> Read(job[0]) && AllRead(job[1..])
  {
    assert forall p :: p in job <==> p == job[0] || p in job[1..];
  }

  lemma HeadsAndTails<T>(a: T, x: seq<T>, b: T, y: seq<T>)
    ensures [a] + x == [b] + y <==> a == b && x == y
  {
    assert ([a] + x)[0] == a && ([b] + y)[0] == b && ([a] + x)[1..] == x && ([b] + y)[1..] == y;
  }

  lemma FirstParsed(job: seq<Piece>)
    requires job != [] && forall p :: p in job ==> Spells(p)
    ensures ParseStages(Collect(Texts(job), StageOf)) ==
      [ParseStage(Written(job[0].command, job[0].redi, job[0].gaps))] + ParseStages(Collect(Texts(job[1..]), StageOf))
  {
    PieceNotBlank(job[0]);
    var ts := Texts(job);
    assert ts[1..] == Texts(job[1..]);
    var rest := Collect(ts[1..], StageOf);
    assert ([Cleaned(ts[0])] + rest)[1..] == rest;
  }

  lemma {:induction false} StagesMeant(job: seq<Piece>)
    requires forall p :: p in job ==> Spells(p)
    ensures ParseStages(Collect(Texts(job), StageOf)) == Meant(job) <==> AllRead(job)
  {
    if job != [] {
      var p := job[0];
      assert p in job;
      FirstParsed(job);
      CommandExact(p.command, p.redi, p.gaps);
      StagesMeant(job[1..]);
      HeadsAndTails(ParseStage(Written(p.command, p.redi, p.gaps)), ParseStages(Collect(Texts(job[1..]), StageOf)),
                    Some(StageMeant(p)), Meant(job[1..]));
      AllReadSplit(job);
    }
  }

  lemma FirstJob(jobs: seq<seq<Piece>>)
    requires jobs != [] && forall job :: job in jobs ==> SpellsJob(job)
    ensures ParseJobs(Collect(PipeTexts(jobs), JobOf)) ==
      [ParseStages(Collect(Texts(jobs[0]), StageOf))] + ParseJobs(Collect(PipeTexts(jobs[1..]), JobOf))
  {
    assert jobs[0] in jobs;
    JobText(jobs[0]);
    var ts := PipeTexts(jobs);
    assert ts[1..] == PipeTexts(jobs[1..]);
    var first, rest := Collect(Texts(jobs[0]), StageOf), Collect(ts[1..], JobOf);
    assert ([first] + rest)[1..] == rest;
  }

  lemma {:induction false} JobsMeant(jobs: seq<seq<Piece>>)
    requires forall job :: job in jobs ==> SpellsJob(job)
    ensures ParseJobs(Collect(PipeTexts(jobs), JobOf)) == AllMeant(jobs) <==> forall job :: job in jobs ==> AllRead(job)
  {
    if jobs != [] {
      assert jobs[0] in jobs;
      FirstJob(jobs);
      StagesMeant(jobs[0]);
      JobsMeant(jobs[1..]);
      HeadsAndTails(ParseStages(Collect(Texts(jobs[0]), StageOf)), ParseJobs(Collect(PipeTexts(jobs[1..]), JobOf)),
                    Meant(jobs[0]), AllMeant(jobs[1..]));
      assert forall job :: job in jobs <==> job == jobs[0] || job in jobs[1..];
    }
  }

  /** A line that joins spelled commands by | and jobs by &, up to its newline, is parsed as the jobs,
      stages, arguments and redirections that were meant exactly if in no command a tab stands before
      a later word or a blank before a second redirection operator. */
  lemma CommandLineRoundTrip(jobs: seq<seq<Piece>>, line: string)
    requires (forall job :: job in jobs ==> SpellsJob(job)) && Cut(line) == Joined(PipeTexts(jobs), '&')
    ensures ParseLine(line) == AllMeant(jobs) <==> forall job :: job in jobs ==> AllRead(job)
  {
    var ts := PipeTexts(jobs);
    forall t | t in ts ensures t != [] && '&' !in t && ProperCommand(t) {
      var i :| 0 <= i < |ts| && ts[i] == t;
      JobText(jobs[i]);
    }
    TokensJoined(ts, '&');
    JobsAreTokens(line);
    JobsMeant(jobs);
  }
}
