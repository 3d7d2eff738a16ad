/** From a command line to jobs, stages, arguments and redirections: strtok, clean and the four
    sscanf attempts. */
module ShellParser {
  import opened CStrings
  import opened Lists
  import opened ShellText

  // ---- strtok

  function SkipDelim(s: string, d: char): (r: string)
    ensures |r| <= |s| && (r != [] ==> r[0] != d)
  {
    if s != [] && s[0] == d then SkipDelim(s[1..], d) else s
  }

  function UpTo(s: string, d: char): (r: string)
    ensures r <= s && d !in r && (|r| < |s| ==> s[|r|] == d)
  {
    if s == [] || s[0] == d then [] else [s[0]] + UpTo(s[1..], d)
  }

  /** What strtok keeps for the next call, given the text from the token on. */
  function Rest(s: string, d: char): (r: string)
    ensures |r| <= |s| && (s != [] && s[0] != d ==> |r| < |s|)
  {
    var n := |UpTo(s, d)|;
    if n < |s| then s[n + 1..] else []
  }

  /** All the tokens strtok finds. */
  function Tokens(s: string, d: char): seq<string>
    decreases |s|
  {
    var r := SkipDelim(s, d);
    if r == [] then [] else [UpTo(r, d)] + Tokens(Rest(r, d), d)
  }

  /** The string that starts at p. */
  function Text(line: seq<char>, p: nat): string
    requires p <= |line|
  {
    TextOf(line[p..])
  }

  ghost predicate Ends(line: seq<char>, p: nat) {
    p <= |line| && NUL in line[p..]
  }

  lemma TextStep(line: seq<char>, p: nat)
    requires Ends(line, p)
    ensures p < |line| && Text(line, p) == if line[p] == NUL then [] else [line[p]] + Text(line, p + 1)
    ensures line[p] != NUL ==> Ends(line, p + 1)
  {
    assert line[p..][1..] == line[p + 1..];
  }

  lemma {:induction false} TextDrop(line: seq<char>, p: nat, k: nat)
    requires Ends(line, p) && k <= |Text(line, p)|
    ensures Ends(line, p + k) && Text(line, p + k) == Text(line, p)[k..] && line[p..p + k] == Text(line, p)[..k]
    decreases k
  {
    if k > 0 {
      TextStep(line, p);
      TextDrop(line, p + 1, k - 1);
      var c, t := line[p], Text(line, p + 1);
      assert ([c] + t)[k..] == t[k - 1..] && ([c] + t)[..k] == [c] + t[..k - 1];
      assert line[p..p + k] == [c] + line[p + 1..p + k];
    }
  }

  lemma SkipStep(line: seq<char>, p: nat, d: char)
    requires Ends(line, p) && d != NUL
    ensures p < |line|
    ensures if line[p] == d then Ends(line, p + 1) && SkipDelim(Text(line, p), d) == SkipDelim(Text(line, p + 1), d)
      else SkipDelim(Text(line, p), d) == Text(line, p)
  {
    TextStep(line, p);
  }

  method SkipDelims(buf: array<char>, from: nat, d: char) returns (tok: nat)
    requires Ends(buf[..], from) && d != NUL
    ensures from <= tok && Ends(buf[..], tok) && Text(buf[..], tok) == SkipDelim(Text(buf[..], from), d)
  {
    tok := from;
    SkipStep(buf[..], tok, d);
    while buf[tok] == d
      invariant from <= tok < buf.Length && Ends(buf[..], tok)
      invariant SkipDelim(Text(buf[..], tok), d) == SkipDelim(Text(buf[..], from), d)
      decreases buf.Length - tok
    {
      SkipStep(buf[..], tok, d);
      tok := tok + 1;
      SkipStep(buf[..], tok, d);
    }
    SkipStep(buf[..], tok, d);
  }

  /** The token goes on at p. */
  lemma EndStep(line: seq<char>, p: nat, d: char)
    requires Ends(line, p) && p < |line| && line[p] != NUL && line[p] != d
    ensures Ends(line, p + 1) && |Text(line, p)| == 1 + |Text(line, p + 1)|
    ensures |UpTo(Text(line, p), d)| == 1 + |UpTo(Text(line, p + 1), d)|
  {
    TextStep(line, p);
    assert Text(line, p)[1..] == Text(line, p + 1);
  }

  /** The token ends at p. */
  lemma EndStop(line: seq<char>, p: nat, d: char)
    requires Ends(line, p) && p < |line| && (line[p] == NUL || line[p] == d)
    ensures UpTo(Text(line, p), d) == [] && (line[p] == NUL <==> |Text(line, p)| == 0)
  {
    TextStep(line, p);
  }

  /** The first token of the text at tok, in the buffer. */
  lemma {:induction false} TokenShape(line: seq<char>, tok: nat, d: char)
    requires Ends(line, tok)
    ensures var n := |UpTo(Text(line, tok), d)|;
      && tok + n < |line| && (forall k :: tok <= k < tok + n ==> line[k] != NUL && line[k] != d)
      && (line[tok + n] == NUL || line[tok + n] == d) && (line[tok + n] == NUL <==> n == |Text(line, tok)|)
    decreases |line| - tok
  {
    TextStep(line, tok);
    if line[tok] == NUL || line[tok] == d {
      EndStop(line, tok, d);
    } else {
      EndStep(line, tok, d);
      TokenShape(line, tok + 1, d);
    }
  }

  lemma CutRest(line: seq<char>, tok: nat, n: nat)
    requires Ends(line, tok) && n < |Text(line, tok)|
    ensures tok + n < |line|
    ensures var line' := line[tok + n := NUL];
      Ends(line', tok + n + 1) && Text(line', tok + n + 1) == Text(line, tok)[n + 1..]
  {
    TextDrop(line, tok, n);
    TextStep(line, tok + n);
    TextDrop(line, tok, n + 1);
    assert line[tok + n := NUL][tok + n + 1..] == line[tok + n + 1..];
  }

  lemma CutPrefix(line: seq<char>, tok: nat, n: nat)
    requires Ends(line, tok) && n <= |Text(line, tok)|
    ensures tok + n < |line|
    ensures var line' := line[tok + n := NUL];
      Ends(line', tok) && Text(line', tok) == Text(line, tok)[..n]
  {
    TextDrop(line, tok, n);
    TextStep(line, tok + n);
    var b := line[tok + n := NUL][tok..];
    assert b[..n] == line[tok..tok + n] && b[n] == NUL;
    TextUntilNul(b, Text(line, tok)[..n]);
  }

  /** The token starts at tok; the text to go on with starts at save. */
  ghost predicate Split(line: seq<char>, tok: nat, save: nat, r: string, d: char) {
    && Ends(line, tok) && Text(line, tok) == UpTo(r, d)
    && tok + |UpTo(r, d)| <= save && Ends(line, save) && Text(line, save) == Rest(r, d)
  }

  lemma CutToken(line: seq<char>, tok: nat, d: char)
    requires Ends(line, tok) && |UpTo(Text(line, tok), d)| < |Text(line, tok)|
    ensures var end := tok + |UpTo(Text(line, tok), d)|;
      end < |line| && Split(line[end := NUL], tok, end + 1, Text(line, tok), d)
  {
    var r, n := Text(line, tok), |UpTo(Text(line, tok), d)|;
    assert r[..n] == UpTo(r, d) && r[n + 1..] == Rest(r, d);
    CutPrefix(line, tok, n);
    CutRest(line, tok, n);
  }

  lemma LastToken(line: seq<char>, tok: nat, d: char)
    requires Ends(line, tok) && |UpTo(Text(line, tok), d)| == |Text(line, tok)|
    ensures Split(line, tok, tok + |Text(line, tok)|, Text(line, tok), d)
  {
    TextDrop(line, tok, |Text(line, tok)|);
  }

  /** The token is over at end: the text splits there, once a NUL is in the place of the delimiter. */
  ghost predicate SplitsAt(line: seq<char>, tok: nat, end: nat, d: char) {
    tok <= end < |line| &&
    if line[end] == NUL then Split(line, tok, end, Text(line, tok), d)
    else Split(line[end := NUL], tok, end + 1, Text(line, tok), d)
  }

  lemma SplitAtEnd(line: seq<char>, tok: nat, end: nat, d: char)
    requires Ends(line, tok) && end == tok + |UpTo(Text(line, tok), d)| < |line|
    requires line[end] == NUL <==> end == tok + |Text(line, tok)|
    ensures SplitsAt(line, tok, end, d)
  {
    if line[end] == NUL {
      LastToken(line, tok, d);
    } else {
      CutToken(line, tok, d);
    }
  }

  lemma TokenEnd(line: seq<char>, tok: nat, d: char) returns (stop: nat)
    requires Ends(line, tok)
    ensures SplitsAt(line, tok, stop, d) && (line[stop] == NUL || line[stop] == d)
    ensures forall k :: tok <= k < stop ==> line[k] != NUL && line[k] != d
  {
    stop := tok + |UpTo(Text(line, tok), d)|;
    TokenShape(line, tok, d);
    SplitAtEnd(line, tok, stop, d);
  }

  method FindEnd(buf: array<char>, tok: nat, d: char) returns (end: nat)
    requires Ends(buf[..], tok)
    ensures SplitsAt(buf[..], tok, end, d)
  {
    ghost var line := buf[..];
    ghost var stop := TokenEnd(line, tok, d);
    end := tok;
    while buf[end] != NUL && buf[end] != d
      invariant tok <= end <= stop
      decreases stop - end
    {
      assert line[end] == buf[end];
      end := end + 1;
    }
    assert line[end] == buf[end] && end == stop;
  }

  method CutAt(buf: array<char>, tok: nat, d: char) returns (save: nat)
    requires Ends(buf[..], tok)
    modifies buf
    ensures Split(buf[..], tok, save, old(Text(buf[..], tok)), d)
  {
    save := FindEnd(buf, tok, d);
    if buf[save] != NUL {
      ghost var was := buf[..];
      buf[save] := NUL;
      assert buf[..] == was[save := NUL];
      save := save + 1;
    }
  }

  /** strtok(buf + from, d): where the token starts, and where the next call goes on. */
  method Strtok(buf: array<char>, from: nat, d: char) returns (tok: Option<nat>, save: nat)
    requires Ends(buf[..], from) && d != NUL
    modifies buf
    ensures var r := SkipDelim(old(Text(buf[..], from)), d);
      if r == [] then tok == None && buf[..] == old(buf[..])
      else tok.Some? && from <= tok.value && Split(buf[..], tok.value, save, r, d)
  {
    var start := SkipDelims(buf, from, d);
    TextStep(buf[..], start);
    if buf[start] == NUL { return None, start; }
    save := CutAt(buf, start, d);
    tok := Some(start);
  }

  // ---- Collecting the tokens that are not blank

  function Got<T>(f: string -> Option<T>, t: string): seq<T> {
    if f(t).Some? then [f(t).value] else []
  }

  function Collect<T>(tokens: seq<string>, f: string -> Option<T>): seq<T> {
    if tokens == [] then []
    else Got(f, tokens[0]) + Collect(tokens[1..], f)
  }

  /** f ignores blanks that clean would take away. */
  ghost predicate SameFor<T>(f: string -> Option<T>, t: string, inRun: bool) {
    '\n' !in t ==> f(Squeeze(t, inRun)) == f(t) && f(TrimRight(Squeeze(t, inRun))) == f(t)
  }

  ghost predicate Insensitive<T>(f: string -> Option<T>) {
    (forall t, r {:trigger SameFor(f, t, r)} :: SameFor(f, t, r)) && f([]) == None
  }

  function StageOf(t: string): Option<string> {
    if Cleaned(t) == [] then None else Some(Cleaned(t))
  }

  function JobOf(t: string): Option<seq<string>> {
    if Cleaned(t) == [] then None else Some(Collect(Tokens(t, '|'), StageOf))
  }

  function Single(t: string): seq<string> {
    if t == [] then [] else [t]
  }

  lemma {:induction false} TokensAppend(a: string, d: char, b: string)
    requires d !in a
    ensures Tokens(a + [d] + b, d) == Single(a) + Tokens(b, d)
  {
    var s := a + [d] + b;
    if a == [] {
      assert s[1..] == b;
    } else {
      assert s[0] == a[0] && SkipDelim(s, d) == s;
      UpToAppend(a, d, b);
      assert s[|a| + 1..] == b;
    }
  }

  lemma {:induction false} UpToAppend(a: string, d: char, b: string)
    requires d !in a
    ensures UpTo(a + [d] + b, d) == a && UpTo(a, d) == a
  {
    if a != [] {
      assert (a + [d] + b)[1..] == a[1..] + [d] + b;
      UpToAppend(a[1..], d, b);
    }
  }

  lemma {:induction false} TokensAlone(a: string, d: char)
    requires d !in a
    ensures Tokens(a, d) == Single(a)
  {
    UpToAppend(a, d, []);
  }

  lemma {:induction false} CollectLast<T>(x: seq<string>, t: string, f: string -> Option<T>)
    ensures Collect(x + [t], f) == Collect(x, f) + Got(f, t)
  {
    if x == [] {
      assert (x + [t])[1..] == [];
    } else {
      assert (x + [t])[1..] == x[1..] + [t];
      CollectLast(x[1..], t, f);
    }
  }

  lemma CollectNext<T>(ts: seq<string>, i: nat, f: string -> Option<T>)
    requires i < |ts|
    ensures Collect(ts[..i + 1], f) == Collect(ts[..i], f) + Got(f, ts[i])
  {
    CollectLast(ts[..i], ts[i], f);
    assert ts[..i + 1] == ts[..i] + [ts[i]];
  }

  lemma CollectSingle<T>(t: string, ts: seq<string>, f: string -> Option<T>)
    requires f([]) == None
    ensures Collect(Single(t) + ts, f) == Got(f, t) + Collect(ts, f)
    ensures Collect(Single(t), f) == Got(f, t)
  {
    if t == [] {
      assert Single(t) + ts == ts;
    } else {
      assert ([t] + ts)[1..] == ts;
    }
  }

  /** The text after the first delimiter. */
  function Behind(s: string, d: char): (b: string)
    requires d in s
    ensures |b| < |s| && forall c :: c in b ==> c in s
    ensures s == UpTo(s, d) + [d] + b
  {
    var n := |UpTo(s, d)|;
    assert n < |s|;
    s[n + 1..]
  }

  lemma SplitFirst(s: string, d: char)
    requires d in s
    ensures Tokens(s, d) == Single(UpTo(s, d)) + Tokens(Behind(s, d), d)
  {
    TokensAppend(UpTo(s, d), d, Behind(s, d));
  }

  lemma SplitSqueezed(s: string, inRun: bool, d: char)
    requires !Blank(d) && d in s
    ensures Tokens(Squeeze(s, inRun), d) == Single(Squeeze(UpTo(s, d), inRun)) + Tokens(Squeeze(Behind(s, d), false), d)
  {
    var x, y := Squeeze(UpTo(s, d), inRun), Squeeze(Behind(s, d), false);
    SqueezeMembers(UpTo(s, d), inRun);
    SqueezeAppend(UpTo(s, d), d, Behind(s, d), inRun);
    TokensAppend(x, d, y);
  }

  lemma SplitTrimmed(s: string, inRun: bool, d: char)
    requires !Blank(d) && d in s
    ensures Tokens(TrimRight(Squeeze(s, inRun)), d)
      == Single(Squeeze(UpTo(s, d), inRun)) + Tokens(TrimRight(Squeeze(Behind(s, d), false)), d)
  {
    var x, y := Squeeze(UpTo(s, d), inRun), Squeeze(Behind(s, d), false);
    SqueezeMembers(UpTo(s, d), inRun);
    SqueezeAppend(UpTo(s, d), d, Behind(s, d), inRun);
    TrimAppend(x, d, y);
    TokensAppend(x, d, TrimRight(y));
  }

  lemma GotSame<T>(a: string, inRun: bool, f: string -> Option<T>)
    requires Insensitive(f) && '\n' !in a
    ensures Got(f, Squeeze(a, inRun)) == Got(f, a) && Got(f, TrimRight(Squeeze(a, inRun))) == Got(f, a)
  {
    assert SameFor(f, a, inRun);
  }

  lemma CollectSplit<T>(s: string, inRun: bool, d: char, f: string -> Option<T>)
    requires Insensitive(f) && '\n' !in s && !Blank(d) && d in s
    ensures Collect(Tokens(s, d), f) == Got(f, UpTo(s, d)) + Collect(Tokens(Behind(s, d), d), f)
    ensures Collect(Tokens(TrimRight(Squeeze(s, inRun)), d), f)
      == Got(f, UpTo(s, d)) + Collect(Tokens(TrimRight(Squeeze(Behind(s, d), false)), d), f)
  {
    var a, b := UpTo(s, d), Behind(s, d);
    SplitFirst(s, d);
    SplitTrimmed(s, inRun, d);
    GotSame(a, inRun, f);
    CollectSingle(a, Tokens(b, d), f);
    CollectSingle(Squeeze(a, inRun), Tokens(TrimRight(Squeeze(b, false)), d), f);
  }

  lemma CollectWhole<T>(s: string, inRun: bool, d: char, f: string -> Option<T>)
    requires Insensitive(f) && '\n' !in s && !Blank(d) && d !in s
    ensures Collect(Tokens(TrimRight(Squeeze(s, inRun)), d), f) == Collect(Tokens(s, d), f)
  {
    var x := TrimRight(Squeeze(s, inRun));
    GotSame(s, inRun, f);
    assert Tokens(s, d) == Single(s) by { TokensAlone(s, d); }
    assert Tokens(x, d) == Single(x) by {
      SqueezeMembers(s, inRun);
      TokensAlone(x, d);
    }
    CollectSingle(s, [], f);
    CollectSingle(x, [], f);
  }

  /** Cleaning a line first does not change what is collected from its tokens. */
  lemma {:induction false} CollectCleaned<T>(s: string, inRun: bool, d: char, f: string -> Option<T>)
    requires Insensitive(f) && '\n' !in s && !Blank(d)
    ensures Collect(Tokens(TrimRight(Squeeze(s, inRun)), d), f) == Collect(Tokens(s, d), f)
    decreases |s|
  {
    if d in s {
      CollectSplit(s, inRun, d, f);
      CollectCleaned(Behind(s, d), false, d, f);
    } else {
      CollectWhole(s, inRun, d, f);
    }
  }

  lemma StageOfInsensitive()
    ensures Insensitive(StageOf)
  {
    forall t, r ensures SameFor(StageOf, t, r) {
      if '\n' !in t { CleanedPart(t, r); }
    }
  }

  lemma JobOfInsensitive()
    ensures Insensitive(JobOf)
  {
    forall t, r ensures SameFor(JobOf, t, r) {
      if '\n' !in t { JobOfSame(t, r); }
    }
  }

  lemma JobOfSame(t: string, inRun: bool)
    requires '\n' !in t
    ensures JobOf(Squeeze(t, inRun)) == JobOf(t) && JobOf(TrimRight(Squeeze(t, inRun))) == JobOf(t)
  {
    CleanedPart(t, inRun);
    StageOfInsensitive();
    CollectCleaned(t, inRun, '|', StageOf);
    SqueezeMembers(t, inRun);
    CollectCleaned(Squeeze(t, inRun), inRun, '|', StageOf);
    SqueezeTwice(t, inRun, inRun);
  }

  // ---- handle_pipe and parse_command

  /** What handle_pipe runs: the first token cleaned, then whatever is left, cleaned and split again. */
  function StageTexts(s: string): seq<string>
    decreases |s|
  {
    var r := SkipDelim(s, '|');
    if r == [] then []
    else
      var rest := Rest(r, '|');
      [Cleaned(UpTo(r, '|'))] + if rest == [] then [] else StageTexts(Cleaned(rest))
  }

  function PipeOf(t: string): Option<seq<string>> {
    if Cleaned(t) == [] then None else Some(StageTexts(t))
  }

  /** What parse_command runs. */
  function JobTexts(s: string): seq<seq<string>> {
    Collect(Tokens(Cleaned(s), '&'), PipeOf)
  }

  method CleanAt(buf: array<char>, p: nat)
    requires Ends(buf[..], p)
    modifies buf
    ensures Ends(buf[..], p) && Text(buf[..], p) == Cleaned(old(Text(buf[..], p)))
    ensures WrittenWithin(old(buf[..]), buf[..], p, |old(Text(buf[..], p))|)
  {
    ghost var was := buf[..];
    assert buf[p..] == buf[..][p..];
    Clean(buf, p);
    assert buf[p..] == buf[..][p..];
    StillEnds(was, buf[..], p, |Text(was, p)|);
  }

  /** handle_pipe, as far as it takes the line apart. */
  method SplitStages(buf: array<char>, from: nat) returns (stages: seq<string>)
    requires Ends(buf[..], from)
    modifies buf
    ensures stages == StageTexts(old(Text(buf[..], from)))
    decreases |Text(buf[..], from)|
  {
    ghost var r := SkipDelim(Text(buf[..], from), '|');
    var tok, save := Strtok(buf, from, '|');
    if tok.None? { return []; }
    ghost var was := buf[..];
    CleanAt(buf, tok.value);
    SaveIsKept(was, buf[..], tok.value, save, r, '|');
    assert buf[tok.value..] == buf[..][tok.value..];
    var first := TextOf(buf[tok.value..]);
    TextStep(buf[..], save);
    if buf[save] == NUL { return [first]; }
    CleanAt(buf, save);
    var more := SplitStages(buf, save);
    stages := [first] + more;
  }

  /** Cleaning the token leaves what comes after it. */
  lemma SaveIsKept(line: seq<char>, line': seq<char>, tok: nat, save: nat, r: string, d: char)
    requires Split(line, tok, save, r, d) && WrittenWithin(line, line', tok, |Text(line, tok)|)
    ensures Ends(line', save) && Text(line', save) == Rest(r, d)
  {
    assert line'[save..] == line[save..];
  }

  lemma StillEnds(line: seq<char>, line': seq<char>, p: nat, n: nat)
    requires Ends(line, p) && WrittenWithin(line, line', p, n) && n == |Text(line, p)|
    ensures Ends(line', p)
  {
    TextDrop(line, p, n);
    TextStep(line, p + n);
  }

  method StrDup(s: string) returns (buf: array<char>)
    requires NUL !in s
    ensures fresh(buf) && Ends(buf[..], 0) && Text(buf[..], 0) == s
  {
    buf := new char[|s| + 1](i => if 0 <= i < |s| then s[i] else NUL);
    assert buf[..][0..] == buf[..] && buf[..][..|s|] == s && buf[|s|] == NUL;
    TextUntilNul(buf[..], s);
  }

  /** strtok takes the token t off a text and leaves another. */
  ghost predicate Takes(rests: seq<string>, ts: seq<string>, k: nat, d: char) {
    k < |ts| && k + 1 < |rests| &&
    var r := SkipDelim(rests[k], d);
    r != [] && ts[k] == UpTo(r, d) && rests[k + 1] == Rest(r, d)
  }

  /** The tokens taken one after the other, and the texts in between. */
  ghost predicate Chain(ts: seq<string>, rests: seq<string>, d: char) {
    && |rests| == |ts| + 1 && SkipDelim(rests[|ts|], d) == []
    && forall k: nat {:trigger Takes(rests, ts, k, d)} :: k < |ts| ==> Takes(rests, ts, k, d)
  }

  lemma {:induction false} TokensChain(s: string, d: char) returns (rests: seq<string>)
    ensures Chain(Tokens(s, d), rests, d) && rests[0] == s
    decreases |s|
  {
    var r := SkipDelim(s, d);
    if r == [] {
      rests := [s];
    } else {
      var ts := Tokens(s, d);
      var more := TokensChain(Rest(r, d), d);
      rests := [s] + more;
      assert ts[1..] == Tokens(Rest(r, d), d);
      forall k: nat | k < |ts| ensures Takes(rests, ts, k, d) {
        if k > 0 {
          assert Takes(more, ts[1..], k - 1, d);
        }
      }
    }
  }

  /** strdup(strtok(line, d)). */
  method NextToken(line: array<char>, from: nat, d: char, ghost ts: seq<string>, ghost rests: seq<string>, ghost n: nat)
      returns (token: Option<string>, save: nat)
    requires d != NUL && Chain(ts, rests, d) && n <= |ts| && Ends(line[..], from) && Text(line[..], from) == rests[n]
    modifies line
    ensures token == if n < |ts| then Some(ts[n]) else None
    ensures n < |ts| ==> NUL !in ts[n] && Ends(line[..], save) && Text(line[..], save) == rests[n + 1]
  {
    assert n < |ts| ==> Takes(rests, ts, n, d);
    var tok;
    tok, save := Strtok(line, from, d);
    if tok.None? { return None, from; }
    assert line[tok.value..] == line[..][tok.value..];
    token := Some(TextOf(line[tok.value..]));
  }

  /** The loop over strtok(line, d), which keeps a copy of each token. */
  method SplitTokens(line: array<char>, d: char, ghost ts: seq<string>, ghost rests: seq<string>)
      returns (tokens: seq<string>)
    requires d != NUL && Chain(ts, rests, d) && Ends(line[..], 0) && Text(line[..], 0) == rests[0]
    modifies line
    ensures tokens == ts && forall c :: c in tokens ==> NUL !in c
  {
    var token, from := NextToken(line, 0, d, ts, rests, 0);
    tokens := [];
    while token.Some?
      invariant |tokens| <= |ts| && tokens == ts[..|tokens|] && forall c :: c in tokens ==> NUL !in c
      invariant token == if |tokens| < |ts| then Some(ts[|tokens|]) else None
      invariant token.Some? ==>
        NUL !in token.value && Ends(line[..], from) && Text(line[..], from) == rests[|tokens| + 1]
      decreases |ts| - |tokens|
    {
      tokens := tokens + [token.value];
      token, from := NextToken(line, from, d, ts, rests, |tokens|);
    }
  }

  /** The body of the loop over the commands: a blank one is passed over. */
  method DoCommand(command: string) returns (job: Option<seq<string>>)
    requires NUL !in command
    ensures job == PipeOf(command)
  {
    var copy := StrDup(command);
    CleanAt(copy, 0);
    TextStep(copy[..], 0);
    if copy[0] == NUL { return None; }
    var pipe := StrDup(command);
    var stages := SplitStages(pipe, 0);
    job := Some(stages);
  }

  method DoCommands(commands: seq<string>) returns (jobs: seq<seq<string>>)
    requires forall c :: c in commands ==> NUL !in c
    ensures jobs == Collect(commands, PipeOf)
  {
    jobs := [];
    assert commands[..0] == [];
    for i := 0 to |commands|
      invariant jobs == Collect(commands[..i], PipeOf)
    {
      CollectNext(commands, i, PipeOf);
      var job := DoCommand(commands[i]);
      if job.Some? { jobs := jobs + [job.value]; }
    }
    assert commands[..|commands|] == commands;
  }

  /** parse_command, as far as it takes the line apart. */
  method SplitJobs(line: array<char>) returns (jobs: seq<seq<string>>)
    requires Ends(line[..], 0)
    modifies line
    ensures jobs == JobTexts(old(Text(line[..], 0)))
  {
    CleanAt(line, 0);
    ghost var rests := TokensChain(Text(line[..], 0), '&');
    var commands := SplitTokens(line, '&', Tokens(Text(line[..], 0), '&'), rests);
    jobs := DoCommands(commands);
  }
}
