/** handle_redirection: the four sscanf attempts and the argument vector of one stage. */
module Redirections {
  import opened CStrings
  import opened Lists
  import opened ShellParser
  import opened ShellText

  datatype Redirection =
    | NoRedi
    | Out(file: string)
    | In(file: string)
    | OutIn(out: string, in_: string)
    | InOut(in_: string, out: string)

  datatype Stage = Stage(args: seq<string>, redi: Redirection)

  // ---- sscanf

  /** The characters %[^\t\n<>] stops at. */
  predicate Stops(c: char) {
    c == '\t' || c == '\n' || c == '<' || c == '>'
  }

  /** isspace; a blank in a format skips any number of these. */
  predicate Space(c: char) {
    c == ' ' || '\t' <= c <= '\r'
  }

  function Scanned(s: string): (r: string)
    ensures r <= s && forall c :: c in r ==> !Stops(c)
  {
    if s == [] || Stops(s[0]) then [] else [s[0]] + Scanned(s[1..])
  }

  function SkipSpace(s: string): (r: string)
    ensures |r| <= |s|
  {
    if s != [] && Space(s[0]) then SkipSpace(s[1..]) else s
  }

  /** "%[^\t\n<>] op ": the text matched and what is left, if both match. */
  function Field(s: string, op: char): Option<(string, string)> {
    var x := Scanned(s);
    var r := SkipSpace(s[|x|..]);
    if x == [] || r == [] || r[0] != op then None else Some((x, SkipSpace(r[1..])))
  }

  /** "%[^\t\n<>] a %[^\t\n<>]" with both matched. */
  function ScanTwo(s: string, a: char): Option<(string, string)> {
    var f := Field(s, a);
    if f.None? || Scanned(f.value.1) == [] then None else Some((f.value.0, Scanned(f.value.1)))
  }

  /** "%[^\t\n<>] a %[^\t\n<>] b %[^\t\n<>]" with all three matched. */
  function ScanThree(s: string, a: char, b: char): Option<(string, string, string)> {
    var f := Field(s, a);
    if f.None? then None
    else
      var g := ScanTwo(f.value.1, b);
      if g.None? then None else Some((f.value.0, g.value.0, g.value.1))
  }

  function Args(command: string): seq<string> {
    Tokens(Cleaned(command), ' ')
  }

  /** What handle_redirection makes of the text of a stage; None if no attempt reads a command. */
  function ParseStage(s: string): Option<Stage> {
    var oi, io, i, o := ScanThree(s, '>', '<'), ScanThree(s, '<', '>'), ScanTwo(s, '<'), ScanTwo(s, '>');
    if oi.Some? then Some(Stage(Args(oi.value.0), OutIn(oi.value.1, oi.value.2)))
    else if io.Some? then Some(Stage(Args(io.value.0), InOut(io.value.1, io.value.2)))
    else if i.Some? then Some(Stage(Args(i.value.0), In(i.value.1)))
    else if o.Some? then Some(Stage(Args(o.value.0), Out(o.value.1)))
    else if Scanned(s) != [] then Some(Stage(Args(Scanned(s)), NoRedi))
    else None
  }

  // ---- What a user writes

  /** Not a blank of any kind, not an operator. */
  predicate WordChar(c: char) {
    !Space(c) && c != '<' && c != '>' && c != '|' && c != '&' && c != NUL
  }

  predicate Word(s: string) {
    s != [] && forall c :: c in s ==> WordChar(c)
  }

  function Joined(ts: seq<string>, d: char): string {
    if ts == [] then [] else if |ts| == 1 then ts[0] else ts[0] + [d] + Joined(ts[1..], d)
  }

  predicate Gap(s: string) {
    s == "" || s == " " || s == "\t"
  }

  /** The blanks around the operators: before and after the first, before and after the second. */
  datatype Gaps = Gaps(a: string, b: string, c: string, d: string)

  predicate FilesFormed(redi: Redirection, g: Gaps) {
    && Gap(g.a) && Gap(g.b) && Gap(g.c) && Gap(g.d)
    && match redi
       case NoRedi => true
       case Out(f) => Word(f)
       case In(f) => Word(f)
       case OutIn(o, i) => Word(o) && Word(i)
       case InOut(i, o) => Word(i) && Word(o)
  }

  predicate WellFormed(st: Stage, g: Gaps) {
    st.args != [] && (forall t :: t in st.args ==> Word(t)) && FilesFormed(st.redi, g)
  }

  /** Words with any blanks between and around them. */
  predicate CommandText(c: string) {
    (forall x :: x in c ==> Blank(x) || WordChar(x)) && TrimRight(c) != []
  }

  /** The text of a command, with any blanks in it, and its redirections. */
  function Written(command: string, redi: Redirection, g: Gaps): string {
    match redi
    case NoRedi => command
    case Out(f) => command + ">" + g.b + f
    case In(f) => command + "<" + g.b + f
    case OutIn(o, i) => command + ">" + g.b + (o + g.c + "<" + g.d + i)
    case InOut(i, o) => command + "<" + g.b + (i + g.c + ">" + g.d + o)
  }

  function Rendered(st: Stage, g: Gaps): string {
    Written(Joined(st.args, ' ') + if st.redi.NoRedi? then "" else g.a, st.redi, g)
  }

  /** The blank that %[^\t\n<>] takes with it; a tab stops it instead. */
  function Taken(g: string): string {
    if g == " " then " " else ""
  }

  /** A blank before the second operator becomes part of the first file's name. */
  function AsRead(st: Stage, g: Gaps): Stage {
    match st.redi
    case OutIn(o, i) => st.(redi := OutIn(o + Taken(g.c), i))
    case InOut(i, o) => st.(redi := InOut(i + Taken(g.c), o))
    case _ => st
  }

  // ---- sscanf on such a text

  predicate NoStops(s: string) {
    s != [] && forall c :: c in s ==> !Stops(c)
  }

  lemma {:induction false} ScannedUpTo(x: string, y: string)
    requires (forall c :: c in x ==> !Stops(c)) && (y == [] || Stops(y[0]))
    ensures Scanned(x + y) == x
  {
    if x == [] {
      assert x + y == y;
    } else {
      assert (x + y)[1..] == x[1..] + y;
      ScannedUpTo(x[1..], y);
    }
  }

  lemma SkipGap(g: string, y: string)
    requires Gap(g) && y != [] && !Space(y[0])
    ensures SkipSpace(g + y) == y
  {
    if g == "" {
      assert g + y == y;
    } else {
      assert (g + y)[1..] == y;
    }
  }

  lemma FieldOf(x: string, g: string, op: char, h: string, y: string)
    requires NoStops(x) && Gap(g) && Gap(h) && (op == '<' || op == '>') && y != [] && !Space(y[0])
    ensures Field(x + g + [op] + h + y, op) == Some((x + Taken(g), y))
    ensures forall other :: other != op ==> Field(x + g + [op] + h + y, other) == None
  {
    var z, k := x + Taken(g), if g == "\t" then g else "";
    assert x + g + [op] + h + y == z + (k + ([op] + (h + y)));
    FieldAt(z, k, op, h, y);
  }

  lemma FieldAlone(x: string, op: char)
    requires NoStops(x)
    ensures Field(x, op) == None && Scanned(x) == x
  {
    ScannedUpTo(x, []);
    assert x + [] == x;
  }

  // ---- The argument vector

  lemma {:induction false} WordsSplit(a: string, c: char, b: string, word: string)
    requires (forall x :: x in a ==> !Blank(x)) && Blank(c)
    ensures Words(a + [c] + b, word) == Single(word + a) + Words(b, [])
    ensures Words(a, word) == Single(word + a)
  {
    if a == [] {
      assert a + [c] + b == [c] + b && ([c] + b)[1..] == b && word + a == word;
    } else {
      assert (a + [c] + b)[1..] == a[1..] + [c] + b;
      WordsSplit(a[1..], c, b, word + [a[0]]);
      assert word + [a[0]] + a[1..] == word + a;
    }
  }

  /** Without tabs, strtok at blanks finds the words. */
  lemma {:induction false} TokensAreWords(s: string)
    requires '\t' !in s
    ensures Tokens(s, ' ') == Words(s, [])
    decreases |s|
  {
    var a := UpTo(s, ' ');
    if |a| == |s| {
      TokensAlone(s, ' ');
      WordsSplit(s, ' ', [], []);
      assert [] + s == s;
    } else {
      var b := s[|a| + 1..];
      assert s == a + [' '] + b;
      TokensAppend(a, ' ', b);
      WordsSplit(a, ' ', b, []);
      assert [] + a == a;
      TokensAreWords(b);
    }
  }

  lemma {:induction false} WordsOfJoined(ts: seq<string>, end: string)
    requires ts != [] && (forall t :: t in ts ==> Word(t)) && (end == "" || end == " ")
    ensures Words(Joined(ts, ' ') + end, []) == ts
    ensures NoStops(Joined(ts, ' ')) && '\n' !in Joined(ts, ' ') + end && '\t' !in Joined(ts, ' ') + end
    ensures forall c :: c in Joined(ts, ' ') ==> c == ' ' || WordChar(c)
  {
    var t := ts[0];
    assert Word(t) && forall x :: x in t ==> !Blank(x) && WordChar(x);
    assert [] + t == t;
    if |ts| == 1 {
      LastWord(t, end);
      assert ts == [t];
    } else {
      WordsOfJoined(ts[1..], end);
      var r := Joined(ts[1..], ' ') + end;
      assert Joined(ts, ' ') + end == t + [' '] + r;
      WordsSplit(t, ' ', r, []);
      assert ts == [t] + ts[1..];
    }
  }

  lemma LastWord(t: string, end: string)
    requires Word(t) && (end == "" || end == " ")
    ensures Words(t + end, []) == [t]
  {
    assert forall x :: x in t ==> WordChar(x);
    WordsSplit(t, ' ', [], []);
    assert t + "" == t && t + [' '] + [] == t + " " && [] + t == t && Words([], []) == [];
  }

  lemma WordScans(t: string)
    requires Word(t)
    ensures NoStops(t) && !Space(t[0])
  {
    forall c | c in t ensures !Stops(c) {
      assert WordChar(c);
    }
    assert t[0] in t;
  }

  // ---- The command in front of the first operator

  lemma {:induction false} SkipAllSpace(k: string, y: string)
    requires (forall c :: c in k ==> Space(c)) && (y == [] || !Space(y[0]))
    ensures SkipSpace(k + y) == y
  {
    if k == [] {
      assert k + y == y;
    } else {
      assert (k + y)[1..] == k[1..] + y;
      SkipAllSpace(k[1..], y);
    }
  }

  /** A command with no tab before its last word is scanned up to its trailing blanks. */
  lemma ScannedCommand(c: string)
    requires CommandText(c)
    ensures Scanned(c) == UpTo(c, '\t') && (Scanned(c) != [] ==> c[0] != '\t')
    ensures '\t' !in TrimRight(c) ==> TrimRight(c) <= Scanned(c) && Words(Scanned(c), []) == Words(c, [])
    ensures '\t' !in TrimRight(c) ==> forall x :: x in c[|Scanned(c)|..] ==> Blank(x)
  {
    ScannedIsUpTo(c);
    if '\t' !in TrimRight(c) {
      UpToPast(c, TrimRight(c));
      TrimmedTail(c);
      var z, k := Scanned(c), c[|Scanned(c)|..];
      assert c == z + k;
      assert forall x :: x in k ==> x in c[|TrimRight(c)|..] by {
        assert k == c[|TrimRight(c)|..][|z| - |TrimRight(c)|..];
      }
      WordsDropBlanks(z, k);
    }
  }

  lemma {:induction false} ScannedIsUpTo(c: string)
    requires forall x :: x in c ==> Blank(x) || WordChar(x)
    ensures Scanned(c) == UpTo(c, '\t')
  {
    if c != [] {
      assert c[0] in c;
      ScannedIsUpTo(c[1..]);
    }
  }

  lemma {:induction false} UpToPast(c: string, p: string)
    requires p <= c && '\t' !in p
    ensures p <= UpTo(c, '\t')
  {
    if p != [] {
      assert c[0] == p[0] && p[1..] <= c[1..];
      UpToPast(c[1..], p[1..]);
      assert p == [p[0]] + p[1..];
    }
  }

  lemma {:induction false} TrimmedTail(c: string)
    ensures forall x :: x in c[|TrimRight(c)|..] ==> Blank(x)
    decreases |c|
  {
    if c != [] && Blank(c[|c| - 1]) {
      var d := c[..|c| - 1];
      TrimmedTail(d);
      assert c[|TrimRight(c)|..] == d[|TrimRight(c)|..] + [c[|c| - 1]];
    }
  }

  lemma {:induction false} WordsDropBlanks(z: string, k: string)
    requires forall x :: x in k ==> Blank(x)
    ensures Words(z + k, []) == Words(z, [])
    decreases |k|
  {
    if k == [] {
      assert z + k == z;
    } else {
      var front, last := k[..|k| - 1], k[|k| - 1];
      assert last in k && z + k == (z + front) + [last];
      WordsDropBlank(z + front, last, []);
      WordsDropBlanks(z, front);
    }
  }

  lemma FieldAt(z: string, k: string, op: char, h: string, y: string)
    requires NoStops(z) && (forall c :: c in k ==> Space(c)) && (k != [] ==> Stops(k[0]))
    requires Gap(h) && (op == '<' || op == '>') && y != [] && !Space(y[0])
    ensures Field(z + (k + ([op] + (h + y))), op) == Some((z, y))
    ensures forall other :: other != op ==> Field(z + (k + ([op] + (h + y))), other) == None
  {
    var rest := k + ([op] + (h + y));
    ScannedUpTo(z, rest);
    assert (z + rest)[|z|..] == rest;
    SkipAllSpace(k, [op] + (h + y));
    assert ([op] + (h + y))[1..] == h + y;
    SkipGap(h, y);
  }

  lemma JoinField(z: string, k: string, o: string, h: string, y: string)
    ensures z + k + o + h + y == z + (k + (o + (h + y)))
  {
  }

  lemma CommandParts(c: string)
    requires CommandText(c) && '\t' !in TrimRight(c)
    ensures var z, k := Scanned(c), c[|Scanned(c)|..];
      c == z + k && NoStops(z) && (forall x :: x in k ==> Space(x)) && (k != [] ==> Stops(k[0]))
  {
    ScannedCommand(c);
    ScannedStop(c);
  }

  /** The command and what follows its operator. */
  lemma CommandField(c: string, op: char, h: string, y: string)
    requires CommandText(c) && '\t' !in TrimRight(c) && Gap(h) && (op == '<' || op == '>') && y != [] && !Space(y[0])
    ensures Field(c + [op] + h + y, op) == Some((Scanned(c), y))
    ensures forall other :: other != op ==> Field(c + [op] + h + y, other) == None
  {
    CommandParts(c);
    var z, k := Scanned(c), c[|Scanned(c)|..];
    FieldAt(z, k, op, h, y);
    JoinField(z, k, [op], h, y);
  }

  lemma {:induction false} ScannedStop(s: string)
    ensures |Scanned(s)| == |s| || Stops(s[|Scanned(s)|])
  {
    if s != [] && !Stops(s[0]) { ScannedStop(s[1..]); }
  }

  lemma FieldBlocked(z: string, k: string, more: string, op: char)
    requires (forall c :: c in z ==> !Stops(c)) && k != [] && k[0] == '\t' && !Space(k[|k| - 1]) && op !in k
    ensures Field(z + (k + more), op) == None && Scanned(z + (k + more)) == z
  {
    ScannedUpTo(z, k + more);
    assert (z + (k + more))[|z|..] == k + more;
    SkipStopsInside(k, more);
  }

  lemma ThreeParts(c: string, i: nat, j: nat) returns (z: string, k: string, tail: string)
    requires i < j <= |c|
    ensures z == c[..i] && c == z + (k + tail) && k != [] && k[0] == c[i] && k[|k| - 1] == c[j - 1]
    ensures forall x :: x in k ==> x in c
  {
    z, k, tail := c[..i], c[i..j], c[j..];
  }

  /** The part before the tab, the part up to the last word, and the rest. */
  lemma TabParts(c: string, i: nat, j: nat) returns (z: string, k: string, tail: string)
    requires (forall x :: x in c ==> Blank(x) || WordChar(x)) && i < j <= |c| && c[i] == '\t' && !Blank(c[j - 1])
    ensures z == c[..i] && c == z + (k + tail) && k != [] && k[0] == '\t' && !Space(k[|k| - 1])
    ensures '<' !in k && '>' !in k
  {
    z, k, tail := ThreeParts(c, i, j);
    assert c[j - 1] in c;
  }

  lemma JoinTail(z: string, k: string, tail: string, rest: string)
    ensures z + (k + tail) + rest == z + (k + (tail + rest))
  {
  }

  /** A tab before a later word stops the scan there, whatever comes after the command. */
  lemma CommandFieldTab(c: string, rest: string, op: char)
    requires CommandText(c) && '\t' in TrimRight(c) && (op == '<' || op == '>')
    ensures Field(c + rest, op) == None && Scanned(c + rest) == UpTo(c, '\t')
  {
    ScannedIsUpTo(c);
    UpToBefore(c, TrimRight(c));
    var z, k, tail := TabParts(c, |UpTo(c, '\t')|, |TrimRight(c)|);
    assert z == Scanned(c);
    FieldBlocked(z, k, tail + rest, op);
    JoinTail(z, k, tail, rest);
  }

  lemma {:induction false} UpToBefore(c: string, p: string)
    requires p <= c && '\t' in p
    ensures |UpTo(c, '\t')| < |p| && c[|UpTo(c, '\t')|] == '\t'
  {
    if c[0] != '\t' {
      assert p[0] != '\t' && '\t' in p[1..] && p[1..] <= c[1..];
      UpToBefore(c[1..], p[1..]);
    }
  }

  /** Skipping space ends inside a text that ends in something else. */
  lemma {:induction false} SkipStopsInside(k: string, more: string)
    requires k != [] && !Space(k[|k| - 1])
    ensures SkipSpace(k + more) != [] && SkipSpace(k + more)[0] in k
  {
    if Space(k[0]) {
      assert (k + more)[1..] == k[1..] + more;
      SkipStopsInside(k[1..], more);
    }
  }

  lemma OneOperator(c: string, g: Gaps, op: char, f: string)
    requires CommandText(c) && '\t' !in TrimRight(c) && Gap(g.b) && (op == '<' || op == '>') && Word(f)
    ensures var s := c + [op] + g.b + f;
      && ScanThree(s, '>', '<') == None && ScanThree(s, '<', '>') == None
      && ScanTwo(s, op) == Some((Scanned(c), f)) && forall other :: other != op ==> ScanTwo(s, other) == None
  {
    WordScans(f);
    CommandField(c, op, g.b, f);
    FieldAlone(f, '<');
    FieldAlone(f, '>');
  }

  lemma TwoOperators(c: string, g: Gaps, op: char, f: string, op2: char, f2: string)
    requires CommandText(c) && '\t' !in TrimRight(c) && Gap(g.b) && Gap(g.c) && Gap(g.d) && Word(f) && Word(f2)
    requires (op == '<' && op2 == '>') || (op == '>' && op2 == '<')
    ensures var s := c + [op] + g.b + (f + g.c + [op2] + g.d + f2);
      && ScanThree(s, op2, op) == None
      && ScanThree(s, op, op2) == Some((Scanned(c), f + Taken(g.c), f2))
  {
    var y := f + g.c + [op2] + g.d + f2;
    SecondOperator(g, f, op2, f2);
    CommandField(c, op, g.b, y);
  }

  lemma SecondOperator(g: Gaps, f: string, op2: char, f2: string)
    requires Gap(g.c) && Gap(g.d) && Word(f) && Word(f2) && (op2 == '<' || op2 == '>')
    ensures var y := f + g.c + [op2] + g.d + f2;
      y != [] && !Space(y[0]) && ScanTwo(y, op2) == Some((f + Taken(g.c), f2))
  {
    WordScans(f);
    WordScans(f2);
    assert (f + g.c + [op2] + g.d + f2)[0] == f[0];
    FieldOf(f, g.c, op2, g.d, f2);
    FieldAlone(f2, '<');
  }

  /** Without a tab before its last word a command is read as its words, and the files as written but
      for a blank before a second operator. */
  lemma CommandRead(c: string, redi: Redirection, g: Gaps)
    requires CommandText(c) && FilesFormed(redi, g) && '\t' !in TrimRight(c)
    ensures ParseStage(Written(c, redi, g)) == Some(AsRead(Stage(Words(c, []), redi), g))
  {
    ScannedCommand(c);
    ArgsAreWords(Scanned(c));
    match redi
    case NoRedi =>
      NoOperator(c, '<');
      NoOperator(c, '>');
    case Out(f) => OneOperator(c, g, '>', f);
    case In(f) => OneOperator(c, g, '<', f);
    case OutIn(o, i) => TwoOperators(c, g, '>', o, '<', i);
    case InOut(i, o) => TwoOperators(c, g, '<', i, '>', o);
  }

  lemma NoOperator(c: string, op: char)
    requires CommandText(c) && (op == '<' || op == '>')
    ensures Field(c, op) == None
  {
    var k := c[|Scanned(c)|..];
    SkipSpaceMembers(k);
    assert op !in c && forall x :: x in k ==> x in c;
  }

  lemma ArgsAreWords(s: string)
    requires forall c :: c in s ==> !Stops(c)
    ensures Args(s) == Words(s, [])
  {
    assert '\t' !in s && '\n' !in s;
    CleanedKeepsWords(s);
    SqueezeMembers(s, true);
    TokensAreWords(Cleaned(s));
  }

  /** A tab before a later word ends the command there: the words after it and all redirections are lost. */
  lemma TabEndsCommand(c: string, redi: Redirection, g: Gaps)
    requires CommandText(c) && FilesFormed(redi, g) && '\t' in TrimRight(c)
    ensures ParseStage(Written(c, redi, g)) ==
      if c[0] == '\t' then None else Some(Stage(Words(UpTo(c, '\t'), []), NoRedi))
  {
    var s := Written(c, redi, g);
    var rest := s[|c|..];
    assert s == c + rest;
    CommandFieldTab(c, rest, '<');
    CommandFieldTab(c, rest, '>');
    ArgsAreWords(Scanned(s));
  }

  lemma {:induction false} WordsAfterTab(p: string, q: string, word: string)
    ensures |Words(p + "\t" + q, word)| == |Words(p, word)| + |Words(q, [])|
  {
    if p == [] {
      assert p + "\t" + q == "\t" + q && ("\t" + q)[1..] == q;
    } else {
      assert (p + "\t" + q)[1..] == p[1..] + "\t" + q;
      WordsAfterTab(p[1..], q, if Blank(p[0]) then [] else word + [p[0]]);
    }
  }

  lemma {:induction false} SomeWord(s: string, word: string)
    requires word != [] || exists c :: c in s && !Blank(c)
    ensures Words(s, word) != []
  {
    if s != [] {
      if Blank(s[0]) {
        if word == [] { SomeWord(s[1..], []); }
      } else {
        SomeWord(s[1..], word + [s[0]]);
      }
    }
  }

  lemma WordsAreLost(c: string)
    requires CommandText(c) && '\t' in TrimRight(c)
    ensures Words(UpTo(c, '\t'), []) != Words(c, [])
  {
    var t, z := TrimRight(c), UpTo(c, '\t');
    UpToBefore(c, t);
    var q := c[|z| + 1..];
    assert c == z + "\t" + q;
    assert |t| - 1 != |z| && q[|t| - 2 - |z|] == t[|t| - 1];
    WordsAfterTab(z, q, []);
    SomeWord(q, []);
  }

  /** A command with its redirections is read as it was meant exactly if no tab stands before a later
      word and no blank before a second operator. */
  lemma CommandExact(c: string, redi: Redirection, g: Gaps)
    requires CommandText(c) && FilesFormed(redi, g)
    ensures ParseStage(Written(c, redi, g)) == Some(Stage(Words(c, []), redi)) <==> Faithful(c, redi, g)
  {
    if '\t' in TrimRight(c) {
      TabEndsCommand(c, redi, g);
      WordsAreLost(c);
    } else {
      CommandRead(c, redi, g);
      match redi
      case OutIn(o, _) => assert if g.c == " " then |o + Taken(g.c)| > |o| else o + Taken(g.c) == o;
      case InOut(i, _) => assert if g.c == " " then |i + Taken(g.c)| > |i| else i + Taken(g.c) == i;
      case _ =>
    }
  }

  predicate Faithful(c: string, redi: Redirection, g: Gaps) {
    '\t' !in TrimRight(c) && !((redi.OutIn? || redi.InOut?) && g.c == " ")
  }

  lemma RenderedIsCommand(st: Stage, g: Gaps)
    requires WellFormed(st, g)
    ensures var c := Joined(st.args, ' ') + if st.redi.NoRedi? then "" else g.a;
      CommandText(c) && '\t' !in TrimRight(c) && Words(c, []) == st.args
  {
    var j := Joined(st.args, ' ');
    WordsOfJoined(st.args, "");
    assert j + "" == j;
    var c := j + if st.redi.NoRedi? then "" else g.a;
    WordsDropBlanks(j, if st.redi.NoRedi? then "" else g.a);
    JoinedEnds(st.args);
    TrimOneGap(j, if st.redi.NoRedi? then "" else g.a);
  }

  lemma {:induction false} JoinedEnds(ts: seq<string>)
    requires ts != [] && forall t :: t in ts ==> Word(t)
    ensures Joined(ts, ' ') != [] && WordChar(Joined(ts, ' ')[|Joined(ts, ' ')| - 1])
  {
    assert Word(ts[0]) && ts[0][|ts[0]| - 1] in ts[0];
    if |ts| > 1 { JoinedEnds(ts[1..]); }
  }

  lemma TrimOneGap(j: string, g: string)
    requires j != [] && !Blank(j[|j| - 1]) && Gap(g)
    ensures TrimRight(j + g) == j
  {
    if g == "" {
      assert j + g == j;
    } else {
      assert (j + g)[..|j + g| - 1] == j;
    }
  }

  /** What the parser makes of a rendered stage. */
  lemma StageRead(st: Stage, g: Gaps)
    requires WellFormed(st, g)
    ensures ParseStage(Rendered(st, g)) == Some(AsRead(st, g))
  {
    RenderedIsCommand(st, g);
    CommandRead(Joined(st.args, ' ') + if st.redi.NoRedi? then "" else g.a, st.redi, g);
  }

  /** It is the stage that was meant exactly if no blank stands before a second operator. */
  lemma StageRoundTrip(st: Stage, g: Gaps)
    requires WellFormed(st, g)
    ensures ParseStage(Rendered(st, g)) == Some(st) <==> !((st.redi.OutIn? || st.redi.InOut?) && g.c == " ")
  {
    RenderedIsCommand(st, g);
    CommandExact(Joined(st.args, ' ') + if st.redi.NoRedi? then "" else g.a, st.redi, g);
  }

  lemma {:induction false} SkipSpaceMembers(s: string)
    ensures forall c :: c in SkipSpace(s) ==> c in s
  {
    if s != [] && Space(s[0]) {
      SkipSpaceMembers(s[1..]);
    }
  }

  /** The part of handle_redirection that builds argv, and the choice among the attempts. */
  method HandleRedirection(line: string) returns (stage: Option<Stage>)
    requires NUL !in line
    ensures stage == ParseStage(line)
  {
    var command, redi;
    var oi := ScanThree(line, '>', '<');
    var io := ScanThree(line, '<', '>');
    var i, o := ScanTwo(line, '<'), ScanTwo(line, '>');
    if oi.Some? {
      command, redi := oi.value.0, OutIn(oi.value.1, oi.value.2);
    } else if io.Some? {
      command, redi := io.value.0, InOut(io.value.1, io.value.2);
    } else if i.Some? {
      command, redi := i.value.0, In(i.value.1);
    } else if o.Some? {
      command, redi := o.value.0, Out(o.value.1);
    } else {
      command, redi := Scanned(line), NoRedi;
      if command == [] { return None; }
    }
    var buf := StrDup(command);
    CleanAt(buf, 0);
    ghost var rests := TokensChain(Text(buf[..], 0), ' ');
    var args := SplitTokens(buf, ' ', Tokens(Text(buf[..], 0), ' '), rests);
    stage := Some(Stage(args, redi));
  }
}
