/** clean: one pass that normalises blanks in place, against what it is for. */
module ShellText {
  import opened CStrings

  predicate Blank(c: char) {
    c == ' ' || c == '\t'
  }

  /** The text before the first newline. */
  function Cut(s: string): (r: string)
    ensures r <= s && '\n' !in r
    ensures '\n' !in s ==> r == s
  {
    if s == [] || s[0] == '\n' then [] else [s[0]] + Cut(s[1..])
  }

  /** Keep the first character of each run of blanks; a run that continues an earlier one goes. */
  function Squeeze(s: string, inRun: bool): (r: string)
    ensures |r| <= |s|
  {
    if s == [] then []
    else if Blank(s[0]) then (if inRun then [] else [s[0]]) + Squeeze(s[1..], true)
    else [s[0]] + Squeeze(s[1..], false)
  }

  function TrimRight(s: string): (r: string)
    ensures r <= s && (r != [] ==> !Blank(r[|r| - 1]))
  {
    if s != [] && Blank(s[|s| - 1]) then TrimRight(s[..|s| - 1]) else s
  }

  /** What clean makes of a text: cut at the newline, no blanks at the ends, one in between. */
  function Cleaned(s: string): string {
    TrimRight(Squeeze(Cut(s), true))
  }

  /** The blank-separated words; word is the one being read. */
  function Words(s: string, word: string): seq<string> {
    if s == [] then (if word == [] then [] else [word])
    else if Blank(s[0]) then (if word == [] then [] else [word]) + Words(s[1..], [])
    else Words(s[1..], word + [s[0]])
  }

  // ---- Properties of Cleaned

  function Kept(c: char, inRun: bool): string {
    if Blank(c) && inRun then [] else [c]
  }

  lemma SqueezeFirst(c: char, s: string, inRun: bool)
    ensures Squeeze([c] + s, inRun) == Kept(c, inRun) + Squeeze(s, Blank(c))
  {
    assert ([c] + s)[1..] == s;
  }

  lemma JoinFirst(a: string, b: string, c: string, d: string)
    ensures a + (b + c + d) == a + b + c + d
  {
  }

  lemma {:induction false} SqueezeAppend(a: string, c: char, b: string, inRun: bool)
    requires !Blank(c)
    ensures Squeeze(a + [c] + b, inRun) == Squeeze(a, inRun) + [c] + Squeeze(b, false)
  {
    if a == [] {
      assert ([c] + b)[1..] == b && a + [c] + b == [c] + b;
    } else {
      SqueezeAppend(a[1..], c, b, Blank(a[0]));
      SqueezeFirst(a[0], a[1..], inRun);
      SqueezeFirst(a[0], a[1..] + [c] + b, inRun);
      JoinFirst([a[0]], a[1..], [c], b);
      JoinFirst(Kept(a[0], inRun), Squeeze(a[1..], Blank(a[0])), [c], Squeeze(b, false));
      assert a == [a[0]] + a[1..];
    }
  }

  lemma {:induction false} TrimAppend(x: string, c: char, y: string)
    requires !Blank(c)
    ensures TrimRight(x + [c] + y) == x + [c] + TrimRight(y)
    decreases |y|
  {
    var s := x + [c] + y;
    if y != [] && Blank(y[|y| - 1]) {
      assert s[..|s| - 1] == x + [c] + y[..|y| - 1];
      TrimAppend(x, c, y[..|y| - 1]);
    }
  }

  /** Squeezing twice is squeezing once, from whatever state the first began. */
  lemma {:induction false} SqueezeTwice(s: string, inRun: bool, then_: bool)
    ensures Squeeze(Squeeze(s, inRun), then_) == Squeeze(s, inRun || then_)
  {
    if s != [] {
      var r := Squeeze(s[1..], Blank(s[0]));
      if Blank(s[0]) && inRun {
        SqueezeTwice(s[1..], true, then_);
        assert Squeeze(s, inRun) == r;
      } else {
        assert ([s[0]] + r)[1..] == r;
        SqueezeTwice(s[1..], Blank(s[0]), Blank(s[0]));
      }
    }
  }

  lemma {:induction false} SqueezeTrimmed(s: string, inRun: bool)
    ensures TrimRight(Squeeze(TrimRight(s), inRun)) == TrimRight(Squeeze(s, inRun))
    decreases |s|
  {
    if s != [] && Blank(s[|s| - 1]) {
      var a, c := s[..|s| - 1], s[|s| - 1];
      SqueezeTrimmed(a, inRun);
      TrailingBlank(a, c, inRun);
      assert a + [c] == s;
    }
  }

  lemma {:induction false} TrailingBlank(a: string, c: char, inRun: bool)
    requires Blank(c)
    ensures TrimRight(Squeeze(a + [c], inRun)) == TrimRight(Squeeze(a, inRun))
  {
    SqueezeLast(a, c, inRun);
    assert (Squeeze(a, inRun) + [c])[..|Squeeze(a, inRun)|] == Squeeze(a, inRun);
  }

  lemma {:induction false} SqueezeLast(a: string, c: char, inRun: bool)
    requires Blank(c)
    ensures Squeeze(a + [c], inRun) == Squeeze(a, inRun) || Squeeze(a + [c], inRun) == Squeeze(a, inRun) + [c]
  {
    if a == [] {
      assert (a + [c])[1..] == [];
    } else {
      assert (a + [c])[1..] == a[1..] + [c];
      SqueezeLast(a[1..], c, Blank(a[0]));
    }
  }

  /** The parts of a cleaned text are, once cleaned, the cleaned parts of the text. */
  lemma CleanedPart(a: string, inRun: bool)
    requires '\n' !in a
    ensures Cleaned(Squeeze(a, inRun)) == Cleaned(a) && Cleaned(TrimRight(Squeeze(a, inRun))) == Cleaned(a)
  {
    SqueezeMembers(a, inRun);
    SqueezeTwice(a, inRun, true);
    SqueezeTrimmed(Squeeze(a, inRun), true);
  }

  lemma {:induction false} SqueezeMembers(s: string, inRun: bool)
    ensures forall c :: c in Squeeze(s, inRun) ==> c in s
    ensures forall c :: !Blank(c) && c in s ==> c in Squeeze(s, inRun)
  {
    if s != [] {
      SqueezeMembers(s[1..], Blank(s[0]));
    }
  }

  /** Cleaning a clean text changes nothing. */
  lemma CleanedIdempotent(s: string)
    ensures Cleaned(Cleaned(s)) == Cleaned(s)
  {
    CleanedPart(Cut(s), true);
  }

  lemma {:induction false} SqueezeKeepsWords(s: string, word: string, inRun: bool)
    requires inRun ==> word == []
    ensures Words(Squeeze(s, inRun), word) == Words(s, word)
  {
    if s != [] {
      var r := Squeeze(s[1..], Blank(s[0]));
      assert ([s[0]] + r)[1..] == r;
      if Blank(s[0]) {
        SqueezeKeepsWords(s[1..], [], true);
        assert inRun ==> Squeeze(s, inRun) == r && [] + Words(s[1..], []) == Words(s[1..], []);
      } else {
        SqueezeKeepsWords(s[1..], word + [s[0]], false);
      }
    }
  }

  lemma {:induction false} WordsDropBlank(a: string, c: char, word: string)
    requires Blank(c)
    ensures Words(a + [c], word) == Words(a, word)
  {
    if a == [] {
      assert (a + [c])[1..] == [] && Words([], []) == [];
    } else {
      assert (a + [c])[1..] == a[1..] + [c];
      WordsDropBlank(a[1..], c, if Blank(a[0]) then [] else word + [a[0]]);
    }
  }

  lemma {:induction false} TrimKeepsWords(s: string)
    ensures Words(TrimRight(s), []) == Words(s, [])
    decreases |s|
  {
    if s != [] && Blank(s[|s| - 1]) {
      TrimKeepsWords(s[..|s| - 1]);
      WordsDropBlank(s[..|s| - 1], s[|s| - 1], []);
      assert s == s[..|s| - 1] + [s[|s| - 1]];
    }
  }

  /** The words before the newline are what is left. */
  lemma CleanedKeepsWords(s: string)
    ensures Words(Cleaned(s), []) == Words(Cut(s), [])
  {
    TrimKeepsWords(Squeeze(Cut(s), true));
    SqueezeKeepsWords(Cut(s), [], true);
  }

  // ---- The program

  /** All of text up to place p has been squeezed into out. */
  ghost predicate Squeezed(text: string, out: string, p: nat) {
    && |out| <= p <= |text|
    && Squeeze(text, true) == out + Squeeze(text[p..], out == [] || Blank(out[|out| - 1]))
    && ((out == [] || Blank(out[|out| - 1])) && p < |text| ==> !Blank(text[p]))
  }

  lemma SqueezeWord(text: string, out: string, p: nat)
    requires Squeezed(text, out, p) && p < |text| && !Blank(text[p])
    ensures Squeezed(text, out + [text[p]], p + 1)
  {
    assert text[p..][1..] == text[p + 1..];
  }

  lemma {:induction false} SkipRun(text: string, p: nat, q: nat)
    requires p <= q <= |text| && forall k :: p <= k < q ==> Blank(text[k])
    ensures Squeeze(text[p..], true) == Squeeze(text[q..], true)
    decreases q - p
  {
    if p < q {
      assert text[p..][1..] == text[p + 1..];
      SkipRun(text, p + 1, q);
    }
  }

  lemma SqueezeRun(text: string, out: string, p: nat, q: nat)
    requires Squeezed(text, out, p) && p < q <= |text| && forall k :: p <= k < q ==> Blank(text[k])
    requires q < |text| ==> !Blank(text[q])
    ensures Squeezed(text, out + [text[p]], q)
  {
    var c, more := text[p], Squeeze(text[q..], true);
    assert Blank(c) && out != [] && !Blank(out[|out| - 1]);
    SkipRun(text, p + 1, q);
    assert text[p..] == [c] + text[p + 1..];
    SqueezeFirst(c, text[p + 1..], false);
    assert Squeeze(text[p..], false) == [c] + more;
    assert out + ([c] + more) == out + [c] + more;
  }

  /** The text from base on, up to its newline, and the character that ends it. */
  ghost predicate HasText(line: seq<char>, base: nat, text: string, from: nat) {
    && base + |text| < |line| && NUL !in text && '\n' !in text
    && (forall k :: from <= k < |text| ==> line[base + k] == text[k])
    && (line[base + |text|] == NUL || line[base + |text|] == '\n')
  }

  lemma {:induction false} CutEnds(s: string)
    ensures NUL in s ==> |Cut(TextOf(s))| < |s| && HasText(s, 0, Cut(TextOf(s)), 0)
    ensures NUL in s && s[|Cut(TextOf(s))|] != NUL ==> |Cut(TextOf(s))| < |TextOf(s)|
  {
    if NUL in s && s[0] != NUL && s[0] != '\n' {
      CutEnds(s[1..]);
      assert TextOf(s)[1..] == TextOf(s[1..]);
      var r := Cut(TextOf(s[1..]));
      assert Cut(TextOf(s)) == [s[0]] + r;
    }
  }

  lemma TextFrom(line: seq<char>, base: nat)
    requires base <= |line| && NUL in line[base..]
    ensures var text := Cut(TextOf(line[base..]));
      HasText(line, base, text, 0) && (line[base + |text|] != NUL ==> |text| < |TextOf(line[base..])|)
  {
    CutEnds(line[base..]);
    var text := Cut(TextOf(line[base..]));
    assert line[base + |text|] == line[base..][|text|];
    forall k | 0 <= k < |text| ensures line[base + k] == text[k] {
      assert line[base..][k] == line[base + k];
    }
  }

  /** Between two turns of the main loop. */
  ghost predicate State(line: seq<char>, base: nat, text: string, i: nat, character: nat, last: int) {
    && character + i <= |text| && HasText(line, base, text, character + i) && -1 <= last < character
    && Squeezed(text, line[base..base + character], character + i)
    && TrimRight(line[base..base + character]) == line[base..base + last + 1]
  }

  lemma WordStep(line: seq<char>, base: nat, text: string, i: nat, character: nat, last: int)
    requires State(line, base, text, i, character, last) && character + i < |text| && !Blank(text[character + i])
    ensures State(line[base + character := text[character + i]], base, text, i, character + 1, character)
  {
    var out, c := line[base..base + character], text[character + i];
    Stored(line, base, base + character, base + character, c);
    StillHas(line, base, text, character + i, character + 1 + i, character, c);
    SqueezeWord(text, out, character + i);
  }

  lemma StillHas(line: seq<char>, base: nat, text: string, from: nat, from': nat, k: nat, c: char)
    requires HasText(line, base, text, from) && from <= from' && k < from' && k < |text|
    ensures HasText(line[base + k := c], base, text, from')
  {
  }

  lemma RunStep(line: seq<char>, base: nat, text: string, i: nat, character: nat, last: int, i': nat)
    requires State(line, base, text, i, character, last) && i < i' && character + i' <= |text|
    requires forall k :: character + i <= k < character + i' ==> Blank(text[k])
    requires character + i' < |text| ==> !Blank(text[character + i'])
    ensures State(line[base + character := text[character + i]], base, text, i' - 1, character + 1, last)
  {
    var out, c := line[base..base + character], text[character + i];
    StillHas(line, base, text, character + i, character + i', character, c);
    BlankLast(line, base, character, last, c);
    SqueezeRun(text, out, character + i, character + i');
    assert Squeezed(text, line[base + character := c][base..base + character + 1], character + i');
  }

  lemma BlankLast(line: seq<char>, base: nat, character: nat, last: int, c: char)
    requires base + character < |line| && -1 <= last < character && Blank(c)
    requires TrimRight(line[base..base + character]) == line[base..base + last + 1]
    ensures var line' := line[base + character := c];
      && line'[base..base + character + 1] == line[base..base + character] + [c]
      && TrimRight(line'[base..base + character + 1]) == line'[base..base + last + 1]
  {
    var out := line[base..base + character];
    Stored(line, base, base + character, base + character, c);
    Stored(line, base, base + last + 1, base + character, c);
    TrimLast(out, c);
  }

  /** Storing c at k leaves what is before k; with c, the text goes on. */
  lemma Stored(line: seq<char>, base: nat, end: nat, k: nat, c: char)
    requires base <= end <= k < |line|
    ensures line[k := c][base..end] == line[base..end] && line[k := c][base..k + 1] == line[base..k] + [c]
  {
  }

  lemma TrimLast(s: string, c: char)
    requires Blank(c)
    ensures TrimRight(s + [c]) == TrimRight(s)
  {
    assert (s + [c])[..|s|] == s;
  }

  /** Nothing is written outside the n characters from base. */
  ghost predicate WrittenWithin(line: seq<char>, line': seq<char>, base: nat, n: nat) {
    |line'| == |line| && forall k :: 0 <= k < |line| && !(base <= k < base + n) ==> line'[k] == line[k]
  }

  lemma FinalStep(line: seq<char>, base: nat, text: string, i: nat, character: nat, last: int)
    requires State(line, base, text, i, character, last) && character + i == |text|
    ensures TextOf(line[base + last + 1 := NUL][base..]) == TrimRight(Squeeze(text, true))
  {
    var r := line[base..base + last + 1];
    SqueezeMembers(text, true);
    assert text[|text|..] == [] && Squeeze(text, true) == line[base..base + character];
    assert r == TrimRight(Squeeze(text, true));
    assert forall c :: c in r ==> c in text;
    assert line[base + last + 1 := NUL][base..][..|r|] == r;
    TextUntilNul(line[base + last + 1 := NUL][base..], r);
  }

  /** clean, on the string that starts at base. It writes nowhere but over that string. */
  method Clean(line: array<char>, base: nat)
    requires base <= line.Length && NUL in line[base..]
    modifies line
    ensures TextOf(line[base..]) == Cleaned(old(TextOf(line[base..])))
    ensures WrittenWithin(old(line[..]), line[..], base, |old(TextOf(line[base..]))|)
  {
    ghost var text := Cut(TextOf(line[base..]));
    assert line[..][base..] == line[base..];
    TextFrom(line[..], base);
    var i, character, lastNonSpace := CopyLine(line, base, text);
    Terminate(line, base, i, character, lastNonSpace, text);
    assert line[base..] == line[..][base..];
  }

  /** Both loops of clean. */
  method CopyLine(line: array<char>, base: nat, ghost text: string) returns (i: nat, character: nat, lastNonSpace: int)
    requires HasText(line[..], base, text, 0)
    modifies line
    ensures State(line[..], base, text, i, character, lastNonSpace) && character + i == |text|
    ensures WrittenWithin(old(line[..]), line[..], base, |text|)
  {
    i := SkipInitial(line, base, text);
    character, lastNonSpace := 0, -1;
    while line[base + character + i] != NUL && line[base + character + i] != '\n'
      invariant State(line[..], base, text, i, character, lastNonSpace)
      invariant WrittenWithin(old(line[..]), line[..], base, |text|)
      decreases |text| - character - i
    {
      i, lastNonSpace := CopyCharacter(line, base, i, character, lastNonSpace, text);
      character := character + 1;
    }
  }

  method Terminate(line: array<char>, base: nat, ghost i: nat, ghost character: nat, last: int, ghost text: string)
    requires State(line[..], base, text, i, character, last) && character + i == |text|
    modifies line
    ensures base <= line.Length && TextOf(line[..][base..]) == TrimRight(Squeeze(text, true))
    ensures WrittenWithin(old(line[..]), line[..], base,
      if old(line[..])[base + |text|] == NUL then |text| else |text| + 1)
  {
    FinalStep(line[..], base, text, i, character, last);
    ghost var was := line[..];
    line[base + last + 1] := NUL;
    assert line[..] == was[base + last + 1 := NUL];
  }

  lemma Initial(line: seq<char>, base: nat, text: string, i: nat)
    requires HasText(line, base, text, 0) && i <= |text| && forall k :: 0 <= k < i ==> Blank(text[k])
    requires i < |text| ==> !Blank(text[i])
    ensures State(line, base, text, i, 0, -1)
  {
    SkipRun(text, 0, i);
    assert text[0..] == text && line[base..base] == [];
  }

  method SkipInitial(line: array<char>, base: nat, ghost text: string) returns (i: nat)
    requires HasText(line[..], base, text, 0)
    ensures State(line[..], base, text, i, 0, -1)
  {
    i := 0;
    while Blank(line[base + i])
      invariant i <= |text| && forall k :: 0 <= k < i ==> Blank(text[k])
      decreases |text| - i
    {
      i := i + 1;
    }
    Initial(line[..], base, text, i);
  }

  /** The body of the loop; after a run of blanks it has moved i past the rest of the run. */
  method CopyCharacter(line: array<char>, base: nat, i0: nat, character: nat, last: int, ghost text: string)
      returns (i: nat, lastNonSpace: int)
    requires State(line[..], base, text, i0, character, last) && character + i0 < |text|
    modifies line
    ensures i >= i0 && State(line[..], base, text, i, character + 1, lastNonSpace)
    ensures line[..] == old(line[..])[base + character := text[character + i0]]
  {
    i, lastNonSpace := i0, last;
    ghost var was := line[..];
    var c := Store(line, base, i, character, text);
    ghost var now := was[base + character := c];
    assert line[..] == now;
    if !Blank(c) {
      lastNonSpace := character;
      WordStep(was, base, text, i0, character, last);
    } else {
      i := SkipBlanks(line, base, i, character, text);
      RunStep(was, base, text, i0, character, last, i);
      i := i - 1;
    }
  }

  /** line[character] = line[character + i] leaves what is still to be read; the character is read again. */
  method Store(line: array<char>, base: nat, i: nat, character: nat, ghost text: string) returns (c: char)
    requires character + i < |text| && HasText(line[..], base, text, character + i)
    modifies line
    ensures c == text[character + i] && line[..] == old(line[..])[base + character := c]
    ensures HasText(line[..], base, text, character + i)
  {
    line[base + character] := line[base + character + i];
    c := line[base + character + i];
  }

  method SkipBlanks(line: array<char>, base: nat, i0: nat, character: nat, ghost text: string) returns (i: nat)
    requires character + i0 < |text| && HasText(line[..], base, text, character + i0) && Blank(text[character + i0])
    ensures i0 < i && character + i <= |text|
    ensures forall k :: character + i0 <= k < character + i ==> Blank(text[k])
    ensures character + i < |text| ==> !Blank(text[character + i])
  {
    i := i0;
    while Blank(line[base + character + i])
      invariant i0 <= i && character + i <= |text|
      invariant forall k :: character + i0 <= k < character + i ==> Blank(text[k])
      decreases |text| - i
    {
      i := i + 1;
    }
  }
}
