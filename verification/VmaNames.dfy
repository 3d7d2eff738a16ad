/** The names under /proc/pid/map_files: printing two addresses and reading them back. */
module VmaNames {
  import opened Lists

  const ULONG: nat := 0x1_0000_0000_0000_0000

  predicate HexDigit(c: char) {
    '0' <= c <= '9' || 'a' <= c <= 'f' || 'A' <= c <= 'F'
  }

  function DigitValue(c: char): (v: nat)
    ensures v < 16
  {
    if '0' <= c <= '9' then (c - '0') as nat
    else if 'a' <= c <= 'f' then (c - 'a') as nat + 10
    else if 'A' <= c <= 'F' then (c - 'A') as nat + 10
    else 0
  }

  function Digit(v: nat): (c: char)
    requires v < 16
    ensures HexDigit(c) && DigitValue(c) == v && !('A' <= c <= 'F')
  {
    if v < 10 then '0' + v as char else 'a' + (v - 10) as char
  }

  /** %lx. */
  function Hex(n: nat): (s: string)
    ensures s != [] && forall c :: c in s ==> HexDigit(c) && !('A' <= c <= 'F')
    ensures n > 0 ==> s[0] != '0'
  {
    if n < 16 then [Digit(n)] else Hex(n / 16) + [Digit(n % 16)]
  }

  function NameOf(start: nat, end: nat): string {
    Hex(start) + "-" + Hex(end)
  }

  function Value(digits: string): nat {
    if digits == [] then 0 else Value(digits[..|digits| - 1]) * 16 + DigitValue(digits[|digits| - 1])
  }

  /** The digits a text starts with. */
  function Run(s: string): (r: string)
    ensures r <= s && (forall c :: c in r ==> HexDigit(c)) && (|r| < |s| ==> !HexDigit(s[|r|]))
  {
    if s == [] || !HexDigit(s[0]) then [] else [s[0]] + Run(s[1..])
  }

  /** No superfluous zero in front. */
  predicate Plain(digits: string) {
    |digits| > 1 ==> digits[0] != '0'
  }

  /** What the two runs of digits have to be; either may be empty. */
  function Accepted(str: string): Option<(nat, nat)> {
    var a := Run(str);
    if |a| == |str| || str[|a|] != '-' then None
    else
      var b := str[|a| + 1..];
      if Run(b) == b && Plain(a) && Plain(b) && Value(a) < ULONG && Value(b) < ULONG then Some((Value(a), Value(b)))
      else None
  }

  const LOWER: string := "0123456789abcdef"
  const UPPER: string := "0123456789ABCDEF"

  /** A digit stands for its place among the sixteen, in either case; there are no other digits. */
  lemma DigitIsItsPlace(c: char)
    ensures HexDigit(c) <==> c in LOWER || c in UPPER
    ensures HexDigit(c) ==> LOWER[DigitValue(c)] == c || UPPER[DigitValue(c)] == c
  {
    if HexDigit(c) {
      var v := DigitValue(c);
      assert LOWER[v] == c || UPPER[v] == c;
    }
  }

  /** Each digit more in front counts sixteen times as much as the one behind it. */
  lemma {:induction false} DigitInFront(c: char, digits: string)
    ensures Value([c] + digits) == DigitValue(c) * Power(|digits|) + Value(digits)
    decreases |digits|
  {
    var s := [c] + digits;
    if digits == [] {
      assert s[..0] == [];
    } else {
      var n := |digits| - 1;
      DigitInFront(c, digits[..n]);
      assert s[..|s| - 1] == [c] + digits[..n] && s[|s| - 1] == digits[n];
      assert Value(s) == Value([c] + digits[..n]) * 16 + DigitValue(digits[n]);
      Sixteenfold(DigitValue(c), Power(n), Value(digits[..n]), DigitValue(digits[n]));
    }
  }

  lemma Sixteenfold(v: nat, power: nat, rest: nat, last: nat)
    ensures (v * power + rest) * 16 + last == v * (16 * power) + (rest * 16 + last)
  {
  }

  function Power(n: nat): nat {
    if n == 0 then 1 else 16 * Power(n - 1)
  }

  // ---- The program

  lemma {:induction false} RunAt(s: string, n: nat)
    requires n <= |s| && (forall k :: 0 <= k < n ==> HexDigit(s[k])) && (n < |s| ==> !HexDigit(s[n]))
    ensures Run(s) == s[..n]
  {
    if n > 0 {
      RunAt(s[1..], n - 1);
    }
  }

  /** _parse_integer in base 16 over unsigned long long, with its overflow flag. */
  method ParseInteger(s: string) returns (len: nat, res: nat, overflow: bool)
    ensures len == |Run(s)| && res < ULONG
    ensures overflow <==> Value(Run(s)) >= ULONG
    ensures !overflow ==> res == Value(Run(s))
  {
    len, res, overflow := 0, 0, false;
    while len < |s| && HexDigit(s[len])
      invariant len <= |s| && res < ULONG && forall k :: 0 <= k < len ==> HexDigit(s[k])
      invariant if overflow then Value(s[..len]) >= ULONG else res == Value(s[..len])
    {
      var val := DigitValue(s[len]);
      assert s[..len + 1][..len] == s[..len];
      if res >= 0x1000_0000_0000_0000 && res > (ULONG - 1 - val) / 16 {
        overflow := true;
      }
      res, len := (res * 16 + val) % ULONG, len + 1;
    }
    RunAt(s, len);
  }

  lemma ZeroFirst(name: string)
    requires |name| > 0 && name[0] == '0' && (|name| == 1 || name[1] != '-')
    ensures Accepted(name) == None
  {
    if |name| == 1 || !HexDigit(name[1]) {
      RunAt(name, 1);
    } else {
      assert Run(name) == [name[0]] + Run(name[1..]) && Run(name[1..]) != [];
    }
  }

  /** dname_to_vma_addr. */
  method DnameToVmaAddr(name: string) returns (r: Option<(nat, nat)>)
    ensures r == Accepted(name)
  {
    ghost var a := Run(name);
    if |name| > 0 && name[0] == '0' && (|name| == 1 || name[1] != '-') {
      ZeroFirst(name);
      return None;
    }
    var len, sval, overflow := ParseInteger(name);
    if overflow { return None; }
    var rest := name[len..];
    if rest == [] || rest[0] != '-' { return None; }
    rest := rest[1..];
    assert rest == name[|a| + 1..];
    assert |name| > 0 && name[0] == '0' ==> name[1] == '-' && a == [name[0]] + Run(name[1..]) && Plain(a);
    if |rest| > 1 && rest[0] == '0' { return None; }
    var eval;
    len, eval, overflow := ParseInteger(rest);
    if overflow { return None; }
    if len < |rest| { return None; }
    assert Plain(a) && Plain(rest) && Run(rest) == rest;
    r := Some((sval, eval));
  }

  // ---- Printing and reading are inverse

  lemma {:induction false} ValueOfHex(n: nat)
    ensures Value(Hex(n)) == n && Plain(Hex(n))
  {
    if n < 16 {
      assert Hex(n)[..0] == [];
    } else {
      ValueOfHex(n / 16);
      assert Hex(n)[..|Hex(n)| - 1] == Hex(n / 16);
    }
  }

  predicate LowerHex(s: string) {
    forall c :: c in s ==> HexDigit(c) && !('A' <= c <= 'F')
  }

  lemma DigitOfValue(c: char)
    requires HexDigit(c) && !('A' <= c <= 'F')
    ensures Digit(DigitValue(c)) == c && (DigitValue(c) == 0 <==> c == '0')
  {
  }

  lemma HexStep(n: nat, d: nat)
    requires n > 0 && d < 16
    ensures Hex(n * 16 + d) == Hex(n) + [Digit(d)]
  {
  }

  lemma {:induction false} HexOfValue(s: string)
    requires s != [] && Plain(s) && LowerHex(s)
    ensures Hex(Value(s)) == s && (s[0] != '0' ==> Value(s) > 0)
    decreases |s|
  {
    var front, last := s[..|s| - 1], s[|s| - 1];
    assert s == front + [last] && last in s;
    DigitOfValue(last);
    if front == [] {
      assert Value(s) == DigitValue(last);
    } else {
      assert front[0] == s[0] && forall c :: c in front ==> c in s;
      HexOfValue(front);
      HexStep(Value(front), DigitValue(last));
    }
  }

  function Pow16(k: nat): nat {
    if k == 0 then 1 else 16 * Pow16(k - 1)
  }

  lemma {:induction false} HexLength(n: nat, k: nat)
    requires k > 0 && n < Pow16(k)
    ensures |Hex(n)| <= k
  {
    if n >= 16 {
      HexLength(n / 16, k - 1);
    }
  }

  lemma RunsOfName(start: nat, end: nat)
    ensures var name := NameOf(start, end);
      Run(name) == Hex(start) && name[|Hex(start)|] == '-' && name[|Hex(start)| + 1..] == Hex(end)
        && Run(Hex(end)) == Hex(end)
  {
    var name, a, b := NameOf(start, end), Hex(start), Hex(end);
    assert name[|a|] == '-' && forall k :: 0 <= k < |a| ==> name[k] == a[k];
    RunAt(name, |a|);
    assert name[..|a|] == a && name[|a| + 1..] == b;
    RunAt(b, |b|);
    assert b[..|b|] == b;
  }

  /** Every pair of addresses has a name that fits the buffer of map_files with its NUL and is read
      back as that pair. */
  lemma NameReadsBack(start: nat, end: nat)
    requires start < ULONG && end < ULONG
    ensures Accepted(NameOf(start, end)) == Some((start, end)) && |NameOf(start, end)| + 1 <= 34
  {
    RunsOfName(start, end);
    ValueOfHex(start);
    ValueOfHex(end);
    Pow16Of16();
    HexLength(start, 16);
    HexLength(end, 16);
  }

  lemma Pow16Of16()
    ensures Pow16(16) == ULONG
  {
    assert Pow16(4) == 0x1_0000;
    assert Pow16(8) == 0x1_0000_0000;
    assert Pow16(12) == 0x1_0000_0000_0000;
  }

  lemma PartHex(str: string, part: string)
    requires part != [] && Plain(part) && Run(part) == part && forall c :: c in part ==> c in str
    requires forall c :: c in str ==> !('A' <= c <= 'F')
    ensures Hex(Value(part)) == part
  {
    HexOfValue(part);
  }

  /** An accepted lower-case name is the printed form of its result exactly if neither run is empty. */
  lemma AcceptedIsPrinted(str: string)
    requires Accepted(str).Some? && forall c :: c in str ==> !('A' <= c <= 'F')
    ensures str == NameOf(Accepted(str).value.0, Accepted(str).value.1)
      <==> Run(str) != [] && str[|Run(str)| + 1..] != []
  {
    var a := Run(str);
    var b := str[|a| + 1..];
    if a != [] && b != [] {
      assert str == a + "-" + b;
      PartHex(str, a);
      PartHex(str, b);
    } else {
      RunsOfName(Value(a), Value(b));
    }
  }

  /** Empty runs are taken for zero. */
  lemma EmptyRunsAccepted()
    ensures Accepted("-") == Some((0, 0)) && Accepted("5-") == Some((5, 0)) && Accepted("-5") == Some((0, 5))
  {
    RunAt("5-", 1);
    RunAt("5", 1);
    assert "5-"[..1] == "5" && "5-"[2..] == [] && "-5"[1..] == "5" && "-"[1..] == [] && "5"[..0] == []
      && "5"[..1] == "5";
    assert Value("5") == 5;
  }
}
