/** C strings in fixed buffers. */
module CStrings {
  const NUL: char := '\0'

  /** The text a buffer holds: up to its first NUL, or all of it. */
  function TextOf(b: seq<char>): (s: string)
    ensures NUL !in s && |s| <= |b|
  {
    if b == [] || b[0] == NUL then [] else [b[0]] + TextOf(b[1..])
  }

  lemma {:induction false} TextSplit(b: seq<char>, i: nat)
    requires i <= |b| && NUL !in b[..i]
    ensures TextOf(b) == b[..i] + TextOf(b[i..])
  {
    if i == 0 {
      assert b[0..] == b;
    } else {
      assert b[0] == b[..i][0] && b[1..][..i - 1] == b[..i][1..] && b[1..][i - 1..] == b[i..];
      assert forall c :: c in b[1..][..i - 1] ==> c in b[..i];
      TextSplit(b[1..], i - 1);
      assert b[..i] == [b[0]] + b[1..][..i - 1];
    }
  }

  lemma TextUntilNul(b: seq<char>, s: string)
    requires NUL !in s && |s| < |b| && b[..|s|] == s && b[|s|] == NUL
    ensures TextOf(b) == s
  {
    TextSplit(b, |s|);
  }

  /** strncmp(a, b, n) == 0. */
  method Strncmp(a: array<char>, b: array<char>, n: nat) returns (same: bool)
    requires n <= a.Length && n <= b.Length
    ensures same <==> TextOf(a[..n]) == TextOf(b[..n])
  {
    var i := 0;
    while i < n
      invariant i <= n && a[..i] == b[..i] && NUL !in a[..i]
    {
      if a[i] != b[i] || a[i] == NUL {
        assert a[..n][..i] == a[..i] && b[..n][..i] == b[..i];
        Decide(a[..n], b[..n], i);
        return a[i] == b[i];
      }
      i := i + 1;
    }
    return true;
  }

  lemma Decide(a: seq<char>, b: seq<char>, i: nat)
    requires i < |a| && i < |b| && a[..i] == b[..i] && NUL !in a[..i] && (a[i] != b[i] || a[i] == NUL)
    ensures TextOf(a) == TextOf(b) <==> a[i] == b[i]
  {
    TextSplit(a, i);
    TextSplit(b, i);
    if a[i] != b[i] {
      assert TextOf(a[i..]) != TextOf(b[i..]) by {
        assert a[i] != NUL ==> TextOf(a[i..])[0] == a[i];
        assert b[i] != NUL ==> TextOf(b[i..])[0] == b[i];
      }
      assert TextOf(a)[i..] == TextOf(a[i..]) && TextOf(b)[i..] == TextOf(b[i..]);
    }
  }

  /** strcat(buf, s). */
  method Strcat(buf: array<char>, s: string)
    requires |TextOf(buf[..])| + |s| < buf.Length && NUL !in s
    modifies buf
    ensures TextOf(buf[..]) == old(TextOf(buf[..])) + s
  {
    ghost var text := TextOf(buf[..]);
    var n := 0;
    while n < buf.Length && buf[n] != NUL
      invariant n <= buf.Length && NUL !in buf[..n]
    {
      n := n + 1;
    }
    TextSplit(buf[..], n);
    assert buf[..][..n] == buf[..n];
    assert text == buf[..n];
    var i := 0;
    while i < |s|
      invariant i <= |s| && buf[..n] == text && buf[n..n + i] == s[..i]
    {
      buf[n + i] := s[i];
      i := i + 1;
    }
    buf[n + i] := NUL;
    assert buf[n..n + i] == s[..i] == s;
    assert buf[..][..n + i] == buf[..n] + buf[n..n + i];
    assert buf[..][..n + i] == text + s;
    TextUntilNul(buf[..], text + s);
  }

  /** Decimal digits, as %d prints a number that is not negative. */
  function Decimal(n: nat): (s: string)
    ensures 0 < |s| && forall c :: c in s ==> '0' <= c <= '9'
  {
    var d := ['0' + (n % 10) as char];
    if n < 10 then d else Decimal(n / 10) + d
  }

  /** The last digit is the remainder by ten, and the digits before it spell the quotient. */
  lemma DecimalDigits(n: nat)
    ensures var (s, last) := (Decimal(n), |Decimal(n)| - 1);
      && s[last] == "0123456789"[n % 10] && (if n < 10 then last == 0 else s[..last] == Decimal(n / 10))
  {
    assert "0123456789"[n % 10] == '0' + (n % 10) as char;
  }
}
