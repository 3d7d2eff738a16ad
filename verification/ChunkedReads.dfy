/** /proc/pid/cmdline and /proc/pid/environ: reads of any sizes over pages that arrive in pieces. All
    addresses and sizes are 64-bit, so that every sum and difference below is shown not to wrap. */
module ChunkedReads {
  import opened Lists

  newtype ulong = x: int | 0 <= x < 0x1_0000_0000_0000_0000

  const PAGE_SIZE: ulong := 4096
  const EFAULT: int := 14

  type Memory = ulong -> bv8

  /** The n bytes from address a. */
  function Bytes(mem: Memory, a: int, n: int): (r: seq<bv8>)
    requires 0 <= a && 0 <= n && a + n <= 0x1_0000_0000_0000_0000
    ensures |r| == n
  {
    seq(n, i requires 0 <= i < n => mem((a + i) as ulong))
  }

  lemma BytesJoin(mem: Memory, a: int, m: int, n: int)
    requires 0 <= a && 0 <= m && 0 <= n && a + m + n <= 0x1_0000_0000_0000_0000
    ensures Bytes(mem, a, m + n) == Bytes(mem, a, m) + Bytes(mem, a + m, n)
  {
  }

  datatype Layout = Layout(argStart: ulong, argEnd: ulong, envStart: ulong, envEnd: ulong)

  /** What access_remote_vm returns for an address and a size, and what copy_to_user leaves over. */
  datatype Transfer = Transfer(access: (ulong, ulong) -> int, left: (ulong, ulong) -> ulong)

  /** A transfer of up to n bytes from a moves no more, stays within the address space, and leaves over
      no more than there was. */
  predicate LawfulAt(t: Transfer, a: ulong, n: ulong) {
    t.access(a, n) <= n as int && a as int + t.access(a, n) <= 0x1_0000_0000_0000_0000 && t.left(a, n) <= n
  }

  ghost predicate Lawful(t: Transfer) {
    forall a, n {:trigger LawfulAt(t, a, n)} :: LawfulAt(t, a, n)
  }

  predicate ReadableAt(t: Transfer, a: ulong, n: ulong) {
    (n > 0 ==> t.access(a, n) > 0) && t.left(a, n) == 0
  }

  /** Every byte is there and is copied, in pieces of any size. */
  ghost predicate Readable(t: Transfer) {
    Lawful(t) && forall a, n {:trigger ReadableAt(t, a, n)} :: ReadableAt(t, a, n)
  }

  function Min(a: ulong, b: ulong): ulong {
    if a < b then a else b
  }

  function Fewer(a: int, b: int): int {
    if a < b then a else b
  }

  /** How much of the page at a, of n bytes or fewer, get_mm_cmdline copies: a part may fault. */
  function Piece(t: Transfer, a: ulong, n: ulong): (m: ulong)
    ensures m <= n
  {
    var size := Min(PAGE_SIZE, n);
    var got := t.access(a, size);
    if 0 < got <= size as int && t.left(a, got as ulong) <= got as ulong
    then got as ulong - t.left(a, got as ulong)
    else 0
  }

  /** How many of n bytes from a it copies before a transfer brings nothing. */
  function Delivered(t: Transfer, a: ulong, n: ulong): (m: ulong)
    requires a as int + n as int < 0x1_0000_0000_0000_0000
    ensures m <= n
    decreases n
  {
    var k := Piece(t, a, n);
    if n == 0 || k == 0 then 0 else k + Delivered(t, a + k, n - k)
  }

  /** The bytes copied, and their number; or -EFAULT if there are none although the first page was there. */
  ghost predicate Copied(mem: Memory, t: Transfer, a: ulong, n: ulong, out: seq<bv8>, ret: int) {
    && a as int + n as int < 0x1_0000_0000_0000_0000 && out == Bytes(mem, a as int, Delivered(t, a, n) as int)
    && ret == if out == [] && n > 0 && t.access(a, Min(PAGE_SIZE, n)) > 0 then -EFAULT else |out|
  }

  lemma {:induction false} ReadableDeliversAll(t: Transfer, a: ulong, n: ulong)
    requires Readable(t) && a as int + n as int < 0x1_0000_0000_0000_0000
    ensures Delivered(t, a, n) == n
    decreases n
  {
    if n > 0 {
      assert ReadableAt(t, a, Min(PAGE_SIZE, n)) && LawfulAt(t, a, Min(PAGE_SIZE, n));
      var got := t.access(a, Min(PAGE_SIZE, n)) as ulong;
      assert ReadableAt(t, a, got);
      ReadableDeliversAll(t, a + got, n - got);
    }
  }

  /** The first bytes have been copied; what is left of the request is what follows. */
  ghost predicate Copying(mem: Memory, t: Transfer, a: ulong, n: ulong, out: seq<bv8>) {
    && a as int + n as int < 0x1_0000_0000_0000_0000 && |out| <= n as int && out == Bytes(mem, a as int, |out|)
    && Delivered(t, a, n) as int == |out| + Delivered(t, a + |out| as ulong, n - |out| as ulong) as int
    && (out != [] ==> Piece(t, a, n) > 0)
  }

  lemma CopyingMore(mem: Memory, t: Transfer, a: ulong, n: ulong, out: seq<bv8>, k: ulong)
    requires Copying(mem, t, a, n, out) && |out| < n as int && k == Piece(t, a + |out| as ulong, n - |out| as ulong) > 0
    ensures |out| + k as int <= n as int && Copying(mem, t, a, n, out + Bytes(mem, a as int + |out|, k as int))
  {
    BytesJoin(mem, a as int, |out|, k as int);
  }

  lemma CopyingEnds(mem: Memory, t: Transfer, a: ulong, n: ulong, out: seq<bv8>)
    requires Copying(mem, t, a, n, out) && (|out| == n as int || Piece(t, a + |out| as ulong, n - |out| as ulong) == 0)
    ensures |out| == Delivered(t, a, n) as int
  {
  }

  /** The copying loop of get_mm_cmdline. */
  method CopyPages(mem: Memory, start: ulong, limit: ulong, t: Transfer) returns (out: seq<bv8>, ret: int)
    requires start as int + limit as int < 0x1_0000_0000_0000_0000 && Lawful(t)
    ensures Copied(mem, t, start, limit, out, ret)
    ensures out == [] && limit > 0 && t.access(start, if limit < 4096 then limit else 4096) > 0 ==> ret == -14
    ensures out != [] || limit == 0 || t.access(start, if limit < 4096 then limit else 4096) <= 0 ==> ret == |out|
  {
    var pos, count := start, limit;
    out := [];
    while count > 0
      invariant pos as int == start as int + |out| && count as int == limit as int - |out|
      invariant Copying(mem, t, start, limit, out)
      decreases count
    {
      var copied, fault := CopyPage(mem, pos, count, t);
      if copied == 0 {
        CopyingEnds(mem, t, start, limit, out);
        return out, if out == [] && fault then -EFAULT else |out|;
      }
      CopyingMore(mem, t, start, limit, out, copied);
      out := out + Bytes(mem, pos as int, copied as int);
      pos, count := pos + copied, count - copied;
    }
    CopyingEnds(mem, t, start, limit, out);
    ret := |out|;
  }

  /** One turn: how much has been copied, and whether it was copying that failed. */
  method CopyPage(mem: Memory, pos: ulong, count: ulong, t: Transfer) returns (copied: ulong, fault: bool)
    requires Lawful(t) && count > 0
    ensures copied == Piece(t, pos, count) && (fault <==> t.access(pos, Min(PAGE_SIZE, count)) > 0 && copied == 0)
  {
    var size := Min(PAGE_SIZE, count);
    assert LawfulAt(t, pos, size);
    var got := t.access(pos, size);
    if got <= 0 { return 0, false; }
    assert LawfulAt(t, pos, got as ulong);
    copied := got as ulong - t.left(pos, got as ulong);
    fault := copied == 0;
  }

  // ---- The title a process has written over its arguments

  /** The text in a page, with the NUL that ends it, if there is one. */
  function WithNul(page: seq<bv8>): (r: seq<bv8>)
    ensures r <= page && (0 in page ==> r != [] && r[|r| - 1] == 0) && (0 !in page ==> r == page)
    ensures 0 !in r[..if r == [] then 0 else |r| - 1]
  {
    if page == [] then [] else if page[0] == 0 then [0] else [page[0]] + WithNul(page[1..])
  }

  /** strnlen(page, got), plus one if the NUL was found. */
  method TitleLength(page: seq<bv8>) returns (len: nat)
    ensures len == |WithNul(page)|
  {
    len := 0;
    while len < |page| && page[len] != 0
      invariant len <= |page| && |WithNul(page)| == len + |WithNul(page[len..])|
    {
      assert page[len..][1..] == page[len + 1..];
      len := len + 1;
    }
    if len < |page| { len := len + 1; }
  }

  /** What the first transfer brings of the title; it is one page at most. */
  function Title(mem: Memory, a: ulong, got: int): (r: seq<bv8>)
    requires a as int + got <= 0x1_0000_0000_0000_0000
    ensures got >= 0 ==> |r| <= got
  {
    if got > 0 then WithNul(Bytes(mem, a as int, got)) else []
  }

  /** The title from pos on, as much as asked for and copied without a fault. It lies at argStart. */
  ghost predicate PartOfTitle(title: seq<bv8>, argStart: ulong, count: ulong, pos: ulong, t: Transfer, out: seq<bv8>,
      ret: int) {
    if pos as int >= |title| then out == [] && ret == 0
    else
      var n := Fewer(|title| - pos as int, count as int);
      && argStart as int + pos as int < 0x1_0000_0000_0000_0000
      && var copied := n - t.left(argStart + pos, n as ulong) as int;
      && 0 <= copied && out == title[pos as int..pos as int + copied] && ret == if copied == 0 then -EFAULT else copied
  }

  /** get_mm_proctitle. */
  method GetMmProctitle(mem: Memory, argStart: ulong, count: ulong, pos: ulong, t: Transfer)
      returns (out: seq<bv8>, ret: int)
    requires Lawful(t) && count > 0 && LawfulAt(t, argStart, PAGE_SIZE)
    ensures PartOfTitle(Title(mem, argStart, t.access(argStart, PAGE_SIZE)), argStart, count, pos, t, out, ret)
  {
    out, ret := [], 0;
    if pos >= PAGE_SIZE { return; }
    var got := t.access(argStart, PAGE_SIZE);
    if got > 0 {
      var page := Bytes(mem, argStart as int, got);
      var len := TitleLength(page);
      out, ret := CopyTitle(page, len, argStart, count, pos, t, WithNul(page));
    }
  }

  lemma PrefixPart(r: seq<bv8>, page: seq<bv8>, k: nat, m: nat)
    requires r <= page && k + m <= |r|
    ensures page[k..k + m] == r[k..k + m]
  {
  }

  method CopyTitle(page: seq<bv8>, len: nat, argStart: ulong, count: ulong, pos: ulong, t: Transfer,
      ghost title: seq<bv8>)
      returns (out: seq<bv8>, ret: int)
    requires Lawful(t) && count > 0 && argStart as int + |page| <= 0x1_0000_0000_0000_0000
    requires title <= page && len == |title|
    ensures PartOfTitle(title, argStart, count, pos, t, out, ret)
  {
    if len <= pos as int { return [], 0; }
    var n := Fewer(len - pos as int, count as int) as ulong;
    assert LawfulAt(t, argStart + pos, n);
    var copied := n - t.left(argStart + pos, n);
    out := page[pos as int..pos as int + copied as int];
    PrefixPart(title, page, pos as int, copied as int);
    ret := if copied == 0 then -EFAULT else copied as int;
  }

  // ---- get_mm_cmdline

  /** From arg_start to the end of the arguments, or of the environment if that follows directly. */
  function Area(mm: Layout): ulong
    requires mm.argStart < mm.argEnd
  {
    if mm.envStart != mm.argEnd || mm.envEnd < mm.envStart then mm.argEnd - mm.argStart else mm.envEnd - mm.argStart
  }

  /** The last byte of the arguments can be read and is not NUL. */
  predicate Overwritten(mem: Memory, mm: Layout, t: Transfer)
    requires mm.argStart < mm.argEnd
  {
    t.access(mm.argEnd - 1, 1) == 1 && mem(mm.argEnd - 1) != 0
  }

  /** A read is refused, or past the end, or of no bytes. */
  predicate NothingAsked(mm: Layout, count: ulong, ppos: ulong) {
    mm.envEnd == 0 || mm.argStart >= mm.argEnd || ppos >= Area(mm) || count == 0
  }

  /** The arguments from ppos on, as much as asked for and copied before a transfer brings nothing. */
  ghost predicate PartOfArguments(mem: Memory, argStart: ulong, argEnd: ulong, count: ulong, ppos: ulong, t: Transfer,
                                  out: seq<bv8>, ret: int)
    requires argStart < argEnd
  {
    if ppos >= argEnd - argStart then out == [] && ret == 0
    else Copied(mem, t, argStart + ppos, Min(count, argEnd - argStart - ppos), out, ret)
  }

  /** A read of the title that has been written over them. */
  ghost predicate FromTitle(mem: Memory, mm: Layout, count: ulong, ppos: ulong, t: Transfer, out: seq<bv8>, ret: int)
  {
    && LawfulAt(t, mm.argStart, PAGE_SIZE)
    && PartOfTitle(Title(mem, mm.argStart, t.access(mm.argStart, PAGE_SIZE)), mm.argStart, count, ppos, t, out, ret)
  }

  /** One read of count bytes at ppos: nothing past the end; the title if one has been written over the
      arguments; else the arguments. */
  ghost predicate CmdlineRead(mem: Memory, mm: Layout, count: ulong, ppos: ulong, t: Transfer, out: seq<bv8>,
      ret: int) {
    if NothingAsked(mm, count, ppos) then out == [] && ret == 0
    else Answered(mem, mm, Min(count, Area(mm) - ppos), ppos, t, out, ret)
  }

  ghost predicate Answered(mem: Memory, mm: Layout, count: ulong, ppos: ulong, t: Transfer, out: seq<bv8>, ret: int)
    requires mm.argStart < mm.argEnd
  {
    if Overwritten(mem, mm, t) then FromTitle(mem, mm, count, ppos, t, out, ret)
    else PartOfArguments(mem, mm.argStart, mm.argEnd, count, ppos, t, out, ret)
  }

  /** get_mm_cmdline. */
  method GetMmCmdline(mem: Memory, mm: Layout, count: ulong, ppos: ulong, t: Transfer) returns (out: seq<bv8>, ret: int)
    requires Lawful(t)
    ensures CmdlineRead(mem, mm, count, ppos, t, out, ret)
    ensures mm.envEnd == 0 || mm.argStart >= mm.argEnd || count == 0 ==> out == [] && ret == 0
    ensures |out| <= count as int && (out != [] ==> ret == |out|)
  {
    var n := Limit(mm, count, ppos);
    if n == 0 { return [], 0; }
    out, ret := Answer(mem, mm, n, ppos, t);
  }

  /** The checks before anything is read, and the limit they put on count. */
  method Limit(mm: Layout, count: ulong, ppos: ulong) returns (n: ulong)
    ensures if NothingAsked(mm, count, ppos) then n == 0 else n == Min(count, Area(mm) - ppos) > 0
  {
    if mm.envEnd == 0 { return 0; }
    var argStart, argEnd, envStart, envEnd := mm.argStart, mm.argEnd, mm.envStart, mm.envEnd;
    if argStart >= argEnd { return 0; }
    if envStart != argEnd || envEnd < envStart {
      envStart, envEnd := argEnd, argEnd;
    }
    var len, pos := envEnd - argStart, ppos;
    if pos >= len { return 0; }
    n := count;
    if n > len - pos { n := len - pos; }
  }

  /** Once there is something to read: look at the last byte of the arguments. */
  method Answer(mem: Memory, mm: Layout, count: ulong, pos: ulong, t: Transfer) returns (out: seq<bv8>, ret: int)
    requires Lawful(t) && mm.argStart < mm.argEnd && pos < Area(mm) && count > 0
    ensures Answered(mem, mm, count, pos, t, out, ret)
  {
    if t.access(mm.argEnd - 1, 1) == 1 && mem(mm.argEnd - 1) != 0 {
      assert LawfulAt(t, mm.argStart, PAGE_SIZE);
      out, ret := GetMmProctitle(mem, mm.argStart, count, pos, t);
    } else {
      out, ret := GetArguments(mem, mm.argStart, mm.argEnd, count, pos, t);
    }
  }

  /** The end of get_mm_cmdline, strictly within [arg_start, arg_end). */
  method GetArguments(mem: Memory, argStart: ulong, argEnd: ulong, count: ulong, ppos: ulong, t: Transfer)
      returns (out: seq<bv8>, ret: int)
    requires Lawful(t) && argStart < argEnd && argStart as int + ppos as int < 0x1_0000_0000_0000_0000
    ensures PartOfArguments(mem, argStart, argEnd, count, ppos, t, out, ret)
  {
    var pos, n := argStart + ppos, count;
    if pos < argStart || pos >= argEnd { return [], 0; }
    if n > argEnd - pos { n := argEnd - pos; }
    out, ret := CopyPages(mem, pos, n, t);
  }

  // ---- environ_read

  /** Whether the page at a, of n bytes or fewer, is transferred, as environ_read asks for it. */
  predicate PageMoves(t: Transfer, a: ulong, n: ulong) {
    var size := Min(PAGE_SIZE, n);
    var got := t.access(a, size);
    0 < got <= size as int && t.left(a, got as ulong) == 0
  }

  /** How many of n bytes from a environ_read transfers before the first transfer that fails. */
  function Moved(t: Transfer, a: ulong, n: ulong): (m: ulong)
    requires a as int + n as int < 0x1_0000_0000_0000_0000
    ensures m <= n
    decreases n
  {
    if n == 0 || !PageMoves(t, a, n) then 0
    else
      var got := t.access(a, Min(PAGE_SIZE, n)) as ulong;
      got + Moved(t, a + got, n - got)
  }

  /** What the transfer at a that fails makes environ_read return. */
  function Code(t: Transfer, a: ulong, n: ulong): int {
    var got := t.access(a, Min(PAGE_SIZE, n));
    if got <= 0 then got else -EFAULT
  }

  /** The bytes that are left to read at ppos, up to the size asked for. */
  function Wanted(mm: Layout, size: ulong, ppos: ulong): (n: ulong)
    requires mm.envStart <= mm.envEnd
    ensures n > 0 ==> ppos < mm.envEnd - mm.envStart && n <= mm.envEnd - mm.envStart - ppos
  {
    if mm.envEnd != 0 && ppos < mm.envEnd - mm.envStart then Min(size, mm.envEnd - mm.envStart - ppos) else 0
  }

  function MovedOf(mm: Layout, n: ulong, ppos: ulong, t: Transfer): (m: ulong)
    requires mm.envStart <= mm.envEnd
      && (n > 0 ==> ppos < mm.envEnd - mm.envStart && n <= mm.envEnd - mm.envStart - ppos)
    ensures m <= n
  {
    if n == 0 then 0 else Moved(t, mm.envStart + ppos, n)
  }

  /** The first of n bytes from a have been transferred into out, and the rest of the request is what follows. */
  ghost predicate Transferred(mem: Memory, t: Transfer, a: ulong, n: ulong, out: seq<bv8>) {
    && a as int + n as int < 0x1_0000_0000_0000_0000 && |out| <= n as int && out == Bytes(mem, a as int, |out|)
    && Moved(t, a, n) as int == |out| + Moved(t, a + |out| as ulong, n - |out| as ulong) as int
  }

  /** Out of n bytes wanted from a, those before the first failing transfer are in out; ret says how it ended. */
  ghost predicate Ended(mem: Memory, t: Transfer, a: ulong, n: ulong, out: seq<bv8>, ret: int) {
    && a as int + n as int < 0x1_0000_0000_0000_0000 && |out| == Moved(t, a, n) as int
      && out == Bytes(mem, a as int, |out|)
    && ret == if |out| == n as int then |out| else Code(t, a + |out| as ulong, n - |out| as ulong)
  }

  lemma TransferredMore(mem: Memory, t: Transfer, a: ulong, n: ulong, out: seq<bv8>, page: seq<bv8>)
    requires Transferred(mem, t, a, n, out) && |out| + |page| <= n as int
      && page == Bytes(mem, a as int + |out|, |page|)
    requires Moved(t, a + |out| as ulong, n - |out| as ulong) as int
      == |page| + Moved(t, a + (|out| + |page|) as ulong, n - (|out| + |page|) as ulong) as int
    ensures Transferred(mem, t, a, n, out + page)
  {
    BytesJoin(mem, a as int, |out|, |page|);
  }

  lemma PageMoved(t: Transfer, a: ulong, n: ulong, got: int)
    requires a as int + n as int < 0x1_0000_0000_0000_0000 && n > 0 && got == t.access(a, Min(PAGE_SIZE, n))
      && PageMoves(t, a, n)
    ensures got <= n as int && Moved(t, a, n) as int == got + Moved(t, a + got as ulong, n - got as ulong) as int
  {
  }

  lemma PageArrives(mem: Memory, t: Transfer, a: ulong, n: ulong, out: seq<bv8>, page: seq<bv8>)
    requires Transferred(mem, t, a, n, out) && |out| < n as int && PageMoves(t, a + |out| as ulong, n - |out| as ulong)
    requires |page| == t.access(a + |out| as ulong, Min(PAGE_SIZE, n - |out| as ulong))
    requires |out| + |page| <= n as int && page == Bytes(mem, a as int + |out|, |page|)
    ensures Transferred(mem, t, a, n, out + page)
  {
    PageMoved(t, a + |out| as ulong, n - |out| as ulong, |page|);
    var k := (|out| + |page|) as ulong;
    assert a + |out| as ulong + |page| as ulong == a + k && n - |out| as ulong - |page| as ulong == n - k;
    TransferredMore(mem, t, a, n, out, page);
  }

  lemma PageFailed(mem: Memory, t: Transfer, a: ulong, n: ulong, out: seq<bv8>)
    requires Transferred(mem, t, a, n, out) && |out| < n as int && !PageMoves(t, a + |out| as ulong, n - |out| as ulong)
    ensures Ended(mem, t, a, n, out, Code(t, a + |out| as ulong, n - |out| as ulong))
  {
  }

  /** access_remote_vm and copy_to_user for one page; if either fails it adds nothing. */
  method ReadPage(mem: Memory, pos: ulong, len: ulong, t: Transfer, ghost a: ulong, ghost n: ulong, out: seq<bv8>)
      returns (out': seq<bv8>, retval: int)
    requires Lawful(t) && Transferred(mem, t, a, n, out) && |out| < n as int
    requires pos == a + |out| as ulong && len == Min(PAGE_SIZE, n - |out| as ulong)
    ensures retval > 0 ==> |out'| == |out| + retval && Transferred(mem, t, a, n, out')
    ensures retval <= 0 ==> out' == out && Ended(mem, t, a, n, out, retval)
  {
    assert LawfulAt(t, pos, len);
    retval := t.access(pos, len);
    if retval <= 0 {
      PageFailed(mem, t, a, n, out);
      return out, retval;
    }
    if t.left(pos, retval as ulong) > 0 {
      PageFailed(mem, t, a, n, out);
      return out, -EFAULT;
    }
    var page := Bytes(mem, pos as int, retval);
    PageArrives(mem, t, a, n, out, page);
    out' := out + page;
  }

  /** environ_read. It transfers what comes before the first failure and advances *ppos over it; but
      unless everything wanted came, it returns what the failing transfer says, not the number of
      bytes transferred. */
  method EnvironRead(mem: Memory, mm: Layout, size: ulong, ppos: ulong, t: Transfer)
      returns (out: seq<bv8>, ret: int, ppos': ulong)
    requires Lawful(t) && mm.envStart <= mm.envEnd
    ensures var n := Wanted(mm, size, ppos);
      && |out| == MovedOf(mm, n, ppos, t) as int
      && (n > 0 ==> out == Bytes(mem, mm.envStart as int + ppos as int, |out|))
      && ret == if |out| == n as int then |out| else Code(t, mm.envStart + ppos + |out| as ulong, n - |out| as ulong)
    ensures ppos' as int == ppos as int + |out| && |out| <= size as int
    ensures mm.envEnd == 0 || ppos >= mm.envEnd - mm.envStart ==> out == [] && ret == 0
    ensures Readable(t) && mm.envEnd != 0 && ppos < mm.envEnd - mm.envStart ==>
      var rest := mm.envEnd - mm.envStart - ppos;
      ret == |out| == if size < rest then size as int else rest as int
  {
    if mm.envEnd == 0 || ppos >= mm.envEnd - mm.envStart { return [], 0, ppos; }
    out, ret, ppos' := EnvironPages(mem, mm.envStart, mm.envEnd, size, ppos, t);
    if Readable(t) { ReadableMovesAll(t, mm.envStart + ppos, Wanted(mm, size, ppos)); }
  }

  /** k of the n bytes wanted have been transferred; src and count say so. */
  ghost predicate Halfway(envStart: ulong, envEnd: ulong, ppos: ulong, size: ulong, n: ulong, k: ulong, src: ulong,
      count: ulong) {
    && envStart as int + ppos as int < envEnd as int && n == Min(size, envEnd - envStart - ppos)
    && k <= n && src == ppos + k && count == size - k
  }

  /** The part of a turn before the transfer: how much to ask for, or nothing at the end of the area. */
  method NextLength(envStart: ulong, envEnd: ulong, src: ulong, count: ulong, ghost ppos: ulong, ghost size: ulong,
                    ghost n: ulong, ghost k: ulong) returns (len: Option<ulong>)
    requires Halfway(envStart, envEnd, ppos, size, n, k, src, count) && count > 0
    ensures len == if k == n then None else Some(Min(PAGE_SIZE, n - k))
  {
    if src >= envEnd - envStart { return None; }
    var thisLen := envEnd - (envStart + src);
    len := Some(Min(Min(PAGE_SIZE, count), thisLen));
  }

  /** Between two turns of the loop: out has been transferred, and ret is its length. */
  ghost predicate Reading(mem: Memory, t: Transfer, envStart: ulong, envEnd: ulong, ppos: ulong, size: ulong,
                          src: ulong, count: ulong, out: seq<bv8>, ret: int)
    requires envStart <= envEnd && ppos < envEnd - envStart
  {
    var n := Min(size, envEnd - envStart - ppos);
    && ret == |out| <= n as int && Halfway(envStart, envEnd, ppos, size, n, |out| as ulong, src, count)
    && Transferred(mem, t, envStart + ppos, n, out)
  }

  /** One turn. */
  method EnvironTurn(mem: Memory, envStart: ulong, envEnd: ulong, src: ulong, count: ulong, t: Transfer, out: seq<bv8>,
      ret: int,
                     ghost ppos: ulong, ghost size: ulong) returns (out': seq<bv8>, ret': int, over: bool)
    requires Lawful(t) && envStart <= envEnd && ppos < envEnd - envStart && count > 0
    requires Reading(mem, t, envStart, envEnd, ppos, size, src, count, out, ret)
    ensures over ==> out' == out && Ended(mem, t, envStart + ppos, Min(size, envEnd - envStart - ppos), out', ret')
    ensures !over ==>
      && ret < ret' <= ret + count as int && src as int + ret' - ret <= envEnd as int
      && Reading(mem, t, envStart, envEnd, ppos, size, src + (ret' - ret) as ulong, count - (ret' - ret) as ulong,
        out', ret')
  {
    ghost var n := Min(size, envEnd - envStart - ppos);
    var len := NextLength(envStart, envEnd, src, count, ppos, size, n, ret as ulong);
    if len.None? { return out, ret, true; }
    var retval;
    out', retval := ReadPage(mem, envStart + src, len.value, t, envStart + ppos, n, out);
    if retval <= 0 { return out, retval, true; }
    ret', over := ret + retval, false;
  }

  /** The loop of environ_read. */
  method EnvironPages(mem: Memory, envStart: ulong, envEnd: ulong, size: ulong, ppos: ulong, t: Transfer)
      returns (out: seq<bv8>, ret: int, src: ulong)
    requires Lawful(t) && envStart <= envEnd && ppos < envEnd - envStart
    ensures Ended(mem, t, envStart + ppos, Min(size, envEnd - envStart - ppos), out, ret)
      && src as int == ppos as int + |out|
  {
    var count := size;
    out, ret, src := [], 0, ppos;
    while count > 0
      invariant Reading(mem, t, envStart, envEnd, ppos, size, src, count, out, ret) && src as int == ppos as int + |out|
      decreases count
    {
      var ret', over;
      out, ret', over := EnvironTurn(mem, envStart, envEnd, src, count, t, out, ret, ppos, size);
      if over { return out, ret', src; }
      var retval := (ret' - ret) as ulong;
      ret, src, count := ret', src + retval, count - retval;
    }
  }

  lemma {:induction false} ReadableMovesAll(t: Transfer, a: ulong, n: ulong)
    requires Readable(t) && a as int + n as int < 0x1_0000_0000_0000_0000
    ensures Moved(t, a, n) == n
    decreases n
  {
    if n > 0 {
      assert ReadableAt(t, a, Min(PAGE_SIZE, n)) && LawfulAt(t, a, Min(PAGE_SIZE, n));
      var got := t.access(a, Min(PAGE_SIZE, n)) as ulong;
      assert ReadableAt(t, a, got);
      ReadableMovesAll(t, a + got, n - got);
    }
  }

  /** environ_read returns the number of bytes it has transferred exactly if all that was wanted came,
      or the very first transfer reported the end of the memory. */
  lemma CountIsReturned(mm: Layout, size: ulong, ppos: ulong, t: Transfer)
    requires Lawful(t) && mm.envStart <= mm.envEnd
    ensures var n := Wanted(mm, size, ppos);
      var m := MovedOf(mm, n, ppos, t);
      var ret := if m == n then m as int else Code(t, mm.envStart + ppos + m, n - m);
      ret == m as int <==> m == n || (m == 0 && t.access(mm.envStart + ppos, Min(PAGE_SIZE, n)) == 0)
  {
    var n := Wanted(mm, size, ppos);
    if n > 0 { StopsAtFailure(t, mm.envStart + ppos, n); }
  }

  /** Where the transfer stops short, the next page is one that does not move. */
  lemma {:induction false} StopsAtFailure(t: Transfer, a: ulong, n: ulong)
    requires Lawful(t) && a as int + n as int < 0x1_0000_0000_0000_0000
    ensures Moved(t, a, n) < n ==>
      !PageMoves(t, a + Moved(t, a, n), n - Moved(t, a, n)) && Code(t, a + Moved(t, a, n), n - Moved(t, a, n)) <= 0
    decreases n
  {
    if n > 0 && PageMoves(t, a, n) {
      var got := t.access(a, Min(PAGE_SIZE, n)) as ulong;
      StopsAtFailure(t, a + got, n - got);
    }
  }

  /** One page can be read and the next reports nothing: a page has been transferred, *ppos has moved
      past it, and the read returns 0, the end of the file. */
  lemma PageLostAtEndOfFile()
    ensures
      var t := Transfer((a: ulong, n: ulong) => if a < 8192 then Min(n, 8192 - a) as int else 0,
                        (a: ulong, n: ulong) => 0 as ulong);
      Lawful(t) && Moved(t, 4096, 8192) == 4096 && Code(t, 8192, 4096) == 0
  {
    var t := Transfer((a: ulong, n: ulong) => if a < 8192 then Min(n, 8192 - a) as int else 0,
                      (a: ulong, n: ulong) => 0 as ulong);
    assert PageMoves(t, 4096, 8192) && !PageMoves(t, 8192, 4096);
    assert Moved(t, 8192, 4096) == 0;
  }

  /** What cmdline shows: the arguments, or the title, cut at the end of the area. */
  function Shown(mem: Memory, mm: Layout, got: int): seq<bv8>
    requires mm.argStart < mm.argEnd && mm.argStart as int + got <= 0x1_0000_0000_0000_0000
  {
    if mem(mm.argEnd - 1) == 0 then Bytes(mem, mm.argStart as int, mm.argEnd as int - mm.argStart as int)
    else
      var title := Title(mem, mm.argStart, got);
      if |title| <= Area(mm) as int then title else title[..Area(mm)]
  }

  /** One read, seen from what is shown. */
  method ReadNext(mem: Memory, mm: Layout, count: ulong, ppos: ulong, t: Transfer) returns (out: seq<bv8>, ret: int)
    requires mm.envEnd != 0 && mm.argStart < mm.argEnd && count > 0 && Readable(t)
    requires mm.argStart as int + t.access(mm.argStart, PAGE_SIZE) <= 0x1_0000_0000_0000_0000
    requires ppos as int <= |Shown(mem, mm, t.access(mm.argStart, PAGE_SIZE))|
    ensures var shown := Shown(mem, mm, t.access(mm.argStart, PAGE_SIZE));
      && ret == |out| && out <= shown[ppos..]
      && |out| == if ppos as int + count as int < |shown| then count as int else |shown| - ppos as int
  {
    out, ret := GetMmCmdline(mem, mm, count, ppos, t);
    ReadIsNextPart(mem, mm, count, ppos, t, out, ret);
  }

  /** Reads of any sizes until one returns nothing give what is shown, whole and in order, if got bytes
      of the page with the title come each time. */
  method ReadCmdline(mem: Memory, mm: Layout, counts: nat -> ulong, t: nat -> Transfer, ghost got: int)
      returns (all: seq<bv8>)
    requires mm.envEnd != 0 && mm.argStart < mm.argEnd && mm.argStart as int + got <= 0x1_0000_0000_0000_0000
    requires forall n :: counts(n) > 0 && Readable(t(n)) && t(n).access(mm.argStart, PAGE_SIZE) == got
    ensures all == Shown(mem, mm, got)
    ensures mem(mm.argEnd - 1) == 0 ==> all == Bytes(mem, mm.argStart as int, mm.argEnd as int - mm.argStart as int)
    ensures mem(mm.argEnd - 1) != 0 ==>
      var title := Title(mem, mm.argStart, got);
      var room := if mm.envStart == mm.argEnd && mm.envStart <= mm.envEnd then mm.envEnd as int - mm.argStart as int
                  else mm.argEnd as int - mm.argStart as int;
      all == if |title| <= room then title else title[..room]
  {
    var pos, n, done := 0 as ulong, 0, false;
    ghost var shown := Shown(mem, mm, got);
    all := [];
    while !done
      invariant pos as int == |all| && all <= shown && (done ==> all == shown)
      decreases !done, |shown| - |all|
    {
      var out, ret := ReadNext(mem, mm, counts(n), pos, t(n));
      if ret == 0 {
        done := true;
      } else {
        MoreShown(shown, all, out);
        all, pos := all + out, pos + ret as ulong;
      }
      n := n + 1;
    }
  }

  lemma MoreShown(shown: seq<bv8>, all: seq<bv8>, out: seq<bv8>)
    requires all <= shown && out <= shown[|all|..]
    ensures all + out <= shown
  {
  }

  /** What one such read gives is the next part of what is shown: as much as asked for, or what is left. */
  ghost predicate NextPart(shown: seq<bv8>, ppos: ulong, count: ulong, out: seq<bv8>, ret: int) {
    && ppos as int <= |shown| && ret == |out| && out <= shown[ppos..]
    && |out| == if ppos as int + count as int < |shown| then count as int else |shown| - ppos as int
  }

  lemma NextArguments(mem: Memory, mm: Layout, count: ulong, ppos: ulong, t: Transfer, out: seq<bv8>, ret: int)
    requires mm.argStart < mm.argEnd && count > 0 && Readable(t) && ppos <= mm.argEnd - mm.argStart
    requires PartOfArguments(mem, mm.argStart, mm.argEnd, count, ppos, t, out, ret)
    ensures NextPart(Bytes(mem, mm.argStart as int, mm.argEnd as int - mm.argStart as int), ppos, count, out, ret)
  {
    if ppos < mm.argEnd - mm.argStart {
      ReadableDeliversAll(t, mm.argStart + ppos, Min(count, mm.argEnd - mm.argStart - ppos));
    }
    BytesFrom(mem, mm.argStart as int, mm.argEnd as int - mm.argStart as int, ppos as int, |out|);
  }

  lemma NextOfTitle(title: seq<bv8>, argStart: ulong, area: ulong, count: ulong, ppos: ulong, t: Transfer,
                    out: seq<bv8>, ret: int)
    requires count > 0 && Readable(t) && ppos < area && ppos as int <= |title|
    requires PartOfTitle(title, argStart, Min(count, area - ppos), ppos, t, out, ret)
    ensures NextPart(if |title| <= area as int then title else title[..area], ppos, count, out, ret)
  {
    if ppos as int < |title| {
      assert ReadableAt(t, argStart + ppos, Fewer(|title| - ppos as int, Min(count, area - ppos) as int) as ulong);
    }
    if |title| > area as int { PrefixTail(title, area as int, ppos as int, out); }
  }

  lemma PrefixTail(s: seq<bv8>, n: nat, k: nat, out: seq<bv8>)
    requires k + |out| <= n <= |s| && out <= s[k..]
    ensures out <= s[..n][k..]
  {
  }

  lemma SeesOverwriting(mem: Memory, mm: Layout, t: Transfer)
    requires mm.argStart < mm.argEnd && Readable(t)
    ensures Overwritten(mem, mm, t) <==> mem(mm.argEnd - 1) != 0
  {
    assert LawfulAt(t, mm.argEnd - 1, 1) && ReadableAt(t, mm.argEnd - 1, 1);
  }

  lemma AreaCoversShown(mem: Memory, mm: Layout, got: int)
    requires mm.argStart < mm.argEnd && mm.argStart as int + got <= 0x1_0000_0000_0000_0000
    ensures |Shown(mem, mm, got)| <= Area(mm) as int
  {
  }

  lemma TitleIsNext(mem: Memory, mm: Layout, count: ulong, ppos: ulong, t: Transfer, out: seq<bv8>, ret: int)
    requires mm.argStart < mm.argEnd && mem(mm.argEnd - 1) != 0 && count > 0 && Readable(t) && ppos < Area(mm)
    requires mm.argStart as int + t.access(mm.argStart, PAGE_SIZE) <= 0x1_0000_0000_0000_0000
    requires ppos as int <= |Title(mem, mm.argStart, t.access(mm.argStart, PAGE_SIZE))|
    requires FromTitle(mem, mm, Min(count, Area(mm) - ppos), ppos, t, out, ret)
    ensures NextPart(Shown(mem, mm, t.access(mm.argStart, PAGE_SIZE)), ppos, count, out, ret)
  {
    NextOfTitle(Title(mem, mm.argStart, t.access(mm.argStart, PAGE_SIZE)), mm.argStart, Area(mm), count, ppos, t, out,
      ret);
  }

  lemma ArgumentsAreNext(mem: Memory, mm: Layout, count: ulong, ppos: ulong, t: Transfer, out: seq<bv8>, ret: int)
    requires mm.argStart < mm.argEnd && mem(mm.argEnd - 1) == 0 && count > 0 && Readable(t)
      && ppos <= mm.argEnd - mm.argStart
      && mm.argStart as int + t.access(mm.argStart, PAGE_SIZE) <= 0x1_0000_0000_0000_0000
    requires PartOfArguments(mem, mm.argStart, mm.argEnd, count, ppos, t, out, ret)
    ensures NextPart(Shown(mem, mm, t.access(mm.argStart, PAGE_SIZE)), ppos, count, out, ret)
  {
    NextArguments(mem, mm, count, ppos, t, out, ret);
  }

  lemma ReadIsNextPart(mem: Memory, mm: Layout, count: ulong, ppos: ulong, t: Transfer, out: seq<bv8>, ret: int)
    requires mm.envEnd != 0 && mm.argStart < mm.argEnd && count > 0 && Readable(t)
    requires mm.argStart as int + t.access(mm.argStart, PAGE_SIZE) <= 0x1_0000_0000_0000_0000
    requires ppos as int <= |Shown(mem, mm, t.access(mm.argStart, PAGE_SIZE))|
      && CmdlineRead(mem, mm, count, ppos, t, out, ret)
    ensures NextPart(Shown(mem, mm, t.access(mm.argStart, PAGE_SIZE)), ppos, count, out, ret)
  {
    SeesOverwriting(mem, mm, t);
    if NothingAsked(mm, count, ppos) {
      AreaCoversShown(mem, mm, t.access(mm.argStart, PAGE_SIZE));
    } else if mem(mm.argEnd - 1) != 0 {
      TitleIsNext(mem, mm, count, ppos, t, out, ret);
    } else {
      ArgumentsAreNext(mem, mm, Min(count, Area(mm) - ppos), ppos, t, out, ret);
    }
  }

  lemma BytesFrom(mem: Memory, a: int, n: int, k: int, m: int)
    requires 0 <= a && 0 <= k <= n && 0 <= m && a + n <= 0x1_0000_0000_0000_0000
    ensures k + m <= n ==> Bytes(mem, a + k, m) <= Bytes(mem, a, n)[k..]
  {
  }

  /** The same for the environment. */
  method ReadEnviron(mem: Memory, mm: Layout, counts: nat -> ulong, t: nat -> Transfer) returns (got: seq<bv8>)
    requires mm.envEnd != 0 && mm.envStart <= mm.envEnd
    requires forall n :: counts(n) > 0 && Readable(t(n))
    ensures got == Bytes(mem, mm.envStart as int, mm.envEnd as int - mm.envStart as int)
  {
    var pos, n, done := 0 as ulong, 0, false;
    got := [];
    while !done
      invariant pos as int == |got| && pos <= mm.envEnd - mm.envStart && (done ==> pos == mm.envEnd - mm.envStart)
      invariant got == Bytes(mem, mm.envStart as int, |got|)
      decreases !done, mm.envEnd - mm.envStart - pos
    {
      var out, ret;
      if pos < mm.envEnd - mm.envStart {
        ReadableMovesAll(t(n), mm.envStart + pos, Wanted(mm, counts(n), pos));
      }
      out, ret, pos := EnvironRead(mem, mm, counts(n), pos, t(n));
      if ret == 0 {
        done := true;
      } else {
        BytesJoin(mem, mm.envStart as int, |got|, |out|);
        got := got + out;
      }
      n := n + 1;
    }
  }
}
