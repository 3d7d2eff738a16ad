/** Intrusive kernel lists seen as sequences: the cursor steps of list_for_each_entry. */
module Lists {

  datatype Option<+T> = None | Some(value: T)

  ghost predicate Distinct<T>(s: seq<T>) {
    forall i, j :: 0 <= i < j < |s| ==> s[i] != s[j]
  }

  function First<T>(s: seq<T>): Option<T> {
    if s == [] then None else Some(s[0])
  }

  /** The entries that follow the first occurrence of x. */
  function After<T(==)>(s: seq<T>, x: T): seq<T> {
    if s == [] then [] else if s[0] == x then s[1..] else After(s[1..], x)
  }

  /** x->next, or None when x is the last entry before the list head. */
  function Next<T(==)>(s: seq<T>, x: T): Option<T> {
    First(After(s, x))
  }

  lemma {:induction false} AfterIndex<T>(s: seq<T>, k: nat)
    requires Distinct(s) && k < |s|
    ensures After(s, s[k]) == s[k + 1..]
  {
    if k == 0 {
    } else {
      assert s[0] != s[k] && s[k] == s[1..][k - 1];
      AfterIndex(s[1..], k - 1);
      assert s[1..][k..] == s[k + 1..];
    }
  }

  /** One step of a list cursor: the entries after next(x) are those after x without the first. */
  lemma AfterNext<T>(s: seq<T>, x: T)
    requires Distinct(s) && x in s && After(s, x) != []
    ensures var y := After(s, x)[0];
      y in s && y != x && After(s, y) == After(s, x)[1..]
  {
    var k :| 0 <= k < |s| && s[k] == x;
    AfterIndex(s, k);
    AfterIndex(s, k + 1);
  }

  lemma {:induction false} AfterMembers<T>(s: seq<T>, x: T)
    ensures forall y :: y in After(s, x) ==> y in s
  {
    if s != [] && s[0] != x {
      AfterMembers(s[1..], x);
    }
  }

  lemma DistinctAppend<T>(s: seq<T>, x: T)
    requires Distinct(s) && x !in s
    ensures Distinct(s + [x])
  {
  }
}
