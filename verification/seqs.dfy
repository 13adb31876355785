/** The two array idioms of the client code: `find`/`findIndex` (first
    element satisfying a predicate) and summing a field over a list. */
module Seqs {
  import opened Results

  /** Index of the first element satisfying `p`, as `Array.prototype.findIndex`
      (which reports absence as -1; here as `None`). */
  function FindFirst<T>(s: seq<T>, p: T -> bool): (r: Option<nat>)
    ensures r.Some? ==> r.value < |s| && p(s[r.value])
    ensures r.Some? ==> forall j :: 0 <= j < r.value ==> !p(s[j])
    ensures r.None? <==> forall j :: 0 <= j < |s| ==> !p(s[j])
  {
    if |s| == 0 then None
    else if p(s[0]) then Some(0)
    else
      match FindFirst(s[1..], p)
      case None => None
      case Some(i) => Some(i + 1)
  }

  /** Sequences on which `p` holds at the same positions have the same first
      match. */
  lemma FindFirstAgree<T>(s1: seq<T>, s2: seq<T>, p: T -> bool)
    requires |s1| == |s2|
    requires forall j :: 0 <= j < |s1| ==> p(s1[j]) == p(s2[j])
    ensures FindFirst(s1, p) == FindFirst(s2, p)
  {
  }

  /** Prepending an element shifts the first match by one, unless the new
      element matches itself. */
  lemma FindFirstPrepend<T>(x: T, s: seq<T>, p: T -> bool)
    ensures p(x) ==> FindFirst([x] + s, p) == Some(0)
    ensures !p(x) && FindFirst(s, p).None? ==> FindFirst([x] + s, p).None?
    ensures !p(x) && FindFirst(s, p).Some? ==> FindFirst([x] + s, p) == Some(FindFirst(s, p).value + 1)
  {
    assert ([x] + s)[1..] == s;
  }

  /** Sum of `f` over the elements of `s`. */
  function Sum<T>(s: seq<T>, f: T -> int): int
  {
    if |s| == 0 then 0 else f(s[0]) + Sum(s[1..], f)
  }

  lemma SumOne<T>(x: T, f: T -> int)
    ensures Sum([x], f) == f(x)
  {
  }

  lemma SumTwo<T>(x: T, y: T, f: T -> int)
    ensures Sum([x, y], f) == f(x) + f(y)
  {
    assert [x, y][1..] == [y];
    SumOne(y, f);
  }

  lemma SumThree<T>(x: T, y: T, z: T, f: T -> int)
    ensures Sum([x, y, z], f) == f(x) + f(y) + f(z)
  {
    assert [x, y, z][1..] == [y, z];
    SumTwo(y, z, f);
  }
}
