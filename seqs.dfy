/** `Array.prototype.filter` and `Array.prototype.find` over sequences. */
module Seqs {
  import opened Wrappers

  /** `s.filter(x => !drop(x))`: the elements `drop` rejects are removed, the rest stay in order. */
  function RemoveWhere<T(==)>(s: seq<T>, drop: T -> bool): (r: seq<T>)
    ensures |r| <= |s|
    ensures forall i :: 0 <= i < |r| ==> !drop(r[i]) && r[i] in s
    ensures forall x :: x in s && !drop(x) ==> x in r
  {
    if |s| == 0 then []
    else if drop(s[0]) then RemoveWhere(s[1..], drop)
    else [s[0]] + RemoveWhere(s[1..], drop)
  }

  /** Filtering distributes over concatenation: the survivors keep their relative order. */
  lemma {:induction false} RemoveWhereAppend<T>(a: seq<T>, b: seq<T>, drop: T -> bool)
    ensures RemoveWhere(a + b, drop) == RemoveWhere(a, drop) + RemoveWhere(b, drop)
  {
    if |a| == 0 {
      assert a + b == b;
    } else {
      assert (a + b)[1..] == a[1..] + b;
      RemoveWhereAppend(a[1..], b, drop);
    }
  }

  /** Nothing is removed from a sequence none of whose elements `drop` rejects. */
  lemma {:induction false} RemoveWhereNothing<T>(s: seq<T>, drop: T -> bool)
    requires forall i :: 0 <= i < |s| ==> !drop(s[i])
    ensures RemoveWhere(s, drop) == s
  {
    if |s| > 0 {
      RemoveWhereNothing(s[1..], drop);
      assert [s[0]] + s[1..] == s;
    }
  }

  /** Filtering twice with the same test changes nothing the first pass left. */
  lemma RemoveWhereIdempotent<T>(s: seq<T>, drop: T -> bool)
    ensures RemoveWhere(RemoveWhere(s, drop), drop) == RemoveWhere(s, drop)
  {
    RemoveWhereNothing(RemoveWhere(s, drop), drop);
  }

  /** `s.find(found)`: the first element the test accepts, if any. */
  function FindWhere<T(==)>(s: seq<T>, found: T -> bool): (r: Option<T>)
    ensures r.None? <==> forall i :: 0 <= i < |s| ==> !found(s[i])
    ensures r.Some? ==>
      exists i :: 0 <= i < |s| && s[i] == r.value && found(s[i]) && forall j :: 0 <= j < i ==> !found(s[j])
  {
    if |s| == 0 then None
    else if found(s[0]) then Some(s[0])
    else
      var r := FindWhere(s[1..], found);
      if r.Some? then
        var i :| 0 <= i < |s| - 1 && s[1..][i] == r.value && found(s[1..][i])
                 && forall j :: 0 <= j < i ==> !found(s[1..][j]);
        assert s[i + 1] == r.value && forall j :: 0 <= j < i + 1 ==> !found(s[j]);
        r
      else r
  }

  /** When exactly one element is accepted, `find` returns it. */
  lemma FindWhereUnique<T>(s: seq<T>, found: T -> bool, k: nat)
    requires k < |s| && found(s[k])
    requires forall i :: 0 <= i < |s| && i != k ==> !found(s[i])
    ensures FindWhere(s, found) == Some(s[k])
  {
  }
}
