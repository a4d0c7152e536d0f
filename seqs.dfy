/** Array operations the source takes from JavaScript's `Array.prototype`: `filter`,
    `findIndex`, `find`, and the replace-or-push update that `services/dbMock.ts`
    builds out of them. */
module Seqs {
  import opened Options

  /** `r` keeps some elements of `s`, in their order in `s`. */
  ghost predicate IsSubsequence<T>(r: seq<T>, s: seq<T>)
    decreases |s|
  {
    if |r| == 0 then true
    else if |s| == 0 then false
    else (r[0] == s[0] && IsSubsequence(r[1..], s[1..])) || IsSubsequence(r, s[1..])
  }

  /** `s.filter(keep)`. */
  function Filter<T>(s: seq<T>, keep: T -> bool): (r: seq<T>)
    ensures |r| <= |s|
    ensures forall i :: 0 <= i < |r| ==> keep(r[i])
    decreases |s|
  {
    if |s| == 0 then []
    else if keep(s[0]) then [s[0]] + Filter(s[1..], keep)
    else Filter(s[1..], keep)
  }

  /** What `filter` returns is an order-preserving selection from its input. */
  lemma {:induction false} FilterIsSubsequence<T>(s: seq<T>, keep: T -> bool)
    ensures IsSubsequence(Filter(s, keep), s)
    decreases |s|
  {
    if |s| > 0 {
      FilterIsSubsequence(s[1..], keep);
      var r := Filter(s, keep);
      if keep(s[0]) {
        assert r[0] == s[0] && r[1..] == Filter(s[1..], keep);
      }
    }
  }

  /** `filter` keeps exactly the elements that pass, each as many times as it occurs
      in the input, and drops every other. */
  lemma {:induction false} FilterIsExactly<T>(s: seq<T>, keep: T -> bool)
    ensures forall x :: x in Filter(s, keep) <==> x in s && keep(x)
    ensures forall x :: multiset(Filter(s, keep))[x] == if keep(x) then multiset(s)[x] else 0
    decreases |s|
  {
    if |s| > 0 {
      FilterIsExactly(s[1..], keep);
      assert s == [s[0]] + s[1..];
      assert multiset(s) == multiset{s[0]} + multiset(s[1..]);
      assert forall x :: x in s <==> x == s[0] || x in s[1..];
    }
  }

  /** When every element passes, `filter` returns its input unchanged. */
  lemma {:induction false} FilterKeepsAll<T>(s: seq<T>, keep: T -> bool)
    requires forall i :: 0 <= i < |s| ==> keep(s[i])
    ensures Filter(s, keep) == s
    decreases |s|
  {
    if |s| > 0 {
      FilterKeepsAll(s[1..], keep);
      assert s == [s[0]] + s[1..];
    }
  }

  /** Filtering distributes over concatenation. */
  lemma {:induction false} FilterConcat<T>(s: seq<T>, t: seq<T>, keep: T -> bool)
    ensures Filter(s + t, keep) == Filter(s, keep) + Filter(t, keep)
    decreases |s|
  {
    if |s| > 0 {
      FilterConcat(s[1..], t, keep);
      assert (s + t)[1..] == s[1..] + t;
    } else {
      assert s + t == t;
    }
  }

  /** When no element passes, `filter` returns the empty array. */
  lemma {:induction false} FilterNoneKept<T>(s: seq<T>, keep: T -> bool)
    requires forall i :: 0 <= i < |s| ==> !keep(s[i])
    ensures Filter(s, keep) == []
    decreases |s|
  {
    if |s| > 0 {
      FilterNoneKept(s[1..], keep);
    }
  }

  /** Six elements cut into three pairs, of which the test passes exactly pair `k`:
      the filter keeps that pair and nothing else. */
  lemma FilterOfThreePairs<T>(all: seq<T>, keep: T -> bool, k: nat)
    requires |all| == 6 && k < 3
    requires keep(all[0]) == keep(all[1]) == (k == 0)
    requires keep(all[2]) == keep(all[3]) == (k == 1)
    requires keep(all[4]) == keep(all[5]) == (k == 2)
    ensures Filter(all, keep) == all[2 * k..2 * k + 2]
  {
    var p0, p1, p2 := all[0..2], all[2..4], all[4..6];
    assert all == p0 + p1 + p2;
    FilterConcat(p0 + p1, p2, keep);
    FilterConcat(p0, p1, keep);
    FilterOfPair(p0, keep);
    FilterOfPair(p1, keep);
    FilterOfPair(p2, keep);
  }

  lemma FilterOfPair<T>(p: seq<T>, keep: T -> bool)
    requires |p| == 2 && keep(p[0]) == keep(p[1])
    ensures Filter(p, keep) == if keep(p[0]) then p else []
  {
    assert p[1..][1..] == [];
  }

  /** Overwriting one element changes the number of elements that pass by the
      difference between the old and the new element. */
  lemma {:induction false} FilterLengthAfterUpdate<T>(s: seq<T>, keep: T -> bool, i: nat, x: T)
    requires i < |s|
    ensures |Filter(s[i := x], keep)|
         == |Filter(s, keep)| - (if keep(s[i]) then 1 else 0) + (if keep(x) then 1 else 0)
    decreases i
  {
    var t := s[i := x];
    if i == 0 {
      assert t[1..] == s[1..];
    } else {
      FilterLengthAfterUpdate(s[1..], keep, i - 1, x);
      assert t[1..] == s[1..][i - 1 := x];
      assert t[0] == s[0];
    }
  }

  /** `s.findIndex(e => key(e) === id)`, with `None` for the source's `-1`: the first
      position whose key equals `id`. */
  function FirstIndex<T>(s: seq<T>, key: T -> string, id: string): (r: Option<nat>)
    ensures r.Some? ==> r.value < |s| && key(s[r.value]) == id
    ensures r.Some? ==> forall j :: 0 <= j < r.value ==> key(s[j]) != id
    ensures r.None? ==> forall j :: 0 <= j < |s| ==> key(s[j]) != id
    decreases |s|
  {
    if |s| == 0 then None
    else if key(s[0]) == id then Some(0)
    else match FirstIndex(s[1..], key, id)
      case None => None
      case Some(i) => Some(i + 1)
  }

  /** `s.find(e => key(e) === id) || null`: the first element with that key. */
  function FindFirst<T>(s: seq<T>, key: T -> string, id: string): (r: Option<T>)
    ensures r.Some? <==> exists j :: 0 <= j < |s| && key(s[j]) == id
    ensures r.Some? ==> r.value in s && key(r.value) == id
  {
    match FirstIndex(s, key, id)
    case Some(i) => Some(s[i])
    case None => None
  }

  /** The update step of an upsert: with `i = findIndex(...)`, `all[i] = replacement`
      when `i > -1`, otherwise `all.push(appended)`. */
  function Upsert<T>(s: seq<T>, key: T -> string, id: string, replacement: T, appended: T): (r: seq<T>)
    ensures FirstIndex(s, key, id).Some? ==>
      var i := FirstIndex(s, key, id).value;
      |r| == |s| && r[i] == replacement && forall j :: 0 <= j < |s| && j != i ==> r[j] == s[j]
    ensures FirstIndex(s, key, id).None? ==>
      |r| == |s| + 1 && r[..|s|] == s && r[|s|] == appended
  {
    match FirstIndex(s, key, id)
    case Some(i) => s[i := replacement]
    case None => s + [appended]
  }

  /** Looking up the upserted key finds what was written: the replacement at the old
      position, or the appended element at the end. */
  lemma FindFirstAfterUpsert<T>(s: seq<T>, key: T -> string, id: string, replacement: T, appended: T)
    requires key(replacement) == id && key(appended) == id
    ensures FirstIndex(Upsert(s, key, id, replacement, appended), key, id)
         == Some(match FirstIndex(s, key, id) case Some(i) => i case None => |s|)
    ensures FindFirst(Upsert(s, key, id, replacement, appended), key, id)
         == Some(if FirstIndex(s, key, id).Some? then replacement else appended)
  {
    var r := Upsert(s, key, id, replacement, appended);
    var k := FirstIndex(r, key, id);
    match FirstIndex(s, key, id)
    case Some(i) =>
      assert key(r[i]) == id;
      assert k.Some?;
    case None =>
      assert key(r[|s|]) == id;
      assert k.Some?;
  }
}
