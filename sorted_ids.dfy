/**
 * Sorted lists of sim-track ids: the std::sort the analyzers apply to the
 * collected ids and the std::lower_bound they search them with.
 */
module SortedIds {

  ghost predicate Ascending(s: seq<nat>) {
    forall a, b :: 0 <= a < b < |s| ==> s[a] <= s[b]
  }

  ghost predicate StrictlyAscending(s: seq<nat>) {
    forall a, b :: 0 <= a < b < |s| ==> s[a] < s[b]
  }

  /** Every value occurs at most once. */
  ghost predicate DuplicateFree(s: seq<nat>) {
    forall v :: multiset(s)[v] <= 1
  }

  /** The values of a list, as a set. */
  function IdSet(s: seq<nat>): set<nat> {
    set v | v in s
  }

  /** Two equal values at different positions make a value occur twice. */
  lemma {:induction false} RepeatedValueCountsTwice(s: seq<nat>, a: nat, b: nat)
    requires a < b < |s| && s[a] == s[b]
    ensures multiset(s)[s[a]] >= 2
  {
    assert s == s[..b] + s[b..];
    assert s[a] in s[..b];
    assert s[b] in s[b..];
    assert multiset(s) == multiset(s[..b]) + multiset(s[b..]);
  }

  /** An ascending list without repeated values is strictly ascending. */
  lemma {:induction false} AscendingDuplicateFreeIsStrict(s: seq<nat>)
    requires Ascending(s) && DuplicateFree(s)
    ensures StrictlyAscending(s)
  {
    forall a, b | 0 <= a < b < |s|
      ensures s[a] < s[b]
    {
      if s[a] == s[b] {
        RepeatedValueCountsTwice(s, a, b);
      }
    }
  }

  /** Insert x into an ascending list after every value not above it. */
  method InsertAscending(r: seq<nat>, x: nat) returns (r': seq<nat>)
    requires Ascending(r)
    ensures Ascending(r')
    ensures multiset(r') == multiset(r) + multiset{x}
  {
    var k := 0;
    while k < |r| && r[k] <= x
      invariant 0 <= k <= |r|
      invariant forall j :: 0 <= j < k ==> r[j] <= x
    {
      k := k + 1;
    }
    assert r == r[..k] + r[k..];
    r' := r[..k] + [x] + r[k..];
  }

  /** std::sort: an ascending permutation of the input (modelled as an
      insertion sort into a fresh list). */
  method SortIds(ids: seq<nat>) returns (r: seq<nat>)
    ensures Ascending(r)
    ensures multiset(r) == multiset(ids)
  {
    r := [];
    var i := 0;
    while i < |ids|
      invariant 0 <= i <= |ids|
      invariant Ascending(r)
      invariant multiset(r) == multiset(ids[..i])
    {
      r := InsertAscending(r, ids[i]);
      assert ids[..i + 1] == ids[..i] + [ids[i]];
      i := i + 1;
    }
    assert ids[..i] == ids;
  }

  /** std::lower_bound on an ascending list: the first position whose value
      is not below x. On an ascending list, "found and equal" is exactly
      membership. */
  method LowerBound(a: seq<nat>, x: nat) returns (k: nat)
    requires Ascending(a)
    ensures k <= |a|
    ensures forall j :: 0 <= j < k ==> a[j] < x
    ensures forall j :: k <= j < |a| ==> x <= a[j]
    ensures (k < |a| && a[k] == x) <==> x in a
  {
    var lo, hi := 0, |a|;
    while lo < hi
      invariant 0 <= lo <= hi <= |a|
      invariant forall j :: 0 <= j < lo ==> a[j] < x
      invariant forall j :: hi <= j < |a| ==> x <= a[j]
      decreases hi - lo
    {
      var mid := lo + (hi - lo) / 2;
      if a[mid] < x {
        lo := mid + 1;
      } else {
        hi := mid;
      }
    }
    k := lo;
  }
}
