/**
 * Choosing the simulated hit a cluster is compared with. Every hit of every
 * container is offered in scan order; a hit is a candidate when it lies on the
 * cluster's module and its track id is among the cluster's ids, and the first
 * candidate, or a later one strictly closer in local x, becomes closestSimHit.
 * The state kept between offers is the pointer closestSimHit and the float
 * minx, whose stored value is whatever the chosen absolute-value overload
 * returns (`record` below).
 *
 * Scan is the specification of the scanning loops of both analyzers
 * (two passes per container in the inner-tracker one, one in the outer-tracker
 * one); the lemmas say what it finds.
 */
module ClosestHit {
  import opened SimTypes

  /** What a scan compares against: the cluster's module, the set of its
      track ids and its local x. */
  datatype Query = Query(det: nat, ids: set<nat>, clusterX: real)

  /** The pointer closestSimHit: which container, which position, which hit. */
  datatype Closest = Closest(container: nat, index: nat, hit: SimHit)

  /** closestSimHit (None for a null pointer) and minx. */
  datatype ScanState = ScanState(closest: Option<Closest>, minx: real)

  /** The initial value of minx. */
  const Sentinel: real := 10000.0

  const Start: ScanState := ScanState(None, Sentinel)

  /** fabs. */
  function Abs(v: real): real {
    if v < 0.0 then -v else v
  }

  /** The distance the scan compares: |hit.x - cluster.x|. */
  function Dist(h: SimHit, q: Query): real {
    Abs(h.localX - q.clusterX)
  }

  predicate IsCandidate(h: SimHit, q: Query) {
    h.detUnitId == q.det && h.trackId in q.ids
  }

  /** One iteration of the innermost loop, on hit h at position i of
      container c. */
  function Offer(s: ScanState, c: nat, i: nat, h: SimHit, q: Query, record: real -> real): ScanState {
    if IsCandidate(h, q) && (s.closest.None? || Dist(h, q) < s.minx)
    then ScanState(Some(Closest(c, i, h)), record(h.localX - q.clusterX))
    else s
  }

  /** One pass over the first n hits of container c. */
  function ScanHits(s: ScanState, c: nat, hits: seq<SimHit>, n: nat, q: Query, record: real -> real): ScanState
    requires n <= |hits|
  {
    if n == 0 then s else Offer(ScanHits(s, c, hits, n - 1, q, record), c, n - 1, hits[n - 1], q, record)
  }

  /** `passes` full passes over container c. */
  function ScanPasses(s: ScanState, c: nat, hits: seq<SimHit>, passes: nat, q: Query, record: real -> real): ScanState
  {
    if passes == 0 then s else ScanHits(ScanPasses(s, c, hits, passes - 1, q, record), c, hits, |hits|, q, record)
  }

  /** The scan of the first k containers, each passed over `passes` times. */
  function Scan(s: ScanState, conts: HitContainers, k: nat, passes: nat, q: Query, record: real -> real): ScanState
    requires k <= |conts|
  {
    if k == 0 then s else ScanPasses(Scan(s, conts, k - 1, passes, q, record), k - 1, conts[k - 1], passes, q, record)
  }

  // ---------------------------------------------------------------------
  // What a correct match is

  /** The pointer refers to that hit of the event. */
  ghost predicate Holds(conts: HitContainers, cl: Closest) {
    cl.container < |conts| && cl.index < |conts[cl.container]| && conts[cl.container][cl.index] == cl.hit
  }

  /** Position (c', i') comes before position (c, i) in scan order. */
  predicate Before(c': nat, i': nat, c: nat, i: nat) {
    c' < c || (c' == c && i' < i)
  }

  ghost predicate HasCandidate(conts: HitContainers, q: Query) {
    exists c, i :: 0 <= c < |conts| && 0 <= i < |conts[c]| && IsCandidate(conts[c][i], q)
  }

  /** cl is a candidate at the smallest distance of all candidates, and every
      candidate scanned before it is strictly farther: the global minimum,
      with the earliest-scanned hit winning ties. */
  ghost predicate IsFirstClosest(conts: HitContainers, q: Query, cl: Closest) {
    && Holds(conts, cl)
    && IsCandidate(cl.hit, q)
    && (forall c, i :: 0 <= c < |conts| && 0 <= i < |conts[c]| && IsCandidate(conts[c][i], q)
          ==> Dist(cl.hit, q) <= Dist(conts[c][i], q))
    && (forall c, i :: 0 <= c < |conts| && 0 <= i < |conts[c]| && IsCandidate(conts[c][i], q)
          && Before(c, i, cl.container, cl.index)
          ==> Dist(cl.hit, q) < Dist(conts[c][i], q))
  }

  /** minx holds the compared distance itself (the fabs overload). */
  ghost predicate RecordsDistance(record: real -> real) {
    forall v :: record(v) == Abs(v)
  }

  // ---------------------------------------------------------------------
  // The scan invariant: after every position before (c, i) was offered

  ghost predicate CandidateBefore(conts: HitContainers, q: Query, c: nat, i: nat) {
    exists c', i' :: 0 <= c' < |conts| && 0 <= i' < |conts[c']| && Before(c', i', c, i)
                     && IsCandidate(conts[c'][i'], q)
  }

  ghost predicate FirstClosestBefore(conts: HitContainers, q: Query, cl: Closest, c: nat, i: nat) {
    && Holds(conts, cl)
    && IsCandidate(cl.hit, q)
    && Before(cl.container, cl.index, c, i)
    && (forall c', i' :: 0 <= c' < |conts| && 0 <= i' < |conts[c']| && Before(c', i', c, i)
          && IsCandidate(conts[c'][i'], q)
          ==> Dist(cl.hit, q) <= Dist(conts[c'][i'], q))
    && (forall c', i' :: 0 <= c' < |conts| && 0 <= i' < |conts[c']| && Before(c', i', cl.container, cl.index)
          && IsCandidate(conts[c'][i'], q)
          ==> Dist(cl.hit, q) < Dist(conts[c'][i'], q))
  }

  ghost predicate ScanInvariant(s: ScanState, conts: HitContainers, q: Query, c: nat, i: nat) {
    && (s.closest.None? <==> !CandidateBefore(conts, q, c, i))
    && (s.closest.Some? ==> FirstClosestBefore(conts, q, s.closest.value, c, i)
                            && s.minx == Dist(s.closest.value.hit, q))
  }

  lemma OfferKeepsInvariant(s: ScanState, conts: HitContainers, q: Query, c: nat, i: nat, record: real -> real)
    requires c < |conts| && i < |conts[c]|
    requires RecordsDistance(record)
    requires ScanInvariant(s, conts, q, c, i)
    ensures ScanInvariant(Offer(s, c, i, conts[c][i], q, record), conts, q, c, i + 1)
  {
    var h := conts[c][i];
    var s' := Offer(s, c, i, h, q, record);
    if IsCandidate(h, q) {
      assert CandidateBefore(conts, q, c, i + 1);
      if s.closest.None? || Dist(h, q) < s.minx {
        assert s'.closest == Some(Closest(c, i, h));
        assert s'.minx == Dist(h, q);
      } else {
        assert s' == s;
      }
    } else {
      assert s' == s;
      if CandidateBefore(conts, q, c, i + 1) {
        var c', i' :| 0 <= c' < |conts| && 0 <= i' < |conts[c']| && Before(c', i', c, i + 1)
                      && IsCandidate(conts[c'][i'], q);
        assert Before(c', i', c, i);
      }
    }
  }

  lemma {:induction false} FirstPassKeepsInvariant(s: ScanState, conts: HitContainers, q: Query, c: nat, n: nat,
                                                 record: real -> real)
    requires c < |conts| && n <= |conts[c]|
    requires RecordsDistance(record)
    requires ScanInvariant(s, conts, q, c, 0)
    ensures ScanInvariant(ScanHits(s, c, conts[c], n, q, record), conts, q, c, n)
  {
    if n > 0 {
      FirstPassKeepsInvariant(s, conts, q, c, n - 1, record);
      OfferKeepsInvariant(ScanHits(s, c, conts[c], n - 1, q, record), conts, q, c, n - 1, record);
    }
  }

  /** Once container c has been scanned in full, scanning it again changes
      neither closestSimHit nor minx: no hit of it is strictly closer than
      the one already chosen. */
  lemma {:induction false} RescanChangesNothing(s: ScanState, conts: HitContainers, q: Query, c: nat, n: nat,
                                              record: real -> real)
    requires c < |conts| && n <= |conts[c]|
    requires ScanInvariant(s, conts, q, c, |conts[c]|)
    ensures ScanHits(s, c, conts[c], n, q, record) == s
  {
    if n > 0 {
      RescanChangesNothing(s, conts, q, c, n - 1, record);
      var h := conts[c][n - 1];
      if IsCandidate(h, q) {
        assert Before(c, n - 1, c, |conts[c]|);
        assert CandidateBefore(conts, q, c, |conts[c]|);
      }
    }
  }

  lemma {:induction false} PassesKeepInvariant(s: ScanState, conts: HitContainers, q: Query, c: nat, passes: nat,
                                             record: real -> real)
    requires c < |conts| && passes >= 1
    requires RecordsDistance(record)
    requires ScanInvariant(s, conts, q, c, 0)
    ensures ScanPasses(s, c, conts[c], passes, q, record) == ScanPasses(s, c, conts[c], 1, q, record)
    ensures ScanInvariant(ScanPasses(s, c, conts[c], passes, q, record), conts, q, c, |conts[c]|)
  {
    if passes == 1 {
      FirstPassKeepsInvariant(s, conts, q, c, |conts[c]|, record);
    } else {
      PassesKeepInvariant(s, conts, q, c, passes - 1, record);
      RescanChangesNothing(ScanPasses(s, c, conts[c], passes - 1, q, record), conts, q, c, |conts[c]|, record);
    }
  }

  /** Having scanned container c in full is having scanned everything before
      container c + 1. */
  lemma NextContainer(s: ScanState, conts: HitContainers, q: Query, c: nat)
    requires c < |conts|
    requires ScanInvariant(s, conts, q, c, |conts[c]|)
    ensures ScanInvariant(s, conts, q, c + 1, 0)
  {
    if CandidateBefore(conts, q, c + 1, 0) {
      var c', i' :| 0 <= c' < |conts| && 0 <= i' < |conts[c']| && Before(c', i', c + 1, 0)
                    && IsCandidate(conts[c'][i'], q);
      assert Before(c', i', c, |conts[c]|);
    }
    if CandidateBefore(conts, q, c, |conts[c]|) {
      var c', i' :| 0 <= c' < |conts| && 0 <= i' < |conts[c']| && Before(c', i', c, |conts[c]|)
                    && IsCandidate(conts[c'][i'], q);
      assert Before(c', i', c + 1, 0);
    }
  }

  lemma {:induction false} ScanKeepsInvariant(conts: HitContainers, q: Query, k: nat, passes: nat, record: real -> real)
    requires k <= |conts| && passes >= 1
    requires RecordsDistance(record)
    ensures ScanInvariant(Scan(Start, conts, k, passes, q, record), conts, q, k, 0)
    ensures Scan(Start, conts, k, passes, q, record) == Scan(Start, conts, k, 1, q, record)
  {
    if k > 0 {
      ScanKeepsInvariant(conts, q, k - 1, passes, record);
      var s := Scan(Start, conts, k - 1, passes, q, record);
      PassesKeepInvariant(s, conts, q, k - 1, passes, record);
      NextContainer(ScanPasses(s, k - 1, conts[k - 1], passes, q, record), conts, q, k - 1);
    }
  }

  /** With minx holding the compared distance, the scan finds no hit exactly
      when there is no candidate, and otherwise the candidate closest in local
      x, the earliest-scanned one among equally close candidates. */
  lemma ScanFindsClosest(conts: HitContainers, q: Query, passes: nat, record: real -> real)
    requires passes >= 1
    requires RecordsDistance(record)
    ensures var s := Scan(Start, conts, |conts|, passes, q, record);
            && (s.closest.None? <==> !HasCandidate(conts, q))
            && (s.closest.Some? ==> IsFirstClosest(conts, q, s.closest.value)
                                    && s.minx == Dist(s.closest.value.hit, q))
  {
    ScanKeepsInvariant(conts, q, |conts|, passes, record);
    var s := Scan(Start, conts, |conts|, passes, q, record);
    if HasCandidate(conts, q) {
      var c, i :| 0 <= c < |conts| && 0 <= i < |conts[c]| && IsCandidate(conts[c][i], q);
      assert Before(c, i, |conts|, 0);
    }
  }

  /** There is at most one first-closest hit: the tie-break makes the choice
      unambiguous. */
  lemma ClosestUnique(conts: HitContainers, q: Query, a: Closest, b: Closest)
    requires IsFirstClosest(conts, q, a) && IsFirstClosest(conts, q, b)
    ensures a == b
  {
    if Before(a.container, a.index, b.container, b.index) {
      assert false;
    } else if Before(b.container, b.index, a.container, a.index) {
      assert false;
    }
  }

  /** The inner-tracker analyzer passes over every container twice; the
      second pass is a no-op, so the result is that of a single pass. */
  lemma SecondPassIsNoOp(conts: HitContainers, q: Query, record: real -> real)
    requires RecordsDistance(record)
    ensures Scan(Start, conts, |conts|, 2, q, record) == Scan(Start, conts, |conts|, 1, q, record)
  {
    ScanKeepsInvariant(conts, q, |conts|, 2, record);
  }

  // ---------------------------------------------------------------------
  // Properties that hold whatever minx records

  /** The state before the scan of container c: the pointer is null exactly
      when no candidate was offered, and otherwise refers to an offered
      candidate. */
  ghost predicate PointerInvariant(s: ScanState, conts: HitContainers, q: Query, c: nat, i: nat) {
    && (s.closest.None? <==> !CandidateBefore(conts, q, c, i))
    && (s.closest.Some? ==> Holds(conts, s.closest.value) && IsCandidate(s.closest.value.hit, q))
  }

  lemma {:induction false} SinglePassKeepsPointer(s: ScanState, conts: HitContainers, q: Query, c: nat, n: nat,
                                                record: real -> real)
    requires c < |conts| && n <= |conts[c]|
    requires PointerInvariant(s, conts, q, c, 0)
    ensures PointerInvariant(ScanHits(s, c, conts[c], n, q, record), conts, q, c, n)
  {
    if n > 0 {
      SinglePassKeepsPointer(s, conts, q, c, n - 1, record);
      var t := ScanHits(s, c, conts[c], n - 1, q, record);
      var h := conts[c][n - 1];
      if IsCandidate(h, q) {
        assert Before(c, n - 1, c, n);
      } else if CandidateBefore(conts, q, c, n) {
        var c', i' :| 0 <= c' < |conts| && 0 <= i' < |conts[c']| && Before(c', i', c, n)
                      && IsCandidate(conts[c'][i'], q);
        assert Before(c', i', c, n - 1);
      }
    }
  }

  lemma {:induction false} SinglePassScanKeepsPointer(conts: HitContainers, q: Query, k: nat, record: real -> real)
    requires k <= |conts|
    ensures PointerInvariant(Scan(Start, conts, k, 1, q, record), conts, q, k, 0)
  {
    if k > 0 {
      SinglePassScanKeepsPointer(conts, q, k - 1, record);
      var s := Scan(Start, conts, k - 1, 1, q, record);
      SinglePassKeepsPointer(s, conts, q, k - 1, |conts[k - 1]|, record);
      var t := ScanHits(s, k - 1, conts[k - 1], |conts[k - 1]|, q, record);
      assert ScanPasses(s, k - 1, conts[k - 1], 0, q, record) == s;
      assert Scan(Start, conts, k, 1, q, record) == t;
      if CandidateBefore(conts, q, k, 0) {
        var c', i' :| 0 <= c' < |conts| && 0 <= i' < |conts[c']| && Before(c', i', k, 0)
                      && IsCandidate(conts[c'][i'], q);
        assert Before(c', i', k - 1, |conts[k - 1]|);
      }
      if CandidateBefore(conts, q, k - 1, |conts[k - 1]|) {
        var c', i' :| 0 <= c' < |conts| && 0 <= i' < |conts[c']| && Before(c', i', k - 1, |conts[k - 1]|)
                      && IsCandidate(conts[c'][i'], q);
        assert Before(c', i', k, 0);
      }
    }
  }

  /** Whatever value minx stores, a single-pass scan (the outer-tracker one)
      finds a hit exactly when there is a candidate, and the hit it finds is
      a candidate: the null-pointer guard takes the first candidate whatever
      minx holds. */
  lemma SinglePassFindsCandidate(conts: HitContainers, q: Query, record: real -> real)
    ensures var s := Scan(Start, conts, |conts|, 1, q, record);
            && (s.closest.None? <==> !HasCandidate(conts, q))
            && (s.closest.Some? ==> Holds(conts, s.closest.value) && IsCandidate(s.closest.value.hit, q))
  {
    SinglePassScanKeepsPointer(conts, q, |conts|, record);
    if HasCandidate(conts, q) {
      var c, i :| 0 <= c < |conts| && 0 <= i < |conts[c]| && IsCandidate(conts[c][i], q);
      assert Before(c, i, |conts|, 0);
    }
  }

  /** Two states that agree once a hit has been chosen. */
  predicate Agree(s: ScanState, t: ScanState) {
    s == t || (s.closest.None? && t.closest.None?)
  }

  lemma {:induction false} ScanHitsKeepsAgreement(s: ScanState, t: ScanState, c: nat, hits: seq<SimHit>, n: nat,
                                                q: Query, record: real -> real)
    requires n <= |hits| && Agree(s, t)
    ensures Agree(ScanHits(s, c, hits, n, q, record), ScanHits(t, c, hits, n, q, record))
  {
    if n > 0 {
      ScanHitsKeepsAgreement(s, t, c, hits, n - 1, q, record);
    }
  }

  lemma {:induction false} ScanPassesKeepsAgreement(s: ScanState, t: ScanState, c: nat, hits: seq<SimHit>, passes: nat,
                                                  q: Query, record: real -> real)
    requires Agree(s, t)
    ensures Agree(ScanPasses(s, c, hits, passes, q, record), ScanPasses(t, c, hits, passes, q, record))
  {
    if passes > 0 {
      ScanPassesKeepsAgreement(s, t, c, hits, passes - 1, q, record);
      ScanHitsKeepsAgreement(ScanPasses(s, c, hits, passes - 1, q, record),
                             ScanPasses(t, c, hits, passes - 1, q, record), c, hits, |hits|, q, record);
    }
  }

  /** The sentinel 10000 never matters: starting from a null pointer with any
      initial minx chooses the same hit. */
  lemma {:induction false} SentinelIrrelevant(conts: HitContainers, k: nat, passes: nat, q: Query, record: real -> real,
                                            initial: real)
    requires k <= |conts|
    ensures Scan(ScanState(None, initial), conts, k, passes, q, record).closest
            == Scan(Start, conts, k, passes, q, record).closest
    ensures Agree(Scan(ScanState(None, initial), conts, k, passes, q, record), Scan(Start, conts, k, passes, q, record))
  {
    if k > 0 {
      SentinelIrrelevant(conts, k - 1, passes, q, record, initial);
      ScanPassesKeepsAgreement(Scan(ScanState(None, initial), conts, k - 1, passes, q, record),
                               Scan(Start, conts, k - 1, passes, q, record), k - 1, conts[k - 1], passes, q, record);
    }
  }

  // ---------------------------------------------------------------------
  // minx stored through the integer overload of abs

  /** Conversion of a float to int: truncation toward zero. */
  function Truncate(v: real): int {
    if v >= 0.0 then v.Floor else -((-v).Floor)
  }

  /** abs(float) resolved to int abs(int): the distance truncated to an
      integer before it is stored in minx. */
  function IntAbs(v: real): real {
    var t := Truncate(v);
    (if t < 0 then -t else t) as real
  }

  /** With the integer overload, a cluster at x = 0 with candidates at 0.7 and
      then 0.5 keeps the hit at 0.7: minx becomes 0 after the first one, and
      no distance is below 0. */
  lemma TruncatedMinxMissesClosest()
    ensures var far := SimHit(1, 5, 0.7, 0.0, 0);
            var near := SimHit(1, 5, 0.5, 0.0, 0);
            var conts := [[far, near]];
            var q := Query(1, {5}, 0.0);
            var s := Scan(Start, conts, 1, 1, q, IntAbs);
            && s.closest == Some(Closest(0, 0, far))
            && !IsFirstClosest(conts, q, s.closest.value)
  {
    var far := SimHit(1, 5, 0.7, 0.0, 0);
    var near := SimHit(1, 5, 0.5, 0.0, 0);
    var conts := [[far, near]];
    var q := Query(1, {5}, 0.0);
    assert Truncate(0.7) == 0;
    assert IntAbs(0.7) == 0.0;
    var s0 := ScanHits(Start, 0, conts[0], 0, q, IntAbs);
    assert s0 == Start;
    assert IsCandidate(far, q);
    var s1 := ScanHits(Start, 0, conts[0], 1, q, IntAbs);
    assert s1 == ScanState(Some(Closest(0, 0, far)), 0.0);
    var s2 := ScanHits(Start, 0, conts[0], 2, q, IntAbs);
    assert s2 == s1;
    assert ScanPasses(Start, 0, conts[0], 0, q, IntAbs) == Start;
    assert ScanPasses(Start, 0, conts[0], 1, q, IntAbs) == s2;
    assert Scan(Start, conts, 0, 1, q, IntAbs) == Start;
    assert Scan(Start, conts, 1, 1, q, IntAbs) == s2;
    assert IsCandidate(conts[0][1], q) && Dist(conts[0][1], q) < Dist(far, q);
  }
}
