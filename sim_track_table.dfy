/**
 * The table of simulated tracks above the transverse-momentum threshold,
 * keyed by track id, that both analyzers build at the start of an event.
 */
module SimTrackTable {
  import opened SimTypes

  /** The table after the first n tracks: a track with pT strictly above the
      threshold is emplaced under its id, and emplace never overwrites. */
  function PtFiltered(raw: seq<SimTrack>, minPt: real, n: nat): map<nat, SimTrack>
    requires n <= |raw|
  {
    if n == 0 then map[]
    else
      var m := PtFiltered(raw, minPt, n - 1);
      var t := raw[n - 1];
      if t.pt > minPt && t.trackId !in m then m[t.trackId := t] else m
  }

  /** Track i passes the threshold and no earlier track with its id does. */
  ghost predicate FirstAbove(raw: seq<SimTrack>, minPt: real, i: nat)
    requires i < |raw|
  {
    raw[i].pt > minPt
    && forall j :: 0 <= j < i && raw[j].trackId == raw[i].trackId ==> raw[j].pt <= minPt
  }

  /** The table holds an id exactly when some track with that id passes the
      threshold, and the track it holds is the first one that does. */
  lemma {:induction false} PtFilteredIsFirstAbove(raw: seq<SimTrack>, minPt: real, n: nat)
    requires n <= |raw|
    ensures forall id :: id in PtFiltered(raw, minPt, n)
              <==> exists i :: 0 <= i < n && raw[i].trackId == id && raw[i].pt > minPt
    ensures forall i :: 0 <= i < n && FirstAbove(raw, minPt, i)
              ==> PtFiltered(raw, minPt, n)[raw[i].trackId] == raw[i]
  {
    if n > 0 {
      PtFilteredIsFirstAbove(raw, minPt, n - 1);
      var m := PtFiltered(raw, minPt, n - 1);
      var t := raw[n - 1];
      forall i | 0 <= i < n && FirstAbove(raw, minPt, i)
        ensures PtFiltered(raw, minPt, n)[raw[i].trackId] == raw[i]
      {
        if i < n - 1 {
          assert raw[i].trackId in m;
        } else {
          assert t.trackId !in m;
        }
      }
    }
  }

  /** Every track in the table is stored under its own id and passed the
      threshold. */
  lemma {:induction false} PtFilteredEntries(raw: seq<SimTrack>, minPt: real, n: nat)
    requires n <= |raw|
    ensures forall id :: id in PtFiltered(raw, minPt, n)
              ==> PtFiltered(raw, minPt, n)[id].trackId == id && PtFiltered(raw, minPt, n)[id].pt > minPt
  {
    if n > 0 {
      PtFilteredEntries(raw, minPt, n - 1);
    }
  }

  /** The emplace loop over the event's tracks: only tracks above the
      threshold are kept, and the first of them with a given id wins. */
  method BuildSimTracks(raw: seq<SimTrack>, minPt: real) returns (simTracks: map<nat, SimTrack>)
    ensures simTracks == PtFiltered(raw, minPt, |raw|)
    ensures forall id :: id in simTracks
              <==> exists i :: 0 <= i < |raw| && raw[i].trackId == id && raw[i].pt > minPt
    ensures forall i :: 0 <= i < |raw| && FirstAbove(raw, minPt, i) ==> simTracks[raw[i].trackId] == raw[i]
  {
    simTracks := map[];
    var i := 0;
    while i < |raw|
      invariant 0 <= i <= |raw|
      invariant simTracks == PtFiltered(raw, minPt, i)
    {
      var t := raw[i];
      if t.pt > minPt && t.trackId !in simTracks {
        simTracks := simTracks[t.trackId := t];
      }
      i := i + 1;
    }
    PtFilteredIsFirstAbove(raw, minPt, |raw|);
  }
}
