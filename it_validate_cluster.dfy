/**
 * The inner-tracker cluster validation (Phase2ITValidateCluster): for every
 * pixel cluster, the simulated hit it is compared with, and the per-layer
 * counters of matched clusters, split into those from primary particles and
 * the others.
 *
 * The tracker geometry and topology are inputs: the set of module ids the
 * geometry knows (idToDet and idToDetUnit both non-null), the layer number
 * of a module, and the pixel-to-channel numbering. A cluster carries its
 * local position as the module topology computes it.
 */
module ITValidateCluster {
  import opened SimTypes
  import opened SortedIds
  import opened SimLinks
  import opened SimTrackTable
  import opened ClosestHit
  import opened Registry
  import opened Decimal

  // ---------------------------------------------------------------------
  // isPrimary and getHistoId

  /** The hit is from the track, the track starts at the primary vertex and
      the hit was created by the primary process. */
  function IsPrimary(trk: SimTrack, hit: SimHit): (r: bool)
    ensures r <==> trk.trackId == hit.trackId && trk.vertIndex == 0 && hit.processType == 0
  {
    if trk.trackId != hit.trackId then false
    else trk.vertIndex == 0 && hit.processType == 0
  }

  const BarrelPrefix: string := "Barrel/Layer"
  const EndCapPrefix: string := "EndCap_Side"
  const DiscInfix: string := "/Disc"

  /** The folder name of a layer: none for a negative layer number, a barrel
      layer below 100, and otherwise side (the hundreds) and disc (the rest,
      0 to 99) of an end-cap disc. */
  function GetHistoId(layer: int): (key: string)
    ensures key == "" <==> layer < 0
    ensures 0 <= layer < 100 ==> key == BarrelPrefix + NatToString(layer)
    ensures layer >= 100 ==> var side := layer / 100; var disc := layer - side * 100;
                             && side >= 1 && 0 <= disc < 100
                             && key == EndCapPrefix + NatToString(side) + DiscInfix + NatToString(disc)
  {
    if layer < 0 then ""
    else if layer < 100 then BarrelPrefix + NatToString(layer)
    else
      var side := layer / 100;
      var disc := layer - side * 100;
      EndCapPrefix + NatToString(side) + DiscInfix + NatToString(disc)
  }

  predicate HasPrefix(key: string, prefix: string) {
    |key| > |prefix| && key[..|prefix|] == prefix
  }

  /** Reads a layer number back from a folder name. */
  function ParseHistoId(key: string): Option<int> {
    if HasPrefix(key, BarrelPrefix) && AllDigits(key[|BarrelPrefix|..]) then Some(DigitsValue(key[|BarrelPrefix|..]))
    else if HasPrefix(key, EndCapPrefix) then ParseSideDisc(key[|EndCapPrefix|..])
    else None
  }

  /** Reads "<side>/Disc<disc>" back as 100 * side + disc. */
  function ParseSideDisc(rest: string): Option<int> {
    var n := LeadingDigits(rest);
    var tail := rest[n..];
    if n > 0 && HasPrefix(tail, DiscInfix) && AllDigits(tail[|DiscInfix|..]) then
      Some(100 * DigitsValue(rest[..n]) + DigitsValue(tail[|DiscInfix|..]))
    else None
  }

  lemma ParseSideDiscOf(sideDigits: string, discDigits: string, rest: string)
    requires |sideDigits| >= 1 && AllDigits(sideDigits)
    requires |discDigits| >= 1 && AllDigits(discDigits)
    requires rest == sideDigits + (DiscInfix + discDigits)
    ensures ParseSideDisc(rest) == Some(100 * DigitsValue(sideDigits) + DigitsValue(discDigits))
  {
    LeadingDigitsOfConcat(sideDigits, DiscInfix + discDigits);
    var n := LeadingDigits(rest);
    assert rest[..n] == sideDigits;
    var tail := rest[n..];
    assert tail == DiscInfix + discDigits;
    assert tail[..|DiscInfix|] == DiscInfix;
    assert tail[|DiscInfix|..] == discDigits;
  }

  /** A barrel folder name reads back as its layer. */
  lemma ParseBarrelName(digits: string, key: string)
    requires |digits| >= 1 && AllDigits(digits)
    requires key == BarrelPrefix + digits
    ensures ParseHistoId(key) == Some(DigitsValue(digits))
  {
    assert key[..|BarrelPrefix|] == BarrelPrefix;
    assert key[|BarrelPrefix|..] == digits;
  }

  /** An end-cap folder name reads back as side and disc. */
  lemma ParseEndCapName(sideDigits: string, discDigits: string, key: string)
    requires |sideDigits| >= 1 && AllDigits(sideDigits)
    requires |discDigits| >= 1 && AllDigits(discDigits)
    requires key == EndCapPrefix + sideDigits + DiscInfix + discDigits
    ensures ParseHistoId(key) == Some(100 * DigitsValue(sideDigits) + DigitsValue(discDigits))
  {
    var rest := sideDigits + (DiscInfix + discDigits);
    assert key == EndCapPrefix + rest;
    assert |key| > |BarrelPrefix|;
    assert key[..|BarrelPrefix|][0] == 'E' != BarrelPrefix[0];
    assert key[..|EndCapPrefix|] == EndCapPrefix;
    assert key[|EndCapPrefix|..] == rest;
    ParseSideDiscOf(sideDigits, discDigits, rest);
  }

  /** The folder name of a non-negative layer determines the layer. */
  lemma HistoIdRoundTrip(layer: int)
    requires layer >= 0
    ensures ParseHistoId(GetHistoId(layer)) == Some(layer)
  {
    if layer < 100 {
      ParseBarrelName(NatToString(layer), GetHistoId(layer));
      NatToStringRoundTrip(layer);
    } else {
      var side := layer / 100;
      var disc := layer - side * 100;
      ParseEndCapName(NatToString(side), NatToString(disc), GetHistoId(layer));
      NatToStringRoundTrip(side);
      NatToStringRoundTrip(disc);
    }
  }

  /** Distinct non-negative layers get distinct folder names. */
  lemma HistoIdInjective(a: int, b: int)
    requires a >= 0 && b >= 0
    requires GetHistoId(a) == GetHistoId(b)
    ensures a == b
  {
    HistoIdRoundTrip(a);
    HistoIdRoundTrip(b);
  }

  // ---------------------------------------------------------------------
  // Event data and geometry

  datatype Pixel = Pixel(x: nat, y: nat)

  /** A SiPixelCluster: its local position on the module and its pixels. */
  datatype PixelCluster = PixelCluster(localX: real, localY: real, pixels: seq<Pixel>)

  /** The clusters of one module. */
  datatype PixelDetSet = PixelDetSet(rawid: nat, clusters: seq<PixelCluster>)

  /** The geometry and topology the analyzer consults. */
  datatype Geometry = Geometry(detUnits: set<nat>, layerNumber: nat -> int)

  /** A registry entry; its histograms are not modelled, only the folder
      they are booked in. */
  datatype ClusterMEs = ClusterMEs(folder: string)

  /** The channel of every pixel of the cluster, in pixel order. */
  function PixelChannels(cl: PixelCluster, toChannel: (nat, nat) -> nat): seq<nat> {
    ChannelsOf(cl.pixels, toChannel)
  }

  function ChannelsOf(pixels: seq<Pixel>, toChannel: (nat, nat) -> nat): (channels: seq<nat>)
    ensures |channels| == |pixels|
    ensures forall i :: 0 <= i < |pixels| ==> channels[i] == toChannel(pixels[i].x, pixels[i].y)
  {
    if |pixels| == 0 then []
    else ChannelsOf(pixels[..|pixels| - 1], toChannel) + [toChannel(pixels[|pixels| - 1].x, pixels[|pixels| - 1].y)]
  }

  function HistoKey(geo: Geometry, rawid: nat): string {
    GetHistoId(geo.layerNumber(rawid))
  }

  // ---------------------------------------------------------------------
  // What happens to one cluster

  /** Everything the fate of a cluster depends on besides the cluster, its
      module and its folder name. */
  datatype EventView = EventView(links: LinkTable, simHits: HitContainers, simTracks: map<nat, SimTrack>,
                                 booked: set<string>, toChannel: (nat, nat) -> nat)

  function ClusterQuery(ev: EventView, rawid: nat, cl: PixelCluster): Query {
    Query(rawid, UnionIds(ev.links, rawid, PixelChannels(cl, ev.toChannel)), cl.localX)
  }

  /** The simulated hit the cluster is compared with (both passes of every
      container, minx stored with fabs). */
  function Match(ev: EventView, rawid: nat, cl: PixelCluster): Option<Closest> {
    Scan(Start, ev.simHits, |ev.simHits|, 2, ClusterQuery(ev, rawid, cl), Abs).closest
  }

  /** A cluster is either dropped or counted, as primary or as other. */
  datatype Outcome = Dropped | Counted(primary: bool)

  function ClusterOutcome(ev: EventView, rawid: nat, key: string, cl: PixelCluster): Outcome {
    match Match(ev, rawid, cl)
    case None => Dropped
    case Some(m) =>
      if m.hit.trackId !in ev.simTracks then Dropped
      else Counted(key in ev.booked && IsPrimary(ev.simTracks[m.hit.trackId], m.hit))
  }

  /** A cluster is counted exactly when the closest candidate hit (on its
      module, from one of its tracks) exists and belongs to a track of the
      table; it is counted as primary exactly when its folder has a registry
      entry and that track and hit are primary. */
  lemma OutcomeMeaning(ev: EventView, rawid: nat, key: string, cl: PixelCluster)
    ensures var q := ClusterQuery(ev, rawid, cl);
            var o := ClusterOutcome(ev, rawid, key, cl);
            && (o.Counted? <==> exists m :: IsFirstClosest(ev.simHits, q, m) && m.hit.trackId in ev.simTracks)
            && (forall m :: IsFirstClosest(ev.simHits, q, m) && o.Counted?
                  ==> (o.primary <==> key in ev.booked && IsPrimary(ev.simTracks[m.hit.trackId], m.hit)))
  {
    var q := ClusterQuery(ev, rawid, cl);
    ScanFindsClosest(ev.simHits, q, 2, Abs);
    var s := Scan(Start, ev.simHits, |ev.simHits|, 2, q, Abs);
    forall m | IsFirstClosest(ev.simHits, q, m)
      ensures s.closest == Some(m)
    {
      assert HasCandidate(ev.simHits, q) by {
        assert 0 <= m.container < |ev.simHits| && 0 <= m.index < |ev.simHits[m.container]|
               && IsCandidate(ev.simHits[m.container][m.index], q);
      }
      ClosestUnique(ev.simHits, q, s.closest.value, m);
    }
  }

  // ---------------------------------------------------------------------
  // The counters

  /** Which of the three counters. */
  datatype Tally = AllClusters | PrimaryOnly | OtherOnly

  function Contribution(o: Outcome, t: Tally): nat {
    match t
    case AllClusters => if o.Counted? then 1 else 0
    case PrimaryOnly => if o.Counted? && o.primary then 1 else 0
    case OtherOnly => if o.Counted? && !o.primary then 1 else 0
  }

  /** The count of the first n clusters of a module. */
  function ModuleCount(ev: EventView, rawid: nat, key: string, clusters: seq<PixelCluster>, n: nat, t: Tally): nat
    requires n <= |clusters|
  {
    if n == 0 then 0
    else ModuleCount(ev, rawid, key, clusters, n - 1, t) + Contribution(ClusterOutcome(ev, rawid, key, clusters[n - 1]), t)
  }

  /** The count under folder name `key` after the first n modules; a module
      the geometry does not know is skipped. */
  function EventCount(ev: EventView, geo: Geometry, detSets: seq<PixelDetSet>, n: nat, key: string, t: Tally): nat
    requires n <= |detSets|
  {
    if n == 0 then 0
    else
      var d := detSets[n - 1];
      EventCount(ev, geo, detSets, n - 1, key, t)
      + (if d.rawid in geo.detUnits && HistoKey(geo, d.rawid) == key
         then ModuleCount(ev, d.rawid, key, d.clusters, |d.clusters|, t) else 0)
  }

  /** The folder names that have counters after the first n modules: those
      of every module the geometry knows, whether or not a cluster of it was
      matched. */
  function KeysSeen(geo: Geometry, detSets: seq<PixelDetSet>, n: nat): set<string>
    requires n <= |detSets|
  {
    if n == 0 then {}
    else
      var prev := KeysSeen(geo, detSets, n - 1);
      var d := detSets[n - 1];
      if d.rawid in geo.detUnits then prev + {HistoKey(geo, d.rawid)} else prev
  }

  /** The folder names with counters are exactly those of the known modules. */
  lemma {:induction false} KeysSeenMembers(geo: Geometry, detSets: seq<PixelDetSet>, n: nat, k: string)
    requires n <= |detSets|
    ensures k in KeysSeen(geo, detSets, n)
            <==> exists i :: 0 <= i < n && detSets[i].rawid in geo.detUnits && HistoKey(geo, detSets[i].rawid) == k
  {
    if n > 0 {
      KeysSeenMembers(geo, detSets, n - 1, k);
    }
  }

  lemma {:induction false} ModuleCountConserved(ev: EventView, rawid: nat, key: string, clusters: seq<PixelCluster>, n: nat)
    requires n <= |clusters|
    ensures ModuleCount(ev, rawid, key, clusters, n, AllClusters)
            == ModuleCount(ev, rawid, key, clusters, n, PrimaryOnly) + ModuleCount(ev, rawid, key, clusters, n, OtherOnly)
  {
    if n > 0 {
      ModuleCountConserved(ev, rawid, key, clusters, n - 1);
    }
  }

  /** Every counted cluster is counted once as primary or once as other. */
  lemma {:induction false} EventCountConserved(ev: EventView, geo: Geometry, detSets: seq<PixelDetSet>, n: nat, key: string)
    requires n <= |detSets|
    ensures EventCount(ev, geo, detSets, n, key, AllClusters)
            == EventCount(ev, geo, detSets, n, key, PrimaryOnly) + EventCount(ev, geo, detSets, n, key, OtherOnly)
  {
    if n > 0 {
      EventCountConserved(ev, geo, detSets, n - 1, key);
      var d := detSets[n - 1];
      ModuleCountConserved(ev, d.rawid, key, d.clusters, |d.clusters|);
    }
  }

  lemma {:induction false} UnbookedModuleNeverPrimary(ev: EventView, rawid: nat, key: string, clusters: seq<PixelCluster>,
                                                    n: nat)
    requires n <= |clusters| && key !in ev.booked
    ensures ModuleCount(ev, rawid, key, clusters, n, PrimaryOnly) == 0
    ensures ModuleCount(ev, rawid, key, clusters, n, OtherOnly) == ModuleCount(ev, rawid, key, clusters, n, AllClusters)
  {
    if n > 0 {
      UnbookedModuleNeverPrimary(ev, rawid, key, clusters, n - 1);
    }
  }

  /** A folder without a registry entry never counts a primary: every
      cluster counted under it is counted as other. */
  lemma {:induction false} UnbookedNeverPrimary(ev: EventView, geo: Geometry, detSets: seq<PixelDetSet>, n: nat, key: string)
    requires n <= |detSets| && key !in ev.booked
    ensures EventCount(ev, geo, detSets, n, key, PrimaryOnly) == 0
    ensures EventCount(ev, geo, detSets, n, key, OtherOnly) == EventCount(ev, geo, detSets, n, key, AllClusters)
  {
    if n > 0 {
      UnbookedNeverPrimary(ev, geo, detSets, n - 1, key);
      var d := detSets[n - 1];
      UnbookedModuleNeverPrimary(ev, d.rawid, key, d.clusters, |d.clusters|);
    }
  }

  /** Nothing is counted under a folder name no known module has. */
  lemma {:induction false} CountOutsideKeysSeen(ev: EventView, geo: Geometry, detSets: seq<PixelDetSet>, n: nat,
                                              key: string, t: Tally)
    requires n <= |detSets| && key !in KeysSeen(geo, detSets, n)
    ensures EventCount(ev, geo, detSets, n, key, t) == 0
  {
    if n > 0 {
      CountOutsideKeysSeen(ev, geo, detSets, n - 1, key, t);
    }
  }

  // ---------------------------------------------------------------------
  // The analyzer

  /** The closest-hit loops: every container, both passes, every hit; a hit
      is a candidate when it is on the module and lower_bound finds its track
      id in the sorted id list. */
  method FindClosestSimHit(simHits: HitContainers, rawid: nat, ids: seq<nat>, clusterX: real)
    returns (closest: Option<Closest>, minx: real)
    requires Ascending(ids)
    ensures var q := Query(rawid, IdSet(ids), clusterX);
            && ScanState(closest, minx) == Scan(Start, simHits, |simHits|, 2, q, Abs)
            && (closest.None? <==> !HasCandidate(simHits, q))
            && (closest.Some? ==> IsFirstClosest(simHits, q, closest.value) && minx == Dist(closest.value.hit, q))
  {
    var q := Query(rawid, IdSet(ids), clusterX);
    closest, minx := None, Sentinel;
    var c := 0;
    while c < |simHits|
      invariant 0 <= c <= |simHits|
      invariant ScanState(closest, minx) == Scan(Start, simHits, c, 2, q, Abs)
    {
      ghost var before := ScanState(closest, minx);
      var hits := simHits[c];
      var pass := 0;
      while pass < 2
        invariant 0 <= pass <= 2
        invariant ScanState(closest, minx) == ScanPasses(before, c, hits, pass, q, Abs)
      {
        ghost var passStart := ScanState(closest, minx);
        var i := 0;
        while i < |hits|
          invariant 0 <= i <= |hits|
          invariant ScanState(closest, minx) == ScanHits(passStart, c, hits, i, q, Abs)
        {
          var h := hits[i];
          if rawid == h.detUnitId {
            var k := LowerBound(ids, h.trackId);
            if k < |ids| && ids[k] == h.trackId {
              if closest.None? || Abs(h.localX - clusterX) < minx {
                minx := Abs(h.localX - clusterX);
                closest := Some(Closest(c, i, h));
              }
            }
          }
          i := i + 1;
        }
        pass := pass + 1;
      }
      c := c + 1;
    }
    ScanFindsClosest(simHits, q, 2, Abs);
  }

  /** A counter map with the counter of one folder moved by delta. */
  function Advance(counter: map<string, int>, key: string, delta: int): map<string, int>
    requires key in counter
  {
    counter[key := counter[key] + delta]
  }

  lemma AdvanceTwice(counter: map<string, int>, key: string, a: int, b: int)
    requires key in counter
    ensures Advance(Advance(counter, key, a), key, b) == Advance(counter, key, a + b)
  {
  }

  lemma ModuleCountStep(ev: EventView, rawid: nat, key: string, clusters: seq<PixelCluster>, j: nat, t: Tally)
    requires j < |clusters|
    ensures ModuleCount(ev, rawid, key, clusters, j + 1, t)
            == ModuleCount(ev, rawid, key, clusters, j, t) + Contribution(ClusterOutcome(ev, rawid, key, clusters[j]), t)
  {
  }

  /** The counters after the first j clusters of a module: its folder's
      counter moved by their count. */
  ghost predicate ModuleCounted(after: map<string, int>, before: map<string, int>, ev: EventView, rawid: nat, key: string,
                                clusters: seq<PixelCluster>, j: nat, t: Tally)
    requires j <= |clusters|
  {
    key in before && after == Advance(before, key, ModuleCount(ev, rawid, key, clusters, j, t))
  }

  /** Moving the folder's counter by the next cluster's contribution counts
      one more cluster. */
  lemma ModuleCountedStep(after: map<string, int>, before: map<string, int>, ev: EventView, rawid: nat, key: string,
                          clusters: seq<PixelCluster>, j: nat, t: Tally, next: map<string, int>)
    requires j < |clusters|
    requires ModuleCounted(after, before, ev, rawid, key, clusters, j, t)
    requires key in after && next == Advance(after, key, Contribution(ClusterOutcome(ev, rawid, key, clusters[j]), t))
    ensures ModuleCounted(next, before, ev, rawid, key, clusters, j + 1, t)
  {
    ModuleCountStep(ev, rawid, key, clusters, j, t);
    AdvanceTwice(before, key, ModuleCount(ev, rawid, key, clusters, j, t),
                 Contribution(ClusterOutcome(ev, rawid, key, clusters[j]), t));
  }

  /** Every counter of the map holds the count of its folder after the
      first d modules. */
  ghost predicate CountersAre(counter: map<string, int>, ev: EventView, geo: Geometry, detSets: seq<PixelDetSet>, d: nat,
                              t: Tally)
    requires d <= |detSets|
  {
    forall k :: k in counter ==> counter[k] == EventCount(ev, geo, detSets, d, k, t)
  }

  /** The three counter maps after the first d modules: one counter of
      each kind per folder seen, each holding its count. */
  ghost predicate Tallied(nClusters: map<string, int>, nPrimarySimHits: map<string, int>, nOtherSimHits: map<string, int>,
                          ev: EventView, geo: Geometry, detSets: seq<PixelDetSet>, d: nat)
    requires d <= |detSets|
  {
    && nClusters.Keys == KeysSeen(geo, detSets, d)
    && nPrimarySimHits.Keys == nClusters.Keys && nOtherSimHits.Keys == nClusters.Keys
    && CountersAre(nClusters, ev, geo, detSets, d, AllClusters)
    && CountersAre(nPrimarySimHits, ev, geo, detSets, d, PrimaryOnly)
    && CountersAre(nOtherSimHits, ev, geo, detSets, d, OtherOnly)
  }

  /** A module the geometry does not know changes no count. */
  lemma SkipUnknownModule(counter: map<string, int>, ev: EventView, geo: Geometry, detSets: seq<PixelDetSet>, d: nat,
                          t: Tally)
    requires d < |detSets| && detSets[d].rawid !in geo.detUnits
    requires CountersAre(counter, ev, geo, detSets, d, t)
    ensures CountersAre(counter, ev, geo, detSets, d + 1, t)
  {
  }

  /** A folder seen for the first time starts at 0. */
  lemma NewFolderStartsAtZero(counter: map<string, int>, ev: EventView, geo: Geometry, detSets: seq<PixelDetSet>, d: nat,
                              key: string, t: Tally)
    requires d <= |detSets| && key !in KeysSeen(geo, detSets, d)
    requires CountersAre(counter, ev, geo, detSets, d, t)
    ensures CountersAre(counter[key := 0], ev, geo, detSets, d, t)
  {
    CountOutsideKeysSeen(ev, geo, detSets, d, key, t);
  }

  /** Counting a known module moves its folder's counter by the module's
      count. */
  lemma CountKnownModule(counter: map<string, int>, ev: EventView, geo: Geometry, detSets: seq<PixelDetSet>, d: nat,
                         t: Tally)
    requires d < |detSets| && detSets[d].rawid in geo.detUnits
    requires HistoKey(geo, detSets[d].rawid) in counter
    requires CountersAre(counter, ev, geo, detSets, d, t)
    ensures var m := detSets[d];
            CountersAre(Advance(counter, HistoKey(geo, m.rawid), ModuleCount(ev, m.rawid, HistoKey(geo, m.rawid), m.clusters,
                                                                             |m.clusters|, t)),
                        ev, geo, detSets, d + 1, t)
  {
  }

  class ITValidateCluster {
    /** TopFolderName. */
    const topFolder: string
    /** SimTrackMinPt. */
    const simTrackMinPt: real
    /** layerMEs: the histogram set of each layer, by folder name. */
    var layerMEs: map<string, ClusterMEs>

    constructor (topFolder: string, simTrackMinPt: real)
      ensures this.topFolder == topFolder && this.simTrackMinPt == simTrackMinPt
      ensures layerMEs == map[]
    {
      this.topFolder := topFolder;
      this.simTrackMinPt := simTrackMinPt;
      layerMEs := map[];
    }

    function Entry(key: string): ClusterMEs {
      ClusterMEs(topFolder + "/" + key)
    }

    /** bookLayerHistos: an invalid (empty) folder name books nothing, and a
        folder already registered keeps its entry. */
    method BookLayerHistos(detId: nat, geo: Geometry)
      modifies this
      ensures layerMEs == InsertIfAbsent(old(layerMEs), HistoKey(geo, detId), Entry(HistoKey(geo, detId)))
    {
      var folderName := GetHistoId(geo.layerNumber(detId));
      if folderName == "" {
        return;
      }
      if folderName !in layerMEs {
        layerMEs := layerMEs[folderName := Entry(folderName)];
      }
    }

    function LayerKeys(detUnits: seq<nat>, geo: Geometry): seq<string> {
      seq(|detUnits|, i requires 0 <= i < |detUnits| => HistoKey(geo, detUnits[i]))
    }

    function LayerEntries(detUnits: seq<nat>, geo: Geometry): seq<ClusterMEs> {
      seq(|detUnits|, i requires 0 <= i < |detUnits| => Entry(HistoKey(geo, detUnits[i])))
    }

    /** bookHistograms: book the layer of every module of the geometry, in
        order. The registry gains exactly the valid folder names of those
        modules and keeps every entry it had. */
    method BookHistograms(detUnits: seq<nat>, geo: Geometry)
      modifies this
      ensures layerMEs == BookAll(old(layerMEs), LayerKeys(detUnits, geo), LayerEntries(detUnits, geo))
      ensures layerMEs.Keys == old(layerMEs).Keys + (set k | k in LayerKeys(detUnits, geo) && k != "")
      ensures forall k :: k in old(layerMEs) ==> layerMEs[k] == old(layerMEs)[k]
    {
      var i := 0;
      while i < |detUnits|
        invariant 0 <= i <= |detUnits|
        invariant layerMEs == BookAll(old(layerMEs), LayerKeys(detUnits[..i], geo), LayerEntries(detUnits[..i], geo))
      {
        BookLayerHistos(detUnits[i], geo);
        assert LayerKeys(detUnits[..i + 1], geo)[..i] == LayerKeys(detUnits[..i], geo);
        assert LayerEntries(detUnits[..i + 1], geo)[..i] == LayerEntries(detUnits[..i], geo);
        i := i + 1;
      }
      assert detUnits[..i] == detUnits;
      BookAllKeys(old(layerMEs), LayerKeys(detUnits, geo), LayerEntries(detUnits, geo));
      forall k | k in old(layerMEs)
        ensures layerMEs[k] == old(layerMEs)[k]
      {
        BookAllKeepsEntries(old(layerMEs), LayerKeys(detUnits, geo), LayerEntries(detUnits, geo), k);
      }
    }

    /** The body of the cluster loop: collect the cluster's track ids, find
        its closest hit, and step the counters of its folder. nClusters and
        nOtherSimHits go up for a counted cluster; for a primary one
        nPrimarySimHits goes up and nOtherSimHits back down, so each counter
        moves by the cluster's contribution to it. */
    method CountCluster(ev: EventView, rawid: nat, folderkey: string, cl: PixelCluster,
                        nClusters: map<string, int>, nPrimarySimHits: map<string, int>, nOtherSimHits: map<string, int>)
      returns (nClusters': map<string, int>, nPrimarySimHits': map<string, int>, nOtherSimHits': map<string, int>)
      requires ev.booked == layerMEs.Keys
      requires folderkey in nClusters && folderkey in nPrimarySimHits && folderkey in nOtherSimHits
      ensures var o := ClusterOutcome(ev, rawid, folderkey, cl);
              && nClusters' == Advance(nClusters, folderkey, Contribution(o, AllClusters))
              && nPrimarySimHits' == Advance(nPrimarySimHits, folderkey, Contribution(o, PrimaryOnly))
              && nOtherSimHits' == Advance(nOtherSimHits, folderkey, Contribution(o, OtherOnly))
    {
      nClusters', nPrimarySimHits', nOtherSimHits' := nClusters, nPrimarySimHits, nOtherSimHits;
      var ids := CollectSimTrackIds(ev.links, rawid, PixelChannels(cl, ev.toChannel));
      var closest, minx := FindClosestSimHit(ev.simHits, rawid, ids, cl.localX);
      assert closest == Match(ev, rawid, cl);
      if closest.None? {
        return;
      }
      var hit := closest.value.hit;
      if hit.trackId !in ev.simTracks {
        return;
      }
      nClusters' := nClusters'[folderkey := nClusters'[folderkey] + 1];
      nOtherSimHits' := nOtherSimHits'[folderkey := nOtherSimHits'[folderkey] + 1];
      if folderkey !in layerMEs {
        return;
      }
      if IsPrimary(ev.simTracks[hit.trackId], hit) {
        nPrimarySimHits' := nPrimarySimHits'[folderkey := nPrimarySimHits'[folderkey] + 1];
        nOtherSimHits' := nOtherSimHits'[folderkey := nOtherSimHits'[folderkey] - 1];
      }
    }

    /** The cluster loop of one module: every counter of its folder moves by
        the module's count, and no other folder's counters change. */
    method CountModule(ev: EventView, rawid: nat, folderkey: string, clusters: seq<PixelCluster>,
                       nClusters: map<string, int>, nPrimarySimHits: map<string, int>, nOtherSimHits: map<string, int>)
      returns (nClusters': map<string, int>, nPrimarySimHits': map<string, int>, nOtherSimHits': map<string, int>)
      requires ev.booked == layerMEs.Keys
      requires folderkey in nClusters && folderkey in nPrimarySimHits && folderkey in nOtherSimHits
      ensures nClusters' == Advance(nClusters, folderkey, ModuleCount(ev, rawid, folderkey, clusters, |clusters|, AllClusters))
      ensures nPrimarySimHits'
              == Advance(nPrimarySimHits, folderkey, ModuleCount(ev, rawid, folderkey, clusters, |clusters|, PrimaryOnly))
      ensures nOtherSimHits'
              == Advance(nOtherSimHits, folderkey, ModuleCount(ev, rawid, folderkey, clusters, |clusters|, OtherOnly))
    {
      nClusters', nPrimarySimHits', nOtherSimHits' := nClusters, nPrimarySimHits, nOtherSimHits;
      var j := 0;
      while j < |clusters|
        invariant 0 <= j <= |clusters|
        invariant ModuleCounted(nClusters', nClusters, ev, rawid, folderkey, clusters, j, AllClusters)
        invariant ModuleCounted(nPrimarySimHits', nPrimarySimHits, ev, rawid, folderkey, clusters, j, PrimaryOnly)
        invariant ModuleCounted(nOtherSimHits', nOtherSimHits, ev, rawid, folderkey, clusters, j, OtherOnly)
      {
        var nC, nP, nO := CountCluster(ev, rawid, folderkey, clusters[j], nClusters', nPrimarySimHits', nOtherSimHits');
        ModuleCountedStep(nClusters', nClusters, ev, rawid, folderkey, clusters, j, AllClusters, nC);
        ModuleCountedStep(nPrimarySimHits', nPrimarySimHits, ev, rawid, folderkey, clusters, j, PrimaryOnly, nP);
        ModuleCountedStep(nOtherSimHits', nOtherSimHits, ev, rawid, folderkey, clusters, j, OtherOnly, nO);
        nClusters', nPrimarySimHits', nOtherSimHits' := nC, nP, nO;
        j := j + 1;
      }
    }

    /** One step of the module loop of analyze: for a module the geometry
        knows, create its folder's counters at 0 if they are missing, then
        count its clusters; skip any other module. */
    method CountDetSet(ev: EventView, geo: Geometry, detSets: seq<PixelDetSet>, d: nat,
                       nClusters: map<string, int>, nPrimarySimHits: map<string, int>, nOtherSimHits: map<string, int>)
      returns (nClusters': map<string, int>, nPrimarySimHits': map<string, int>, nOtherSimHits': map<string, int>)
      requires ev.booked == layerMEs.Keys
      requires d < |detSets| && Tallied(nClusters, nPrimarySimHits, nOtherSimHits, ev, geo, detSets, d)
      ensures Tallied(nClusters', nPrimarySimHits', nOtherSimHits', ev, geo, detSets, d + 1)
    {
      nClusters', nPrimarySimHits', nOtherSimHits' := nClusters, nPrimarySimHits, nOtherSimHits;
      var rawid := detSets[d].rawid;
      if rawid in geo.detUnits {
        var folderkey := GetHistoId(geo.layerNumber(rawid));
        if folderkey !in nClusters' {
          NewFolderStartsAtZero(nClusters', ev, geo, detSets, d, folderkey, AllClusters);
          NewFolderStartsAtZero(nPrimarySimHits', ev, geo, detSets, d, folderkey, PrimaryOnly);
          NewFolderStartsAtZero(nOtherSimHits', ev, geo, detSets, d, folderkey, OtherOnly);
          nClusters' := nClusters'[folderkey := 0];
          nPrimarySimHits' := nPrimarySimHits'[folderkey := 0];
          nOtherSimHits' := nOtherSimHits'[folderkey := 0];
        }
        CountKnownModule(nClusters', ev, geo, detSets, d, AllClusters);
        CountKnownModule(nPrimarySimHits', ev, geo, detSets, d, PrimaryOnly);
        CountKnownModule(nOtherSimHits', ev, geo, detSets, d, OtherOnly);
        nClusters', nPrimarySimHits', nOtherSimHits' :=
          CountModule(ev, rawid, folderkey, detSets[d].clusters, nClusters', nPrimarySimHits', nOtherSimHits');
      } else {
        SkipUnknownModule(nClusters', ev, geo, detSets, d, AllClusters);
        SkipUnknownModule(nPrimarySimHits', ev, geo, detSets, d, PrimaryOnly);
        SkipUnknownModule(nOtherSimHits', ev, geo, detSets, d, OtherOnly);
      }
    }

    /** The module loop of analyze: one counter of each kind per folder of a
        known module, each holding the count of its folder. */
    method CountEvent(ev: EventView, geo: Geometry, detSets: seq<PixelDetSet>)
      returns (nClusters: map<string, int>, nPrimarySimHits: map<string, int>, nOtherSimHits: map<string, int>)
      requires ev.booked == layerMEs.Keys
      ensures nClusters.Keys == KeysSeen(geo, detSets, |detSets|)
      ensures nPrimarySimHits.Keys == nClusters.Keys && nOtherSimHits.Keys == nClusters.Keys
      ensures CountersAre(nClusters, ev, geo, detSets, |detSets|, AllClusters)
      ensures CountersAre(nPrimarySimHits, ev, geo, detSets, |detSets|, PrimaryOnly)
      ensures CountersAre(nOtherSimHits, ev, geo, detSets, |detSets|, OtherOnly)
    {
      nClusters, nPrimarySimHits, nOtherSimHits := map[], map[], map[];
      var d := 0;
      while d < |detSets|
        invariant 0 <= d <= |detSets|
        invariant Tallied(nClusters, nPrimarySimHits, nOtherSimHits, ev, geo, detSets, d)
      {
        nClusters, nPrimarySimHits, nOtherSimHits :=
          CountDetSet(ev, geo, detSets, d, nClusters, nPrimarySimHits, nOtherSimHits);
        d := d + 1;
      }
    }

    /** analyze: build the table of tracks above the pT threshold, then for
        every module the geometry knows create its folder's counters at 0 if
        they are missing and count its clusters. Returns the three counter
        maps as they are when the final histograms are filled: one entry per
        folder of a known module, each counter the count of its kind, and
        nClusters = nPrimarySimHits + nOtherSimHits with nOtherSimHits never
        negative. */
    method Analyze(geo: Geometry, toChannel: (nat, nat) -> nat, detSets: seq<PixelDetSet>, links: LinkTable,
                   simHits: HitContainers, rawTracks: seq<SimTrack>)
      returns (nClusters: map<string, int>, nPrimarySimHits: map<string, int>, nOtherSimHits: map<string, int>)
      ensures var ev := EventView(links, simHits, PtFiltered(rawTracks, simTrackMinPt, |rawTracks|), layerMEs.Keys,
                                  toChannel);
              && nClusters.Keys == KeysSeen(geo, detSets, |detSets|)
              && nPrimarySimHits.Keys == nClusters.Keys && nOtherSimHits.Keys == nClusters.Keys
              && (forall k :: k in nClusters ==> nClusters[k] == EventCount(ev, geo, detSets, |detSets|, k, AllClusters))
              && (forall k :: k in nClusters ==> nPrimarySimHits[k] == EventCount(ev, geo, detSets, |detSets|, k, PrimaryOnly))
              && (forall k :: k in nClusters ==> nOtherSimHits[k] == EventCount(ev, geo, detSets, |detSets|, k, OtherOnly))
      ensures forall k :: k in nClusters ==> nClusters[k] == nPrimarySimHits[k] + nOtherSimHits[k] && nOtherSimHits[k] >= 0
    {
      var simTracks := BuildSimTracks(rawTracks, simTrackMinPt);
      var ev := EventView(links, simHits, simTracks, layerMEs.Keys, toChannel);
      nClusters, nPrimarySimHits, nOtherSimHits := CountEvent(ev, geo, detSets);
      forall k | k in nClusters
        ensures nClusters[k] == nPrimarySimHits[k] + nOtherSimHits[k]
      {
        EventCountConserved(ev, geo, detSets, |detSets|, k);
      }
    }
  }
}
