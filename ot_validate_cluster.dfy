/**
 * The outer-tracker cluster validation (Phase2OTValidateCluster): for every
 * strip or macro-pixel cluster, the simulated hit it is compared with, and
 * which histogram slots of its layer the comparison is filled into.
 *
 * The geometry and topology are inputs: the module type of every module the
 * geometry knows (idToDetUnit non-null), the folder name of a module
 * (getOTHistoId), the strip-to-channel numbering, and the primary-particle
 * test of the tracker utilities. Histogram fills are returned as a log of
 * Fill records, one per slot group filled.
 */
module OTValidateCluster {
  import opened SimTypes
  import opened SortedIds
  import opened SimLinks
  import opened SimTrackTable
  import opened ClosestHit
  import opened Registry

  /** A Phase2TrackerCluster1D: its first strip, its column, its width in
      strips, and its local position as the module topology computes it. */
  datatype StripCluster = StripCluster(firstRow: nat, column: nat, size: nat, localX: real, localY: real)

  /** The clusters of one module. */
  datatype StripDetSet = StripDetSet(rawid: nat, clusters: seq<StripCluster>)

  /** The geometry and topology the analyzer consults. */
  datatype OTGeometry = OTGeometry(detUnits: map<nat, ModuleType>, histoId: nat -> string)

  /** A module of the geometry as booking walks it: its id, its type and
      whether it belongs to the pixel sub-detectors (barrel or end-cap). */
  datatype DetUnit = DetUnit(rawid: nat, mType: ModuleType, inPixelSubdetector: bool)

  /** A registry entry: the folder it is booked in, and whether the
      macro-pixel (_P) slots were booked, which happens only when the module
      that created the entry is a PS macro-pixel module. */
  datatype OTClusterMEs = OTClusterMEs(folder: string, pixelSlots: bool)

  /** The groups of histogram slots a cluster can be filled into: the
      macro-pixel (_P) and strip (_S) slots, and their primary-particle
      counterparts. */
  datatype SlotGroup = PixelSlots | StripSlots | PixelPrimarySlots | StripPrimarySlots

  predicate IsPixelGroup(g: SlotGroup) {
    g.PixelSlots? || g.PixelPrimarySlots?
  }

  predicate IsPrimaryGroup(g: SlotGroup) {
    g.PixelPrimarySlots? || g.StripPrimarySlots?
  }

  /** The residuals of one cluster filled into one slot group of a folder. */
  datatype Fill = Fill(rawid: nat, key: string, group: SlotGroup, deltaX: real, deltaY: real)

  /** The channel of every strip of the cluster: strips firstRow to
      firstRow + size - 1 of its column. */
  function StripChannels(cl: StripCluster, toChannel: (nat, nat) -> nat): (channels: seq<nat>)
    ensures |channels| == cl.size
    ensures forall i :: 0 <= i < cl.size ==> channels[i] == toChannel(cl.firstRow + i, cl.column)
  {
    StripRange(cl.firstRow, cl.column, cl.size, toChannel)
  }

  function StripRange(firstRow: nat, column: nat, n: nat, toChannel: (nat, nat) -> nat): (channels: seq<nat>)
    ensures |channels| == n
    ensures forall i :: 0 <= i < n ==> channels[i] == toChannel(firstRow + i, column)
  {
    if n == 0 then [] else StripRange(firstRow, column, n - 1, toChannel) + [toChannel(firstRow + n - 1, column)]
  }

  // ---------------------------------------------------------------------
  // What one cluster fills

  /** Everything the fills of a cluster depend on besides the cluster, its
      module and its folder name. */
  datatype OTEventView = OTEventView(links: LinkTable, simHits: HitContainers, simTracks: map<nat, SimTrack>,
                                     registered: set<string>, toChannel: (nat, nat) -> nat,
                                     isPrimary: (SimTrack, SimHit) -> bool)

  function ClusterQuery(ev: OTEventView, rawid: nat, cl: StripCluster): Query {
    Query(rawid, UnionIds(ev.links, rawid, StripChannels(cl, ev.toChannel)), cl.localX)
  }

  /** The simulated hit the cluster is compared with: one pass over every
      container, minx stored through `record`. */
  function Match(ev: OTEventView, rawid: nat, cl: StripCluster, record: real -> real): Option<Closest> {
    Scan(Start, ev.simHits, |ev.simHits|, 1, ClusterQuery(ev, rawid, cl), record).closest
  }

  /** The slot group a module type routes to: the macro-pixel group for a PS
      macro-pixel module, the strip group for a PS strip or 2S module, none
      for any other type. */
  function Route(mType: ModuleType, pixel: SlotGroup, strip: SlotGroup): seq<SlotGroup> {
    match mType
    case Ph2PSP => [pixel]
    case Ph2PSS | Ph2SS => [strip]
    case Ph2PXB | Ph2PXF | OtherType => []
  }

  function FillsOf(rawid: nat, key: string, groups: seq<SlotGroup>, deltaX: real, deltaY: real): (fills: seq<Fill>)
    ensures |fills| == |groups|
    ensures forall i :: 0 <= i < |groups| ==> fills[i] == Fill(rawid, key, groups[i], deltaX, deltaY)
  {
    seq(|groups|, i requires 0 <= i < |groups| => Fill(rawid, key, groups[i], deltaX, deltaY))
  }

  /** The fills of one cluster of module rawid, of type mType, under folder
      name key. */
  function ClusterFills(ev: OTEventView, rawid: nat, mType: ModuleType, key: string, cl: StripCluster,
                        record: real -> real): seq<Fill>
  {
    match Match(ev, rawid, cl, record)
    case None => []
    case Some(m) => MatchedFills(ev, mType, rawid, key, cl, m.hit)
  }

  /** The fills of a cluster matched to hit: none when the hit's track is not
      in the table or the folder is not registered. */
  function MatchedFills(ev: OTEventView, mType: ModuleType, rawid: nat, key: string, cl: StripCluster, hit: SimHit)
    : seq<Fill>
  {
    if hit.trackId !in ev.simTracks || key !in ev.registered then []
    else
      var groups := Route(mType, PixelSlots, StripSlots)
                    + (if ev.isPrimary(ev.simTracks[hit.trackId], hit)
                       then Route(mType, PixelPrimarySlots, StripPrimarySlots) else []);
      FillsOf(rawid, key, groups, cl.localX - hit.localX, cl.localY - hit.localY)
  }

  /** A cluster fills something exactly when it has a matched hit whose
      track is in the table, its folder is registered, and its module type is
      one of the three outer-tracker types. A PS macro-pixel module fills only
      _P slots, the other two only _S slots; a primary slot is filled exactly
      when the track and hit are primary. Every fill carries the residual of
      the cluster to its matched hit. */
  lemma ClusterFillsRouting(ev: OTEventView, rawid: nat, mType: ModuleType, key: string, cl: StripCluster,
                            record: real -> real)
    ensures var fills := ClusterFills(ev, rawid, mType, key, cl, record);
            var m := Match(ev, rawid, cl, record);
            && (|fills| > 0
                <==> (m.Some? && m.value.hit.trackId in ev.simTracks && key in ev.registered
                      && mType in {Ph2PSP, Ph2PSS, Ph2SS}))
            && (forall f :: f in fills
                  ==> (&& f.rawid == rawid && f.key == key
                       && (IsPixelGroup(f.group) <==> mType == Ph2PSP)
                       && f.deltaX == cl.localX - m.value.hit.localX
                       && f.deltaY == cl.localY - m.value.hit.localY))
            && ((exists f :: f in fills && IsPrimaryGroup(f.group))
                <==> |fills| > 0 && ev.isPrimary(ev.simTracks[m.value.hit.trackId], m.value.hit))
  {
    var fills := ClusterFills(ev, rawid, mType, key, cl, record);
    var m := Match(ev, rawid, cl, record);
    if |fills| > 0 && ev.isPrimary(ev.simTracks[m.value.hit.trackId], m.value.hit) {
      assert IsPrimaryGroup(fills[|fills| - 1].group);
    }
  }

  /** Whatever value minx stores, a cluster with no candidate hit on its
      module fills nothing, and a matched hit is a candidate; when minx holds
      the compared distance, the matched hit is the closest candidate, the
      earliest-scanned among equally close ones. */
  lemma MatchMeaning(ev: OTEventView, rawid: nat, cl: StripCluster, record: real -> real)
    ensures var q := ClusterQuery(ev, rawid, cl);
            var m := Match(ev, rawid, cl, record);
            && (m.None? <==> !HasCandidate(ev.simHits, q))
            && (m.Some? ==> Holds(ev.simHits, m.value) && IsCandidate(m.value.hit, q))
            && (m.Some? && RecordsDistance(record) ==> IsFirstClosest(ev.simHits, q, m.value))
  {
    var q := ClusterQuery(ev, rawid, cl);
    SinglePassFindsCandidate(ev.simHits, q, record);
    if RecordsDistance(record) {
      ScanFindsClosest(ev.simHits, q, 1, record);
    }
  }

  /** The fills of the first n clusters of a module. */
  function ModuleFills(ev: OTEventView, rawid: nat, mType: ModuleType, key: string, clusters: seq<StripCluster>, n: nat,
                       record: real -> real): seq<Fill>
    requires n <= |clusters|
  {
    if n == 0 then []
    else ModuleFills(ev, rawid, mType, key, clusters, n - 1, record) + ClusterFills(ev, rawid, mType, key, clusters[n - 1], record)
  }

  /** The fills of the first n modules; a module the geometry does not know
      fills nothing. */
  function EventFills(ev: OTEventView, geo: OTGeometry, detSets: seq<StripDetSet>, n: nat, record: real -> real): seq<Fill>
    requires n <= |detSets|
  {
    if n == 0 then []
    else
      var d := detSets[n - 1];
      EventFills(ev, geo, detSets, n - 1, record)
      + (if d.rawid in geo.detUnits
         then ModuleFills(ev, d.rawid, geo.detUnits[d.rawid], geo.histoId(d.rawid), d.clusters, |d.clusters|, record)
         else [])
  }

  /** A fill is routed by the module it comes from. */
  ghost predicate Routed(ev: OTEventView, geo: OTGeometry, f: Fill) {
    && f.rawid in geo.detUnits
    && f.key == geo.histoId(f.rawid)
    && f.key in ev.registered
    && geo.detUnits[f.rawid] in {Ph2PSP, Ph2PSS, Ph2SS}
    && (IsPixelGroup(f.group) <==> geo.detUnits[f.rawid] == Ph2PSP)
  }

  lemma {:induction false} ModuleFillsRouted(ev: OTEventView, geo: OTGeometry, rawid: nat, clusters: seq<StripCluster>,
                                           n: nat, record: real -> real)
    requires n <= |clusters| && rawid in geo.detUnits
    ensures forall f :: f in ModuleFills(ev, rawid, geo.detUnits[rawid], geo.histoId(rawid), clusters, n, record)
                        ==> Routed(ev, geo, f)
  {
    if n > 0 {
      ModuleFillsRouted(ev, geo, rawid, clusters, n - 1, record);
      ClusterFillsRouting(ev, rawid, geo.detUnits[rawid], geo.histoId(rawid), clusters[n - 1], record);
    }
  }

  /** Every fill of an event comes from a module the geometry knows, goes to
      that module's registered folder, comes from a module of one of the
      three outer-tracker types, and goes to a _P slot exactly when that
      module is a PS macro-pixel module. */
  lemma {:induction false} EventFillsRouted(ev: OTEventView, geo: OTGeometry, detSets: seq<StripDetSet>, n: nat,
                                          record: real -> real)
    requires n <= |detSets|
    ensures forall f :: f in EventFills(ev, geo, detSets, n, record) ==> Routed(ev, geo, f)
  {
    if n > 0 {
      EventFillsRouted(ev, geo, detSets, n - 1, record);
      var d := detSets[n - 1];
      if d.rawid in geo.detUnits {
        ModuleFillsRouted(ev, geo, d.rawid, d.clusters, |d.clusters|, record);
      }
    }
  }

  // ---------------------------------------------------------------------
  // The analyzer

  /** The closest-hit loops: every container, every hit, once; a hit is a
      candidate when it is on the module and lower_bound finds its track id
      in the sorted id list. minx is stored through `record`. */
  method FindClosestSimHit(simHits: HitContainers, rawid: nat, ids: seq<nat>, clusterX: real, record: real -> real)
    returns (closest: Option<Closest>, minx: real)
    requires Ascending(ids)
    ensures var q := Query(rawid, IdSet(ids), clusterX);
            && ScanState(closest, minx) == Scan(Start, simHits, |simHits|, 1, q, record)
            && (closest.None? <==> !HasCandidate(simHits, q))
            && (closest.Some? ==> Holds(simHits, closest.value) && IsCandidate(closest.value.hit, q))
            && (closest.Some? && RecordsDistance(record) ==> IsFirstClosest(simHits, q, closest.value))
  {
    var q := Query(rawid, IdSet(ids), clusterX);
    closest, minx := None, Sentinel;
    var c := 0;
    while c < |simHits|
      invariant 0 <= c <= |simHits|
      invariant ScanState(closest, minx) == Scan(Start, simHits, c, 1, q, record)
    {
      ghost var before := ScanState(closest, minx);
      var hits := simHits[c];
      var i := 0;
      while i < |hits|
        invariant 0 <= i <= |hits|
        invariant ScanState(closest, minx) == ScanHits(before, c, hits, i, q, record)
      {
        var h := hits[i];
        if rawid == h.detUnitId {
          var k := LowerBound(ids, h.trackId);
          if k < |ids| && ids[k] == h.trackId {
            if closest.None? || Abs(h.localX - clusterX) < minx {
              minx := record(h.localX - clusterX);
              closest := Some(Closest(c, i, h));
            }
          }
        }
        i := i + 1;
      }
      assert ScanPasses(before, c, hits, 0, q, record) == before;
      c := c + 1;
    }
    SinglePassFindsCandidate(simHits, q, record);
    if RecordsDistance(record) {
      ScanFindsClosest(simHits, q, 1, record);
    }
  }

  class OTValidateCluster {
    /** TopFolderName. */
    const topFolder: string
    /** SimTrackMinPt. */
    const simTrackMinPt: real
    /** layerMEs_: the histogram set of each layer, by folder name. */
    var layerMEs: map<string, OTClusterMEs>

    constructor (topFolder: string, simTrackMinPt: real)
      ensures this.topFolder == topFolder && this.simTrackMinPt == simTrackMinPt
      ensures layerMEs == map[]
    {
      this.topFolder := topFolder;
      this.simTrackMinPt := simTrackMinPt;
      layerMEs := map[];
    }

    function Entry(key: string, mType: ModuleType): OTClusterMEs {
      OTClusterMEs(topFolder + "/" + key, mType == Ph2PSP)
    }

    /** bookLayerHistos: an invalid (empty) folder name books nothing, and a
        folder already registered keeps its entry; a new entry has _P slots
        exactly when the booking module is a PS macro-pixel module. */
    method BookLayerHistos(unit: DetUnit, geo: OTGeometry)
      modifies this
      ensures layerMEs == InsertIfAbsent(old(layerMEs), geo.histoId(unit.rawid), Entry(geo.histoId(unit.rawid), unit.mType))
    {
      var folderName := geo.histoId(unit.rawid);
      if folderName == "" {
        return;
      }
      if folderName !in layerMEs {
        layerMEs := layerMEs[folderName := Entry(folderName, unit.mType)];
      }
    }

    /** The folder names booking visits: those of the modules outside the
        pixel sub-detectors, in order. */
    function OuterKeys(units: seq<DetUnit>, geo: OTGeometry): seq<string> {
      if |units| == 0 then []
      else
        var u := units[|units| - 1];
        OuterKeys(units[..|units| - 1], geo) + (if u.inPixelSubdetector then [] else [geo.histoId(u.rawid)])
    }

    function OuterEntries(units: seq<DetUnit>, geo: OTGeometry): (entries: seq<OTClusterMEs>)
      ensures |entries| == |OuterKeys(units, geo)|
    {
      if |units| == 0 then []
      else
        var u := units[|units| - 1];
        OuterEntries(units[..|units| - 1], geo)
        + (if u.inPixelSubdetector then [] else [Entry(geo.histoId(u.rawid), u.mType)])
    }

    /** bookHistograms: book the layer of every module outside the pixel
        sub-detectors, in order. The registry gains exactly the valid folder
        names of those modules and keeps every entry it had. */
    method BookHistograms(detUnits: seq<DetUnit>, geo: OTGeometry)
      modifies this
      ensures layerMEs == BookAll(old(layerMEs), OuterKeys(detUnits, geo), OuterEntries(detUnits, geo))
      ensures layerMEs.Keys == old(layerMEs).Keys + (set k | k in OuterKeys(detUnits, geo) && k != "")
      ensures forall k :: k in old(layerMEs) ==> layerMEs[k] == old(layerMEs)[k]
    {
      var i := 0;
      while i < |detUnits|
        invariant 0 <= i <= |detUnits|
        invariant layerMEs == BookAll(old(layerMEs), OuterKeys(detUnits[..i], geo), OuterEntries(detUnits[..i], geo))
      {
        var u := detUnits[i];
        assert detUnits[..i + 1][..i] == detUnits[..i];
        if !u.inPixelSubdetector {
          ghost var keys := OuterKeys(detUnits[..i + 1], geo);
          ghost var entries := OuterEntries(detUnits[..i + 1], geo);
          assert keys == OuterKeys(detUnits[..i], geo) + [geo.histoId(u.rawid)];
          assert entries == OuterEntries(detUnits[..i], geo) + [Entry(geo.histoId(u.rawid), u.mType)];
          assert keys[..|keys| - 1] == OuterKeys(detUnits[..i], geo);
          assert entries[..|entries| - 1] == OuterEntries(detUnits[..i], geo);
          BookLayerHistos(u, geo);
          assert layerMEs == BookAll(old(layerMEs), keys, entries);
        } else {
          assert OuterKeys(detUnits[..i + 1], geo) == OuterKeys(detUnits[..i], geo);
          assert OuterEntries(detUnits[..i + 1], geo) == OuterEntries(detUnits[..i], geo);
        }
        i := i + 1;
      }
      assert detUnits[..i] == detUnits;
      BookAllKeys(old(layerMEs), OuterKeys(detUnits, geo), OuterEntries(detUnits, geo));
      forall k | k in old(layerMEs)
        ensures layerMEs[k] == old(layerMEs)[k]
      {
        BookAllKeepsEntries(old(layerMEs), OuterKeys(detUnits, geo), OuterEntries(detUnits, geo), k);
      }
    }

    /** The fills of a matched cluster: its module type picks the _P or _S
        slots, and a primary match fills the primary slots of that kind too. */
    method RouteFills(rawid: nat, mType: ModuleType, folderkey: string, primary: bool, deltaX: real, deltaY: real)
      returns (fills: seq<Fill>)
      ensures fills == FillsOf(rawid, folderkey, Route(mType, PixelSlots, StripSlots)
                                                 + (if primary then Route(mType, PixelPrimarySlots, StripPrimarySlots)
                                                    else []), deltaX, deltaY)
    {
      fills := [];
      if mType == Ph2PSP {
        fills := fills + [Fill(rawid, folderkey, PixelSlots, deltaX, deltaY)];
      } else if mType == Ph2PSS || mType == Ph2SS {
        fills := fills + [Fill(rawid, folderkey, StripSlots, deltaX, deltaY)];
      }
      if primary {
        if mType == Ph2PSP {
          fills := fills + [Fill(rawid, folderkey, PixelPrimarySlots, deltaX, deltaY)];
        } else if mType == Ph2PSS || mType == Ph2SS {
          fills := fills + [Fill(rawid, folderkey, StripPrimarySlots, deltaX, deltaY)];
        }
      }
    }

    /** The track ids of the cluster's strips and the hit the scan keeps
        among those of its module with one of these ids (minx stored
        through `record`). */
    method MatchCluster(ev: OTEventView, rawid: nat, cl: StripCluster, record: real -> real)
      returns (closest: Option<Closest>)
      ensures closest == Match(ev, rawid, cl, record)
    {
      var ids := CollectSimTrackIds(ev.links, rawid, StripChannels(cl, ev.toChannel));
      var minx;
      closest, minx := FindClosestSimHit(ev.simHits, rawid, ids, cl.localX, record);
      assert Query(rawid, IdSet(ids), cl.localX) == ClusterQuery(ev, rawid, cl);
    }

    /** The body of the cluster loop: collect the cluster's track ids, find
        its matched hit (minx stored through `record`), and fill the slots
        its module type routes to. */
    method FillCluster(ev: OTEventView, rawid: nat, mType: ModuleType, folderkey: string, cl: StripCluster,
                       record: real -> real)
      returns (fills: seq<Fill>)
      requires ev.registered == layerMEs.Keys
      ensures fills == ClusterFills(ev, rawid, mType, folderkey, cl, record)
    {
      fills := [];
      var closest := MatchCluster(ev, rawid, cl, record);
      if closest.None? {
        return;
      }
      var hit := closest.value.hit;
      if hit.trackId !in ev.simTracks {
        return;
      }
      var deltaX := cl.localX - hit.localX;
      var deltaY := cl.localY - hit.localY;
      if folderkey !in layerMEs {
        return;
      }
      fills := RouteFills(rawid, mType, folderkey, ev.isPrimary(ev.simTracks[hit.trackId], hit), deltaX, deltaY);
      assert fills == MatchedFills(ev, mType, rawid, folderkey, cl, hit);
    }

    /** The cluster loop of one module: the fills of its clusters, in
        order. */
    method FillModule(ev: OTEventView, rawid: nat, mType: ModuleType, folderkey: string, clusters: seq<StripCluster>,
                      record: real -> real)
      returns (fills: seq<Fill>)
      requires ev.registered == layerMEs.Keys
      ensures fills == ModuleFills(ev, rawid, mType, folderkey, clusters, |clusters|, record)
    {
      fills := [];
      var j := 0;
      while j < |clusters|
        invariant 0 <= j <= |clusters|
        invariant fills == ModuleFills(ev, rawid, mType, folderkey, clusters, j, record)
      {
        var clusterFills := FillCluster(ev, rawid, mType, folderkey, clusters[j], record);
        fills := fills + clusterFills;
        j := j + 1;
      }
    }

    /** fillOTHistos: for every module the geometry knows, every cluster's
        fills, in order. Every fill is routed by its module's type to its
        module's registered folder. */
    method FillOTHistos(ev: OTEventView, geo: OTGeometry, detSets: seq<StripDetSet>, record: real -> real)
      returns (fills: seq<Fill>)
      requires ev.registered == layerMEs.Keys
      ensures fills == EventFills(ev, geo, detSets, |detSets|, record)
      ensures forall f :: f in fills ==> Routed(ev, geo, f)
    {
      fills := [];
      var d := 0;
      while d < |detSets|
        invariant 0 <= d <= |detSets|
        invariant fills == EventFills(ev, geo, detSets, d, record)
      {
        var rawid := detSets[d].rawid;
        if rawid in geo.detUnits {
          var moduleFills := FillModule(ev, rawid, geo.detUnits[rawid], geo.histoId(rawid), detSets[d].clusters, record);
          fills := fills + moduleFills;
        }
        d := d + 1;
      }
      EventFillsRouted(ev, geo, detSets, |detSets|, record);
    }

    /** analyze: build the table of tracks above the pT threshold and fill
        the histograms of the event's clusters. `record` is the absolute
        value that stores minx: Abs when `abs` takes the float overload,
        IntAbs when it truncates. */
    method Analyze(geo: OTGeometry, toChannel: (nat, nat) -> nat, isPrimary: (SimTrack, SimHit) -> bool,
                   detSets: seq<StripDetSet>, links: LinkTable, simHits: HitContainers, rawTracks: seq<SimTrack>,
                   record: real -> real)
      returns (fills: seq<Fill>)
      ensures var ev := OTEventView(links, simHits, PtFiltered(rawTracks, simTrackMinPt, |rawTracks|), layerMEs.Keys,
                                    toChannel, isPrimary);
              && fills == EventFills(ev, geo, detSets, |detSets|, record)
              && forall f :: f in fills ==> Routed(ev, geo, f)
    {
      var simTracks := BuildSimTracks(rawTracks, simTrackMinPt);
      var ev := OTEventView(links, simHits, simTracks, layerMEs.Keys, toChannel, isPrimary);
      fills := FillOTHistos(ev, geo, detSets, record);
    }
  }
}
