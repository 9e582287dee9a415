# Phase-2 tracker cluster validation: cluster-to-simulated-hit association

This project models the core of the two CMSSW validation analyzers for the
Phase-2 tracker clusters, `Phase2ITValidateCluster` (inner-tracker pixel
clusters) and `Phase2OTValidateCluster` (outer-tracker strip and macro-pixel
clusters), and proves properties of the model in Dafny.

For every cluster of every module that the geometry knows, both analyzers:

1. look up the simulated-track ids linked to each channel of the cluster
   (`getSimTrackId`);
2. collect those ids without duplicates and sort them;
3. scan the simulated hits of the event. A hit is a candidate when it lies
   on the cluster's module and `std::lower_bound` finds its track id among
   the collected ids. The first candidate becomes `closestSimHit`, and so
   does any later candidate strictly closer in local x (`minx`, starting at
   10000);
4. drop the cluster when no hit was found, or when the hit's track is not
   in the table of tracks above the pT threshold;
5. finally look up the layer's registry entry (`layerMEs`) by folder name.

The inner-tracker analyzer scans every hit container twice. It counts, per
folder, the clusters, the primary matches and the other matches. The
outer-tracker analyzer scans once. It routes the residuals of a match to the
macro-pixel (`_P`) or strip (`_S`) slots of its folder by module type, and to
the primary slots of that kind when the match is primary.

Booking (`bookHistograms` / `bookLayerHistos`) walks the geometry's modules
and inserts one registry entry per new, non-empty folder name. The
outer-tracker analyzer skips the modules of the pixel sub-detectors.

## Structure

| file | module | what it holds |
|---|---|---|
| `sim_types.dfy` | `SimTypes` | simulated hits and tracks, digi-sim links, module types |
| `sorted_ids.dfy` | `SortedIds` | `std::sort` of the ids, `std::lower_bound` |
| `sim_links.dfy` | `SimLinks` | `getSimTrackId` and the add-if-absent id collection |
| `sim_track_table.dfy` | `SimTrackTable` | the `simTracks` map built with `emplace` above the pT threshold |
| `closest_hit.dfy` | `ClosestHit` | the scan as a fold, and what it finds |
| `registry.dfy` | `Registry` | the insert-if-absent `layerMEs` registry |
| `decimal.dfy` | `Decimal` | decimal text of an int, and reading it back |
| `it_validate_cluster.dfy` | `ITValidateCluster` | `isPrimary`, `getHistoId`, counting, booking (class `ITValidateCluster`) |
| `ot_validate_cluster.dfy` | `OTValidateCluster` | routing of fills, booking (class `OTValidateCluster`) |

The loops of the source are methods with `while` loops. Each method is tied
by its postcondition to a specification function: a fold over the same
input. Lemmas about those functions state what the source promises.

The two analyzers are classes. Their `layerMEs` registry is a `map` field
that the booking methods update. The per-event counter maps (inner tracker)
and the log of histogram fills (outer tracker) are results of `Analyze`.

Geometry, topology and the framework's services are inputs:

- the set of modules the geometry knows (`idToDetUnit` non-null);
- the layer number of a module (`getITPixelLayerNumber`);
- the outer-tracker folder name of a module (`getOTHistoId`) and its module
  type (`getDetectorType`);
- the pixel-to-channel numbering (`pixelToChannel`);
- the primary test of the tracker utilities (`phase2tkutil::isPrimary`);
- the local positions the topology computes for a cluster.

## Model

Source paths are relative to the repository root.

| member | source | states |
|---|---|---|
| `ITValidateCluster.IsPrimary` | Validation/SiTrackerPhase2V/plugins/Phase2ITValidateCluster.cc:569-579 | a (track, hit) pair is primary exactly when the hit belongs to the track, the track's vertex index is 0 and the hit's process type is 0 |
| `ITValidateCluster.GetHistoId` | Validation/SiTrackerPhase2V/plugins/Phase2ITValidateCluster.cc:581-601 | the folder name is empty exactly for a negative layer; `Barrel/Layer<n>` below 100; otherwise `EndCap_Side<side>/Disc<disc>` with side the hundreds (at least 1) and disc the rest (0 to 99) |
| `ITValidateCluster.HistoIdRoundTrip` | Validation/SiTrackerPhase2V/plugins/Phase2ITValidateCluster.cc:586-600 | every non-negative layer number can be read back from its folder name |
| `ITValidateCluster.HistoIdInjective` | Validation/SiTrackerPhase2V/plugins/Phase2ITValidateCluster.cc:581-601 | two distinct non-negative layers never share a folder, so each layer gets its own registry entry and counters |
| `Decimal.NatToString` | Validation/SiTrackerPhase2V/plugins/Phase2ITValidateCluster.cc:591 | the text written for a layer number is a non-empty run of digits, with two or more digits exactly when the number is at least 10 |
| `Decimal.NatToStringRoundTrip` | Validation/SiTrackerPhase2V/plugins/Phase2ITValidateCluster.cc:591-597 | reading the written digits back gives the number |
| `SimLinks.GetSimTrackId` | Validation/SiTrackerPhase2V/plugins/Phase2ITValidateCluster.cc:602-614 | the returned ids are the ids of the module's link entries on the channel, in link order; none when the module has no links; an id is returned exactly when some entry of the module links it to the channel |
| `SimLinks.ChannelIdsMembership` | Validation/SiTrackerPhase2V/plugins/Phase2OTValidateCluster.cc:417-429 | an id is among the returned ids exactly when some entry links it to the channel, and no more ids are returned than there are entries |
| `SimLinks.AddIfAbsent` | Validation/SiTrackerPhase2V/plugins/Phase2ITValidateCluster.cc:172-179 | an id is appended exactly when the list does not hold it, so the list stays free of duplicates |
| `SimLinks.AddAllAbsent` | Validation/SiTrackerPhase2V/plugins/Phase2OTValidateCluster.cc:209-218 | after one channel's ids are added, the list holds exactly its old ids and those ids, each once |
| `SimLinks.CollectSimTrackIds` | Validation/SiTrackerPhase2V/plugins/Phase2ITValidateCluster.cc:165-182 | the collected, sorted ids are strictly ascending, and are exactly the ids linked to any channel of the cluster |
| `SortedIds.SortIds` | Validation/SiTrackerPhase2V/plugins/Phase2ITValidateCluster.cc:182 | the sorted list is ascending and a permutation of the input |
| `SortedIds.AscendingDuplicateFreeIsStrict` | Validation/SiTrackerPhase2V/plugins/Phase2OTValidateCluster.cc:205-220 | sorting a list without repeated ids gives a strictly ascending list |
| `SortedIds.LowerBound` | Validation/SiTrackerPhase2V/plugins/Phase2ITValidateCluster.cc:199-200 | on an ascending list, the lower bound separates the values below the key from the rest, and "found and equal" holds exactly when the key is in the list |
| `SimTrackTable.BuildSimTracks` | Validation/SiTrackerPhase2V/plugins/Phase2ITValidateCluster.cc:106-112 | the table holds a track id exactly when some track with that id has pT above the threshold, and maps it to the first such track (emplace does not overwrite) |
| `SimTrackTable.PtFilteredIsFirstAbove` | Validation/SiTrackerPhase2V/plugins/Phase2OTValidateCluster.cc:166-172 | the same key and first-wins facts about the specification of the table |
| `SimTrackTable.PtFilteredEntries` | Validation/SiTrackerPhase2V/plugins/Phase2OTValidateCluster.cc:169-170 | every entry is a track above the threshold, stored under its own id |
| `ClosestHit.ScanFindsClosest` | Validation/SiTrackerPhase2V/plugins/Phase2ITValidateCluster.cc:183-209 | with minx holding the fabs distance, the scan finds no hit exactly when no candidate exists; otherwise it finds a candidate at the smallest distance, the earliest-scanned among equally close ones, and minx equals its distance |
| `ClosestHit.ClosestUnique` | Validation/SiTrackerPhase2V/plugins/Phase2ITValidateCluster.cc:201-203 | the strict comparison makes the closest hit unique: two first-closest hits are the same hit |
| `ClosestHit.SecondPassIsNoOp` | Validation/SiTrackerPhase2V/plugins/Phase2ITValidateCluster.cc:195-208 | the second pass of the inner-tracker scan over each container changes nothing |
| `ClosestHit.SinglePassFindsCandidate` | Validation/SiTrackerPhase2V/plugins/Phase2OTValidateCluster.cc:221-236 | whatever value minx stores, the single-pass scan finds a hit exactly when a candidate exists, and the hit it finds is a candidate of the event |
| `ClosestHit.SentinelIrrelevant` | Validation/SiTrackerPhase2V/plugins/Phase2ITValidateCluster.cc:183-184 | the initial value 10000 of minx never affects the chosen hit, because the null-pointer guard takes the first candidate |
| `ClosestHit.TruncatedMinxMissesClosest` | Validation/SiTrackerPhase2V/plugins/Phase2OTValidateCluster.cc:229-231 | if `abs` stores the truncated integer distance, a cluster at x = 0 with candidates at 0.7 then 0.5 keeps the hit at 0.7, which is not the closest |
| `Registry.InsertIfAbsent` | Validation/SiTrackerPhase2V/plugins/Phase2ITValidateCluster.cc:393-401 | booking a folder adds its name unless it is empty; an existing entry is never replaced; a new name gets the new entry |
| `Registry.InsertIfAbsentIdempotent` | Validation/SiTrackerPhase2V/plugins/Phase2OTValidateCluster.cc:326 | booking the same folder a second time changes nothing |
| `Registry.BookAllKeys` | Validation/SiTrackerPhase2V/plugins/Phase2ITValidateCluster.cc:382-385 | booking a list of modules registers exactly the non-empty folder names of the list, besides those already present |
| `Registry.BookAllKeepsEntries` | Validation/SiTrackerPhase2V/plugins/Phase2OTValidateCluster.cc:307-314 | booking never replaces an entry that is already registered |
| `Registry.BookAllFirstWins` | Validation/SiTrackerPhase2V/plugins/Phase2OTValidateCluster.cc:326-413 | a new folder name gets the entry built by the first module that books it |
| `ITValidateCluster.ChannelsOf` | Validation/SiTrackerPhase2V/plugins/Phase2ITValidateCluster.cc:166-169 | one channel per pixel of the cluster, in pixel order, each the channel of that pixel |
| `ITValidateCluster.FindClosestSimHit` | Validation/SiTrackerPhase2V/plugins/Phase2ITValidateCluster.cc:183-209 | the two-pass scan with lower_bound membership finds no hit exactly when no candidate exists; otherwise the first-closest candidate, with minx its distance |
| `ITValidateCluster.OutcomeMeaning` | Validation/SiTrackerPhase2V/plugins/Phase2ITValidateCluster.cc:210-257 | a cluster is counted exactly when its first-closest candidate exists and its track is in the table; it is counted as primary exactly when its folder is registered and that track and hit are primary |
| `ITValidateCluster.KeysSeenMembers` | Validation/SiTrackerPhase2V/plugins/Phase2ITValidateCluster.cc:130-151 | a folder has counters exactly when some module the geometry knows maps to it |
| `ITValidateCluster.CountOutsideKeysSeen` | Validation/SiTrackerPhase2V/plugins/Phase2ITValidateCluster.cc:145-151 | a folder seen for the first time has count 0 so far, so starting its counters at 0 is right |
| `ITValidateCluster.ModuleCountConserved` | Validation/SiTrackerPhase2V/plugins/Phase2ITValidateCluster.cc:219-220 | within a module, the cluster count is the primary count plus the other count |
| `ITValidateCluster.EventCountConserved` | Validation/SiTrackerPhase2V/plugins/Phase2ITValidateCluster.cc:252-254 | for every folder, nClusters = nPrimarySimHits + nOtherSimHits over the whole event |
| `ITValidateCluster.UnbookedNeverPrimary` | Validation/SiTrackerPhase2V/plugins/Phase2ITValidateCluster.cc:240-242 | a folder without a registry entry never counts a primary match, because the early `continue` skips the primary step; every cluster counted under it counts as other |
| `ITValidateCluster.ITValidateCluster.BookLayerHistos` | Validation/SiTrackerPhase2V/plugins/Phase2ITValidateCluster.cc:390-564 | the registry after one booking is the insert-if-absent of the module's folder name |
| `ITValidateCluster.ITValidateCluster.BookHistograms` | Validation/SiTrackerPhase2V/plugins/Phase2ITValidateCluster.cc:382-385 | after booking every module, the registry holds its old names plus every non-empty folder name of the modules, and keeps every old entry |
| `ITValidateCluster.ITValidateCluster.CountCluster` | Validation/SiTrackerPhase2V/plugins/Phase2ITValidateCluster.cc:154-258 | each counter of the folder moves by the cluster's contribution: all three by 0 for a dropped cluster; nClusters +1 and then nPrimarySimHits +1 or nOtherSimHits +1 for a counted one |
| `ITValidateCluster.ITValidateCluster.CountModule` | Validation/SiTrackerPhase2V/plugins/Phase2ITValidateCluster.cc:154-258 | the module's folder counters move by the module's counts, and no other folder's counters change |
| `ITValidateCluster.ITValidateCluster.CountDetSet` | Validation/SiTrackerPhase2V/plugins/Phase2ITValidateCluster.cc:119-151 | after each module, the counters exist exactly for the folders seen so far and each holds the count so far; modules unknown to the geometry are skipped |
| `ITValidateCluster.ITValidateCluster.CountEvent` | Validation/SiTrackerPhase2V/plugins/Phase2ITValidateCluster.cc:119-259 | the three counter maps have one entry per folder of a known module, each holding the count of its kind |
| `ITValidateCluster.ITValidateCluster.Analyze` | Validation/SiTrackerPhase2V/plugins/Phase2ITValidateCluster.cc:105-259 | with the table of tracks above the threshold, the counters are the per-folder counts; for every folder nClusters = nPrimarySimHits + nOtherSimHits and nOtherSimHits never goes negative |
| `OTValidateCluster.StripChannels` | Validation/SiTrackerPhase2V/plugins/Phase2OTValidateCluster.cc:206-207 | the channels of a cluster are those of strips firstRow to firstRow + size - 1 of its column |
| `OTValidateCluster.MatchMeaning` | Validation/SiTrackerPhase2V/plugins/Phase2OTValidateCluster.cc:221-239 | whatever minx stores, a cluster without a candidate hit is dropped and a matched hit is a candidate; when minx stores the distance, the match is the first-closest candidate |
| `OTValidateCluster.ClusterFillsRouting` | Validation/SiTrackerPhase2V/plugins/Phase2OTValidateCluster.cc:238-291 | a cluster fills something exactly when it is matched, its track is in the table, its folder is registered and its type is PSP, PSS or 2S; PSP fills only `_P` slots and the others only `_S`; a primary slot is filled exactly when the match is primary; every fill carries the cluster-to-hit residuals |
| `OTValidateCluster.ModuleFillsRouted` | Validation/SiTrackerPhase2V/plugins/Phase2OTValidateCluster.cc:199-292 | every fill of a module goes to that module's registered folder, into slots of the kind its type selects |
| `OTValidateCluster.EventFillsRouted` | Validation/SiTrackerPhase2V/plugins/Phase2OTValidateCluster.cc:190-293 | every fill of the event comes from a module the geometry knows and is routed by that module's type |
| `OTValidateCluster.FindClosestSimHit` | Validation/SiTrackerPhase2V/plugins/Phase2OTValidateCluster.cc:221-236 | the single-pass scan with lower_bound membership finds a hit exactly when a candidate exists, the hit is a candidate whatever minx stores, and it is the first-closest candidate when minx stores the distance |
| `OTValidateCluster.OTValidateCluster.BookLayerHistos` | Validation/SiTrackerPhase2V/plugins/Phase2OTValidateCluster.cc:319-414 | the registry after one booking is the insert-if-absent of the module's folder name; a new entry has `_P` slots exactly when the booking module is PSP |
| `OTValidateCluster.OTValidateCluster.BookHistograms` | Validation/SiTrackerPhase2V/plugins/Phase2OTValidateCluster.cc:305-315 | after booking, the registry holds its old names plus the non-empty folder names of the modules outside the pixel sub-detectors, and keeps every old entry |
| `OTValidateCluster.OTValidateCluster.MatchCluster` | Validation/SiTrackerPhase2V/plugins/Phase2OTValidateCluster.cc:204-236 | the hit kept for a cluster is the single-pass scan's result over the ids of its strips, for whichever absolute value stores minx |
| `OTValidateCluster.OTValidateCluster.RouteFills` | Validation/SiTrackerPhase2V/plugins/Phase2OTValidateCluster.cc:259-291 | the slots filled are those the module type routes to, followed by the primary slots of that kind when the match is primary |
| `OTValidateCluster.OTValidateCluster.FillCluster` | Validation/SiTrackerPhase2V/plugins/Phase2OTValidateCluster.cc:200-292 | the fills of one cluster are those the routing specification gives for the hit the scan keeps, for whichever absolute value stores minx (with fabs, the closest candidate) |
| `OTValidateCluster.OTValidateCluster.FillModule` | Validation/SiTrackerPhase2V/plugins/Phase2OTValidateCluster.cc:200-292 | the fills of a module are its clusters' fills, in order, for whichever absolute value stores minx |
| `OTValidateCluster.OTValidateCluster.FillOTHistos` | Validation/SiTrackerPhase2V/plugins/Phase2OTValidateCluster.cc:176-294 | for whichever absolute value stores minx, the fills of the event are the specified ones, module by module, and every one of them is routed by its module's type to its module's registered folder |
| `OTValidateCluster.OTValidateCluster.Analyze` | Validation/SiTrackerPhase2V/plugins/Phase2OTValidateCluster.cc:165-173 | with the table of tracks above the threshold and whichever absolute value stores minx (the float or the truncating overload of line 230), the fills are the specified ones and all of them are routed |

## Left out

- Histogram objects: booking records only a registry entry per folder (its folder path and, for the outer tracker, whether `_P` slots exist); `book1DFromPSet` and the configuration switches that leave some histograms null are not modelled.
- Fills other than the residuals: the outer tracker's pulls are the constant 1 and are not recorded; the global-position, eta and cluster-size fills of both analyzers are not modelled.
- The end-of-event fills of the inner tracker's counters into `allDigisPixel` and related histograms, and their "no histogram for an existing counter" diagnostic, are not modelled; `Analyze` returns the counter maps as they are at that point.
- A PSP cluster filled into a folder whose entry was booked by a non-PSP module writes through a null `_P` pointer in the source; the model's fill log does not detect that case.
- Floating point: positions, distances and residuals are real numbers; the `float` rounding of `minx`, `deltaX` and `deltaY` is not modelled.
- OTValidateCluster.FindClosestSimHit: proves the first-closest property only when `minx` stores the distance (`fabs`); the integer overload of `abs` is the subject of the finding below.
- ITValidateCluster.ITValidateCluster.Analyze: counters are unbounded integers; the 32-bit unsigned wrap-around after 2^32 clusters is not modelled (the decrement after the increment cannot wrap, which the conservation lemma shows).
- OTValidateCluster.StripChannels: `firstRow + i` is an unbounded natural; its 32-bit unsigned wrap is not modelled.
- `std::sort` is modelled as an insertion sort into a fresh list; only its result (ascending permutation) matters to the callers.
- The inner tracker's early return on an invalid geometry handle and event-data handles that are invalid (`simHitHandle.isValid()` false) are not modelled: the model's inputs are the valid event data. Every `ESWatcher` is a fresh local object whose first `check()` reports a change, so booking always runs, as the model's `BookHistograms` does.
- The inner tracker requires both `idToDet` and `idToDetUnit` to be non-null; the model has one set of modules the geometry knows.
- The "UNKNOWN DETECTOR TYPE" message and all other log output.
- The outer tracker's `nPrimarySimHits[3]` and `nOtherSimHits[3]` arrays are declared but never used, so they are not modelled.
- An empty folder name (negative layer) still gets counters in the inner tracker's `analyze`, as the source does; those counters never count a primary match since "" is never booked.
- `Phase2TrackerValidateCluster.cc` is not part of this model.

## Findings

| source | as written | input that shows it | evidently intended | confidence | as-written member | corrected member |
|---|---|---|---|---|---|---|
| Validation/SiTrackerPhase2V/plugins/Phase2OTValidateCluster.cc:230 | `minx = abs(...)` on a float; if this resolves to the `int` overload, the stored distance is truncated toward zero while the comparison uses `fabs` | one container with two candidates of the same module and track at local x 0.7 then 0.5, cluster at x 0: minx becomes 0 after the first, no distance is below 0, and the hit at 0.7 is kept | `minx = fabs(...)`, as at line 229 and in the inner tracker; the closest candidate is chosen | low (depends on which `abs` overloads are visible at that point); not executed | `ClosestHit.TruncatedMinxMissesClosest` | `ClosestHit.ScanFindsClosest` |
