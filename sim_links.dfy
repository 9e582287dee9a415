/**
 * From a cluster's channels to the ids of the simulated tracks that left
 * charge in them: the per-channel link lookup (getSimTrackId) and the
 * add-if-absent collection that both analyzers run before sorting the ids.
 */
module SimLinks {
  import opened SimTypes
  import opened SortedIds

  /** The SimTrackIds of the first n link entries whose channel is the
      queried one, in link order. */
  function ChannelIds(entries: seq<LinkEntry>, channel: nat, n: nat): seq<nat>
    requires n <= |entries|
  {
    if n == 0 then []
    else ChannelIds(entries, channel, n - 1)
         + (if entries[n - 1].channel == channel then [entries[n - 1].simTrackId] else [])
  }

  /** What getSimTrackId returns: nothing for a module the link table does not
      hold, otherwise the ids of that module's entries on the channel. */
  function LinkedIds(links: LinkTable, det: nat, channel: nat): seq<nat> {
    if det !in links then [] else ChannelIds(links[det], channel, |links[det]|)
  }

  /** An id is returned exactly when some entry among the first n links it
      to the channel; and no more ids are returned than there are entries. */
  lemma {:induction false} ChannelIdsMembership(entries: seq<LinkEntry>, channel: nat, n: nat, id: nat)
    requires n <= |entries|
    ensures id in ChannelIds(entries, channel, n)
            <==> exists i :: 0 <= i < n && entries[i].channel == channel && entries[i].simTrackId == id
    ensures |ChannelIds(entries, channel, n)| <= n
  {
    if n > 0 {
      ChannelIdsMembership(entries, channel, n - 1, id);
      var last := entries[n - 1];
      if last.channel == channel && last.simTrackId == id {
        assert ChannelIds(entries, channel, n)[|ChannelIds(entries, channel, n)| - 1] == id;
      }
    }
  }

  /** The link lookup of one channel: scan the module's entries in order and
      keep the track id of each entry on that channel. */
  method GetSimTrackId(links: LinkTable, det: nat, channel: nat) returns (retvec: seq<nat>)
    ensures retvec == LinkedIds(links, det, channel)
    ensures det !in links ==> retvec == []
    ensures forall id :: id in retvec
              <==> det in links && exists i :: 0 <= i < |links[det]| && links[det][i].channel == channel
                                             && links[det][i].simTrackId == id
  {
    retvec := [];
    if det !in links {
      return;
    }
    var data := links[det];
    var i := 0;
    while i < |data|
      invariant 0 <= i <= |data|
      invariant retvec == ChannelIds(data, channel, i)
    {
      if channel == data[i].channel {
        retvec := retvec + [data[i].simTrackId];
      }
      i := i + 1;
    }
    forall id ensures id in retvec
              <==> exists i :: 0 <= i < |data| && data[i].channel == channel && data[i].simTrackId == id
    {
      ChannelIdsMembership(data, channel, |data|, id);
    }
  }

  /** Some channel among the first p links the id to the module. */
  ghost predicate LinkedToSome(links: LinkTable, det: nat, channels: seq<nat>, p: nat, id: nat)
    requires p <= |channels|
  {
    exists q :: 0 <= q < p && id in LinkedIds(links, det, channels[q])
  }

  /** The union of the ids linked to any of the channels. */
  function UnionIds(links: LinkTable, det: nat, channels: seq<nat>): set<nat> {
    set p, id | 0 <= p < |channels| && id in LinkedIds(links, det, channels[p]) :: id
  }

  /** Append it to the list unless the list already holds it (a linear
      std::find). */
  method AddIfAbsent(acc: seq<nat>, it: nat) returns (r: seq<nat>)
    requires DuplicateFree(acc)
    ensures r == if it in acc then acc else acc + [it]
    ensures DuplicateFree(r)
  {
    var add := true;
    var j := 0;
    while j < |acc|
      invariant 0 <= j <= |acc|
      invariant add <==> it !in acc[..j]
    {
      if it == acc[j] {
        add := false;
      }
      assert acc[..j + 1] == acc[..j] + [acc[j]];
      j := j + 1;
    }
    assert acc[..j] == acc;
    r := acc;
    if add {
      r := acc + [it];
      assert multiset(r) == multiset(acc) + multiset{it};
    }
  }

  /** Add every id of the list, in order, that is not yet held. */
  method AddAllAbsent(acc: seq<nat>, simTrackIds: seq<nat>) returns (r: seq<nat>)
    requires DuplicateFree(acc)
    ensures DuplicateFree(r)
    ensures forall id :: id in r <==> id in acc || id in simTrackIds
  {
    r := acc;
    var t := 0;
    while t < |simTrackIds|
      invariant 0 <= t <= |simTrackIds|
      invariant DuplicateFree(r)
      invariant forall id :: id in r <==> id in acc || id in simTrackIds[..t]
    {
      r := AddIfAbsent(r, simTrackIds[t]);
      assert simTrackIds[..t + 1] == simTrackIds[..t] + [simTrackIds[t]];
      t := t + 1;
    }
    assert simTrackIds[..t] == simTrackIds;
  }

  /** The ids of the tracks behind a cluster: for every channel, every id the
      link table gives that is not yet in the list is appended; the list is
      then sorted. The result holds each id of the union once, ascending. */
  method CollectSimTrackIds(links: LinkTable, det: nat, channels: seq<nat>) returns (ids: seq<nat>)
    ensures StrictlyAscending(ids)
    ensures IdSet(ids) == UnionIds(links, det, channels)
  {
    var acc: seq<nat> := [];
    var p := 0;
    while p < |channels|
      invariant 0 <= p <= |channels|
      invariant DuplicateFree(acc)
      invariant forall id :: id in acc <==> LinkedToSome(links, det, channels, p, id)
    {
      var simTrackIds := GetSimTrackId(links, det, channels[p]);
      acc := AddAllAbsent(acc, simTrackIds);
      forall id ensures LinkedToSome(links, det, channels, p + 1, id)
                        <==> LinkedToSome(links, det, channels, p, id) || id in simTrackIds
      {
        if LinkedToSome(links, det, channels, p + 1, id) && !LinkedToSome(links, det, channels, p, id) {
          var q :| 0 <= q < p + 1 && id in LinkedIds(links, det, channels[q]);
          assert q == p;
        }
      }
      p := p + 1;
    }
    ids := SortIds(acc);
    AscendingDuplicateFreeIsStrict(ids);
    forall id ensures id in IdSet(ids) <==> id in UnionIds(links, det, channels) {
      assert id in ids <==> id in multiset(ids);
      assert id in acc <==> id in multiset(acc);
      if id in acc {
        var q :| 0 <= q < |channels| && id in LinkedIds(links, det, channels[q]);
      }
    }
  }
}
