/**
 * The event data the cluster validation analyzers read: simulated hits,
 * simulated tracks and the digi-to-simulation link table. Everything here is
 * a value handed in by the event; the analyzers never write to it.
 */
module SimTypes {

  datatype Option<T> = None | Some(value: T)

  /** A simulated energy deposit (PSimHit): the module it lies on, the track
      that produced it, its local position on the module and the Geant
      process that created it. */
  datatype SimHit = SimHit(detUnitId: nat, trackId: nat, localX: real, localY: real, processType: int)

  /** A simulated track (SimTrack): its id, the index of the vertex it starts
      from and its transverse momentum. */
  datatype SimTrack = SimTrack(trackId: nat, vertIndex: int, pt: real)

  /** One PixelDigiSimLink: a channel of a module and a track that left
      charge in it. */
  datatype LinkEntry = LinkEntry(channel: nat, simTrackId: nat)

  /** The link collection (a DetSetVector): the link entries of each module,
      in the order the collection stores them, keyed by module id. */
  type LinkTable = map<nat, seq<LinkEntry>>

  /** The module types the two analyzers tell apart; every other type of the
      tracker geometry is OtherType. */
  datatype ModuleType = Ph2PXB | Ph2PXF | Ph2PSP | Ph2PSS | Ph2SS | OtherType

  /** The simulated-hit containers of one event, one per configured source,
      scanned in this order. */
  type HitContainers = seq<seq<SimHit>>
}
