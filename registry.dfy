/**
 * The per-layer registry of histogram sets (layerMEs), keyed by the layer's
 * folder name: booking a layer inserts its entry only when the name is
 * non-empty and not yet present.
 */
module Registry {

  /** What one bookLayerHistos call does to the registry. */
  function InsertIfAbsent<E>(reg: map<string, E>, key: string, entry: E): (r: map<string, E>)
    ensures r.Keys == if key == "" then reg.Keys else reg.Keys + {key}
    ensures forall k :: k in reg ==> r[k] == reg[k]
    ensures key != "" && key !in reg ==> r[key] == entry
  {
    if key == "" || key in reg then reg else reg[key := entry]
  }

  /** Booking the same name again changes nothing, whatever entry the second
      booking would have built. */
  lemma InsertIfAbsentIdempotent<E>(reg: map<string, E>, key: string, entry: E, again: E)
    ensures InsertIfAbsent(InsertIfAbsent(reg, key, entry), key, again) == InsertIfAbsent(reg, key, entry)
  {
  }

  /** The registry after booking every key of the list in order. */
  function BookAll<E>(reg: map<string, E>, keys: seq<string>, entries: seq<E>): map<string, E>
    requires |keys| == |entries|
  {
    if |keys| == 0 then reg
    else InsertIfAbsent(BookAll(reg, keys[..|keys| - 1], entries[..|keys| - 1]), keys[|keys| - 1], entries[|keys| - 1])
  }

  /** Booking a list of layers registers exactly the non-empty names of the
      list besides those already present. */
  lemma {:induction false} BookAllKeys<E>(reg: map<string, E>, keys: seq<string>, entries: seq<E>)
    requires |keys| == |entries|
    ensures BookAll(reg, keys, entries).Keys == reg.Keys + (set k | k in keys && k != "")
  {
    if |keys| > 0 {
      var n := |keys| - 1;
      BookAllKeys(reg, keys[..n], entries[..n]);
      assert keys == keys[..n] + [keys[n]];
      assert (set k | k in keys && k != "")
             == (set k | k in keys[..n] && k != "") + (if keys[n] != "" then {keys[n]} else {});
    }
  }

  /** Booking never replaces an entry that is already registered. */
  lemma {:induction false} BookAllKeepsEntries<E>(reg: map<string, E>, keys: seq<string>, entries: seq<E>, k: string)
    requires |keys| == |entries|
    requires k in reg
    ensures k in BookAll(reg, keys, entries) && BookAll(reg, keys, entries)[k] == reg[k]
  {
    if |keys| > 0 {
      var n := |keys| - 1;
      BookAllKeepsEntries(reg, keys[..n], entries[..n], k);
    }
  }

  /** A name that was not registered gets the entry of its first booking. */
  lemma {:induction false} BookAllFirstWins<E>(reg: map<string, E>, keys: seq<string>, entries: seq<E>, i: nat)
    requires |keys| == |entries|
    requires i < |keys| && keys[i] != "" && keys[i] !in reg && keys[i] !in keys[..i]
    ensures keys[i] in BookAll(reg, keys, entries) && BookAll(reg, keys, entries)[keys[i]] == entries[i]
  {
    var n := |keys| - 1;
    BookAllKeys(reg, keys[..n], entries[..n]);
    if i < n {
      assert keys[..n][..i] == keys[..i];
      BookAllFirstWins(reg, keys[..n], entries[..n], i);
      assert keys[..n][i] == keys[i];
    } else {
      assert keys[..n] == keys[..i];
    }
  }
}
