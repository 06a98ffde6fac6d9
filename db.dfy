/**
 * The in-memory snapshot store: for every token address (lower-cased) the
 * last snapshot record written for it, stamped with the time it was saved.
 */
module Db {
  import opened Wrappers
  import Address

  /** What a caller hands to the store: one snapshot of a token's state. */
  datatype SnapshotData = SnapshotData(
    tokenName: string,
    tokenAddress: string,
    blockNumber: nat,
    eventIndex: nat,
    supply: nat,
    price: string,
    marketCap: string,
    txHash: Option<string>)

  /** What the store keeps: the caller's data plus the time of saving. */
  datatype SnapshotRecord = SnapshotRecord(
    tokenName: string,
    tokenAddress: string,
    blockNumber: nat,
    eventIndex: nat,
    supply: nat,
    price: string,
    marketCap: string,
    txHash: Option<string>,
    timestamp: nat)

  /** The caller's data inside a stored record. */
  function Strip(r: SnapshotRecord): SnapshotData {
    SnapshotData(r.tokenName, r.tokenAddress, r.blockNumber, r.eventIndex,
                 r.supply, r.price, r.marketCap, r.txHash)
  }

  /** The record saved for `data` at time `now`: the data, unchanged, plus the timestamp. */
  function Stamp(data: SnapshotData, now: nat): (r: SnapshotRecord)
    ensures Strip(r) == data
    ensures r.timestamp == now
  {
    SnapshotRecord(data.tokenName, data.tokenAddress, data.blockNumber, data.eventIndex,
                   data.supply, data.price, data.marketCap, data.txHash, now)
  }

  /** Contents of the store: lower-cased address to latest record. */
  type Contents = map<string, SnapshotRecord>

  /** Every record sits under the lower-cased form of its own token address. */
  predicate WellKeyed(m: Contents) {
    forall k | k in m :: Address.Lower(m[k].tokenAddress) == k
  }

  /** The store after saving `data` at time `now`. */
  function Save(m: Contents, data: SnapshotData, now: nat): (m': Contents)
    ensures m'.Keys == m.Keys + {Address.Lower(data.tokenAddress)}
    ensures WellKeyed(m) ==> WellKeyed(m')
  {
    m[Address.Lower(data.tokenAddress) := Stamp(data, now)]
  }

  /**
   * The latest record for `address`, in any letter case: None exactly when
   * nothing is filed under its lower-cased form, and otherwise a record of
   * that same address.
   */
  function Lookup(m: Contents, address: string): (r: Option<SnapshotRecord>)
    ensures r.None? <==> Address.Lower(address) !in m
    ensures WellKeyed(m) && r.Some? ==> Address.SameAddress(r.value.tokenAddress, address)
  {
    var key := Address.Lower(address);
    if key in m then Some(m[key]) else None
  }

  /** Saving and then reading the same address, in any letter case, gives back the saved data. */
  lemma LookupAfterSave(m: Contents, data: SnapshotData, now: nat, address: string)
    requires Address.SameAddress(address, data.tokenAddress)
    ensures Lookup(Save(m, data, now), address) == Some(Stamp(data, now))
    ensures Strip(Lookup(Save(m, data, now), address).value) == data
  {
  }

  /** Saving one address leaves what every other address reads unchanged. */
  lemma LookupOtherAfterSave(m: Contents, data: SnapshotData, now: nat, address: string)
    requires !Address.SameAddress(address, data.tokenAddress)
    ensures Lookup(Save(m, data, now), address) == Lookup(m, address)
  {
  }

  /** The store after a history of saves, oldest first, each with its save time. */
  function SaveAll(m: Contents, saves: seq<(SnapshotData, nat)>): Contents
    decreases |saves|
  {
    if saves == [] then m else SaveAll(Save(m, saves[0].0, saves[0].1), saves[1..])
  }

  /** Saves for other addresses do not change what an address reads. */
  lemma {:induction false} LookupUnaffected(m: Contents, saves: seq<(SnapshotData, nat)>, address: string)
    requires forall i :: 0 <= i < |saves| ==> !Address.SameAddress(address, saves[i].0.tokenAddress)
    ensures Lookup(SaveAll(m, saves), address) == Lookup(m, address)
    decreases |saves|
  {
    if saves != [] {
      LookupOtherAfterSave(m, saves[0].0, saves[0].1, address);
      LookupUnaffected(Save(m, saves[0].0, saves[0].1), saves[1..], address);
    }
  }

  /** Starting from the empty store, an address that no save in the history names reads as absent. */
  lemma LookupNeverSaved(saves: seq<(SnapshotData, nat)>, address: string)
    requires forall i :: 0 <= i < |saves| ==> !Address.SameAddress(address, saves[i].0.tokenAddress)
    ensures Lookup(SaveAll(map[], saves), address) == None
  {
    LookupUnaffected(map[], saves, address);
  }

  /**
   * After a history of saves, an address reads the record of the last save
   * that names it, in any letter case, whatever the block numbers.
   */
  lemma {:induction false} LookupAfterHistory(m: Contents, saves: seq<(SnapshotData, nat)>, address: string, last: nat)
    requires last < |saves| && Address.SameAddress(address, saves[last].0.tokenAddress)
    requires forall j :: last < j < |saves| ==> !Address.SameAddress(address, saves[j].0.tokenAddress)
    ensures Lookup(SaveAll(m, saves), address) == Some(Stamp(saves[last].0, saves[last].1))
    decreases |saves|
  {
    var next := Save(m, saves[0].0, saves[0].1);
    if last == 0 {
      LookupAfterSave(m, saves[0].0, saves[0].1, address);
      LookupUnaffected(next, saves[1..], address);
    } else {
      LookupAfterHistory(next, saves[1..], address, last - 1);
    }
  }

  /**
   * Latest means last written: a second save for the same address replaces
   * the first entirely, whatever the two block numbers are.
   */
  lemma LastWriterWins(m: Contents, first: SnapshotData, t1: nat, second: SnapshotData, t2: nat)
    requires Address.SameAddress(first.tokenAddress, second.tokenAddress)
    ensures Save(Save(m, first, t1), second, t2) == Save(m, second, t2)
    ensures Lookup(Save(Save(m, first, t1), second, t2), second.tokenAddress) == Some(Stamp(second, t2))
  {
  }

  /** Reading by an address or by its lower-cased form is the same read. */
  lemma LookupCaseInsensitive(m: Contents, address: string)
    ensures Lookup(m, address) == Lookup(m, Address.Lower(address))
  {
    Address.LowerIdempotent(address);
  }

  /** The store object behind `saveState` and `getLatestState`. */
  class SnapshotStore {
    var memoryStore: Contents

    ghost predicate Valid()
      reads this
    {
      WellKeyed(memoryStore)
    }

    constructor ()
      ensures Valid() && memoryStore == map[]
    {
      memoryStore := map[];
    }

    /** Overwrites the entry for the data's lower-cased address with the stamped record. */
    method SaveState(data: SnapshotData, now: nat)
      requires Valid()
      modifies this
      ensures Valid()
      ensures memoryStore == Save(old(memoryStore), data, now)
    {
      var record := Stamp(data, now);
      memoryStore := memoryStore[Address.Lower(data.tokenAddress) := record];
    }

    /**
     * The latest record for `address`, in any letter case, or None when
     * nothing was ever saved for it; the returned copy keeps every stored field.
     */
    method GetLatestState(address: string) returns (r: Option<SnapshotRecord>)
      requires Valid()
      ensures r == Lookup(memoryStore, address)
      ensures r.Some? ==> Address.SameAddress(r.value.tokenAddress, address)
      ensures r.None? <==> Address.Lower(address) !in memoryStore
    {
      var key := Address.Lower(address);
      if key !in memoryStore {
        return None;
      }
      // The source re-wraps blockNumber and supply with BigInt, which is the
      // identity on values that are already big integers: the copy is the record.
      r := Some(memoryStore[key]);
    }
  }
}
