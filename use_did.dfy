/**
 * The `useDID` hook: a list of DID records mirrored under the `localStorage` key
 * "didList", and the record of the logged-in DID. React state setters are modelled
 * as immediate field updates; `hasWindow` is false during server-side rendering,
 * where every operation returns without doing anything.
 */
module UseDid {
  import opened Wrappers
  import opened Seqs
  import opened Storage

  /** The hook's record of one DID. */
  datatype DIDRecord = DIDRecord(
    did: string,
    mainPrivateKey: string,
    mainPublicKey: string,
    recoPrivateKey: string,
    recoPublicKey: string,
    serviceEndpoint: string,
    createdAt: string)

  /** What the "didList" entry holds, as `JSON.parse` reads it: a list of records, or text that does not parse. */
  datatype StoredList = RecordsJson(records: seq<DIDRecord>) | Unparsable(text: string)

  const StorageKey: string := "didList"

  /** The test `r => r.did === did`. */
  function HasDid(did: string): DIDRecord -> bool {
    (r: DIDRecord) => r.did == did
  }

  /** `list.filter(r => r.did !== did)` */
  function Without(list: seq<DIDRecord>, did: string): (r: seq<DIDRecord>)
    ensures forall i :: 0 <= i < |r| ==> r[i].did != did && r[i] in list
    ensures forall x :: x in list && x.did != did ==> x in r
  {
    RemoveWhere(list, HasDid(did))
  }

  /** The list after saving `info`: every record with its DID removed, then `info` appended. */
  function Upsert(list: seq<DIDRecord>, info: DIDRecord): (r: seq<DIDRecord>)
    ensures |r| >= 1 && r[|r| - 1] == info
    ensures forall i :: 0 <= i < |r| - 1 ==> r[i].did != info.did
    ensures r[..|r| - 1] == Without(list, info.did)
  {
    var r := Without(list, info.did) + [info];
    assert r[..|r| - 1] == Without(list, info.did);
    r
  }

  /** `list.find(r => r.did === did) || null` */
  function FindByDid(list: seq<DIDRecord>, did: string): (r: Option<DIDRecord>)
    ensures r.None? <==> forall i :: 0 <= i < |list| ==> list[i].did != did
    ensures r.Some? ==> exists i :: 0 <= i < |list| && list[i] == r.value && list[i].did == did
                                   && forall j :: 0 <= j < i ==> list[j].did != did
  {
    FindWhere(list, HasDid(did))
  }

  /** Saved records can be found again, and they are the only record with their DID. */
  lemma FindAfterUpsert(list: seq<DIDRecord>, info: DIDRecord)
    ensures FindByDid(Upsert(list, info), info.did) == Some(info)
  {
    var r := Upsert(list, info);
    FindWhereUnique(r, HasDid(info.did), |r| - 1);
  }

  /** Records with other DIDs are found as before a save or a delete. */
  lemma FindOtherUnaffected(list: seq<DIDRecord>, info: DIDRecord, did: string)
    requires did != info.did
    ensures FindByDid(Upsert(list, info), did) == FindByDid(Without(list, info.did), did)
    ensures FindByDid(Without(list, info.did), did) == FindByDid(list, did)
  {
    FindSkipsRemoved(list, info.did, did);
    var w := Without(list, info.did);
    if FindByDid(w, did).None? {
      assert FindByDid(w + [info], did).None?;
    } else {
      var i :| 0 <= i < |w| && w[i] == FindByDid(w, did).value && w[i].did == did
                && forall j :: 0 <= j < i ==> w[j].did != did;
      assert (w + [info])[i] == w[i];
      FindFirstIsUnique(w + [info], did, i);
    }
  }

  /** A find is decided by the first match: any index that matches first is the answer. */
  lemma FindFirstIsUnique(list: seq<DIDRecord>, did: string, i: nat)
    requires i < |list| && list[i].did == did && forall j :: 0 <= j < i ==> list[j].did != did
    ensures FindByDid(list, did) == Some(list[i])
  {
    var r := FindByDid(list, did);
    var k :| 0 <= k < |list| && list[k] == r.value && list[k].did == did
              && forall j :: 0 <= j < k ==> list[j].did != did;
    assert k == i;
  }

  /** Removing the records of one DID does not change the first match of another. */
  lemma {:induction false} FindSkipsRemoved(list: seq<DIDRecord>, removed: string, did: string)
    requires removed != did
    ensures FindByDid(Without(list, removed), did) == FindByDid(list, did)
  {
    if |list| > 0 {
      FindSkipsRemoved(list[1..], removed, did);
      WithoutCons(list, removed);
      var rest := Without(list[1..], removed);
      if list[0].did == did {
        FindFirstIsUnique([list[0]] + rest, did, 0);
        FindFirstIsUnique(list, did, 0);
      } else if list[0].did == removed {
        FindTail(list, did);
      } else {
        FindTail([list[0]] + rest, did);
        assert ([list[0]] + rest)[1..] == rest;
        FindTail(list, did);
      }
    }
  }

  /** The filter keeps the head exactly when it has another DID, and filters the tail. */
  lemma WithoutCons(list: seq<DIDRecord>, removed: string)
    requires |list| > 0
    ensures Without(list, removed) ==
      (if list[0].did == removed then [] else [list[0]]) + Without(list[1..], removed)
  {
    assert list == [list[0]] + list[1..];
    RemoveWhereAppend([list[0]], list[1..], HasDid(removed));
  }

  /** When the head does not match, the find answers as it does on the tail. */
  lemma FindTail(list: seq<DIDRecord>, did: string)
    requires |list| > 0 && list[0].did != did
    ensures FindByDid(list, did) == FindByDid(list[1..], did)
  {
  }

  class DidHook {
    /** `typeof window !== "undefined"` */
    const hasWindow: bool
    const store: LocalStorage<StoredList>
    var didList: seq<DIDRecord>
    var currentDIDInfo: Option<DIDRecord>
    var isLoading: bool

    /** The initial state: no records, no current record, loading. */
    constructor(hasWindow: bool, store: LocalStorage<StoredList>)
      ensures this.hasWindow == hasWindow && this.store == store
      ensures didList == [] && currentDIDInfo == None && isLoading
    {
      this.hasWindow := hasWindow;
      this.store := store;
      didList := [];
      currentDIDInfo := None;
      isLoading := true;
    }

    /** The stored list mirrors the in-memory list. */
    predicate Persisted()
      reads this, store
    {
      store.GetItem(StorageKey) == Some(RecordsJson(didList))
    }

    /** `getDIDInfo`: the first record with the DID, or `None`. */
    function GetDIDInfo(did: string): (r: Option<DIDRecord>)
      reads this
      ensures r.Some? ==> r.value in didList && r.value.did == did
      ensures r.Some? ==> exists i :: 0 <= i < |didList| && didList[i] == r.value && didList[i].did == did
                                     && forall j :: 0 <= j < i ==> didList[j].did != did
      ensures r.None? <==> forall i :: 0 <= i < |didList| ==> didList[i].did != did
    {
      FindByDid(didList, did)
    }

    /**
     * `refreshDIDList`: reload the list from storage (missing, empty or unparsable
     * text reads as no records), pick the record of the current DID, stop loading.
     * `currentDID` is the logged-in DID; `None` and "" are both falsy.
     */
    method RefreshDIDList(currentDID: Option<string>)
      modifies this
      ensures !hasWindow ==> unchanged(this)
      ensures hasWindow ==>
        && didList == (match old(store.GetItem(StorageKey)) case Some(RecordsJson(records)) => records case _ => [])
        && currentDIDInfo == (if currentDID.Some? && currentDID.value != "" then FindByDid(didList, currentDID.value) else None)
        && !isLoading
        && store.items == old(store.items)
    {
      if !hasWindow {
        return;
      }
      var stored := store.GetItem(StorageKey);
      var dids := match stored case Some(RecordsJson(records)) => records case _ => [];
      didList := dids;
      if currentDID.Some? && currentDID.value != "" {
        currentDIDInfo := FindByDid(dids, currentDID.value);
      } else {
        currentDIDInfo := None;
      }
      isLoading := false;
    }

    /**
     * `saveDIDInfo`: replace every record with the same DID by `info`, at the end;
     * write the list to storage and, when that succeeds, to the state, making `info`
     * the current record if it is the logged-in DID's.
     */
    method SaveDIDInfo(info: DIDRecord, currentDID: Option<string>)
      modifies this, store
      ensures !hasWindow || !store.writable ==> unchanged(this) && store.items == old(store.items)
      ensures hasWindow && store.writable ==>
        && didList == Upsert(old(didList), info)
        && store.items == old(store.items)[StorageKey := RecordsJson(didList)]
        && currentDIDInfo == (if currentDID == Some(info.did) then Some(info) else old(currentDIDInfo))
        && isLoading == old(isLoading)
      ensures hasWindow && store.writable ==> Persisted()
    {
      if !hasWindow {
        return;
      }
      var updatedList := Upsert(didList, info);
      var ok := store.SetItem(StorageKey, RecordsJson(updatedList));
      if !ok {
        return;
      }
      didList := updatedList;
      if currentDID == Some(info.did) {
        currentDIDInfo := Some(info);
      }
    }

    /**
     * `deleteDIDInfo`: drop every record with the DID, write the list to storage and,
     * when that succeeds, to the state, clearing the current record if it was the
     * logged-in DID's.
     */
    method DeleteDIDInfo(did: string, currentDID: Option<string>)
      modifies this, store
      ensures !hasWindow || !store.writable ==> unchanged(this) && store.items == old(store.items)
      ensures hasWindow && store.writable ==>
        && didList == Without(old(didList), did)
        && store.items == old(store.items)[StorageKey := RecordsJson(didList)]
        && currentDIDInfo == (if currentDID == Some(did) then None else old(currentDIDInfo))
        && isLoading == old(isLoading)
      ensures hasWindow && store.writable ==> Persisted()
    {
      if !hasWindow {
        return;
      }
      var updatedList := Without(didList, did);
      var ok := store.SetItem(StorageKey, RecordsJson(updatedList));
      if !ok {
        return;
      }
      didList := updatedList;
      if currentDID == Some(did) {
        currentDIDInfo := None;
      }
    }
  }

  /** Deleting after saving leaves the records of other DIDs as they were, in order. */
  lemma {:induction false} DeleteAfterUpsert(list: seq<DIDRecord>, info: DIDRecord)
    ensures Without(Upsert(list, info), info.did) == Without(list, info.did)
  {
    RemoveWhereAppend(Without(list, info.did), [info], HasDid(info.did));
    RemoveWhereIdempotent(list, HasDid(info.did));
    assert RemoveWhere([info], HasDid(info.did)) == [];
  }
}
