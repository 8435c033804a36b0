/**
 * The repository of followed locations (repositories/LocationsRepository.kt).  It holds
 * the list that the UI observes, replaces it wholesale on every change, and writes the
 * JSON of each new list under the key "favorites".  LiveData's `postValue` is plain
 * assignment here and the asynchronous callbacks run at once.
 */
module LocationsRepositories {
  import opened Common
  import opened UserLocations
  import opened KeyValueStorage

  const FavoritesKey := "favorites"

  /** `List.contains`, which goes through the id-based `equals`. */
  predicate Contains(s: seq<UserLocation>, location: UserLocation) {
    exists i :: 0 <= i < |s| && SameLocation(s[i], location)
  }

  /** `oldList.map { item -> if (item.id == location.id) location else item }`. */
  function ReplaceById(s: seq<UserLocation>, location: UserLocation): (r: seq<UserLocation>)
    ensures |r| == |s|
    ensures forall i :: 0 <= i < |s| ==> r[i] == (if s[i].id == location.id then location else s[i])
  {
    if s == [] then [] else [if s[0].id == location.id then location else s[0]] + ReplaceById(s[1..], location)
  }

  /** `oldList.filter { item -> item.id != location.id }`. */
  function RemoveById(s: seq<UserLocation>, id: string): (r: seq<UserLocation>)
    ensures |r| <= |s|
    ensures forall x :: x in r ==> x in s && x.id != id
    ensures forall x :: x in s && x.id != id ==> x in r
  {
    if s == [] then []
    else if s[0].id != id then [s[0]] + RemoveById(s[1..], id)
    else RemoveById(s[1..], id)
  }

  /** Filtering distributes over concatenation: the survivors keep their relative order. */
  lemma {:induction false} RemoveByIdAppend(s: seq<UserLocation>, t: seq<UserLocation>, id: string)
    ensures RemoveById(s + t, id) == RemoveById(s, id) + RemoveById(t, id)
  {
    if s == [] {
      assert s + t == t;
    } else {
      assert (s + t)[1..] == s[1..] + t;
      RemoveByIdAppend(s[1..], t, id);
    }
  }

  /** A location with another id survives the filter; one with this id is dropped. */
  lemma RemoveByIdSingleton(x: UserLocation, id: string)
    ensures RemoveById([x], id) == if x.id == id then [] else [x]
  {
  }

  /** Without an element of that id the filter changes nothing. */
  lemma {:induction false} RemoveByIdAbsent(s: seq<UserLocation>, location: UserLocation)
    requires !Contains(s, location)
    ensures RemoveById(s, location.id) == s
  {
    if s != [] {
      assert !SameLocation(s[0], location);
      assert !Contains(s[1..], location) by {
        forall i | 0 <= i < |s| - 1 ensures !SameLocation(s[1..][i], location) {
          assert s[1..][i] == s[i + 1];
        }
      }
      RemoveByIdAbsent(s[1..], location);
    }
  }

  /** The list `upsertFavoriteLocation` builds from the current one. */
  function Upserted(s: seq<UserLocation>, location: UserLocation): (r: seq<UserLocation>)
    ensures |r| == if Contains(s, location) then |s| else |s| + 1
    ensures forall x :: x in r ==> x in s || x == location
  {
    if Contains(s, location) then ReplaceById(s, location) else s + [location]
  }

  /** The list `removeFavoriteLocation` publishes (it publishes nothing when absent). */
  function Removed(s: seq<UserLocation>, location: UserLocation): (r: seq<UserLocation>)
    ensures |r| <= |s|
    ensures forall x :: x in r ==> x in s
  {
    if Contains(s, location) then RemoveById(s, location.id) else s
  }

  /** An upsert of a present location keeps length and order and swaps in the new value for its id only. */
  lemma UpsertPresent(s: seq<UserLocation>, location: UserLocation)
    requires Contains(s, location)
    ensures |Upserted(s, location)| == |s|
    ensures forall i :: 0 <= i < |s| && s[i].id != location.id ==> Upserted(s, location)[i] == s[i]
    ensures forall i :: 0 <= i < |s| && s[i].id == location.id ==> Upserted(s, location)[i] == location
  {
  }

  /** An upsert of an absent location appends it. */
  lemma UpsertAbsent(s: seq<UserLocation>, location: UserLocation)
    requires !Contains(s, location)
    ensures Upserted(s, location) == s + [location]
  {
  }

  /** After any upsert the location is in the list, by id and with its new value. */
  lemma UpsertContains(s: seq<UserLocation>, location: UserLocation)
    ensures Contains(Upserted(s, location), location)
    ensures location in Upserted(s, location)
  {
    var r := Upserted(s, location);
    if Contains(s, location) {
      var i :| 0 <= i < |s| && SameLocation(s[i], location);
      assert r[i] == location;
    } else {
      assert r[|s|] == location;
    }
  }

  /** Upserting the same location twice is the same as upserting it once. */
  lemma UpsertIdempotent(s: seq<UserLocation>, location: UserLocation)
    ensures Upserted(Upserted(s, location), location) == Upserted(s, location)
  {
    var r := Upserted(s, location);
    UpsertContains(s, location);
    var r2 := ReplaceById(r, location);
    assert |r2| == |r|;
    forall i | 0 <= i < |r| ensures r2[i] == r[i] {
      if Contains(s, location) {
      } else if i == |s| {
      } else {
        assert !SameLocation(s[i], location);
      }
    }
  }

  /** A removal leaves no element with that id and keeps every other element, in order. */
  lemma RemovePresent(s: seq<UserLocation>, location: UserLocation)
    requires Contains(s, location)
    ensures !Contains(Removed(s, location), location)
    ensures forall x :: x in s && !SameLocation(x, location) ==> x in Removed(s, location)
    ensures |Removed(s, location)| < |s|
  {
    var r := Removed(s, location);
    var i :| 0 <= i < |s| && SameLocation(s[i], location);
    assert s == s[..i] + [s[i]] + s[i + 1..];
    RemoveByIdAppend(s[..i] + [s[i]], s[i + 1..], location.id);
    RemoveByIdAppend(s[..i], [s[i]], location.id);
    assert RemoveById([s[i]], location.id) == [];
    assert |r| == |RemoveById(s[..i], location.id)| + |RemoveById(s[i + 1..], location.id)|;
  }

  /** A removal of an absent location leaves the list as it was. */
  lemma RemoveAbsent(s: seq<UserLocation>, location: UserLocation)
    requires !Contains(s, location)
    ensures Removed(s, location) == s
  {
  }

  /**
   * The list the load callback publishes: the decoded list when the stored JSON decodes,
   * otherwise `defaultLocations` (decode failure, load error, or no data).
   */
  function LoadedLocations(outcome: LoadOutcome, decode: string -> Option<seq<UserLocation>>, defaults: seq<UserLocation>): (r: seq<UserLocation>)
    ensures r == defaults || (outcome.json.Some? && decode(outcome.json.value) == Some(r))
  {
    if outcome.json.Some? then decode(outcome.json.value).GetOr(defaults)
    else if outcome.error.Some? then defaults
    else defaults
  }

  /** Load publishes the decoded list exactly when there is stored JSON that decodes. */
  lemma LoadedLocationsCases(outcome: LoadOutcome, decode: string -> Option<seq<UserLocation>>, defaults: seq<UserLocation>)
    ensures outcome.json.Some? && decode(outcome.json.value).Some? ==>
      LoadedLocations(outcome, decode, defaults) == decode(outcome.json.value).value
    ensures !(outcome.json.Some? && decode(outcome.json.value).Some?) ==>
      LoadedLocations(outcome, decode, defaults) == defaults
  {
  }

  class LocationsRepository {
    const storage: StorageService
    const encode: seq<UserLocation> -> Option<string>
    const decode: string -> Option<seq<UserLocation>>
    const defaultLocations: seq<UserLocation>

    /** The value of `mFavoriteLocations`. */
    var favoriteLocations: seq<UserLocation>

    /** The repository starts with the empty list; the load completes later. */
    constructor (storage: StorageService, encode: seq<UserLocation> -> Option<string>,
                 decode: string -> Option<seq<UserLocation>>, defaultIds: DefaultIds)
      ensures this.storage == storage && this.encode == encode && this.decode == decode
      ensures defaultLocations == DefaultLocations(defaultIds)
      ensures favoriteLocations == []
    {
      this.storage := storage;
      this.encode := encode;
      this.decode := decode;
      defaultLocations := DefaultLocations(defaultIds);
      favoriteLocations := [];
    }

    /** `loadFavoriteLocations`: reads the "favorites" entry and publishes the outcome. */
    method LoadFavoriteLocations(fault: Option<Exception>)
      modifies this
      ensures favoriteLocations == LoadedLocations(
        LoadOutcome(if fault.None? && FavoritesKey in storage.entries then Some(storage.entries[FavoritesKey]) else None, fault),
        decode, defaultLocations)
    {
      var outcome := storage.Load(FavoritesKey, fault);
      if outcome.json.Some? {
        var decoded := decode(outcome.json.value);
        if decoded.Some? {
          favoriteLocations := decoded.value;
        } else {
          favoriteLocations := defaultLocations;
        }
      } else if outcome.error.Some? {
        favoriteLocations := defaultLocations;
      } else {
        favoriteLocations := defaultLocations;
      }
    }

    /** `saveFavoriteLocations`: encoding and saving errors are only logged. */
    method SaveFavoriteLocations(locations: seq<UserLocation>, fault: Option<Exception>)
      modifies storage
      ensures encode(locations).Some? ==> storage.entries == AfterSave(old(storage.entries), FavoritesKey, encode(locations).value, fault)
      ensures encode(locations).None? ==> storage.entries == old(storage.entries)
    {
      var json := encode(locations);
      if json.Some? {
        var error := storage.Save(FavoritesKey, json.value, fault);
      }
    }

    /** `upsertFavoriteLocation`: replaces the location with the same id, or appends it. */
    method UpsertFavoriteLocation(location: UserLocation, saveFault: Option<Exception>)
      modifies this, storage
      ensures favoriteLocations == Upserted(old(favoriteLocations), location)
      ensures Contains(favoriteLocations, location)
      ensures encode(favoriteLocations).Some? ==>
        storage.entries == AfterSave(old(storage.entries), FavoritesKey, encode(favoriteLocations).value, saveFault)
      ensures encode(favoriteLocations).None? ==> storage.entries == old(storage.entries)
    {
      var oldList := favoriteLocations;
      var newList: seq<UserLocation> := [];
      if Contains(oldList, location) {
        newList := newList + ReplaceById(oldList, location);
      } else {
        newList := newList + oldList;
        newList := newList + [location];
      }
      favoriteLocations := newList;
      UpsertContains(oldList, location);
      SaveFavoriteLocations(newList, saveFault);
    }

    /** `removeFavoriteLocation`: drops every element with that id; an absent location is ignored. */
    method RemoveFavoriteLocation(location: UserLocation, saveFault: Option<Exception>)
      modifies this, storage
      ensures favoriteLocations == Removed(old(favoriteLocations), location)
      ensures !Contains(favoriteLocations, location)
      ensures !Contains(old(favoriteLocations), location) ==> storage.entries == old(storage.entries)
      ensures Contains(old(favoriteLocations), location) && encode(favoriteLocations).Some? ==>
        storage.entries == AfterSave(old(storage.entries), FavoritesKey, encode(favoriteLocations).value, saveFault)
      ensures Contains(old(favoriteLocations), location) && encode(favoriteLocations).None? ==>
        storage.entries == old(storage.entries)
    {
      var oldList := favoriteLocations;
      if Contains(oldList, location) {
        var newList := RemoveById(oldList, location.id);
        RemovePresent(oldList, location);
        favoriteLocations := newList;
        SaveFavoriteLocations(newList, saveFault);
      }
    }
  }
}
