/**
 * The key/value store behind the `StorageService` interface of the Kotlin client
 * (services/StorageService.kt).  Every entry is a string, normally JSON.  Whether a
 * call fails is decided by the environment, so each operation receives the fault it
 * suffers (None when it succeeds).
 */
module KeyValueStorage {
  import opened Common

  /** The outcome `load` hands to its completion handler: `(json, error)`. */
  datatype LoadOutcome = LoadOutcome(json: Option<string>, error: Option<Exception>)

  /** The entries after a `save` of `json` under `key` that suffered `fault`. */
  function AfterSave(entries: map<string, string>, key: string, json: string, fault: Option<Exception>): (r: map<string, string>)
    ensures fault.None? ==> key in r && r[key] == json
    ensures forall k :: k in entries && k != key ==> k in r && r[k] == entries[k]
    ensures fault.Some? ==> r == entries
    ensures r.Keys == entries.Keys + (if fault.None? then {key} else {})
  {
    if fault.None? then entries[key := json] else entries
  }

  class StorageService {
    var entries: map<string, string>

    constructor (initial: map<string, string>)
      ensures entries == initial
    {
      entries := initial;
    }

    /**
     * `load(key, onComplete)`: a healthy store reports the entry under `key`, or no
     * data at all when there is none; a failing one reports only its error.
     */
    method Load(key: string, fault: Option<Exception>) returns (outcome: LoadOutcome)
      ensures fault.None? ==> outcome.error.None? && outcome.json == (if key in entries then Some(entries[key]) else None)
      ensures fault.Some? ==> outcome == LoadOutcome(None, fault)
    {
      if fault.Some? {
        outcome := LoadOutcome(None, fault);
      } else if key in entries {
        outcome := LoadOutcome(Some(entries[key]), None);
      } else {
        outcome := LoadOutcome(None, None);
      }
    }

    /** `save(key, json, onComplete)`: stores `json` under `key` unless the call fails. */
    method Save(key: string, json: string, fault: Option<Exception>) returns (error: Option<Exception>)
      modifies this
      ensures error == fault
      ensures entries == AfterSave(old(entries), key, json, fault)
    {
      if fault.None? {
        entries := entries[key := json];
      }
      error := fault;
    }
  }
}
