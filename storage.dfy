/**
 * The current-deployment preference store: one string under one key, kept in
 * a durable key-value backend when that backend could be constructed, and in
 * an in-memory dictionary otherwise or whenever a durable call throws.
 *
 * The backend's contents are modelled as a map; whether a given durable call
 * throws is a parameter of the call (`readThrows`, `writeThrows`), and whether
 * construction threw is a parameter of the constructor.
 */
module Storage {
  import opened JsValues

  /** The only key the store ever reads or writes. */
  const CurrentDeploymentKeyName := "current_deployment_key"
  /** What a read yields when no non-empty value is stored. */
  const DefaultDeploymentKey := "production"

  /** The value under the store's key in `m`, `undefined` when absent. */
  function Lookup(m: map<string, string>): Option<string> {
    if CurrentDeploymentKeyName in m then Some(m[CurrentDeploymentKeyName]) else None
  }

  /**
   * `getCurrentDeploymentKey()` on durable backend `storage` (`None` for a null
   * backend) and in-memory dictionary `memory`. A throwing durable read is
   * caught and answered from memory.
   */
  function ReadKey(storage: Option<map<string, string>>, memory: map<string, string>, readThrows: bool): (key: string)
    ensures key != ""
    ensures storage.Some? && !readThrows ==> key == Or(Lookup(storage.value), DefaultDeploymentKey)
    ensures storage.None? || readThrows ==> key == Or(Lookup(memory), DefaultDeploymentKey)
  {
    if storage.Some? then
      if !readThrows then Or(Lookup(storage.value), DefaultDeploymentKey)
      else Or(Lookup(memory), DefaultDeploymentKey)
    else
      Or(Lookup(memory), DefaultDeploymentKey)
  }

  /**
   * `setCurrentDeploymentKey(key)`: the new backend and the new dictionary. A
   * durable write that throws is caught and the key goes to memory instead; the
   * throwing write is taken to leave the backend's contents as they were.
   */
  function WriteKey(storage: Option<map<string, string>>, memory: map<string, string>, key: string, writeThrows: bool)
    : (after: (Option<map<string, string>>, map<string, string>))
    ensures after.0.Some? <==> storage.Some?
    ensures storage.Some? && !writeThrows ==>
              after.0.value == storage.value[CurrentDeploymentKeyName := key] && after.1 == memory
    ensures storage.None? || writeThrows ==>
              after.0 == storage && after.1 == memory[CurrentDeploymentKeyName := key]
    ensures forall k :: k != CurrentDeploymentKeyName ==>
              (k in after.1 <==> k in memory) && (k in memory ==> after.1[k] == memory[k])
    ensures storage.Some? ==> forall k :: k != CurrentDeploymentKeyName ==>
              (k in after.0.value <==> k in storage.value) &&
              (k in storage.value ==> after.0.value[k] == storage.value[k])
  {
    if storage.Some? && !writeThrows then
      (Some(storage.value[CurrentDeploymentKeyName := key]), memory)
    else
      (storage, memory[CurrentDeploymentKeyName := key])
  }

  /** The module state of the storage file: the backend handle and the fallback dictionary. */
  class DeploymentKeyStore {
    var storage: Option<map<string, string>>
    var memoryStorage: map<string, string>

    /**
     * The one-time initialisation: the backend is null iff its construction
     * threw; otherwise it holds what an earlier run persisted.
     */
    constructor (constructionThrows: bool, persisted: map<string, string>)
      ensures storage.None? <==> constructionThrows
      ensures storage.Some? ==> storage.value == persisted
      ensures memoryStorage == map[]
    {
      if constructionThrows {
        storage := None;
      } else {
        storage := Some(persisted);
      }
      memoryStorage := map[];
    }

    method GetCurrentDeploymentKey(readThrows: bool) returns (key: string)
      ensures key == ReadKey(storage, memoryStorage, readThrows)
      ensures key != ""
    {
      if storage.Some? && !readThrows {
        var stored := Lookup(storage.value);
        key := Or(stored, DefaultDeploymentKey);
      } else {
        key := Or(Lookup(memoryStorage), DefaultDeploymentKey);
      }
    }

    method SetCurrentDeploymentKey(key: string, writeThrows: bool)
      modifies this
      ensures (storage, memoryStorage) == WriteKey(old(storage), old(memoryStorage), key, writeThrows)
    {
      if storage.Some? && !writeThrows {
        storage := Some(storage.value[CurrentDeploymentKeyName := key]);
      } else {
        memoryStorage := memoryStorage[CurrentDeploymentKeyName := key];
      }
    }
  }

  /** With nothing ever stored, a read yields "production", whether or not the backend exists. */
  lemma UntouchedStoreReadsDefault(storage: Option<map<string, string>>, readThrows: bool)
    requires storage.Some? ==> CurrentDeploymentKeyName !in storage.value
    ensures ReadKey(storage, map[], readThrows) == DefaultDeploymentKey
  {
  }

  /** A stored empty string reads back as "production". */
  lemma EmptyStoredValueReadsDefault(storage: Option<map<string, string>>, memory: map<string, string>, readThrows: bool)
    requires storage.Some? && !readThrows ==> Lookup(storage.value) == Some("")
    requires storage.None? || readThrows ==> Lookup(memory) == Some("")
    ensures ReadKey(storage, memory, readThrows) == DefaultDeploymentKey
  {
  }

  /** Without a backend, a set followed by a get returns the key that was set. */
  lemma NoBackendSetThenGet(memory: map<string, string>, key: string, writeThrows: bool, readThrows: bool)
    requires key != ""
    ensures var after := WriteKey(None, memory, key, writeThrows);
            ReadKey(after.0, after.1, readThrows) == key
  {
  }

  /** With a working backend, a set writes only the durable entry and a successful get returns it. */
  lemma DurableSetThenGet(durable: map<string, string>, memory: map<string, string>, key: string)
    requires key != ""
    ensures var after := WriteKey(Some(durable), memory, key, false);
            after.1 == memory && ReadKey(after.0, after.1, false) == key
  {
  }

  /**
   * A throwing durable write still lands in memory: a later read that throws
   * returns the key, while a later successful durable read still returns what
   * the backend held before.
   */
  lemma FailedDurableWriteGoesToMemory(durable: map<string, string>, memory: map<string, string>, key: string)
    requires key != ""
    ensures var after := WriteKey(Some(durable), memory, key, true);
            && Lookup(after.1) == Some(key)
            && ReadKey(after.0, after.1, true) == key
            && ReadKey(after.0, after.1, false) == ReadKey(Some(durable), memory, false)
  {
  }

  /** A throwing durable read does not fail outward: it answers from memory. */
  lemma FailedReadAnswersFromMemory(durable: map<string, string>, memory: map<string, string>)
    ensures ReadKey(Some(durable), memory, true) == Or(Lookup(memory), DefaultDeploymentKey)
  {
  }

  /** A read depends on no entry but the store's own key. */
  lemma ReadSeesOnlyItsKey(s1: Option<map<string, string>>, m1: map<string, string>,
                           s2: Option<map<string, string>>, m2: map<string, string>, readThrows: bool)
    requires s1.Some? <==> s2.Some?
    requires s1.Some? ==> Lookup(s1.value) == Lookup(s2.value)
    requires Lookup(m1) == Lookup(m2)
    ensures ReadKey(s1, m1, readThrows) == ReadKey(s2, m2, readThrows)
  {
  }

  /**
   * A store whose backend could not be constructed reads "production" before
   * anything is set, and "staging" after `set("staging")`.
   */
  method FallbackStoreScenario(readThrows: bool, writeThrows: bool) returns (before: string, after: string)
    ensures before == DefaultDeploymentKey && after == "staging"
  {
    var store := new DeploymentKeyStore(true, map[]);
    before := store.GetCurrentDeploymentKey(readThrows);
    store.SetCurrentDeploymentKey("staging", writeThrows);
    after := store.GetCurrentDeploymentKey(readThrows);
  }
}
