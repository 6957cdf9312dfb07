/**
 * Layered session persistence: a session's state, the in-memory layer with
 * least-recently-accessed eviction, and the manager that writes to the
 * fastest layer on every save, copies to the slower layers at most once a
 * minute per session, and reads from the first layer that has the session.
 *
 * The file and Redis layers are storage and network clients; the manager
 * sees every layer as the map from session id to state it holds.
 */
module StatePersistence {
  import opened Wrappers
  import opened Exceptions
  import opened Sequences

  /** `SessionState`; timestamps are seconds on one clock, JSON sub-documents are string maps. */
  datatype SessionState = SessionState(
    sessionId: string,
    userId: string,
    chatId: string,
    conversationHistory: seq<map<string, string>>,
    pendingInvoice: Option<map<string, string>>,
    extractedData: Option<map<string, string>>,
    currentStep: string,
    context: map<string, string>,
    metadata: map<string, string>,
    createdAt: real,
    updatedAt: real,
    version: int)

  const InitialStep: string := "start"
  const InitialVersion: int := 1

  /** The state the dataclass constructor builds from the three ids at time `now`. */
  function NewSession(sessionId: string, userId: string, chatId: string, now: real): (s: SessionState)
    ensures s.sessionId == sessionId && s.userId == userId && s.chatId == chatId
    ensures s.version == InitialVersion && s.currentStep == InitialStep && s.conversationHistory == []
    ensures s.createdAt == now && s.updatedAt == now
  {
    SessionState(sessionId, userId, chatId, [], None, None, InitialStep, map[], map[], now, now, InitialVersion)
  }

  /** `update_timestamp`: a new modification time and the next version. */
  function UpdateTimestamp(s: SessionState, now: real): (r: SessionState)
    ensures r.version == s.version + 1 && r.updatedAt == now
    ensures r.(version := s.version, updatedAt := s.updatedAt) == s
  {
    s.(updatedAt := now, version := s.version + 1)
  }

  // ----- to_dict / from_dict -----

  /** The JSON values of a session's dictionary. */
  datatype Json =
    | JStr(s: string)
    | JInt(i: int)
    | JNull
    | JTime(t: real)
    | JList(items: seq<map<string, string>>)
    | JDict(d: map<string, string>)

  function ToDict(s: SessionState): map<string, Json>
  {
    map[
      "session_id" := JStr(s.sessionId),
      "user_id" := JStr(s.userId),
      "chat_id" := JStr(s.chatId),
      "conversation_history" := JList(s.conversationHistory),
      "pending_invoice" := (if s.pendingInvoice.Some? then JDict(s.pendingInvoice.value) else JNull),
      "extracted_data" := (if s.extractedData.Some? then JDict(s.extractedData.value) else JNull),
      "current_step" := JStr(s.currentStep),
      "context" := JDict(s.context),
      "metadata" := JDict(s.metadata),
      "created_at" := JTime(s.createdAt),
      "updated_at" := JTime(s.updatedAt),
      "version" := JInt(s.version)]
  }

  function StrOr(d: map<string, Json>, key: string, default: string): Result<string, string>
  {
    if key !in d then Ok(default)
    else match d[key]
      case JStr(s) => Ok(s)
      case _ => Err("TypeError")
  }

  function DictOr(d: map<string, Json>, key: string): Result<map<string, string>, string>
  {
    if key !in d then Ok(map[])
    else match d[key]
      case JDict(m) => Ok(m)
      case _ => Err("TypeError")
  }

  /** `data.get(key)` for an optional sub-document. */
  function OptionalDict(d: map<string, Json>, key: string): Result<Option<map<string, string>>, string>
  {
    if key !in d then Ok(None)
    else match d[key]
      case JNull => Ok(None)
      case JDict(m) => Ok(Some(m))
      case _ => Err("TypeError")
  }

  function HistoryOr(d: map<string, Json>): Result<seq<map<string, string>>, string>
  {
    if "conversation_history" !in d then Ok([])
    else match d["conversation_history"]
      case JList(items) => Ok(items)
      case _ => Err("TypeError")
  }

  function IntOr(d: map<string, Json>, key: string, default: int): Result<int, string>
  {
    if key !in d then Ok(default)
    else match d[key]
      case JInt(i) => Ok(i)
      case _ => Err("TypeError")
  }

  /** A timestamp read only when its key is present, else the constructor's `now`. */
  function TimeOr(d: map<string, Json>, key: string, now: real): Result<real, string>
  {
    if key !in d then Ok(now)
    else match d[key]
      case JTime(t) => Ok(t)
      case _ => Err("TypeError")
  }

  /** The three ids `from_dict` indexes directly, as strings. */
  predicate HasIds(d: map<string, Json>)
  {
    "session_id" in d && d["session_id"].JStr?
    && "user_id" in d && d["user_id"].JStr?
    && "chat_id" in d && d["chat_id"].JStr?
  }

  /**
   * `from_dict` at time `now`: the three ids are required (else `KeyError`);
   * every other field falls back to the constructor's default.
   */
  function FromDict(d: map<string, Json>, now: real): (r: Result<SessionState, string>)
    ensures r.Ok? ==> HasIds(d) && r.value.sessionId == d["session_id"].s
    ensures !("session_id" in d && "user_id" in d && "chat_id" in d) ==> r == Err("KeyError")
    ensures HasIds(d) && d.Keys == {"session_id", "user_id", "chat_id"} ==>
              r == Ok(NewSession(d["session_id"].s, d["user_id"].s, d["chat_id"].s, now))
  {
    if !("session_id" in d && "user_id" in d && "chat_id" in d) then Err("KeyError")
    else if !HasIds(d) then Err("TypeError")
    else
      var history := HistoryOr(d);
      var pending := OptionalDict(d, "pending_invoice");
      var extracted := OptionalDict(d, "extracted_data");
      var step := StrOr(d, "current_step", InitialStep);
      var context := DictOr(d, "context");
      var metadata := DictOr(d, "metadata");
      var version := IntOr(d, "version", InitialVersion);
      var created := TimeOr(d, "created_at", now);
      var updated := TimeOr(d, "updated_at", now);
      if history.Err? || pending.Err? || extracted.Err? || step.Err? || context.Err? || metadata.Err?
         || version.Err? || created.Err? || updated.Err?
      then Err("TypeError")
      else Ok(SessionState(d["session_id"].s, d["user_id"].s, d["chat_id"].s, history.value, pending.value,
                           extracted.value, step.value, context.value, metadata.value, created.value,
                           updated.value, version.value))
  }

  lemma ToDictFields(s: SessionState, now: real)
    ensures var d := ToDict(s);
            HasIds(d) && d["session_id"].s == s.sessionId && d["user_id"].s == s.userId && d["chat_id"].s == s.chatId
            && HistoryOr(d) == Ok(s.conversationHistory)
            && OptionalDict(d, "pending_invoice") == Ok(s.pendingInvoice)
            && OptionalDict(d, "extracted_data") == Ok(s.extractedData)
            && StrOr(d, "current_step", InitialStep) == Ok(s.currentStep)
            && DictOr(d, "context") == Ok(s.context) && DictOr(d, "metadata") == Ok(s.metadata)
            && IntOr(d, "version", InitialVersion) == Ok(s.version)
            && TimeOr(d, "created_at", now) == Ok(s.createdAt) && TimeOr(d, "updated_at", now) == Ok(s.updatedAt)
  {
  }

  /** A saved session reads back with every field intact, whatever the clock says. */
  lemma RoundTrip(s: SessionState, now: real)
    ensures FromDict(ToDict(s), now) == Ok(s)
  {
    ToDictFields(s, now);
  }

  // ----- the memory layer -----

  /** The position of the first key in `order` with the earliest access time. */
  function OldestAt(order: seq<string>, times: map<string, real>): (i: nat)
    requires |order| > 0 && forall x :: x in order ==> x in times
    ensures i < |order|
    ensures forall j :: 0 <= j < |order| ==> times[order[i]] <= times[order[j]]
    ensures forall j :: 0 <= j < i ==> times[order[j]] > times[order[i]]
  {
    if |order| == 1 then 0
    else
      var i := OldestAt(order[1..], times) + 1;
      assert order[i] == order[1..][i - 1];
      if times[order[0]] <= times[order[i]] then 0 else i
  }

  /** `min(access_times, key=access_times.get)`: the first key in `order` with the earliest access time. */
  function Oldest(order: seq<string>, times: map<string, real>): (k: string)
    requires |order| > 0 && forall x :: x in order ==> x in times
    ensures k in order
    ensures forall x :: x in order ==> times[k] <= times[x]
    ensures exists i :: 0 <= i < |order| && order[i] == k && forall j :: 0 <= j < i ==> times[order[j]] > times[k]
  {
    var i := OldestAt(order, times);
    assert forall x :: x in order ==> exists j :: 0 <= j < |order| && order[j] == x;
    order[i]
  }

  /** `MemoryPersistenceLayer`: states by key, with their last access times. */
  class MemoryLayer {
    var storage: map<string, SessionState>
    var accessTimes: map<string, real>
    /** The keys in the dictionaries' insertion order. */
    var order: seq<string>
    const maxSize: int

    /** Both dictionaries have the keys `order` lists once each, and never more than `max_size` of them. */
    ghost predicate Valid()
      reads this
    {
      storage.Keys == accessTimes.Keys
      && NoDup(order) && (forall k :: k in order <==> k in storage)
      && |order| <= (if maxSize > 0 then maxSize else 0)
    }

    constructor (maxSize: int)
      ensures Valid() && this.maxSize == maxSize && storage == map[] && order == []
    {
      this.maxSize := maxSize;
      storage, accessTimes, order := map[], map[], [];
    }

    /**
     * `save` at time `now`: a new key arriving at capacity first evicts the
     * least recently accessed key. With no positive capacity the `min` of
     * an empty dictionary raises `ValueError` and nothing is stored.
     */
    method Save(key: string, state: SessionState, now: real) returns (r: Result<bool, Exc>)
      requires Valid()
      modifies this
      ensures Valid()
      ensures r.Err? <==> key !in old(storage) && maxSize <= 0
      ensures r.Err? ==> storage == old(storage) && accessTimes == old(accessTimes) && order == old(order)
      ensures r.Ok? ==> r.value && key in accessTimes && accessTimes[key] == now
      ensures r.Ok? && (key in old(storage) || |old(order)| < maxSize) ==>
                storage == old(storage)[key := state] && accessTimes == old(accessTimes)[key := now]
      ensures r.Ok? && key !in old(storage) && |old(order)| >= maxSize ==>
                var victim := Oldest(old(order), old(accessTimes));
                storage == (old(storage) - {victim})[key := state]
                && accessTimes == (old(accessTimes) - {victim})[key := now]
      ensures r.Ok? && key in old(storage) ==> order == old(order)
      ensures r.Ok? && key !in old(storage) ==>
                order == (if |old(order)| >= maxSize then RemoveValue(old(order), Oldest(old(order), old(accessTimes)))
                          else old(order)) + [key]
    {
      // `len(self._storage)` is the length of the key order
      if |order| >= maxSize && key !in storage {
        if order == [] {
          return Err(Raise("ValueError", "min() arg is an empty sequence"));
        }
        EvictOldest();
      }
      storage := storage[key := state];
      accessTimes := accessTimes[key := now];
      if key !in order {
        order := order + [key];
      }
      r := Ok(true);
    }

    /** The eviction step of `save`: drop the least recently accessed key. */
    method EvictOldest()
      requires Valid() && order != []
      modifies this
      ensures var victim := Oldest(old(order), old(accessTimes));
              storage == old(storage) - {victim} && accessTimes == old(accessTimes) - {victim}
              && order == RemoveValue(old(order), victim)
      ensures NoDup(order) && |order| == |old(order)| - 1 && storage.Keys == accessTimes.Keys
      ensures forall k :: k in order <==> k in storage
    {
      var victim := Oldest(order, accessTimes);
      storage := storage - {victim};
      accessTimes := accessTimes - {victim};
      order := RemoveValue(order, victim);
    }

    /** `load` at time `now`: a hit refreshes the key's access time. */
    method Load(key: string, now: real) returns (r: Option<SessionState>)
      requires Valid()
      modifies this
      ensures Valid()
      ensures r.Some? <==> key in storage
      ensures r.Some? ==> r.value == storage[key] && accessTimes == old(accessTimes)[key := now]
      ensures r.None? ==> accessTimes == old(accessTimes)
      ensures storage == old(storage) && order == old(order)
    {
      if key in storage {
        accessTimes := accessTimes[key := now];
        return Some(storage[key]);
      }
      return None;
    }

    method Delete(key: string) returns (found: bool)
      requires Valid()
      modifies this
      ensures Valid()
      ensures found <==> key in old(storage)
      ensures storage == old(storage) - {key} && accessTimes == old(accessTimes) - {key}
      ensures order == RemoveValue(old(order), key)
    {
      if key in storage {
        storage := storage - {key};
        accessTimes := accessTimes - {key};
        order := RemoveValue(order, key);
        return true;
      }
      return false;
    }

    /** `get_all_keys`: every stored key once, in insertion order. */
    function AllKeys(): (keys: seq<string>)
      requires Valid()
      reads this
      ensures NoDup(keys) && forall k :: k in keys <==> k in storage
    {
      order
    }
  }

  // ----- the manager -----

  /** Whether the layer with index `i` takes part in a save: the primary write layer always, the others on a sync. */
  predicate WrittenBy(i: nat, writeLayers: seq<nat>, upTo: nat, sync: bool, fails: nat -> bool)
  {
    exists j :: 0 <= j < upTo && j < |writeLayers| && writeLayers[j] == i && !fails(i) && (j == 0 || sync)
  }

  /** The first `upTo` write layers that did not fail hold `saved` under `key`; every other layer is as in `start`. */
  ghost predicate SavedUpTo(layers: seq<map<string, SessionState>>, start: seq<map<string, SessionState>>,
                            writeLayers: seq<nat>, upTo: nat, fails: nat -> bool, key: string, saved: SessionState)
  {
    |layers| == |start|
    && forall i :: 0 <= i < |layers| ==>
         layers[i] == if WrittenBy(i, writeLayers, upTo, true, fails) then start[i][key := saved] else start[i]
  }

  /** The first `upTo` write layers that did not fail no longer hold `key`; every other layer is as in `start`. */
  ghost predicate DeletedUpTo(layers: seq<map<string, SessionState>>, start: seq<map<string, SessionState>>,
                              writeLayers: seq<nat>, upTo: nat, fails: nat -> bool, key: string)
  {
    |layers| == |start|
    && forall i :: 0 <= i < |layers| ==>
         layers[i] == if WrittenBy(i, writeLayers, upTo, true, fails) then start[i] - {key} else start[i]
  }

  lemma WrittenBySnoc(i: nat, writeLayers: seq<nat>, j: nat, fails: nat -> bool)
    requires j < |writeLayers|
    ensures WrittenBy(i, writeLayers, j + 1, true, fails)
            <==> WrittenBy(i, writeLayers, j, true, fails) || (i == writeLayers[j] && !fails(i))
  {
    if WrittenBy(i, writeLayers, j + 1, true, fails) && !(i == writeLayers[j] && !fails(i)) {
      var m :| 0 <= m < j + 1 && m < |writeLayers| && writeLayers[m] == i && !fails(i) && (m == 0 || true);
      assert m != j;
    }
    if i == writeLayers[j] && !fails(i) {
      assert 0 <= j < j + 1 && writeLayers[j] == i;
    }
  }

  /** One step of the sync loop: writing to the next write layer, unless it fails. */
  lemma SavedStep(layers: seq<map<string, SessionState>>, start: seq<map<string, SessionState>>,
                  writeLayers: seq<nat>, j: nat, fails: nat -> bool, key: string, saved: SessionState)
    requires SavedUpTo(layers, start, writeLayers, j, fails, key, saved)
    requires j < |writeLayers| && writeLayers[j] < |layers|
    ensures var w := writeLayers[j];
            SavedUpTo(if fails(w) then layers else layers[w := layers[w][key := saved]],
                      start, writeLayers, j + 1, fails, key, saved)
  {
    forall i | 0 <= i < |layers| {
      WrittenBySnoc(i, writeLayers, j, fails);
    }
  }

  /** One step of the delete loop: removing from the next write layer, unless it fails. */
  /**
   * How one layer's `delete` ends: the key is gone; the layer caught its own
   * error, returned False and kept the key (the file and Redis layers); or
   * it raised, keeping the key.
   */
  datatype DeleteOutcome = Removed | Kept | Raised

  /** The layers a delete leaves holding the key. */
  function NotRemoved(outcome: nat -> DeleteOutcome): (f: nat -> bool)
    ensures forall i :: f(i) <==> outcome(i) != Removed
  {
    (i: nat) => outcome(i) != Removed
  }

  /**
   * After `delete_state` exactly the write layers whose delete removed the
   * key have lost it; a layer that kept it or raised, and every layer that
   * is not a write layer, is unchanged.
   */
  lemma DeletedLayers(layers: seq<map<string, SessionState>>, start: seq<map<string, SessionState>>,
                      writeLayers: seq<nat>, outcome: nat -> DeleteOutcome, key: string)
    requires DeletedUpTo(layers, start, writeLayers, |writeLayers|, NotRemoved(outcome), key)
    ensures forall i: nat :: i < |layers| ==>
      layers[i] == if i in writeLayers && outcome(i) == Removed then start[i] - {key} else start[i]
  {
    forall i: nat | i < |layers| && i in writeLayers && outcome(i) == Removed
      ensures WrittenBy(i, writeLayers, |writeLayers|, true, NotRemoved(outcome))
    {
      var j :| 0 <= j < |writeLayers| && writeLayers[j] == i;
    }
  }

  lemma DeletedStep(layers: seq<map<string, SessionState>>, start: seq<map<string, SessionState>>,
                    writeLayers: seq<nat>, j: nat, fails: nat -> bool, key: string)
    requires DeletedUpTo(layers, start, writeLayers, j, fails, key)
    requires j < |writeLayers| && writeLayers[j] < |layers|
    ensures var w := writeLayers[j];
            DeletedUpTo(if fails(w) then layers else layers[w := layers[w] - {key}], start, writeLayers, j + 1, fails, key)
  {
    forall i | 0 <= i < |layers| {
      WrittenBySnoc(i, writeLayers, j, fails);
    }
  }

  /** Without a sync, and before the sync loop, a save writes to the primary layer alone. */
  lemma PrimaryOnly(writeLayers: seq<nat>, fails: nat -> bool)
    ensures forall i: nat, sync :: WrittenBy(i, writeLayers, |writeLayers|, false, fails) <==> WrittenBy(i, writeLayers, 1, sync, fails)
    ensures forall i: nat :: WrittenBy(i, writeLayers, 1, true, fails) <==> |writeLayers| > 0 && writeLayers[0] == i && !fails(i)
  {
  }

  /** `MultiLayerStateManager`, each layer seen as the states it holds. */
  class StateManager {
    /** What each layer holds, in the order the layers were added. */
    var layers: seq<map<string, SessionState>>
    /** The indices of the write layers, in the order they were added. */
    var writeLayers: seq<nat>
    var lastSync: map<string, real>
    const syncInterval: real

    ghost predicate Valid()
      reads this
    {
      syncInterval == 60.0
      && (forall j :: 0 <= j < |writeLayers| ==> writeLayers[j] < |layers|)
      && (forall j, k :: 0 <= j < k < |writeLayers| ==> writeLayers[j] < writeLayers[k])
    }

    constructor ()
      ensures Valid() && layers == [] && writeLayers == [] && lastSync == map[]
    {
      layers, writeLayers, lastSync := [], [], map[];
      syncInterval := 60.0;
    }

    /** `add_layer`: append a layer holding `contents`, and list it as a write layer when `write`. */
    method AddLayer(contents: map<string, SessionState>, write: bool)
      requires Valid()
      modifies this
      ensures Valid() && layers == old(layers) + [contents] && lastSync == old(lastSync)
      ensures writeLayers == if write then old(writeLayers) + [|old(layers)|] else old(writeLayers)
    {
      if write {
        writeLayers := writeLayers + [|layers|];
      }
      layers := layers + [contents];
    }

    /** `_should_sync` at time `now`. */
    predicate ShouldSync(key: string, now: real)
      reads this
    {
      key !in lastSync || now - lastSync[key] >= syncInterval
    }

    /**
     * `save_state` at time `now`. The state gets the next version before it
     * is written; `fails(i)` says that layer `i` raised or stored nothing.
     * The result is the primary layer's; the other write layers are written
     * only on a sync, and their failures are swallowed.
     */
    method SaveState(state: SessionState, syncAll: bool, now: real, fails: nat -> bool)
      returns (success: bool, saved: SessionState)
      requires Valid()
      modifies this
      ensures Valid() && writeLayers == old(writeLayers) && |layers| == |old(layers)|
      ensures saved == UpdateTimestamp(state, now)
      ensures success <==> |writeLayers| > 0 && !fails(writeLayers[0])
      ensures var sync := syncAll || old(ShouldSync(state.sessionId, now));
              SavedUpTo(layers, old(layers), writeLayers, if sync then |writeLayers| else 1, fails, state.sessionId, saved)
              && lastSync == if sync then old(lastSync)[state.sessionId := now] else old(lastSync)
    {
      var key := state.sessionId;
      ghost var start := layers;
      saved := UpdateTimestamp(state, now);
      success := false;
      if |writeLayers| > 0 && !fails(writeLayers[0]) {
        layers := layers[writeLayers[0] := layers[writeLayers[0]][key := saved]];
        success := true;
      }
      PrimaryOnly(writeLayers, fails);
      assert SavedUpTo(layers, start, writeLayers, 1, fails, key, saved);
      var sync := syncAll || ShouldSync(key, now);
      if sync {
        SyncLayers(key, saved, fails, start);
        lastSync := lastSync[key := now];
      }
    }

    /** The sync loop of `save_state`: every write layer after the primary, failures skipped. */
    method SyncLayers(key: string, saved: SessionState, fails: nat -> bool, ghost start: seq<map<string, SessionState>>)
      requires Valid() && SavedUpTo(layers, start, writeLayers, 1, fails, key, saved)
      modifies this
      ensures Valid() && writeLayers == old(writeLayers) && lastSync == old(lastSync)
      ensures SavedUpTo(layers, start, writeLayers, |writeLayers|, fails, key, saved)
    {
      if |writeLayers| == 0 {
        return;
      }
      var j := 1;
      while j < |writeLayers|
        invariant 1 <= j <= |writeLayers|
        invariant Valid() && writeLayers == old(writeLayers) && lastSync == old(lastSync)
        invariant SavedUpTo(layers, start, writeLayers, j, fails, key, saved)
      {
        var w := writeLayers[j];
        SavedStep(layers, start, writeLayers, j, fails, key, saved);
        if !fails(w) {
          layers := layers[w := layers[w][key := saved]];
        }
        j := j + 1;
      }
    }

    /**
     * `load_state`: the state held by the first layer, in layer order, that
     * has the session and does not raise (`fails(i)`); `None` if there is none.
     */
    method LoadState(sessionId: string, fails: nat -> bool) returns (r: Option<SessionState>)
      ensures r.None? <==> forall i :: 0 <= i < |layers| ==> fails(i) || sessionId !in layers[i]
      ensures r.Some? ==> exists i :: 0 <= i < |layers| && !fails(i) && sessionId in layers[i]
                                      && r.value == layers[i][sessionId]
                                      && forall j :: 0 <= j < i ==> fails(j) || sessionId !in layers[j]
    {
      var i := 0;
      while i < |layers|
        invariant 0 <= i <= |layers|
        invariant forall j :: 0 <= j < i ==> fails(j) || sessionId !in layers[j]
      {
        if !fails(i) && sessionId in layers[i] {
          return Some(layers[i][sessionId]);
        }
        i := i + 1;
      }
      return None;
    }

    /**
     * `delete_state`: ask every write layer to delete the session and forget
     * its sync time; `outcome(i)` says how layer `i`'s `delete` ended. The
     * result is false iff some write layer raised: a layer that swallowed its
     * own error and kept the key still counts as a success.
     */
    method DeleteState(sessionId: string, outcome: nat -> DeleteOutcome) returns (success: bool)
      requires Valid()
      modifies this
      ensures Valid() && writeLayers == old(writeLayers)
      ensures success <==> forall j :: 0 <= j < |writeLayers| ==> outcome(writeLayers[j]) != Raised
      ensures DeletedUpTo(layers, old(layers), writeLayers, |writeLayers|, NotRemoved(outcome), sessionId)
      ensures lastSync == old(lastSync) - {sessionId}
    {
      var fails := NotRemoved(outcome);
      success := true;
      var j := 0;
      while j < |writeLayers|
        invariant 0 <= j <= |writeLayers|
        invariant Valid() && writeLayers == old(writeLayers) && lastSync == old(lastSync)
        invariant success <==> forall m :: 0 <= m < j ==> outcome(writeLayers[m]) != Raised
        invariant DeletedUpTo(layers, old(layers), writeLayers, j, fails, sessionId)
      {
        var w := writeLayers[j];
        DeletedStep(layers, old(layers), writeLayers, j, fails, sessionId);
        if outcome(w) == Raised {
          success := false;
        }
        if outcome(w) == Removed {
          layers := layers[w := layers[w] - {sessionId}];
        }
        j := j + 1;
      }
      lastSync := lastSync - {sessionId};
    }
  }
}
