/** The reminder de-duplication store of app/reminder_state.py: a map from
    event id to the event's version token and the reminder kinds already sent
    under that version. The JSON file is modelled as a snapshot of the map,
    taken at every persist. */
module ReminderState {
  import opened Common

  /** One event's entry: `{"last_updated": ..., "sent": [...]}`. */
  datatype Record = Record(lastUpdated: string, sent: seq<string>)

  type StateMap = map<string, Record>

  // ---------------------------------------------------------------------
  // Specification of the store's operations on the map.

  /** `has_sent`: the kind was recorded for this event under this version. */
  predicate HasSentIn(state: StateMap, eventId: string, kind: string, version: string)
  {
    eventId in state && state[eventId].lastUpdated == version && kind in state[eventId].sent
  }

  /** `mark_sent`: create the entry (or reset it when the version changed),
      then add the kind once and sort the list. */
  function MarkSentIn(state: StateMap, eventId: string, kind: string, version: string): (r: StateMap)
    ensures eventId in r && r == state[eventId := r[eventId]]
    ensures r[eventId].lastUpdated == version
    ensures kind in r[eventId].sent
    ensures eventId !in state || state[eventId].lastUpdated != version ==> r[eventId].sent == [kind]
  {
    var existing := if eventId in state then state[eventId] else Record(version, []);
    var current := if existing.lastUpdated != version then Record(version, []) else existing;
    SortAppendMembers(current.sent, kind);
    assert [kind][..0] == [] && Sort([kind]) == [kind];
    var added :=
      if kind in current.sent then current
      else Record(current.lastUpdated, Sort(current.sent + [kind]));
    state[eventId := added]
  }

  /** Every entry's list of kinds is sorted and holds no kind twice. */
  predicate WellFormed(state: StateMap)
  {
    forall id :: id in state ==> Sorted(state[id].sent) && NoDuplicates(state[id].sent)
  }

  // ---------------------------------------------------------------------
  // Properties of the specification.

  /** After `mark_sent(e, k, v)` the store answers `has_sent` exactly as
      before, except that (e, k, v) is now recorded and, when v is a new
      version for e, everything e had under its old version is forgotten.
      Other events are untouched. */
  lemma MarkSentThenHasSent(state: StateMap, eventId: string, kind: string, version: string,
                            id: string, k: string, v: string)
    ensures HasSentIn(MarkSentIn(state, eventId, kind, version), id, k, v) <==>
              if id == eventId then v == version && (k == kind || HasSentIn(state, eventId, k, version))
              else HasSentIn(state, id, k, v)
  {
    if id == eventId && eventId in state && state[eventId].lastUpdated == version && kind !in state[eventId].sent {
      SortAppendMembers(state[eventId].sent, kind);
    }
  }

  /** Repeating `mark_sent` with the same arguments changes nothing. */
  lemma MarkSentIdempotent(state: StateMap, eventId: string, kind: string, version: string)
    ensures MarkSentIn(MarkSentIn(state, eventId, kind, version), eventId, kind, version)
            == MarkSentIn(state, eventId, kind, version)
  {
    var r := MarkSentIn(state, eventId, kind, version);
    var entry := r[eventId];
    assert entry.lastUpdated == version && kind in entry.sent;
    assert MarkSentIn(r, eventId, kind, version) == r[eventId := entry];
  }

  /** `mark_sent` keeps every list sorted and free of repeats. */
  lemma MarkSentKeepsWellFormed(state: StateMap, eventId: string, kind: string, version: string)
    requires WellFormed(state)
    ensures WellFormed(MarkSentIn(state, eventId, kind, version))
  {
    var r := MarkSentIn(state, eventId, kind, version);
    var sent := r[eventId].sent;
    if eventId in state && state[eventId].lastUpdated == version && kind !in state[eventId].sent {
      var s := state[eventId].sent + [kind];
      assert NoDuplicates(s) by {
        forall i, j | 0 <= i < j < |s| ensures s[i] != s[j] {
          if j == |s| - 1 { assert s[i] in state[eventId].sent; }
          else { assert s[i] == state[eventId].sent[i] && s[j] == state[eventId].sent[j]; }
        }
      }
      SortSpec(s);
      SortKeepsNoDuplicates(s);
      assert sent == Sort(s);
    }
    assert Sorted(sent) && NoDuplicates(sent);
    forall id | id in r ensures Sorted(r[id].sent) && NoDuplicates(r[id].sent) {
      if id != eventId { assert r[id] == state[id]; }
    }
  }

  /** Every kind recorded for any event is one of `kinds`. */
  predicate KnownKinds(state: StateMap, kinds: set<string>)
  {
    forall id, k :: id in state && k in state[id].sent ==> k in kinds
  }

  /** Marking a kind from `kinds` keeps every recorded kind within `kinds`. */
  lemma MarkSentKeepsKnownKinds(state: StateMap, eventId: string, kind: string, version: string, kinds: set<string>)
    requires KnownKinds(state, kinds) && kind in kinds
    ensures KnownKinds(MarkSentIn(state, eventId, kind, version), kinds)
  {
    var r := MarkSentIn(state, eventId, kind, version);
    var sent := r[eventId].sent;
    assert forall k :: k in sent ==> k in kinds by {
      if eventId in state && state[eventId].lastUpdated == version {
        var prior := state[eventId].sent;
        assert forall k :: k in prior ==> k in kinds;
        if kind !in prior {
          SortAppendMembers(prior, kind);
          assert sent == Sort(prior + [kind]);
        } else {
          assert sent == prior;
        }
      } else {
        assert sent == [kind];
      }
    }
    forall id, k | id in r && k in r[id].sent ensures k in kinds {
      if id != eventId { assert r[id] == state[id]; }
    }
  }

  // ---------------------------------------------------------------------
  // The store object.

  class ReminderStateStore {
    /** The in-memory map (`self._state`). */
    var state: StateMap
    /** The content of the state file; `None` when it does not exist. */
    var file: Option<StateMap>
    /** Every snapshot written by `_persist`, oldest first. */
    ghost var writes: seq<StateMap>

    /** The in-memory map is what the file holds; before the first write
        to a store that found no file, the map is empty. */
    ghost predicate Valid()
      reads this
    {
      file == Some(state) || (file == None && state == map[] && writes == [])
    }

    /** `__init__` followed by `_load`: read the file if it exists, else start
        with an empty map. */
    constructor (stored: Option<StateMap>)
      ensures Valid()
      ensures file == stored && writes == []
      ensures state == if stored.Some? then stored.value else map[]
    {
      file := stored;
      writes := [];
      if stored.None? {
        state := map[];
      } else {
        state := stored.value;
      }
    }

    /** `_persist`: overwrite the file with a snapshot of the map. */
    method Persist()
      modifies this
      ensures state == old(state)
      ensures file == Some(state)
      ensures writes == old(writes) + [state]
    {
      file := Some(state);
      writes := writes + [state];
    }

    method HasSent(eventId: string, kind: string, version: string) returns (sent: bool)
      ensures eventId !in state ==> !sent
      ensures eventId in state && state[eventId].lastUpdated != version ==> !sent
      ensures sent <==> HasSentIn(state, eventId, kind, version)
    {
      if eventId !in state {
        return false;
      }
      var entry := state[eventId];
      if entry.lastUpdated != version {
        return false;
      }
      return kind in entry.sent;
    }

    method MarkSent(eventId: string, kind: string, version: string)
      requires Valid()
      modifies this
      ensures Valid()
      ensures state == MarkSentIn(old(state), eventId, kind, version)
      ensures writes == old(writes) + [state]
    {
      ghost var marked := MarkSentIn(state, eventId, kind, version);
      // `setdefault`: the entry, or a fresh one for this version.
      var entry := if eventId in state then state[eventId] else Record(version, []);
      if entry.lastUpdated != version {
        entry := Record(version, []);
      }
      ghost var current := entry;
      if kind !in entry.sent {
        entry := entry.(sent := Sort(entry.sent + [kind]));
      }
      assert entry == marked[eventId] by {
        assert current == if eventId in state && state[eventId].lastUpdated == version then state[eventId] else Record(version, []);
        assert entry == if kind in current.sent then current else Record(version, Sort(current.sent + [kind]));
      }
      state := state[eventId := entry];
      Persist();
    }

    method ClearEvent(eventId: string)
      requires Valid()
      modifies this
      ensures Valid()
      ensures state == old(state) - {eventId}
      ensures eventId in old(state) ==> writes == old(writes) + [state]
      ensures eventId !in old(state) ==> writes == old(writes) && file == old(file)
    {
      if eventId in state {
        state := state - {eventId};
        Persist();
      }
    }
  }
}
