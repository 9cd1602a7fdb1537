/**
 * The persistent outbox of one conversation: unacknowledged sends and the
 * resume state, written to storage as a queue of whole snapshots.
 */
module Outbox {
  import opened Prefix

  datatype Entry = Entry(clientId: string, body: string, attempts: nat)

  datatype ResumeState = ResumeState(conversationId: string, watermark: int)

  datatype Snapshot = Snapshot(outbox: seq<Entry>, state: Option<ResumeState>)

  datatype Write = Write(key: string, snapshot: Snapshot)

  /** `writing` holds the snapshots that have not reached the storage yet, oldest first. */
  datatype Store = Store(
    key: Option<string>,
    entries: seq<Entry>,
    state: Option<ResumeState>,
    writing: seq<Write>)

  function Ids(es: seq<Entry>): set<string> {
    set e | e in es :: e.clientId
  }

  ghost predicate Distinct(es: seq<Entry>) {
    forall i, j :: 0 <= i < j < |es| ==> es[i].clientId != es[j].clientId
  }

  /** The position of the first entry of `clientId`, or the length. */
  function IndexOf(es: seq<Entry>, clientId: string): (i: nat)
    ensures i <= |es|
    ensures forall j :: 0 <= j < i ==> es[j].clientId != clientId
    ensures i < |es| ==> es[i].clientId == clientId
    ensures i < |es| <==> clientId in Ids(es)
  {
    if es == [] then 0
    else if es[0].clientId == clientId then
      assert es[0] in es;
      0
    else
      var i := IndexOf(es[1..], clientId);
      assert forall e :: e in es <==> e == es[0] || e in es[1..];
      i + 1
  }

  function Current(s: Store): Snapshot {
    Snapshot(s.entries, s.state)
  }

  function Persisted(s: Store): Store {
    if s.key.None? then s else s.(writing := s.writing + [Write(s.key.value, Current(s))])
  }

  function Added(s: Store, e: Entry): Store {
    Persisted(s.(entries := s.entries + [e]))
  }

  function Touched(s: Store, clientId: string): Store {
    var i := IndexOf(s.entries, clientId);
    if i == |s.entries| then s
    else
      var e := s.entries[i];
      Persisted(s.(entries := s.entries[i := e.(attempts := e.attempts + 1)]))
  }

  function Removed(s: Store, clientId: string): Store {
    var i := IndexOf(s.entries, clientId);
    if i == |s.entries| then s else Persisted(s.(entries := Without(s.entries, i)))
  }

  function StateSet(s: Store, state: ResumeState): Store {
    var t := s.(state := Some(state));
    if s.state == Some(state) then t else Persisted(t)
  }

  function Unknown(es: seq<Entry>, known: set<string>): (r: seq<Entry>)
    ensures forall e :: e in r <==> e in es && e.clientId !in known
    ensures Distinct(es) ==> Distinct(r)
  {
    if es == [] then []
    else
      var rest := Unknown(es[1..], known);
      assert forall e :: e in es <==> e == es[0] || e in es[1..];
      assert Distinct(es) ==> Distinct(es[1..]);
      if es[0].clientId in known then rest else [es[0]] + rest
  }

  /** What was stored comes first; an entry already in memory wins over its stored copy. */
  function Loaded(s: Store, raw: Option<Snapshot>): Store {
    if raw.None? then s
    else s.(
      entries := Unknown(raw.value.outbox, Ids(s.entries)) + s.entries,
      state := if raw.value.state.Some? then raw.value.state else s.state)
  }

  // ---------------------------------------------------------------------
  // What the operations do to the set of unacknowledged sends
  // ---------------------------------------------------------------------

  lemma AddedIds(s: Store, e: Entry)
    requires Distinct(s.entries) && e.clientId !in Ids(s.entries)
    ensures Ids(Added(s, e).entries) == Ids(s.entries) + {e.clientId}
    ensures Distinct(Added(s, e).entries)
  {
    var es := s.entries + [e];
    assert es[|s.entries|] == e;
    forall x | x in s.entries
      ensures x in es && x.clientId != e.clientId
    {
      assert x.clientId in Ids(s.entries);
    }
    forall i | 0 <= i < |s.entries|
      ensures es[i].clientId != e.clientId
    {
      assert s.entries[i] in s.entries;
    }
    assert forall x :: x in es ==> x in s.entries || x == e;
  }

  lemma TouchedIds(s: Store, clientId: string)
    ensures Ids(Touched(s, clientId).entries) == Ids(s.entries)
    ensures |Touched(s, clientId).entries| == |s.entries|
    ensures forall i :: 0 <= i < |s.entries| ==>
      && Touched(s, clientId).entries[i].clientId == s.entries[i].clientId
      && Touched(s, clientId).entries[i].body == s.entries[i].body
  {
    var es := Touched(s, clientId).entries;
    SameIds(s.entries, es);
    SameIds(es, s.entries);
  }

  lemma SameIds(a: seq<Entry>, b: seq<Entry>)
    requires |a| == |b| && forall i :: 0 <= i < |a| ==> a[i].clientId == b[i].clientId
    ensures Ids(a) <= Ids(b)
  {
    forall id | id in Ids(a)
      ensures id in Ids(b)
    {
      var i :| 0 <= i < |a| && a[i].clientId == id;
      assert b[i] in b;
    }
  }

  lemma WithoutIds(es: seq<Entry>, i: nat)
    requires i < |es| && Distinct(es)
    ensures Ids(Without(es, i)) == Ids(es) - {es[i].clientId} && Distinct(Without(es, i))
  {
    var rest := Without(es, i);
    assert forall j :: 0 <= j < |rest| ==> rest[j] == es[if j < i then j else j + 1];
    forall id | id in Ids(es) && id != es[i].clientId
      ensures id in Ids(rest)
    {
      var k :| 0 <= k < |es| && es[k].clientId == id;
      assert rest[if k < i then k else k - 1] in rest;
    }
  }

  lemma RemovedIds(s: Store, clientId: string)
    requires Distinct(s.entries)
    ensures Ids(Removed(s, clientId).entries) == Ids(s.entries) - {clientId}
    ensures Distinct(Removed(s, clientId).entries)
  {
    hide Ids;
    var i := IndexOf(s.entries, clientId);
    if i < |s.entries| {
      WithoutIds(s.entries, i);
    }
  }

  lemma LoadedIds(s: Store, raw: Snapshot)
    requires Distinct(s.entries) && Distinct(raw.outbox)
    ensures Ids(Loaded(s, Some(raw)).entries) == Ids(s.entries) + Ids(raw.outbox)
    ensures Distinct(Loaded(s, Some(raw)).entries)
  {
    var unknown := Unknown(raw.outbox, Ids(s.entries));
    var es := unknown + s.entries;
    forall id | id in Ids(s.entries) + Ids(raw.outbox)
      ensures id in Ids(es)
    {
      if id in Ids(s.entries) {
        var e :| e in s.entries && e.clientId == id;
        assert e in es;
      } else {
        var e :| e in raw.outbox && e.clientId == id;
        assert e in unknown && e in es;
      }
    }
    forall i, j | 0 <= i < |unknown| && 0 <= j < |s.entries|
      ensures unknown[i].clientId != s.entries[j].clientId
    {
      assert unknown[i] in unknown && s.entries[j] in s.entries;
    }
  }

  // ---------------------------------------------------------------------
  // The journal: snapshots enqueued between two states of the store
  // ---------------------------------------------------------------------

  /** A resume state that claims no more than `hi`, of the same known conversation. */
  predicate Within(state: Option<ResumeState>, hi: ResumeState) {
    state.Some? ==> state.value.conversationId == hi.conversationId != "" && 0 <= state.value.watermark <= hi.watermark
  }

  /** A snapshot that would lose none of the sends in `es`, holds only sends in `all`, and resumes within `hi`. */
  ghost predicate Covers(x: Snapshot, es: seq<Entry>, hi: ResumeState, all: set<string>) {
    && Ids(es) <= Ids(x.outbox) <= all
    && Distinct(x.outbox)
    && Within(x.state, hi)
  }

  /** From `s` to `t` the journal only grew, by snapshots that cover the sends left in `t`. */
  ghost predicate Journalled(s: Store, t: Store, hi: ResumeState, all: set<string>) {
    && s.writing <= t.writing && t.key == s.key
    && (forall i :: |s.writing| <= i < |t.writing| ==>
      Covers(t.writing[i].snapshot, t.entries, hi, all) && Some(t.writing[i].key) == s.key)
    && Covers(Current(t), t.entries, hi, all)
  }

  /** `s` could be written as it is. */
  ghost predicate Writable(s: Store, hi: ResumeState) {
    Covers(Current(s), s.entries, hi, Ids(s.entries))
  }

  lemma JournalledTwice(s: Store, t: Store, u: Store, hi: ResumeState, all: set<string>)
    requires Journalled(s, t, hi, all) && Journalled(t, u, hi, Ids(t.entries))
    requires Ids(u.entries) <= Ids(t.entries)
    ensures Journalled(s, u, hi, all)
  {
    forall i | |s.writing| <= i < |u.writing|
      ensures Covers(u.writing[i].snapshot, u.entries, hi, all) && Some(u.writing[i].key) == s.key
    {
      if i < |t.writing| {
        assert u.writing[i] == t.writing[i];
      }
    }
  }

  lemma PersistedJournals(s: Store, hi: ResumeState)
    requires Writable(s, hi)
    ensures Journalled(s, Persisted(s), hi, Ids(s.entries))
  {
  }

  lemma AddedJournals(s: Store, e: Entry, hi: ResumeState)
    requires Writable(s, hi) && e.clientId !in Ids(s.entries)
    ensures Journalled(s, Added(s, e), hi, Ids(s.entries) + {e.clientId})
  {
    AddedIds(s, e);
    PersistedJournals(s.(entries := s.entries + [e]), hi);
  }

  lemma TouchedJournals(s: Store, clientId: string, hi: ResumeState)
    requires Writable(s, hi)
    ensures Journalled(s, Touched(s, clientId), hi, Ids(s.entries))
  {
    TouchedIds(s, clientId);
    PersistedJournals(s.(entries := Touched(s, clientId).entries), hi);
  }

  lemma RemovedJournals(s: Store, clientId: string, hi: ResumeState)
    requires Writable(s, hi)
    ensures Journalled(s, Removed(s, clientId), hi, Ids(s.entries))
  {
    RemovedIds(s, clientId);
    PersistedJournals(s.(entries := Removed(s, clientId).entries), hi);
  }

  lemma StateSetJournals(s: Store, state: ResumeState, hi: ResumeState)
    requires Writable(s, hi) && Within(Some(state), hi)
    ensures Journalled(s, StateSet(s, state), hi, Ids(s.entries)) && StateSet(s, state).entries == s.entries
  {
    PersistedJournals(s.(state := Some(state)), hi);
  }

  // ---------------------------------------------------------------------
  // Reaching the storage
  // ---------------------------------------------------------------------

  /** The oldest pending snapshot is written, or is given up when the storage refuses it. */
  function WriteEnds(s: Store, storage: map<string, Snapshot>, ok: bool): (Store, map<string, Snapshot>)
    requires s.writing != []
  {
    var w := s.writing[0];
    (s.(writing := s.writing[1..]), if ok then storage[w.key := w.snapshot] else storage)
  }

  /** What the storage will hold once every pending write has gone through. */
  function Settled(writing: seq<Write>, storage: map<string, Snapshot>): map<string, Snapshot> {
    if writing == [] then storage else Settled(writing[1..], storage[writing[0].key := writing[0].snapshot])
  }

  /** The stored snapshot will be the one in memory. */
  ghost predicate Mirrored(s: Store, storage: map<string, Snapshot>) {
    s.key.Some? ==>
      var m := Settled(s.writing, storage);
      s.key.value in m && m[s.key.value] == Current(s)
  }

  lemma {:induction false} SettledAppend(writing: seq<Write>, storage: map<string, Snapshot>, w: Write)
    ensures Settled(writing + [w], storage) == Settled(writing, storage)[w.key := w.snapshot]
    decreases |writing|
  {
    if writing != [] {
      assert (writing + [w])[1..] == writing[1..] + [w];
      SettledAppend(writing[1..], storage[writing[0].key := writing[0].snapshot], w);
    } else {
      assert [w][1..] == [];
    }
  }

  /** A persist makes the journal end with the state in memory, whatever was pending before. */
  lemma PersistedMirrors(s: Store, storage: map<string, Snapshot>)
    ensures Mirrored(Persisted(s), storage)
  {
    if s.key.Some? {
      SettledAppend(s.writing, storage, Write(s.key.value, Current(s)));
    }
  }

  /**
   * Every operation keeps the journal in step with memory, and so does every
   * completed write; writes end in the order in which they were queued.
   */
  lemma OperationsMirror(s: Store, storage: map<string, Snapshot>, e: Entry, clientId: string, state: ResumeState)
    requires Mirrored(s, storage)
    ensures Mirrored(Added(s, e), storage)
    ensures Mirrored(Touched(s, clientId), storage)
    ensures Mirrored(Removed(s, clientId), storage)
    ensures Mirrored(StateSet(s, state), storage)
    ensures s.writing != [] ==> var (t, after) := WriteEnds(s, storage, true); Mirrored(t, after)
  {
    PersistedMirrors(s.(entries := s.entries + [e]), storage);
    PersistedMirrors(s.(entries := Touched(s, clientId).entries), storage);
    PersistedMirrors(s.(entries := Removed(s, clientId).entries), storage);
    PersistedMirrors(s.(state := Some(state)), storage);
  }

  /** Once the queue is empty, a new session loads exactly what memory held. */
  lemma ReloadRestores(s: Store, storage: map<string, Snapshot>)
    requires Mirrored(s, storage) && s.writing == [] && s.key.Some?
    ensures s.key.value in storage && Loaded(Store(s.key, [], None, []), Some(storage[s.key.value])) == s
  {
    UnknownOfNone(s.entries);
    assert Ids([]) == {};
    assert s.entries + [] == s.entries;
  }

  lemma {:induction false} UnknownOfNone(es: seq<Entry>)
    ensures Unknown(es, {}) == es
    decreases |es|
  {
    if es != [] {
      UnknownOfNone(es[1..]);
      assert es == [es[0]] + es[1..];
    }
  }

  // ---------------------------------------------------------------------
  // The store object
  // ---------------------------------------------------------------------

  class ConversationStore {
    var key: Option<string>
    var entries: seq<Entry>
    var state: Option<ResumeState>
    var writing: seq<Write>

    ghost function Value(): Store
      reads this
    {
      Store(key, entries, state, writing)
    }

    constructor (conversationId: Option<string>)
      ensures Value() == Store(conversationId, [], None, [])
    {
      key, entries, state, writing := conversationId, [], None, [];
    }

    method Persist()
      modifies this`writing
      ensures Value() == Persisted(old(Value()))
    {
      if key.Some? {
        writing := writing + [Write(key.value, Snapshot(entries, state))];
      }
    }

    method FindIndex(clientId: string) returns (i: nat)
      ensures i == IndexOf(entries, clientId)
    {
      i := 0;
      while i < |entries| && entries[i].clientId != clientId
        invariant i <= |entries|
        invariant forall j :: 0 <= j < i ==> entries[j].clientId != clientId
      {
        i := i + 1;
      }
    }

    method Get(clientId: string) returns (entry: Option<Entry>)
      ensures entry.Some? <==> clientId in Ids(entries)
      ensures entry.Some? ==> entry.value in entries && entry.value.clientId == clientId
    {
      var i := FindIndex(clientId);
      entry := if i < |entries| then Some(entries[i]) else None;
    }

    method Add(e: Entry)
      modifies this
      ensures Value() == Added(old(Value()), e)
    {
      entries := entries + [e];
      Persist();
    }

    method Touch(clientId: string)
      modifies this
      ensures Value() == Touched(old(Value()), clientId)
    {
      var i := FindIndex(clientId);
      if i < |entries| {
        entries := entries[i := entries[i].(attempts := entries[i].attempts + 1)];
        Persist();
      }
    }

    method Remove(clientId: string) returns (found: bool)
      modifies this
      ensures Value() == Removed(old(Value()), clientId)
      ensures found <==> clientId in Ids(old(entries))
    {
      var i := FindIndex(clientId);
      found := i < |entries|;
      if found {
        entries := entries[..i] + entries[i + 1..];
        Persist();
      }
    }

    method SetState(next: ResumeState)
      modifies this
      ensures Value() == StateSet(old(Value()), next)
    {
      var previous := state;
      state := Some(next);
      if previous != Some(next) {
        Persist();
      }
    }

    method Load(raw: Option<Snapshot>)
      modifies this
      ensures Value() == Loaded(old(Value()), raw)
    {
      if raw.Some? {
        entries := Unknown(raw.value.outbox, Ids(entries)) + entries;
        if raw.value.state.Some? {
          state := raw.value.state;
        }
      }
    }
  }
}
