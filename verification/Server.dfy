/**
 * The log of the in-process server: activities numbered from 1 in each
 * conversation, a clientId stored once, and replays from a watermark.
 */
module ServerLog {
  import opened Prefix
  import opened ConversationProtocol

  datatype Server = Server(transcripts: map<string, seq<Activity>>, keys: map<(string, string), Activity>)

  /** A message frame: its deduplication key, the id it is given if it is stored, and its text. */
  datatype Message = Message(clientId: Option<string>, id: string, fromUser: bool, text: string)

  function Transcript(s: Server, conversation: string): seq<Activity> {
    if conversation in s.transcripts then s.transcripts[conversation] else []
  }

  function Stored(s: Server, conversation: string, a: Activity): (Server, Activity) {
    var log := Transcript(s, conversation);
    var b := a.(seqNo := |log| + 1);
    (s.(transcripts := s.transcripts[conversation := log + [b]]), b)
  }

  /** The answer to a message: an injected error, or the ack of the activity that holds its clientId. */
  function Handled(s: Server, conversation: string, m: Message, fault: Option<Fault>, swallowAcks: bool)
    : (Server, Option<Frame>)
  {
    if fault.Some? then (s, Some(Error(fault.value.(clientId := m.clientId))))
    else if m.clientId.None? then (Stored(s, conversation, Activity(0, Some(m.id), None, m.fromUser, m.text)).0, None)
    else
      var key := (conversation, m.clientId.value);
      var (t, a) :=
        if key in s.keys then (s, s.keys[key])
        else
          var (u, b) := Stored(s, conversation, Activity(0, Some(m.id), m.clientId, m.fromUser, m.text));
          (u.(keys := u.keys[key := b]), b);
      (t, if swallowAcks then None else Some(Acked(a)))
  }

  function Acked(a: Activity): Frame {
    Ack(if a.clientId.Some? then a.clientId.value else "", if a.id.Some? then a.id.value else "", Some(a.seqNo))
  }

  function Replayed(log: seq<Activity>, watermark: int): seq<Activity> {
    if log == [] then [] else (if log[0].seqNo > watermark then [log[0]] else []) + Replayed(log[1..], watermark)
  }

  /** Activities are numbered by position, and the keys are exactly the clientIds of the log. */
  ghost predicate Consistent(s: Server) {
    && (forall c, i :: 0 <= i < |Transcript(s, c)| ==> Transcript(s, c)[i].seqNo == i + 1)
    && (forall k :: k in s.keys ==> KeyHolds(s, k))
    && (forall c, i :: 0 <= i < |Transcript(s, c)| && Transcript(s, c)[i].clientId.Some? ==>
      && (c, Transcript(s, c)[i].clientId.value) in s.keys
      && s.keys[(c, Transcript(s, c)[i].clientId.value)] == Transcript(s, c)[i])
  }

  ghost predicate KeyHolds(s: Server, k: (string, string))
    requires k in s.keys
  {
    var a := s.keys[k];
    a.clientId == Some(k.1) && a.id.Some? && 1 <= a.seqNo <= |Transcript(s, k.0)| && Transcript(s, k.0)[a.seqNo - 1] == a
  }

  lemma StoredTranscript(s: Server, conversation: string, a: Activity)
    ensures var (t, b) := Stored(s, conversation, a);
      && b == a.(seqNo := |Transcript(s, conversation)| + 1)
      && Transcript(t, conversation) == Transcript(s, conversation) + [b]
      && (forall c :: c != conversation ==> Transcript(t, c) == Transcript(s, c))
      && t.keys == s.keys
  {
  }

  lemma SameTranscripts(t: Server, u: Server)
    requires t.transcripts == u.transcripts
    ensures forall c :: Transcript(t, c) == Transcript(u, c)
  {
  }

  /** One activity is appended to a conversation; its clientId, if it has one, is new and becomes a key. */
  ghost predicate Appends(s: Server, t: Server, conversation: string, b: Activity) {
    && b.seqNo == |Transcript(s, conversation)| + 1
    && Transcript(t, conversation) == Transcript(s, conversation) + [b]
    && (forall c :: c != conversation ==> Transcript(t, c) == Transcript(s, c))
    && (if b.clientId.Some? then
          && b.id.Some? && (conversation, b.clientId.value) !in s.keys
          && t.keys == s.keys[(conversation, b.clientId.value) := b]
        else t.keys == s.keys)
  }

  lemma AppendKeepsKeys(s: Server, t: Server, conversation: string, b: Activity, k: (string, string))
    requires Consistent(s) && Appends(s, t, conversation, b) && k in t.keys
    ensures KeyHolds(t, k)
  {
    hide Transcript;
    if k in s.keys {
      assert KeyHolds(s, k);
    }
  }

  lemma AppendKeepsPlaces(s: Server, t: Server, conversation: string, b: Activity, c: string, i: nat)
    requires Consistent(s) && Appends(s, t, conversation, b) && i < |Transcript(t, c)|
    ensures var x := Transcript(t, c)[i];
      x.seqNo == i + 1 && (x.clientId.Some? ==> (c, x.clientId.value) in t.keys && t.keys[(c, x.clientId.value)] == x)
  {
    hide Transcript;
    var x := Transcript(t, c)[i];
    if i < |Transcript(s, c)| {
      assert x == Transcript(s, c)[i];
    } else {
      assert x == b;
    }
  }

  /** Storing an activity whose clientId is new, together with its key. */
  lemma StoringIsConsistent(s: Server, conversation: string, a: Activity, t: Server)
    requires Consistent(s)
    requires a.clientId.Some? ==> a.id.Some? && (conversation, a.clientId.value) !in s.keys
    requires var (u, b) := Stored(s, conversation, a);
      t == if a.clientId.Some? then u.(keys := u.keys[(conversation, a.clientId.value) := b]) else u
    ensures Consistent(t) && forall c :: Transcript(s, c) <= Transcript(t, c)
    ensures Transcript(t, conversation) == Transcript(s, conversation) + [Stored(s, conversation, a).1]
  {
    hide Stored, Transcript, KeyHolds;
    StoredTranscript(s, conversation, a);
    var (u, b) := Stored(s, conversation, a);
    SameTranscripts(t, u);
    assert Appends(s, t, conversation, b);
    forall k | k in t.keys
      ensures KeyHolds(t, k)
    {
      AppendKeepsKeys(s, t, conversation, b, k);
    }
    forall c, i | 0 <= i < |Transcript(t, c)|
      ensures var x := Transcript(t, c)[i];
        x.seqNo == i + 1 && (x.clientId.Some? ==> (c, x.clientId.value) in t.keys && t.keys[(c, x.clientId.value)] == x)
    {
      AppendKeepsPlaces(s, t, conversation, b, c, i);
    }
  }

  /**
   * Whatever messages arrive, however often, the log stays consistent and only
   * grows; an ack names the position at which the log holds that clientId, and an error its message.
   */
  lemma HandlingIsConsistent(s: Server, conversation: string, m: Message, fault: Option<Fault>, swallowAcks: bool)
    requires Consistent(s)
    ensures var (t, answer) := Handled(s, conversation, m, fault, swallowAcks);
      && Consistent(t)
      && (forall c :: Transcript(s, c) <= Transcript(t, c))
      && (answer.Some? && answer.value.Ack? ==>
        IsAckOf(answer.value, Transcript(t, conversation)) && m.clientId == Some(answer.value.clientId))
      && (fault.None? && m.clientId.Some? ==> (conversation, m.clientId.value) in t.keys)
      && (fault.Some? ==> answer.Some? && answer.value.Error? && answer.value.fault.clientId == m.clientId && answer.value.fault.code == fault.value.code && t == s)
      && (fault.None? ==> (answer.Some? <==> m.clientId.Some? && !swallowAcks))
  {
    hide Stored, Consistent;
    var t := Handled(s, conversation, m, fault, swallowAcks).0;
    if fault.None? {
      if m.clientId.Some? && (conversation, m.clientId.value) in s.keys {
        KeyIsAcked(s, (conversation, m.clientId.value));
      } else {
        var a := Activity(0, Some(m.id), m.clientId, m.fromUser, m.text);
        StoringIsConsistent(s, conversation, a, t);
        if m.clientId.Some? {
          KeyIsAcked(t, (conversation, m.clientId.value));
        }
      }
    }
  }

  lemma KeyIsAcked(s: Server, k: (string, string))
    requires Consistent(s) && k in s.keys
    ensures IsAckOf(Acked(s.keys[k]), Transcript(s, k.0)) && Acked(s.keys[k]).clientId == k.1
  {
    assert KeyHolds(s, k);
  }

  /** The ack names a clientId and an id together with the position they have in the log. */
  predicate IsAckOf(f: Frame, log: seq<Activity>) {
    && f.Ack? && f.seqNo.Some? && 1 <= f.seqNo.value <= |log|
    && log[f.seqNo.value - 1].clientId == Some(f.clientId)
    && log[f.seqNo.value - 1].id == Some(f.id)
  }

  /** A message adds at most one activity, with the next number and what the message says. */
  lemma HandlingAppends(s: Server, conversation: string, m: Message, fault: Option<Fault>, swallowAcks: bool)
    ensures var log, log' := Transcript(s, conversation), Transcript(Handled(s, conversation, m, fault, swallowAcks).0, conversation);
      log' == log || log' == log + [Activity(|log| + 1, Some(m.id), m.clientId, m.fromUser, m.text)]
  {
  }

  /** A conversation holds no clientId twice. */
  lemma StoredOnce(s: Server, c: string, i: nat, j: nat)
    requires Consistent(s) && i < j < |Transcript(s, c)| && Transcript(s, c)[i].clientId.Some?
    ensures Transcript(s, c)[i].clientId != Transcript(s, c)[j].clientId
  {
    var log := Transcript(s, c);
    assert log[i].seqNo == i + 1 && log[j].seqNo == j + 1;
  }

  /** A replay from a watermark is the rest of the log. */
  lemma {:induction false} ReplayIsRestOfLog(log: seq<Activity>, first: int, watermark: int)
    requires forall i :: 0 <= i < |log| ==> log[i].seqNo == first + i
    ensures Replayed(log, watermark) ==
      if watermark < first then log else if watermark - first + 1 <= |log| then log[watermark - first + 1..] else []
    decreases |log|
  {
    if log != [] {
      ReplayIsRestOfLog(log[1..], first + 1, watermark);
      assert log == [log[0]] + log[1..];
    }
  }

  class FakeServer {
    var transcripts: map<string, seq<Activity>>
    var keys: map<(string, string), Activity>
    var swallowAcks: bool
    var sendErrors: seq<Fault>

    ghost function Value(): Server
      reads this
    {
      Server(transcripts, keys)
    }

    constructor ()
      ensures Value() == Server(map[], map[]) && Consistent(Value())
      ensures !swallowAcks && sendErrors == []
    {
      transcripts, keys := map[], map[];
      swallowAcks, sendErrors := false, [];
    }

    method Store(conversation: string, a: Activity) returns (stored: Activity)
      modifies this`transcripts
      ensures (Value(), stored) == Stored(old(Value()), conversation, a)
    {
      var log := if conversation in transcripts then transcripts[conversation] else [];
      stored := a.(seqNo := |log| + 1);
      transcripts := transcripts[conversation := log + [stored]];
    }

    method OnMessage(conversation: string, m: Message) returns (answer: Option<Frame>)
      modifies this
      ensures var fault := if old(sendErrors) == [] then None else Some(old(sendErrors)[0]);
        (Value(), answer) == Handled(old(Value()), conversation, m, fault, old(swallowAcks))
      ensures old(Consistent(Value())) ==> Consistent(Value())
      ensures sendErrors == if old(sendErrors) == [] then [] else old(sendErrors)[1..]
      ensures swallowAcks == old(swallowAcks)
    {
      ghost var fault := if sendErrors == [] then None else Some(sendErrors[0]);
      if Consistent(Value()) {
        HandlingIsConsistent(Value(), conversation, m, fault, swallowAcks);
      }
      answer := None;
      if sendErrors != [] {
        answer := Some(Error(sendErrors[0].(clientId := m.clientId)));
        sendErrors := sendErrors[1..];
        return;
      }
      var stored: Activity;
      if m.clientId.Some? && (conversation, m.clientId.value) in keys {
        stored := keys[(conversation, m.clientId.value)];
      } else {
        stored := Store(conversation, Activity(0, Some(m.id), m.clientId, m.fromUser, m.text));
        if m.clientId.Some? {
          keys := keys[(conversation, m.clientId.value) := stored];
        }
      }
      if m.clientId.Some? && !swallowAcks {
        answer := Some(Acked(stored));
      }
    }

    method Replay(conversation: string, watermark: int) returns (frames: seq<Activity>)
      ensures frames == Replayed(Transcript(Value(), conversation), watermark)
    {
      var log := if conversation in transcripts then transcripts[conversation] else [];
      frames := [];
      hide Replayed;
      assert log[0..] == log && [] + Replayed(log, watermark) == Replayed(log, watermark);
      for i := 0 to |log|
        invariant frames + Replayed(log[i..], watermark) == Replayed(log, watermark)
      {
        ReplayedStep(log, i, watermark);
        if log[i].seqNo > watermark {
          AppendOne(frames, log[i], Replayed(log[i + 1..], watermark));
          frames := frames + [log[i]];
        }
      }
      ReplayedEnds(log[|log|..], watermark);
      assert frames + [] == frames;
    }
  }

  lemma ReplayedStep(log: seq<Activity>, i: nat, watermark: int)
    requires i < |log|
    ensures var rest := Replayed(log[i + 1..], watermark);
      Replayed(log[i..], watermark) == if log[i].seqNo > watermark then [log[i]] + rest else rest
  {
    assert log[i..][1..] == log[i + 1..];
  }

  lemma ReplayedEnds(log: seq<Activity>, watermark: int)
    requires |log| == 0
    ensures Replayed(log, watermark) == []
  {
  }
}
