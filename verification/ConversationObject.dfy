/** The session object of the TypeScript client: private fields updated by one method per event. */
module ConversationObject {
  import opened Prefix
  import opened Outbox
  import opened ConversationProtocol
  import opened ConversationReceive

  /**
   * `life` is what an observer has seen of the object since it began, or since the last reset. Every
   * event keeps `Valid`: each seq was accounted for once, and the watermark is the end of the
   * contiguous prefix.
   */
  class Conversation {
    var watermark: int
    var seen: set<int>
    var ownSeqs: set<int>
    var ownIds: seq<string>

    var link: Link

    var maxInFlight: int
    var inFlight: set<string>
    var retryAt: map<string, int>
    var waiting: set<string>

    const store: ConversationStore

    ghost var life: History

    ghost predicate Valid()
      reads this, store
    {
      Safe(Value().inbox, life)
    }

    ghost function Value(): Client
      reads this, store
    {
      Client(
        Inbox(watermark, seen, ownSeqs, ownIds),
        link,
        Window(maxInFlight, inFlight, retryAt, waiting),
        store.Value())
    }

    constructor (conversationId: string, watermark: int, canSync: bool, store: ConversationStore)
      ensures Value() == Blank(conversationId, watermark, canSync, store.Value())
      ensures this.store == store
      ensures Valid() && life == History(watermark, [], {}, 0)
    {
      this.watermark, seen, ownSeqs, ownIds := watermark, {}, {}, [];
      link := Link(conversationId, Idle, false, canSync, false, false, false, false, 0, Unset, None, false);
      maxInFlight, inFlight, retryAt, waiting := 32, {}, map[], {};
      this.store := store;
      life := History(watermark, [], {}, 0);
      new;
      EmptyTally(watermark);
    }

    method SaveState()
      modifies store
      ensures Value() == StateSaved(old(Value()))
    {
      if link.conversationId != "" {
        store.SetState(ResumeState(link.conversationId, watermark));
      }
    }

    method Advance() returns (advanced: bool)
      modifies this`watermark, this`seen, this`ownSeqs
      ensures watermark == Absorb(old(watermark), old(seen))
      ensures seen == old(seen) - Span(old(watermark), watermark)
      ensures ownSeqs == old(ownSeqs) - Span(old(watermark), watermark)
      ensures advanced == (watermark != old(watermark))
    {
      advanced := false;
      while watermark + 1 in seen
        invariant old(watermark) <= watermark && advanced == (watermark != old(watermark))
        invariant Absorb(watermark, seen) == Absorb(old(watermark), old(seen))
        invariant seen == old(seen) - Span(old(watermark), watermark)
        invariant ownSeqs == old(ownSeqs) - Span(old(watermark), watermark)
        decreases seen
      {
        assert Span(old(watermark), watermark + 1) == Span(old(watermark), watermark) + {watermark + 1};
        watermark := watermark + 1;
        seen := seen - {watermark};
        ownSeqs := ownSeqs - {watermark};
        advanced := true;
      }
    }

    method MarkSeen(n: int)
      modifies this`watermark, this`seen, this`ownSeqs, store
      ensures Value() == Seen(old(Value()), n)
    {
      if n > watermark {
        seen := seen + {n};
        var advanced := Advance();
        if advanced {
          SaveState();
        }
      }
    }

    method Settle(clientId: string, id: string, n: Option<int>) returns (out: seq<Output>)
      modifies this, store
      ensures (Value(), out) == SettledSend(old(Value()), clientId, id, n)
      ensures life == old(life)
    {
      if n.Some? && n.value > watermark {
        ownSeqs := ownSeqs + {n.value};
      }
      if id !in ownIds {
        ownIds := ownIds + [id];
      }
      if |ownIds| > OWN_ID_LIMIT {
        ownIds := ownIds[1..];
      }
      inFlight := inFlight - {clientId};
      retryAt := retryAt - {clientId};
      var found := store.Remove(clientId);
      out := if found || clientId in waiting then [Sent(clientId, n)] else [];
      waiting := waiting - {clientId};
    }

    method Flush(env: Env) returns (out: seq<Output>)
      modifies this`inFlight, this`retryAt, store
      ensures (Value(), out) == Flushed(old(Value()), env)
    {
      hide Touched;
      out := [];
      if link.phase != Open || !link.connected || link.replaying {
        return;
      }
      ghost var all := FlushedFrom(Value(), 0, env);
      assert [] + all.1 == all.1;
      var i, room := 0, env.room;
      while i < |store.entries|
        invariant 0 <= i <= |store.entries|
        invariant var (d, rest) := FlushedFrom(Value(), i, Env(env.now, room)); (d, out + rest) == all
        decreases |store.entries| - i
      {
        if |inFlight| >= maxInFlight {
          break;
        }
        var e := store.entries[i];
        if e.clientId in inFlight || (e.clientId in retryAt && retryAt[e.clientId] > env.now) {
          i := i + 1;
          continue;
        }
        TouchedIds(store.Value(), e.clientId);
        ghost var rest := FlushedFrom(Value(), i, Env(env.now, room)).1;
        retryAt := retryAt - {e.clientId};
        if room == 0 {
          break;
        }
        assert out + rest == (out + [Written(e)]) + rest[1..];
        room := room - 1;
        inFlight := inFlight + {e.clientId};
        store.Touch(e.clientId);
        out := out + [Written(e)];
        i := i + 1;
      }
      assert out + [] == out;
    }

    method EndReplay(env: Env) returns (out: seq<Output>)
      modifies this`link, this`inFlight, this`retryAt, store
      ensures (Value(), out) == ReplayEnded(old(Value()), env)
    {
      out := [];
      if link.replaying {
        link := link.(replaying := false);
        out := Flush(env);
      }
    }

    method CheckGap(highest: int)
      modifies this`link
      ensures Value() == GapChecked(old(Value()), highest)
    {
      if link.gapTimer != Unset || link.replaying || |inFlight| > 0 || !link.connected || !link.canSync || highest <= watermark {
        return;
      }
      link := link.(gapTimer := Armed(highest));
    }

    method Join(f: Frame)
      requires f.Welcome?
      modifies this`watermark, this`seen, this`maxInFlight, this`link
      ensures Value() == Joined(old(Value()), f)
    {
      if link.conversationId != "" && f.conversationId != "" && f.conversationId != link.conversationId {
        watermark, seen := 0, {};
      }
      if f.maxInFlight.Some? && f.maxInFlight.value > 0 {
        maxInFlight := f.maxInFlight.value;
      }
      link := link.(conversationId := if f.conversationId != "" then f.conversationId else link.conversationId, welcomed := true);
    }

    method BecomeOpen(head: Option<int>)
      modifies this`link, store
      ensures Value() == Opened(old(Value()), head)
    {
      var id, behind := link.conversationId, head.Some? && head.value > watermark;
      var moves := id != "" && store.key != Some(id);
      if moves {
        store.key := Some(id);
      }
      link := link.(phase := Open, replaying := behind, replayTarget := if behind then head.value else link.replayTarget,
                    attaching := link.attaching || moves);
    }

    method OnWelcome(f: Frame)
      requires f.Welcome?
      modifies this, store
      ensures Value() == ApplyWelcome(old(Value()), f)
      ensures life == old(life)
    {
      hide Joined, StateSaved, Opened;
      Join(f);
      SaveState();
      BecomeOpen(f.head);
    }

    method OnPersistent(a: Activity, env: Env) returns (out: seq<Output>)
      modifies this, store
      ensures (Value(), out) == ApplyPersistent(old(Value()), a, env)
      ensures life == old(life)
    {
      out := [];
      if a.seqNo > watermark && a.seqNo !in seen {
        out := Receive(a);
      }
      if link.replaying && a.seqNo >= link.replayTarget {
        var writes := EndReplay(env);
        out := out + writes;
      } else {
        assert out + [] == out;
      }
      if a.seqNo > watermark {
        CheckGap(a.seqNo);
      }
    }

    method Receive(a: Activity) returns (out: seq<Output>)
      requires a.seqNo > watermark && a.seqNo !in seen
      modifies this, store
      ensures (Value(), out) == Received(old(Value()), a)
      ensures life == old(life)
    {
      MarkSeen(a.seqNo);
      var entry := None;
      if a.clientId.Some? && a.fromUser {
        entry := store.Get(a.clientId.value);
      }
      if entry.Some? {
        out := Settle(a.clientId.value, if a.id.Some? then a.id.value else "undefined", Some(a.seqNo));
      } else if a.seqNo in ownSeqs || (a.id.Some? && a.id.value in ownIds) {
        out := [];
      } else {
        out := [Emitted(a)];
      }
    }

    method OnAck(f: Frame, env: Env) returns (out: seq<Output>)
      requires f.Ack?
      modifies this, store
      ensures (Value(), out) == ApplyAck(old(Value()), f, env)
      ensures life == old(life)
    {
      if f.seqNo.Some? {
        MarkSeen(f.seqNo.value);
      }
      out := Settle(f.clientId, f.id, f.seqNo);
      var writes := Flush(env);
      out := out + writes;
    }

    method OnError(fault: Fault, env: Env) returns (out: seq<Output>)
      modifies this, store
      ensures (Value(), out) == ApplyError(old(Value()), fault, env)
      ensures life == old(life)
    {
      var entry := None;
      if fault.clientId.Some? && fault.clientId.value != "" {
        entry := store.Get(fault.clientId.value);
      }
      if entry.Some? {
        out := OnSendError(fault, env);
      } else if fault.code == "replay_unavailable" {
        out := EndReplay(env);
        link := link.(syncFrom := Some(if fault.watermark.Some? then fault.watermark.value else watermark));
      } else if fault.code == "invalid_watermark" && fault.frameType in {None, Some("hello"), Some("sync")} {
        watermark, seen := 0, {};
        SaveState();
        out := EndReplay(env);
        out := out + [SyncSent(0)];
      } else {
        out := [];
      }
    }

    method OnSendError(fault: Fault, env: Env) returns (out: seq<Output>)
      requires fault.clientId.Some?
      modifies this, store
      ensures (Value(), out) == SendRejected(old(Value()), fault, env)
      ensures life == old(life)
    {
      var id := fault.clientId.value;
      inFlight := inFlight - {id};
      if RetryableSend(fault) {
        retryAt := retryAt[id := env.now + if fault.retryAfterMs.Some? then fault.retryAfterMs.value else 1000];
        return [];
      }
      var _ := store.Remove(id);
      retryAt := retryAt - {id};
      waiting := waiting - {id};
      out := Flush(env);
      out := [SendFailed(id)] + out;
    }

    method OnFrame(f: Frame, env: Env) returns (out: seq<Output>)
      requires Valid()
      modifies this, store
      ensures (Value(), out) == Apply(old(Value()), ConversationProtocol.Event.Receive(f), env)
      ensures Valid() && life == Recorded(old(Value()), old(life), ConversationProtocol.Event.Receive(f), env)
    {
      hide Recorded, Safe;
      StepIsSafe(Value(), life, ConversationProtocol.Event.Receive(f), env);
      life := Recorded(Value(), life, ConversationProtocol.Event.Receive(f), env);
      out := [];
      if !link.connected {
        return;
      }
      match f
      case Welcome(_, _, _) => OnWelcome(f);
      case Ack(_, _, _) => out := OnAck(f, env);
      case Error(fault) => out := OnError(fault, env);
      case ReplayTruncated(head, stoppedAt) =>
        link := link.(replaying := true, replayTarget := head);
        out := [SyncSent(Min(watermark, stoppedAt))];
      case Heartbeat(head) =>
        if head.Some? && head.value > watermark {
          CheckGap(head.value);
        }
      case Persistent(a) =>
        if a.seqNo > 0 {
          out := OnPersistent(a, env);
        }
      case Signal =>
    }

    method SendText(clientId: string, body: string, env: Env) returns (out: seq<Output>)
      requires Valid()
      modifies this, store
      ensures (Value(), out) == ApplySend(old(Value()), clientId, body, env)
      ensures Valid() && life == Recorded(old(Value()), old(life), Send(clientId, body), env)
    {
      hide Recorded, Safe;
      StepIsSafe(Value(), life, Send(clientId, body), env);
      life := Recorded(Value(), life, Send(clientId, body), env);
      var pending := store.Get(clientId);
      if link.fatal || !ValidClientId(clientId) || pending.Some? || clientId in waiting {
        return [Refused(clientId)];
      }
      waiting := waiting + {clientId};
      store.Add(Entry(clientId, body, 0));
      out := Flush(env);
    }

    method OpenConnection() returns (out: seq<Output>)
      requires Valid()
      modifies this
      ensures (Value(), out) == ApplyConnect(old(Value()))
      ensures Valid() && life == Recorded(old(Value()), old(life), Connect, CALM)
    {
      hide Recorded, Safe;
      StepIsSafe(Value(), life, Connect, CALM);
      life := Recorded(Value(), life, Connect, CALM);
      if link.stopped || link.connected {
        return [];
      }
      if link.phase != Reconnecting {
        link := link.(phase := if link.welcomed then Reconnecting else Connecting);
      }
      link := link.(connected := true);
      out := [HelloSent(if link.conversationId != "" then Some(watermark) else None)];
    }

    method OnClose(isFatal: bool)
      requires Valid()
      modifies this
      ensures Value() == ApplyClose(old(Value()), isFatal)
      ensures Valid() && life == Recorded(old(Value()), old(life), Close(isFatal), CALM)
    {
      hide Recorded, Safe;
      StepIsSafe(Value(), life, Close(isFatal), CALM);
      life := Recorded(Value(), life, Close(isFatal), CALM);
      if !link.connected {
        return;
      }
      link := TimersCleared(link).(connected := false, replaying := false);
      inFlight := {};
      if link.stopped {
        return;
      }
      if isFatal {
        link := link.(stopped := true, fatal := true, phase := Closed);
        waiting := {};
      } else {
        link := link.(phase := Reconnecting);
      }
    }

    method OnAttached(raw: Option<Snapshot>, env: Env) returns (out: seq<Output>)
      requires Valid()
      modifies this, store
      ensures (Value(), out) == ApplyAttached(old(Value()), raw, env)
      ensures Valid() && life == Recorded(old(Value()), old(life), Attached(raw), env)
    {
      hide Recorded, Safe;
      StepIsSafe(Value(), life, Attached(raw), env);
      life := Recorded(Value(), life, Attached(raw), env);
      if link.attaching {
        link := link.(attaching := false);
        store.Load(raw);
        store.Persist();
      }
      SaveState();
      out := Flush(env);
    }

    method OnGapTimer() returns (out: seq<Output>)
      requires Valid()
      modifies this`link, this`life
      ensures (Value(), out) == ApplyGapTimer(old(Value()))
      ensures Valid() && life == Recorded(old(Value()), old(life), GapTimerDue, CALM)
    {
      hide Recorded, Safe;
      StepIsSafe(Value(), life, GapTimerDue, CALM);
      life := Recorded(Value(), life, GapTimerDue, CALM);
      out := [];
      if link.gapTimer.Armed? {
        var missing := link.gapTimer.highest > watermark && |inFlight| == 0;
        link := link.(gapTimer := Unset);
        if missing && link.phase == Open && link.connected {
          out := [SyncSent(watermark)];
        }
      }
    }

    method OnSyncTimer() returns (out: seq<Output>)
      requires Valid()
      modifies this`link, this`life
      ensures (Value(), out) == ApplySyncTimer(old(Value()))
      ensures Valid() && life == Recorded(old(Value()), old(life), SyncTimerDue, CALM)
    {
      hide Recorded, Safe;
      StepIsSafe(Value(), life, SyncTimerDue, CALM);
      life := Recorded(Value(), life, SyncTimerDue, CALM);
      out := [];
      if link.syncFrom.Some? {
        if link.phase == Open && link.connected {
          out := [SyncSent(Min(link.syncFrom.value, watermark))];
        }
        link := link.(syncFrom := None);
      }
    }

    method OnConnectFailed(isFatal: bool)
      requires Valid()
      modifies this
      ensures Value() == ApplyConnectFailed(old(Value()), isFatal)
      ensures Valid() && life == Recorded(old(Value()), old(life), ConnectFailed(isFatal), CALM)
    {
      hide Recorded, Safe;
      StepIsSafe(Value(), life, ConnectFailed(isFatal), CALM);
      life := Recorded(Value(), life, ConnectFailed(isFatal), CALM);
      if link.stopped || link.connected {
        return;
      }
      if isFatal {
        link := TimersCleared(link).(stopped := true, fatal := true, phase := Closed);
        waiting := {};
      } else {
        link := link.(phase := Reconnecting);
      }
    }

    method Disconnect()
      requires Valid()
      modifies this
      ensures Value() == ApplyDisconnect(old(Value()))
      ensures Valid() && life == Recorded(old(Value()), old(life), ConversationProtocol.Event.Disconnect, CALM)
    {
      hide Recorded, Safe;
      StepIsSafe(Value(), life, ConversationProtocol.Event.Disconnect, CALM);
      life := Recorded(Value(), life, ConversationProtocol.Event.Disconnect, CALM);
      link := TimersCleared(link).(stopped := true, connected := false, phase := Closed);
      waiting := {};
    }

    method OnReplayTimer(env: Env) returns (out: seq<Output>)
      requires Valid()
      modifies this, store
      ensures (Value(), out) == ReplayEnded(old(Value()), env)
      ensures Valid() && life == Recorded(old(Value()), old(life), ReplayTimer, env)
    {
      hide Recorded, Safe;
      StepIsSafe(Value(), life, ReplayTimer, env);
      life := Recorded(Value(), life, ReplayTimer, env);
      out := EndReplay(env);
    }

    method OnRetryTimer(env: Env) returns (out: seq<Output>)
      requires Valid()
      modifies this, store
      ensures (Value(), out) == Flushed(old(Value()), env)
      ensures Valid() && life == Recorded(old(Value()), old(life), RetryTimer, env)
    {
      hide Recorded, Safe;
      StepIsSafe(Value(), life, RetryTimer, env);
      life := Recorded(Value(), life, RetryTimer, env);
      out := Flush(env);
    }

    /** The load that resume() waits for has ended; nothing has been received before. */
    method OnLoaded(raw: Option<Snapshot>, given: Option<int>)
      requires seen == {} && ownSeqs == {} && ownIds == []
      modifies this, store
      ensures Value() == LoadEnded(old(Value()), raw, given)
      ensures Valid() && life == History(watermark, [], {}, 0)
    {
      store.Load(raw);
      if given.Some? {
        watermark := given.value;
      } else if store.state.Some? && store.state.value.conversationId == link.conversationId {
        watermark := store.state.value.watermark;
      }
      life := History(watermark, [], {}, 0);
      EmptyTally(watermark);
    }
  }
}
