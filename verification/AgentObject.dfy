/** The sending side of the TypeScript agent as an object: a queue and a window changed in place. */
module AgentObject {
  import opened Prefix
  import opened AgentSends
  import AgentConservation
  import Pacing

  class Agent {
    const config: Config
    var link: Link
    var tokens: real
    var tokensAt: int
    var wire: seq<Write>
    var queue: seq<Outgoing>
    var inflight: seq<Outgoing>
    var retrying: seq<Outgoing>
    var settled: seq<Settlement>
    var dropped: seq<nat>
    var accepted: seq<Request>

    ghost function Outbound(): Sends
      reads this
    {
      Sends(queue, inflight, retrying, settled, dropped, accepted)
    }

    ghost function Value(): AgentSends.Agent
      reads this
    {
      AgentSends.Agent(config, link, Bucket(tokens, tokensAt, wire), Outbound())
    }

    constructor (config: Config, now: int)
      ensures Value() == AgentConservation.Started(config, now) && (config.maxInFlight >= 0 ==> AgentConservation.Inv(Value()))
    {
      this.config := config;
      link := Link(true, false, false, false, 0);
      tokens, tokensAt, wire := config.fps, now, [];
      queue, inflight, retrying, settled, dropped, accepted := [], [], [], [], [], [];
    }

    method Find(key: Key) returns (i: nat)
      ensures i == KeyIndex(inflight, key)
    {
      i := 0;
      while i < |inflight| && inflight[i].key != Some(key)
        invariant i <= |inflight|
        invariant KeyIndex(inflight, key) == i + KeyIndex(inflight[i..], key)
      {
        assert inflight[i..][1..] == inflight[i + 1..];
        i := i + 1;
      }
    }

    method WriteHead(now: int)
      requires queue != []
      modifies `queue, `inflight, `settled, `tokens, `wire
      ensures Outbound() == Written(old(Outbound()), now)
      ensures Bucket(tokens, tokensAt, wire) == Spent(old(Bucket(tokens, tokensAt, wire)), old(queue[0].id), now)
    {
      var head := queue[0].(attempts := queue[0].attempts + 1, sentAt := now);
      queue := queue[1..];
      tokens := tokens - 1.0;
      wire := wire + [Write(head.id, now)];
      if head.key.Some? {
        var i := Find(head.key.value);
        inflight := if i < |inflight| then inflight[i := head] else inflight + [head];
      } else {
        settled := settled + [Settlement(head.id, Unanswered)];
      }
    }

    method WriteQueue(now: int, room: nat)
      modifies `queue, `inflight, `settled, `tokens, `wire, `link
      ensures Value() == PumpedFrom(old(Value()), now, room)
    {
      hide Written;
      var left := room;
      while queue != []
        invariant PumpedFrom(Value(), now, left) == PumpedFrom(old(Value()), now, room)
        decreases left
      {
        if queue[0].key.Some? && |inflight| >= config.maxInFlight {
          return;
        }
        if tokens < 1.0 {
          link := link.(pumpTimer := true);
          return;
        }
        if left == 0 {
          return;
        }
        WriteHead(now);
        left := left - 1;
      }
    }

    method Pump(now: int, room: nat)
      modifies `queue, `inflight, `settled, `tokens, `tokensAt, `wire, `link
      ensures Value() == Pumped(old(Value()), now, room)
    {
      hide PumpedFrom;
      if link.pumpTimer || !link.connected {
        return;
      }
      if now < link.pausedUntil {
        link := link.(pumpTimer := true);
        return;
      }
      ghost var refilled := Refilled(config, Bucket(tokens, tokensAt, wire), now);
      tokens := Pacing.MinReal(config.fps, tokens + Seconds(now - tokensAt) * config.fps);
      tokensAt := now;
      assert Bucket(tokens, tokensAt, wire) == refilled;
      hide Refilled;
      WriteQueue(now, room);
    }

    method OnPumpTimer(now: int, room: nat)
      requires link.pumpTimer
      modifies this
      ensures Value() == Apply(old(Value()), PumpTimer, now, room)
      ensures old(AgentConservation.Inv(Value())) ==> AgentConservation.Inv(Value())
    {
      hide AgentConservation.Inv, Pumped;
      if AgentConservation.Inv(Value()) {
        AgentConservation.EventKeepsInv(Value(), PumpTimer, now, room);
      }
      link := link.(pumpTimer := false);
      Pump(now, room);
    }

    method Enqueue(key: Option<Key>, transient: bool, isSync: bool, now: int, room: nat)
      modifies this
      ensures Value() == ApplyEnqueue(old(Value()), key, transient, isSync, now, room)
      ensures old(AgentConservation.Inv(Value()) && AgentConservation.Allowed(Value(), AgentSends.Event.Enqueue(key, transient, isSync))) ==> AgentConservation.Inv(Value())
    {
      hide AgentConservation.Inv;
      if AgentConservation.Inv(Value()) && AgentConservation.Allowed(Value(), AgentSends.Event.Enqueue(key, transient, isSync)) {
        AgentConservation.EventKeepsInv(Value(), AgentSends.Event.Enqueue(key, transient, isSync), now, room);
      }
      hide Pumped;
      if !link.running || (transient && !isSync && !link.connected) {
        return;
      }
      queue := queue + [Outgoing(|accepted|, key, transient, now + config.sendTimeoutMs, 0, 0)];
      accepted := accepted + [Request(key, transient, now)];
      Pump(now, room);
    }

    method OnAck(key: Key, now: int, room: nat)
      modifies this
      ensures Value() == ApplyAck(old(Value()), key, now, room)
      ensures old(AgentConservation.Inv(Value())) ==> AgentConservation.Inv(Value())
    {
      hide AgentConservation.Inv;
      if AgentConservation.Inv(Value()) {
        AgentConservation.AnswerKeepsInv(Value(), key, false, "", now, room);
      }
      hide Pumped;
      var i := Find(key);
      if i < |inflight| {
        settled := settled + [Settlement(inflight[i].id, Acked(key))];
        inflight := inflight[..i] + inflight[i + 1..];
        Pump(now, room);
      }
    }

    method OnSendError(key: Key, retryable: bool, code: string, now: int, room: nat)
      modifies this
      ensures Value() == ApplySendError(old(Value()), key, retryable, code, now, room)
      ensures old(AgentConservation.Inv(Value())) ==> AgentConservation.Inv(Value())
    {
      hide AgentConservation.Inv;
      if AgentConservation.Inv(Value()) {
        AgentConservation.AnswerKeepsInv(Value(), key, retryable, code, now, room);
      }
      hide Pumped;
      var i := Find(key);
      if i == |inflight| {
        return;
      }
      var entry := inflight[i];
      inflight := inflight[..i] + inflight[i + 1..];
      if retryable && code in RESEND_CODES && entry.attempts < MAX_SEND_ATTEMPTS {
        retrying := retrying + [entry];
      } else {
        settled := settled + [Settlement(entry.id, Rejected)];
      }
      Pump(now, room);
    }

    method OnRetryTimer(i: nat, now: int, room: nat)
      modifies this
      ensures Value() == ApplyRetry(old(Value()), i, now, room)
      ensures old(AgentConservation.Inv(Value())) ==> AgentConservation.Inv(Value())
    {
      hide AgentConservation.Inv;
      if AgentConservation.Inv(Value()) {
        AgentConservation.EventKeepsInv(Value(), RetryTimer(i), now, room);
      }
      hide Pumped;
      if i >= |retrying| {
        return;
      }
      var entry := retrying[i];
      retrying := retrying[..i] + retrying[i + 1..];
      if !link.running {
        dropped := dropped + [entry.id];
        return;
      }
      queue := [entry] + queue;
      Pump(now, room);
    }

    method SweepQueue(sweep: Sweep)
      modifies `queue, `settled
      ensures Outbound() == QueueSwept(old(Outbound()), old(|queue|), sweep)
    {
      var i: nat := |queue|;
      while i > 0
        invariant 0 <= i <= |queue|
        invariant QueueSwept(Outbound(), i, sweep) == QueueSwept(old(Outbound()), old(|queue|), sweep)
      {
        i := i - 1;
        if Leaves(sweep, queue[i]) {
          settled := settled + [Settlement(queue[i].id, Outcome(sweep))];
          queue := queue[..i] + queue[i + 1..];
        }
      }
    }

    method SweepInflight(now: int)
      modifies `queue, `inflight, `settled
      ensures Outbound() == FlightSwept(config, link.connected, old(Outbound()), 0, now)
    {
      var i := 0;
      while i < |inflight|
        invariant i <= |inflight|
        invariant FlightSwept(config, link.connected, Outbound(), i, now) == FlightSwept(config, link.connected, old(Outbound()), 0, now)
        decreases |inflight| - i
      {
        var entry := inflight[i];
        if entry.deadline < now {
          inflight := inflight[..i] + inflight[i + 1..];
          settled := settled + [Settlement(entry.id, Rejected)];
        } else if link.connected && now - entry.sentAt > config.ackTimeoutMs {
          inflight := inflight[..i] + inflight[i + 1..];
          queue := [entry] + queue;
        } else {
          i := i + 1;
        }
      }
    }

    method Tick(now: int, room: nat)
      modifies this
      ensures Value() == ApplyTick(old(Value()), now, room)
      ensures old(AgentConservation.Inv(Value())) ==> AgentConservation.Inv(Value())
    {
      hide AgentConservation.Inv;
      if AgentConservation.Inv(Value()) {
        AgentConservation.EventKeepsInv(Value(), AgentSends.Event.Tick, now, room);
      }
      hide Pumped, QueueSwept, FlightSwept;
      SweepQueue(Overdue(now));
      SweepInflight(now);
      Pump(now, room);
    }

    method OnWelcome(now: int, room: nat)
      requires link.socket
      modifies this
      ensures Value() == Apply(old(Value()), Welcome, now, room)
      ensures old(AgentConservation.Inv(Value())) ==> AgentConservation.Inv(Value())
    {
      hide AgentConservation.Inv;
      if AgentConservation.Inv(Value()) {
        AgentConservation.EventKeepsInv(Value(), Welcome, now, room);
      }
      hide Pumped;
      link := link.(connected := true);
      queue := BySentAt(inflight) + queue;
      inflight := [];
      Pump(now, room);
    }

    method RejectAll()
      modifies `queue, `inflight, `settled
      ensures Outbound() == AllRejected(old(Outbound()))
    {
      while queue != []
        invariant AllRejected(Outbound()) == AllRejected(old(Outbound()))
        decreases |queue|
      {
        settled := settled + [Settlement(queue[0].id, Rejected)];
        assert queue[..0] + queue[1..] == queue[1..];
        queue := queue[1..];
      }
      while inflight != []
        invariant queue == [] && AllRejected(Outbound()) == AllRejected(old(Outbound()))
        decreases |inflight|
      {
        settled := settled + [Settlement(inflight[0].id, Rejected)];
        assert inflight[..0] + inflight[1..] == inflight[1..];
        inflight := inflight[1..];
      }
    }

    method OnClose(fatal: bool)
      modifies this
      ensures Value() == ApplyClose(old(Value()), fatal)
      ensures old(AgentConservation.Inv(Value())) ==> AgentConservation.Inv(Value())
    {
      hide AgentConservation.Inv;
      if AgentConservation.Inv(Value()) {
        AgentConservation.CloseKeepsInv(Value(), fatal);
      }
      hide QueueSwept, AllRejected;
      link := link.(socket := false, connected := false);
      SweepQueue(Transient);
      if link.running && fatal {
        link := link.(running := false);
        RejectAll();
      }
    }

    method Stop()
      modifies this
      ensures Value() == ApplyStop(old(Value()))
      ensures old(AgentConservation.Inv(Value())) ==> AgentConservation.Inv(Value())
    {
      hide AgentConservation.Inv;
      if AgentConservation.Inv(Value()) {
        AgentConservation.EventKeepsInv(Value(), AgentSends.Event.Stop, 0, 0);
      }
      hide AllRejected;
      if !link.running {
        return;
      }
      link := link.(running := false, socket := false, connected := false, pumpTimer := false);
      RejectAll();
    }
  }
}
