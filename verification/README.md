# Converger clients and agents: a verified model

Converger keeps a conversation as a log of activities numbered 1, 2, 3, and so
on. Clients and agents in TypeScript, Go, Python and C# resume from a
watermark, resend what was not acknowledged under the same client id, and hand
turns to handlers one at a time. This project models the parts of that code on
which no loss, no duplicate and no reordering depend, and proves what they
promise, for every input, every run and every interleaving.

Each component has a value model (states, events and a step function), lemmas
about whole runs of it, and, where the code works by updating fields, a class
with those fields whose methods are proved against the step function, loops
included. Time, randomness and the network are parameters: a step is told the
time, how many frames the transport takes before it refuses one, and which
message arrives.

| module | what it models |
|---|---|
| Prefix | the unbroken run of seqs that a watermark covers, and accounts of a log |
| SessionProtocol | the resume machine of the Go and Python clients, which drops frames out of order |
| Outbox | the persistent outbox of the TypeScript client and its queue of snapshots |
| ConversationProtocol, ConversationObject | the TypeScript session: positions, connection, in-flight window, replay and timers |
| ConversationReceive, ConversationOwn, ConversationClaims, ConversationReplay | what that session does with the log: what it shows, remembers and asks for, and a replay |
| ConversationSend, ConversationCalls, ConversationOutbox, ConversationStorage | what it does with sends: what is written and when, what callers are told, and what is stored |
| ServerLog | the deduplicating server of the agent test kit |
| ExactlyOnce, SendText | session, storage, network and server together, with crashes and restarts |
| DurableSends, LateMerge, Rewrites, Convergence | when a stored send can be lost or sent again, and that everything can always be delivered |
| Simulation | both clients side by side |
| AgentSends, AgentConservation, AgentOrder, AgentEvents, AgentLosses, AgentRate, AgentObject | the outbound queue of the TypeScript agent |
| Pacing | token buckets, and the sleeping one of the Python agent |
| TurnDispatch, Shutdown | the turn dispatcher of the Go and .NET agents, and how the .NET agent ends |
| Recency, DuplicateFilter | the bounded duplicate filter of the TypeScript agent |
| GoSocket | the pending sends of the Go socket |
| SseSplitter, SseAcks | the buffer loop and the ack race of the Server-Sent Events transport |
| WatermarkCodec | decimal and opaque watermarks in TypeScript and Go |

Where the code falls short of what one would expect, the model follows the code,
the exact condition is proved, and a run from the initial state shows the case:

- The key of the store of the TypeScript session is set before what is stored
  under it has been loaded, and a send in between queues a snapshot that holds
  only that send (`packages/client-ts/src/storage/outbox.ts:86-92`,
  `packages/client-ts/src/conversation.ts:281-331`). Once such a snapshot
  reaches the storage, a send that another process had stored can be lost. This
  is the only way: `StoredLostIffEarly` and `StoredLostAtOnceIffUnread` give the
  conditions in every reachable state, `StoredStaysIffNoneDisplaced` the one over
  whole runs, and `SendBeforeLoadLosesStored` and `StartOverStoredLosesIt` the
  runs.
- start() of the TypeScript session receives before the attach has loaded the
  outbox (`packages/client-ts/src/conversation.ts:672-680`). A turn of a stored
  send that is replayed in between is emitted as another participant's, and the
  send is written again although the log holds it; the server recognises it.
  `MergedSettledIffNotGoneBy` gives the condition, `LateMergeIsSentAgain` a run,
  and `LostAcksAreSettled` what holds for all the other sends.
- The attach of the TypeScript session merges every stored send that is not in
  the outbox at that moment, one that was settled while it loaded included
  (`packages/client-ts/src/storage/outbox.ts:75-77`). Such a send is written a
  second time on the same connection, and one whose caller was told that it had
  failed comes back. `FlushDiscipline` and `RewritesAreExact` give the condition,
  `RejectedReturnsIffBrought` that for rejected sends, and
  `SettledSendIsWrittenAgain` and `RejectedSendIsWrittenAgain` the runs.
- The close handler of the TypeScript session clears the gap timer but keeps its
  handle (`packages/client-ts/src/conversation.ts:494-500`), so a session that
  loses its connection while the timer is armed never asks for a gap through
  that timer again, although a missing seq is promised a sync after a wait.
  `GapAskedIffTimerUsable`, `DropStopsGapDetection` and `GapDetectionStaysOff`
  say when and for how long, and `GapDetectionLostFromStart` gives a run. A
  replay on reconnect still closes the gap.
- The window of the TypeScript agent is a map by conversation and client id: a
  second send under a key in the window replaces the first, which nothing
  settles any more (`WriteLosesIffKeyInWindow`, `LostStaysLost`,
  `ReusedKeyLosesSend`). In the .NET agent and the Go socket a reused id cuts the
  first caller off until its timeout, which then removes the entry of the second
  (`SendCutsOffIffKeyWaits`, `ReusedKeyCutsOffBoth`, `ReusedIdCutsOffBoth`); and
  the Go socket writes a reused id twice at the next welcome
  (`ResentTwiceIffIdInOrder`, `ReusedIdIsResentTwice`).
- A send of the TypeScript agent that waits in a retry timer when the agent
  stops is neither resolved nor rejected (`StopLeavesOnlyRetries`,
  `StopLeavesRetryUnsettled`), although stop documents that pending sends are
  rejected.
- The Server-Sent Events transport forgets an activity after 500 newer ones; an
  answer to a POST that comes later produces no ack until the activity arrives
  again (`OneAckOrNone`, `KnownIffFewerThanLimit`).
- The TypeScript watermark parser stops at 16 digits, the Go one at 18; and it
  returns a JavaScript number, so that above 2^53 it reads odd seqs as their
  neighbour divisible by four (`OpaqueRoundTrips`, `ClientsAgree`,
  `FirstMisreadSeq`). Outside the url alphabet each takes texts that the other
  refuses (`ClientsDifferIffOneTakes`).

Runs assume what the protocol assumes: client ids are not reused while they
wait, and a connection has one welcome, or at least none that sets a limit below
what is in flight. In `ExactlyOnce` the server never
answers with another conversation, and never with invalid_watermark, which the
real one sends only above its head: `GapFreeReceive` shows that no claimed
watermark is. `Converges` is about what can happen, not about what must: a
network that delivers, a server that acknowledges, a storage that answers and,
where the storage was never loaded by the running process, a restart.

## Model

| member | source | states |
|---|---|---|
| ExactlyOnce.ExactlyOnceSend | packages/client-ts/src/conversation.ts:696-848 | in every run of session, storage, network and server, with loss, repetition, reordering, late and failing reads and writes, and crashes followed by start() or resume(), the log holds no client id twice, every ack names the position of its send, an accepted send is in the outbox, in the stored snapshot or the one about to be merged, in the log, rejected or lost, and of the unresolved sends that ever were in the storage exactly those are missing there that a snapshot, queued by a later process before it had loaded them, has replaced, which are the only ones of them that can be lost |
| ExactlyOnce.GapFreeReceive | packages/client-ts/src/conversation.ts:696-760 | in every such run the current session has accounted for exactly (start, watermark] and what it holds beyond, each seq once, what it withheld from the application is an own send, and every watermark it ever claimed is within the log and accounted for up to it |
| SendText.TextIsKept | packages/client-ts/src/conversation.ts:306-331 | in every such run every copy of an accepted send has the text that send was given: in the outbox, in each stored or queued snapshot and in the one about to be merged, in every frame ever written, and in the log |
| SendText.EventSpeaks | packages/client-ts/src/conversation.ts:320-331 | from any state, whatever an event keeps, stores or writes has a text that the session was given for that id |
| ExactlyOnce.LeavesOnlyWhenResolved | packages/client-ts/src/conversation.ts:712-746 | in a reachable state a send leaves the outbox only if the log holds it or this event rejects it for good |
| ExactlyOnce.SendResultIsPosition | packages/client-ts/src/conversation.ts:726-746 | in a reachable state the result handed to the caller of send is the position of that client id in the log |
| ExactlyOnce.ReplaySettlesStoredSends | packages/client-ts/src/conversation.ts:660-718 | in a reachable state, a welcome with the head and an in-order replay, with sends, timers, heartbeats, the attach, retryable errors and final ones of other sends in between, settle every unacknowledged send that the log holds and the session misses, with its position, and leave none of them written again or in the outbox, except those that the attach merges after their turns have been accounted for |
| ExactlyOnce.StepKeepsInv | packages/client-ts/src/conversation.ts:594-848 | one step of the system, whichever it is, keeps the invariant behind these results |
| ExactlyOnce.WriteShifts | packages/client-ts/src/storage/outbox.ts:160-173 | a finished write moves the oldest queued snapshot into the storage, a refused one drops it, and the others keep their order |
| ExactlyOnce.ReadKeepsInv | packages/client-ts/src/storage/outbox.ts:68-84 | the storage may answer a load at any time, with an error or with what it holds then |
| ExactlyOnce.LoadKeepsInv | packages/client-ts/src/conversation.ts:287-299 | resume() goes on with the merged outbox and the stored watermark of its conversation, after any sends made before |
| ExactlyOnce.CrashKeepsOutgoing | packages/client-ts/src/conversation.ts:264-287 | a crash and a new process, by start() with or without the id or by resume(), lose only what is not in the stored snapshot |
| ExactlyOnce.CrashKeepsRest | packages/client-ts/src/conversation.ts:264-287 | and the new process claims nothing that was not accounted for |
| DurableSends.StoredLostIffEarly | packages/client-ts/src/storage/outbox.ts:68-92 | in every reachable state with writes pending, a stored and unresolved send is lost by the end of the next write and a crash if and only if that write was queued before its process had loaded the storage and another process had accepted the send |
| DurableSends.StoredLostAtOnceIffUnread | packages/client-ts/src/storage/outbox.ts:68-92 | and is lost by that write alone if and only if, besides, the storage has neither been loaded nor answered the load |
| DurableSends.CrashLosesIffReplaced | packages/client-ts/src/storage/outbox.ts:68-92 | in every reachable state a crash loses, of the unresolved sends that ever were in the storage, exactly the replaced ones |
| DurableSends.StoredStaysIffNoneDisplaced | packages/client-ts/src/storage/outbox.ts:86-92 | over a whole run: every unresolved send that ever was in the storage is there all the time, and none that ever was there is lost, if and only if no snapshot queued before the load reaches the storage while that holds an unresolved send of another process |
| DurableSends.SendBeforeLoadLosesStored | packages/client-ts/src/conversation.ts:287-331 | a run from the beginning in which a send made before resume() has loaded replaces a stored one |
| DurableSends.StartOverStoredLosesIt | packages/client-ts/src/conversation.ts:264-269 | a run from the beginning in which start() joins a stored conversation and a send during the attach replaces the stored one |
| Convergence.Converges | packages/client-ts/src/conversation.ts:162-175 | from every reachable state that is not stopped some run leads to an empty outbox and to the watermark at the head, with every accepted send in the log unless it was rejected or lost before, and none rejected or lost on the way |
| Convergence.DeliverOne | packages/client-ts/src/conversation.ts:834-848 | from a connected state whose load is over, with a send in the outbox, some run delivers it and takes it out |
| Convergence.CatchUp | packages/client-ts/src/conversation.ts:696-718 | from a connected state whose load is over, whatever is in the outbox, some run brings the watermark to the head |
| LateMerge.MergedSettledIffNotGoneBy | packages/client-ts/src/conversation.ts:660-718 | a send that the attach merges during a replay is settled by the rest of it, when no ack and no final error names it, if and only if its turn had not been accounted for at the merge; otherwise it stays in the outbox and nobody is told |
| LateMerge.MergedIsDue | packages/client-ts/src/storage/outbox.ts:86-92 | in a reachable state what the attach adds to the outbox is due at the next flush, whether the log holds it or not |
| LateMerge.LateMergeIsSentAgain | packages/client-ts/src/conversation.ts:660-681 | a run from the beginning in which start() gets the turn of a stored send in the replay before the attach has loaded it: the turn is emitted as a foreign one and the send is written again |
| ConversationReceive.WatermarkIsContiguousPrefix | packages/client-ts/src/conversation.ts:696-760 | in every run nothing in seen is at or below watermark + 1, the seqs accounted for since the last reset are (start, watermark] and seen, each once, no hello or sync claims more, and until the first reset ownSeqs is a subset of seen |
| ConversationReceive.EmittedUnlessOwn | packages/client-ts/src/conversation.ts:696-709 | until the first reset an activity is emitted if and only if its seq is new and it is not the turn of an outbox entry or of an acknowledged send |
| ConversationReceive.InboxOf | packages/client-ts/src/conversation.ts:748-760 | which positions any event changes, and that no other event changes them |
| ConversationReceive.ClaimsOf | packages/client-ts/src/conversation.ts:436-447 | every hello and sync sent at an event names at most the watermark after it: the truncated, unavailable and gap-timer paths included |
| ConversationReceive.StepIsSafe | packages/client-ts/src/conversation.ts:696-820 | each event keeps the tally of accounted seqs against the positions, across resets |
| ConversationClaims.AsksForAllItMisses | packages/client-ts/src/conversation.ts:405-447 | in every run, and for every event after it, the session sends exactly these hello and sync frames: on connecting one hello that claims all that is known without a gap since the last reset, or nothing when no conversation was named; at a truncated replay, at a gap and after a replay that failed a sync from there, or from an earlier point that the server named; after a reset one from 0; and none at any other event; and it says when the gap timer is set and up to which seq a replay is awaited |
| ConversationClaims.SessionStands | packages/client-ts/src/conversation.ts:405-526 | in every run the session is stopped, connected and in the state it shows as the events made it, in the conversation that was named last |
| ConversationClaims.StartsOverIff | packages/client-ts/src/conversation.ts:638-645 | in every run the session starts over from 0 exactly when a welcome names another conversation than the one named last, or the server does not know the watermark of a hello or sync; and forgets nothing otherwise |
| ConversationOwn.OwnTurnsStayHidden | packages/client-ts/src/conversation.ts:726-731 | in every run in which the server gives each send another id the session remembers exactly the last thousand ids of its settled sends, and shows no activity with one of them, whatever resets there were |
| ConversationOwn.OwnSeqsAreHeld | packages/client-ts/src/conversation.ts:726-760 | in every run it remembers exactly the seqs of own sends that were settled above the watermark and that the watermark has not passed since |
| ConversationOwn.HeldTurnIsHidden | packages/client-ts/src/conversation.ts:696-709 | an activity with such a seq that the watermark does not pass is not shown |
| ConversationSend.FlushWritesOldestDue | packages/client-ts/src/conversation.ts:834-848 | a flush writes, in outbox order, the oldest entries that are neither in flight nor waiting for a retry, as many as window and transport take, and nothing when not open or replaying |
| ConversationCalls.SendsFollowEvents | packages/client-ts/src/conversation.ts:306-331 | in every run, and for every event after it, the sends are taken, delayed, ended and written, and their callers told, exactly as the two rows below say |
| ConversationCalls.EventCarries | packages/client-ts/src/conversation.ts:777-848 | which sends an event takes, delays, gives back and ends, in which order the rest wait, with the limit of the welcome and the delay of the error; and that then, on a welcomed connection that awaits no replay, the oldest due ones are written, as many as fit, counted and in flight |
| ConversationCalls.EventTells | packages/client-ts/src/conversation.ts:306-331 | a caller is told exactly this: a refusal at once when the session has failed for good or the id is malformed or waits, and a taken send once its ack, its own turn or a final error comes and it still waits |
| ConversationCalls.DelayIsWaitedOut | packages/client-ts/src/conversation.ts:782-786 | a send that the server put off until a time is written by no run of earlier events in which the server does not speak of it, reconnects and replays included |
| ConversationSend.FlushDiscipline | packages/client-ts/src/conversation.ts:834-848 | in every run in which no welcome sets a limit below what is in flight, which the first one of a connection never does, a client id is written again on a connection only if, since it was last written there, a retryable error gave it back, the attach merged it into the outbox again or a caller used it for another send, in-flight sends never exceed maxInFlight, and nothing is written while a replay is awaited |
| ConversationSend.EventIsClean | packages/client-ts/src/conversation.ts:494-526 | each event, closing and any attach included, keeps that discipline |
| Rewrites.RewritesAreExact | packages/client-ts/src/storage/outbox.ts:68-92 | in every such run the exception is exact: of what was written on a connection and not given back, an attach makes due again exactly what the answer of the storage holds and the outbox does not |
| Rewrites.WrittenAgainIffRemerged | packages/client-ts/src/conversation.ts:672-681 | an attach that ends on an open connection with room writes a second time exactly those |
| ConversationSend.FirstWelcomeIsProper | packages/client-ts/src/conversation.ts:638-681 | nothing is in flight at the first welcome of a connection |
| Rewrites.PossibleIsProper | packages/client-ts/src/conversation.ts:594-681 | in every reachable state of the whole system the discipline assumes nothing of an event but that a welcome sets no limit below what is in flight |
| Rewrites.SettledSendIsWrittenAgain | packages/client-ts/src/storage/outbox.ts:68-92 | a run from the beginning over one connection: a send is acknowledged while the attach loads, the answer still holds it, and it is written a second time |
| Rewrites.RejectedReturnsIffBrought | packages/client-ts/src/conversation.ts:777-797 | in every reachable state a rejected send gets into the outbox again at exactly the steps that merge it from the answer of the storage, and first onto the wire at no other |
| Rewrites.RejectedStoredIffWritten | packages/client-ts/src/conversation.ts:777-797 | in every reachable state a message of a rejected send can still be stored if and only if a frame with its id and text was ever written |
| Rewrites.RejectedSendIsWrittenAgain | packages/client-ts/src/conversation.ts:777-797 | a run from the beginning: a send is reported as failed, a copy of it may still be stored, and the attach writes it again |
| ConversationReplay.LostAcksAreSettled | packages/client-ts/src/conversation.ts:660-718 | an unacknowledged turn in (watermark, replay target] of an in-order replay, with acks, sends, timers, heartbeats, the attach, retryable errors and final ones of other sends in between, is settled with its position, and is neither resent nor left in the outbox unless the attach merges it after it has been accounted for |
| ConversationReplay.ReplayReachesHead | packages/client-ts/src/conversation.ts:660-718 | such a replay ends with the watermark at the head and nothing beyond, accounts for exactly the missing seqs, once each, and emits exactly those of them that are not own, in order |
| ConversationReplay.GapAskedIffTimerUsable | packages/client-ts/src/conversation.ts:766-775 | a session that learns it is behind asks for a replay when the gap timer is due if and only if the timer handle is not stale |
| ConversationReplay.DropStopsGapDetection | packages/client-ts/src/conversation.ts:494-500 | a connection lost while the gap timer is armed leaves its handle set, so the next connection has no usable gap timer |
| ConversationReplay.GapDetectionStaysOff | packages/client-ts/src/conversation.ts:766-775 | from then on no run of events makes the gap timer ask again |
| ConversationReplay.GapDetectionLostFromStart | packages/client-ts/src/conversation.ts:494-500 | a run from a new session that leads there: welcome, heartbeat above the watermark, lost connection, welcome |
| ConversationOutbox.EventOutcome | packages/client-ts/src/conversation.ts:696-846 | an event, resets included, takes a send out of the outbox only through an ack that names it, its own turn or a final error, adds one only by send or from storage, and queues no snapshot without a send that is still unacknowledged |
| ConversationOutbox.IdentityOf | packages/client-ts/src/conversation.ts:638-681 | only a welcome names the conversation or moves the store to its key |
| Outbox.OperationsMirror | packages/client-ts/src/storage/outbox.ts:106-173 | each store operation and each finished write keep the journal in step: once all pending writes are done the storage holds what memory holds |
| Outbox.PersistedMirrors | packages/client-ts/src/storage/outbox.ts:160-173 | a persist makes the journal end with the state in memory, whatever was pending |
| Outbox.ReloadRestores | packages/client-ts/src/storage/outbox.ts:68-92 | with no write pending, loading the stored snapshot gives back exactly the store |
| ConversationStorage.EventStores | packages/client-ts/src/storage/outbox.ts:106-173 | from any state, a change of outbox or position by an event is the last snapshot on its way to the storage, an attach stores what it merged in any case, and the saved position stays the current one |
| ConversationStorage.StorageFollows | packages/client-ts/src/storage/outbox.ts:160-173 | a session in step with its storage stays so in every run, and an attach brings it in step: once all writes have gone through, the storage holds the outbox and the position of memory |
| ConversationStorage.PositionIsSaved | packages/client-ts/src/conversation.ts:893-901 | in every run, once a welcome has named the conversation, the store is the one of that conversation and the position saved in it is the conversation with all that is known without a gap |
| ConversationStorage.SavesOnce | packages/client-ts/src/storage/outbox.ts:127-139 | saving the same position again writes nothing |
| ConversationStorage.ResumesFrom | packages/client-ts/src/conversation.ts:281-300 | the first hello of a resumed session claims the watermark that its caller gave, or else the stored one if it is of this conversation, or else 0 |
| Outbox.RemovedIds | packages/client-ts/src/storage/outbox.ts:119-125 | removing takes out one entry, keeps the order of the rest and keeps ids distinct |
| Outbox.TouchedIds | packages/client-ts/src/storage/outbox.ts:111-117 | touching changes no id and no order |
| Outbox.ConversationStore.constructor | packages/client-ts/src/storage/outbox.ts:51-61 | an empty store of a conversation |
| Outbox.ConversationStore.Persist | packages/client-ts/src/storage/outbox.ts:160-173 | queues one snapshot of the current state behind the pending ones, or none without a key |
| Outbox.ConversationStore.Get | packages/client-ts/src/storage/outbox.ts:102-104 | finds the entry of a client id, or nothing |
| Outbox.ConversationStore.Add | packages/client-ts/src/storage/outbox.ts:106-109 | appends and queues a snapshot |
| Outbox.ConversationStore.Touch | packages/client-ts/src/storage/outbox.ts:111-117 | counts an attempt and queues a snapshot, if the entry is there |
| Outbox.ConversationStore.Remove | packages/client-ts/src/storage/outbox.ts:119-125 | removes in place and queues a snapshot, if the entry is there |
| Outbox.ConversationStore.SetState | packages/client-ts/src/storage/outbox.ts:127-139 | keeps the resume state and queues a snapshot |
| Outbox.ConversationStore.Load | packages/client-ts/src/storage/outbox.ts:68-84 | merges the stored entries that are not known in front of the known ones |
| ConversationObject.Conversation.constructor | packages/client-ts/src/conversation.ts:215-229 | a session at a given watermark, whose accounts are empty |
| ConversationObject.Conversation.SaveState | packages/client-ts/src/conversation.ts:893-901 | stores the resume state once the conversation is known |
| ConversationObject.Conversation.Advance | packages/client-ts/src/conversation.ts:748-758 | the loop that moves the watermark over the run of seen seqs ends at the end of that run and forgets exactly what it passed |
| ConversationObject.Conversation.MarkSeen | packages/client-ts/src/conversation.ts:748-760 | marks a seq, advances, and saves when the watermark moved |
| ConversationObject.Conversation.Settle | packages/client-ts/src/conversation.ts:726-746 | settles a send and reports it when it was known |
| ConversationObject.Conversation.Flush | packages/client-ts/src/conversation.ts:834-848 | the loop over the outbox writes what the recursive flush writes |
| ConversationObject.Conversation.EndReplay | packages/client-ts/src/conversation.ts:688-694 | ends the replay and flushes |
| ConversationObject.Conversation.CheckGap | packages/client-ts/src/conversation.ts:766-775 | arms the gap timer under the stated conditions |
| ConversationObject.Conversation.OnWelcome | packages/client-ts/src/conversation.ts:638-681 | joins, saves, and opens behind the head or not |
| ConversationObject.Conversation.OnPersistent | packages/client-ts/src/conversation.ts:696-709 | handles a log frame: duplicate, own turn, emission, end of replay, gap |
| ConversationObject.Conversation.Receive | packages/client-ts/src/conversation.ts:696-718 | the part of it before replay and gap |
| ConversationObject.Conversation.OnAck | packages/client-ts/src/conversation.ts:720-724 | marks, settles and flushes |
| ConversationObject.Conversation.OnError | packages/client-ts/src/conversation.ts:777-828 | send errors, replay_unavailable and invalid_watermark |
| ConversationObject.Conversation.OnSendError | packages/client-ts/src/conversation.ts:777-797 | retry later, or fail the send |
| ConversationObject.Conversation.OnFrame | packages/client-ts/src/conversation.ts:594-636 | dispatches every kind of frame; keeps the tally of the accounted seqs |
| ConversationObject.Conversation.SendText | packages/client-ts/src/conversation.ts:307-331 | accepts a send, or refuses a bad, reused or late one; keeps the tally of the accounted seqs |
| ConversationObject.Conversation.OpenConnection | packages/client-ts/src/conversation.ts:405-447 | opens a transport and says hello from the watermark; keeps the tally of the accounted seqs |
| ConversationObject.Conversation.OnClose | packages/client-ts/src/conversation.ts:494-526 | forgets what was in flight, keeps the outbox, and stops for good or reconnects; keeps the tally of the accounted seqs |
| ConversationObject.Conversation.OnAttached | packages/client-ts/src/conversation.ts:672-681 | merges the stored outbox of the conversation and flushes; keeps the tally of the accounted seqs |
| ConversationObject.Conversation.OnGapTimer | packages/client-ts/src/conversation.ts:766-775 | asks for the gap if it is still there; keeps the tally of the accounted seqs |
| ConversationObject.Conversation.OnSyncTimer | packages/client-ts/src/conversation.ts:799-810 | asks again after replay_unavailable, from the lower of the two watermarks; keeps the tally of the accounted seqs |
| ConversationObject.Conversation.OnConnectFailed | packages/client-ts/src/conversation.ts:413-425 | gives up or tries again when no transport could be opened; keeps the tally |
| ConversationObject.Conversation.Disconnect | packages/client-ts/src/conversation.ts:370-382 | ends the session and keeps the outbox; keeps the tally |
| ConversationObject.Conversation.OnReplayTimer | packages/client-ts/src/conversation.ts:683-694 | ends a replay that takes too long and flushes; keeps the tally |
| ConversationObject.Conversation.OnRetryTimer | packages/client-ts/src/conversation.ts:850-859 | flushes when a retry is due; keeps the tally |
| ConversationObject.Conversation.OnLoaded | packages/client-ts/src/conversation.ts:281-300 | takes over the stored outbox and the stored or given watermark before the first connection, and begins the tally there |
| SessionProtocol.SessionSafety | packages/client-go/session.go:65-157 | after any sequence of frames, connections and due syncs the seqs accounted for since the last reset are exactly (start, watermark] and the acked ones beyond, each once, by one delivery or one ack, deliveries in increasing order, and every watermark that a hello, a sync or a scheduled sync named was the end of what was accounted for without a gap at that time |
| SessionProtocol.NoSilentGap | packages/client-go/session.go:107-126 | a frame or heartbeat that shows a missing seq leaves a sync sent or outstanding |
| SessionProtocol.HandsOver | packages/client-go/session.go:86-157 | of the log exactly the next frame reaches the application, once and as it came, and of the rest everything but acks, heartbeats and token frames |
| SessionProtocol.AccountsFor | packages/client-go/session.go:101-124 | an event accounts for the next frame of the log by its delivery, for any other new seq by its ack, and for nothing else |
| SessionProtocol.AsksFor | packages/client-go/session.go:115-152 | a session asks at a truncated replay always, at a gap unless it has asked already, from 0 when its watermark is refused, and later, with the delay it is told, when the server cannot replay now; always from the end of what is accounted for, and at no other frame |
| SessionProtocol.StartsOverIff | packages/client-go/session.go:93-100 | in every run a session starts over from 0 exactly when a welcome names another conversation than the last one named, or its watermark is refused |
| SessionProtocol.ReplayAccountsForAll | packages/client-go/session.go:107-124 | from any safe state an in-order replay that starts at or below the watermark, with acks in between, accounts for everything up to its end and sends no sync |
| SessionProtocol.ReplayReachesHead | packages/client-go/session.go:107-124 | a replay to the head ends with watermark head and adds exactly the unaccounted seqs, once each and in order |
| SessionProtocol.TruncatedReplaysTerminate | packages/client-go/session.go:125-132 | each truncated round moves the watermark at least one closer to the head and asks once for the next |
| SessionProtocol.RunStaysSafe | packages/client-python/src/converger/protocol/session.py:53-120 | every run from a safe state, of the Python machine as of the Go one, ends in a safe state, across resets |
| SessionProtocol.Session.constructor | packages/client-go/session.go:35-37 | a session at a watermark |
| SessionProtocol.Session.Hello | packages/client-go/session.go:40-49 | hello claims the watermark |
| SessionProtocol.Session.Advance | packages/client-go/session.go:65-76 | the two loops compute the end of the run of acked seqs and drop what it covers |
| SessionProtocol.Session.Sync | packages/client-go/session.go:78-83 | one sync until it is answered |
| SessionProtocol.Session.OnFrame | packages/client-go/session.go:86-157 | every frame, against the step function |
| SessionProtocol.Session.OnErrorFrame | packages/client-go/session.go:133-152 | error frames, against the step function |
| Simulation.SessionNeverAhead | packages/client-go/session.go:86-124 | fed the same log frames and acks, and whatever else happens to each, everything the Go session has accounted for the TypeScript one has too, so its watermark never exceeds the other |
| Simulation.ConversationMayBeAhead | packages/client-ts/src/conversation.ts:748-760 | the converse fails for every frame out of order: one remembers it, the other drops it |
| ConversationReceive.EventAccounts | packages/client-ts/src/conversation.ts:696-760 | an event that is no reset adds at most its own seq to the accounted ones and removes none |
| Simulation.SessionAccounts | packages/client-go/session.go:86-124 | a session accounts for at most the seq of the frame |
| ServerLog.HandlingIsConsistent | packages/agent-ts/src/testing/index.ts:354-382 | whatever arrives, the log stays numbered by position, the keys stay exactly its client ids, it only grows, an ack names the stored position, and an injected error names its message and stores nothing |
| ServerLog.HandlingAppends | packages/agent-ts/src/testing/index.ts:265-274 | a message adds at most one activity, with the next seq, the id it was given, and the client id, sender and text of the message |
| ServerLog.StoredOnce | packages/agent-ts/src/testing/index.ts:354-382 | a consistent log holds no client id twice |
| ServerLog.ReplayIsRestOfLog | packages/agent-ts/src/testing/index.ts:384-388 | the filtered replay is the suffix of the log after the watermark |
| ServerLog.FakeServer.constructor | packages/agent-ts/src/testing/index.ts:265-274 | an empty server |
| ServerLog.FakeServer.Store | packages/agent-ts/src/testing/index.ts:265-274 | appends with the next seq |
| ServerLog.FakeServer.OnMessage | packages/agent-ts/src/testing/index.ts:354-382 | stores or recognises a message and answers it, keeping the log consistent |
| ServerLog.FakeServer.Replay | packages/agent-ts/src/testing/index.ts:384-388 | the loop yields the filtered log |
| AgentConservation.SendsAreConserved | packages/agent-ts/src/agent.ts:427-477 | in every run each accepted send is in exactly one of queue, window, retry timers, settled and dropped, the last empty while running; the window never exceeds maxInFlight; an ack settles only its own key; a settlement is final |
| AgentConservation.WriteLosesIffKeyInWindow | packages/agent-ts/src/agent.ts:824-862 | writing a send loses another one exactly when that one is in the window under the same key |
| AgentLosses.OutOfReach | packages/agent-ts/src/agent.ts:803-906 | an accepted send that is in no queue, window or retry timer is moved or settled by no run, whatever keys are reused |
| AgentLosses.LostStaysLost | packages/agent-ts/src/agent.ts:803-906 | what is in no place is in no place after every run |
| AgentLosses.ReusedKeyLosesSend | packages/agent-ts/src/agent.ts:803-862 | a run from the start in which a second message under a waiting key makes the first one vanish for good |
| AgentLosses.StopLeavesRetryUnsettled | packages/agent-ts/src/agent.ts:308-342 | a run from the start in which a send in a retry timer when the agent stops is never settled |
| AgentConservation.StopLeavesOnlyRetries | packages/agent-ts/src/agent.ts:308-342 | stopping rejects everything but the sends in retry timers, which are dropped when their timer fires |
| AgentConservation.EventKeepsInv | packages/agent-ts/src/agent.ts:803-906 | each event keeps the conservation of sends |
| AgentConservation.SettlementsHaveACause | packages/agent-ts/src/agent.ts:803-906 | a send is resolved with an ack only at an ack and with its key, rejected only at an error, the expiry check, a fatal close or the stop, and otherwise settled only without an answer |
| AgentConservation.QueueSweptIsFilter | packages/agent-ts/src/agent.ts:888-894 | splicing from the end leaves the queue without exactly the sends that leave, in order |
| AgentConservation.FlightSweptIsFilter | packages/agent-ts/src/agent.ts:895-904 | the expiry check keeps in the window exactly the sends on time and puts the late ones in front of the queue, the last first |
| AgentConservation.BySentAtHolds | packages/agent-ts/src/agent.ts:433-435 | what goes out again after a welcome is ordered by the time of writing |
| AgentConservation.BySentAtCounts | packages/agent-ts/src/agent.ts:433-435 | and is a permutation of the window |
| AgentRate.PumpIsWithinRate | packages/agent-ts/src/agent.ts:824-862 | in every run with a monotone clock the frames written in a window of ms milliseconds number at most fps + fps * ms / 1000 |
| AgentRate.PumpUsesItsRate | packages/agent-ts/src/agent.ts:837-852 | in every run with a monotone clock the frames written since some time at which the bucket was full and the tokens left are together exactly fps + fps * ms / 1000 |
| AgentOrder.FirstWritesInOrder | packages/agent-ts/src/agent.ts:803-862 | in every run, whatever keys are used, sends are written for the first time in the order in which they were accepted, those in the queue that were never written are in that order after all that were, and a send that waits anywhere has the key, kind and deadline of its request, as many attempts as it was written, and the time of the last write |
| AgentEvents.EventMeans | packages/agent-ts/src/agent.ts:803-906 | what each event means, from any state: the line in which sends go out after it, of which a first part is written at once; what it settles, how and in which order; what waits for a retry; that nothing is written without a connection or in a pause; and that the pump rests only with nothing to write, a full window, no token, a pause or a full socket |
| AgentEvents.AgentStands | packages/agent-ts/src/agent.ts:383-477 | in every run whether the agent runs, has a socket and is connected is what the events made of it, the pause is the last one asked for on a socket, and it accepted exactly what it was asked for while it could take it, in that order |
| AgentEvents.WritesOnlyOnline | packages/agent-ts/src/agent.ts:824-837 | in every run nothing is written but on a connection and outside the pause that was last asked for |
| AgentEvents.NeverStalls | packages/agent-ts/src/agent.ts:824-862 | in every run with a socket that takes what it is given, a connected agent has nothing to write, a full window, or a timer set to write |
| AgentObject.Agent.constructor | packages/agent-ts/src/agent.ts:226-250 | a started agent that conserves its sends |
| AgentObject.Agent.Pump | packages/agent-ts/src/agent.ts:824-862 | refills the bucket and writes from the head of the queue |
| AgentObject.Agent.WriteQueue | packages/agent-ts/src/agent.ts:839-861 | the loop writes until queue, window, tokens or socket stop it |
| AgentObject.Agent.OnPumpTimer | packages/agent-ts/src/agent.ts:845-852 | pumps when the wait for tokens or the pause is over; keeps conservation |
| AgentObject.Agent.Enqueue | packages/agent-ts/src/agent.ts:803-822 | queues a send, or turns it away; keeps conservation unless the key waits |
| AgentObject.Agent.OnAck | packages/agent-ts/src/agent.ts:569-578 | settles the send of the key; keeps conservation |
| AgentObject.Agent.OnSendError | packages/agent-ts/src/agent.ts:864-884 | retries up to six attempts, or rejects; keeps conservation |
| AgentObject.Agent.OnRetryTimer | packages/agent-ts/src/agent.ts:874-878 | puts the send first again, or drops it when stopped; keeps conservation |
| AgentObject.Agent.SweepQueue | packages/agent-ts/src/agent.ts:886-894 | the splicing loop, from the end, settles exactly the sends that leave |
| AgentObject.Agent.SweepInflight | packages/agent-ts/src/agent.ts:895-904 | rejects overdue sends and puts late ones first in the queue |
| AgentObject.Agent.Tick | packages/agent-ts/src/agent.ts:886-906 | both sweeps, then the pump; keeps conservation |
| AgentObject.Agent.OnWelcome | packages/agent-ts/src/agent.ts:427-441 | unacknowledged sends go out again first; keeps conservation |
| AgentObject.Agent.RejectAll | packages/agent-ts/src/agent.ts:473-474 | rejects queue and window |
| AgentObject.Agent.OnClose | packages/agent-ts/src/agent.ts:443-477 | drops transient frames, and everything when it is fatal; keeps conservation |
| AgentObject.Agent.Stop | packages/agent-ts/src/agent.ts:327-341 | ends the agent; keeps conservation |
| Pacing.PaceIsWithinRate | packages/agent-python/src/converger_agent/agent.py:447-461 | however callers come, the frames let go in a window of length t number at most max(1, rate / 3) + rate * t |
| Pacing.PaceWaitsOnlyWhenSpent | packages/agent-python/src/converger_agent/agent.py:447-461 | however callers come, a call waits only if, since the bucket was last full or a sleep last ended, all that it held and earned is spent on the frames let go since then, but for less than one token |
| Pacing.PacedKeepsPaid | packages/agent-python/src/converger_agent/agent.py:453-461 | one pass through the lock, sleeping or not, never gives out more than was earned |
| Pacing.Agent.constructor | packages/agent-python/src/converger_agent/agent.py:213-215 | a full bucket |
| Pacing.Agent.Pace | packages/agent-python/src/converger_agent/agent.py:447-461 | updates tokens and time as specified; no pacing without a rate |
| TurnDispatch.TurnsRunOnceInOrder | packages/agent-go/agent.go:415-511 | in every interleaving the turns handled and running of a conversation are, in order, a first part of the turns that its frames brought, those above all marks before them while the agent was not stopped; while it is not stopped the rest waits with a drain that serves it; and two handlers of a conversation never run at once |
| TurnDispatch.DrainedIffStoppedAndIdle | packages/agent-dotnet/src/Converger.Agent/ConvergerAgent.cs:650-681 | in every interleaving the agent has drained exactly when it is stopped and every drain is gone, and after the stop nothing is accepted or started |
| TurnDispatch.AcceptedIsBrought | packages/agent-go/agent.go:415-424 | what a conversation has accepted after each step of a run is exactly what its frames have brought: the turns above every mark before them, in order, until the stop |
| TurnDispatch.QueuesRunWhileServed | packages/agent-go/agent.go:479-511 | in every interleaving a queue is marked as running exactly while a drain that has not given it up serves it |
| TurnDispatch.DrainHandlesAll | packages/agent-go/agent.go:496-511 | from every state of a run that is not stopped, a drain that goes on taking the lock handles exactly what waits in its conversation, in order, and leaves nothing waiting |
| TurnDispatch.StoppedCanDrain | packages/agent-dotnet/src/Converger.Agent/ConvergerAgent.cs:650-681 | from every stopped state of a run the steps of the drains that are left lead to a drained agent |
| TurnDispatch.StepKeepsInv | packages/agent-dotnet/src/Converger.Agent/ConvergerAgent.cs:551-681 | each locked region keeps ownership, order and count |
| TurnDispatch.Agent.constructor | packages/agent-go/agent.go:164-189 | an idle dispatcher with the given watermarks |
| TurnDispatch.Agent.EnqueueLocked | packages/agent-go/agent.go:479-494 | appends to the queue and starts a drain if none runs |
| TurnDispatch.Agent.Dispatch | packages/agent-go/agent.go:415-424 | drops duplicates, moves the mark, enqueues turns, and keeps the invariant |
| TurnDispatch.Agent.DrainStep | packages/agent-go/agent.go:496-511 | takes the next turn or gives the queue up, and keeps the invariant |
| TurnDispatch.Agent.DrainExit | packages/agent-dotnet/src/Converger.Agent/ConvergerAgent.cs:670-680 | counts down and completes the drain |
| TurnDispatch.Agent.Stop | packages/agent-dotnet/src/Converger.Agent/ConvergerAgent.cs:815-839 | stops, and completes at once when idle |
| Shutdown.NothingPendingOnReturn | packages/agent-dotnet/src/Converger.Agent/ConvergerAgent.cs:158-186 | in every interleaving, when RunAsync returns the agent is stopped, no drain is left, and every send and ask ever registered is answered, failed or given up by its caller |
| Shutdown.SendCutsOffIffKeyWaits | packages/agent-dotnet/src/Converger.Agent/ConvergerAgent.cs:724-737 | a new send puts a waiting one out of reach exactly when it has the same client id |
| Shutdown.CutOffEndsOnlyItself | packages/agent-dotnet/src/Converger.Agent/ConvergerAgent.cs:767-791 | a send that the agent holds nowhere gets no answer and no error in any run, the stop included, until its caller stops waiting |
| Shutdown.ReusedKeyCutsOffBoth | packages/agent-dotnet/src/Converger.Agent/ConvergerAgent.cs:724-791 | a run from the start: of two sends under one client id the first is cut off, and its timeout removes the entry of the second, so that even the ack ends neither |
| Shutdown.StopFailsAll | packages/agent-dotnet/src/Converger.Agent/ConvergerAgent.cs:815-839 | stopping leaves no waiting send or ask |
| Shutdown.PromiseEndsAsTold | packages/agent-dotnet/src/Converger.Agent/ConvergerAgent.cs:724-839 | in every run a send is answered exactly by its own ack and fails exactly at an error that names it or at the stop, an ask is answered exactly by a resume that names it and fails at the stop, each is given up only by its own caller, and what comes first counts |
| Shutdown.StepTurns | packages/agent-dotnet/src/Converger.Agent/ConvergerAgent.cs:551-681 | the turns of the agent go on as the dispatcher says and stop with it; sends and asks do not touch them |
| DuplicateFilter.FilterRefinesSet | packages/agent-ts/src/watermarks.ts:54-79 | in every run record answers fresh exactly when the seq is no duplicate: none twice, and an unseen one above the start refused only below a seq that 512 larger ones pushed out |
| DuplicateFilter.TrackedAreMostRecent | packages/agent-ts/src/watermarks.ts:94-101 | in every run a conversation is tracked if and only if it was touched and fewer than capacity others were touched since |
| DuplicateFilter.SeenIffDuplicate | packages/agent-ts/src/watermarks.ts:54-58 | window and floor answer as the unbounded set does |
| DuplicateFilter.RecordedRemembers | packages/agent-ts/src/watermarks.ts:61-79 | recording keeps the largest 512 seqs and the largest forgotten one |
| DuplicateFilter.WatermarkTracker.constructor | packages/agent-ts/src/watermarks.ts:36-41 | a tracker of at least one place, with the given positions in order |
| DuplicateFilter.WatermarkTracker.MoveToEnd | packages/agent-ts/src/watermarks.ts:94-101 | the eviction loop leaves the most recent ones |
| DuplicateFilter.WatermarkTracker.Trim | packages/agent-ts/src/watermarks.ts:68-76 | the trimming loop forgets the smallest seqs |
| DuplicateFilter.WatermarkTracker.Record | packages/agent-ts/src/watermarks.ts:61-79 | answers and records |
| DuplicateFilter.WatermarkTracker.Touch | packages/agent-ts/src/watermarks.ts:89-92 | moves a tracked conversation to the end |
| GoSocket.ChannelsGetOneResult | packages/client-go/socket.go:459-484 | in every run, whatever ids callers choose, a channel gets at most one result and every pending id is in the order list |
| GoSocket.WelcomeResendsUnresolved | packages/client-go/socket.go:485-500 | in every run with new ids a welcome writes again exactly the unresolved sends, once each, in the order of submission |
| GoSocket.SendEndsAsTold | packages/client-go/socket.go:244-340 | in every run with new ids a send gets its result exactly at the first answer that names it or at the close of the socket, unless its caller has given up before |
| GoSocket.ClosedIffFinished | packages/client-go/socket.go:329-340 | in every run the socket is closed exactly when it was finished |
| GoSocket.WelcomeForgetsResolved | packages/client-go/socket.go:485-500 | in every run a welcome leaves in the order list exactly the ids that are pending, and changes nothing else |
| GoSocket.ResentTwiceIffIdInOrder | packages/client-go/socket.go:244-256 | a submission breaks that exactly when its id is still in the order list |
| GoSocket.ReusedIdIsResentTwice | packages/client-go/socket.go:485-500 | a run from the start: an id answered and submitted again before a welcome is written twice by it |
| GoSocket.CutOffEndsOnlyItself | packages/client-go/socket.go:244-272 | a send that is not pending gets no result in any run, the close included, until its caller stops waiting |
| GoSocket.ReusedIdCutsOffBoth | packages/client-go/socket.go:244-307 | a run from the start: of two sends under one id the first is cut off, and its timeout removes the entry of the second |
| GoSocket.Connection.constructor | packages/client-go/socket.go:132-166 | a socket without sends |
| GoSocket.Connection.SendMessage | packages/client-go/socket.go:246-258 | registers the send, or refuses it once closed |
| GoSocket.Connection.OnAnswer | packages/client-go/socket.go:463-484 | an ack or error resolves the pending send |
| GoSocket.Connection.Forget | packages/client-go/socket.go:303-307 | a caller that stops waiting removes what is pending under its id |
| GoSocket.Connection.OnWelcome | packages/client-go/socket.go:485-500 | the loop yields the sends to write again and compacts the list |
| GoSocket.Connection.TellPending | packages/client-go/socket.go:333-335 | the loop puts one result in the channel of each pending send |
| GoSocket.Connection.Close | packages/client-go/socket.go:329-340 | fails everything pending, once |
| SseSplitter.ChunkingDoesNotMatter | packages/client-ts/src/transport/sse.ts:113-128 | for every division of a text into pieces the loop yields the blocks and the leftover of the whole text |
| SseSplitter.SplitIsExact | packages/client-ts/src/transport/sse.ts:122-127 | blocks, breaks and leftover make up the text, every cut is one of the four blank lines, no block and no leftover holds one |
| SseSplitter.SplitOfAppend | packages/client-ts/src/transport/sse.ts:117-127 | splitting what has arrived and then the leftover with more text is splitting it all |
| SseSplitter.Reader.constructor | packages/client-ts/src/transport/sse.ts:115 | an empty buffer |
| SseSplitter.Reader.FindBreak | packages/client-ts/src/transport/sse.ts:123 | the leftmost match |
| SseSplitter.Reader.Feed | packages/client-ts/src/transport/sse.ts:117-127 | the inner loop yields the blocks of the buffer and keeps the leftover |
| SseAcks.OneAckOrNone | packages/client-ts/src/transport/sse.ts:167-176 | a send posted once never gets two acks; it gets one, with its own client id and the stored seq, exactly when the answer finds the activity among the recent ones or the activity arrives later |
| SseAcks.ExactlyOneAck | packages/client-ts/src/transport/sse.ts:242-248 | when the activity arrives first and fewer than 500 others follow before the answer, there is exactly one ack |
| SseAcks.KnownIffFewerThanLimit | packages/client-ts/src/transport/sse.ts:169-170 | an activity stays known exactly while fewer than 500 new ones have arrived |
| SseAcks.LatestSeqIsAcked | packages/client-ts/src/transport/sse.ts:167-176 | a post right after the activity is acked with the seq that the stream said last |
| SseAcks.AnonymousPostIsNotAcked | packages/client-ts/src/transport/sse.ts:242-248 | a post without a client id is not acked and changes nothing |
| SseAcks.Stream.constructor | packages/client-ts/src/transport/sse.ts:55-59 | nothing seen, nothing awaited |
| SseAcks.Stream.OnActivity | packages/client-ts/src/transport/sse.ts:167-176 | remembers the activity and acks an awaited one |
| SseAcks.Stream.OnPosted | packages/client-ts/src/transport/sse.ts:242-248 | acks a known activity or awaits it |
| WatermarkCodec.OpaqueRoundTrips | packages/client-ts/src/protocol/watermark.ts:26-45 | the opaque form of n is read back by Go exactly below 10^18, and by TypeScript if and only if n is below 10^16 and is at most 2^53 or even; otherwise TypeScript reads the nearest double, or nothing from 10^16 on; and it is never a decimal number |
| WatermarkCodec.DecimalRoundTrips | packages/client-go/watermark.go:23-45 | the decimal form likewise; a longer number is not read as anything else |
| WatermarkCodec.ClientsAgree | packages/client-go/watermark.go:31-45 | on every text of the url alphabet TypeScript reads what Go reads, rounded, and nothing from 10^16 on, so the two agree if and only if that seq is below 10^16 and at most 2^53 or even |
| WatermarkCodec.ClientsDifferIffOneTakes | packages/client-ts/src/protocol/watermark.ts:17-45 | on every text at all: apart from rounding and length the two clients read it differently if and only if it means a seq of at most 16 digits and exactly one of them takes it |
| WatermarkCodec.TypeScriptDecodes | packages/client-ts/src/protocol/watermark.ts:17-24 | which texts TypeScript takes: spaces anywhere, either alphabet, and at most two characters of padding, counted as atob counts them |
| WatermarkCodec.GoDecodes | packages/client-go/watermark.go:31-45 | which texts Go takes: the url alphabet, line breaks, and any padding at the end; what both take means the same to both |
| WatermarkCodec.OnlyTypeScriptReads | packages/client-ts/src/protocol/watermark.ts:17-45 | the opaque form with spaces in front, for every seq below 10^16 |
| WatermarkCodec.OnlyGoReads | packages/client-go/watermark.go:31-45 | the opaque form with more padding than it needs, for every seq below 10^18 |
| WatermarkCodec.NearestOf | packages/client-ts/src/protocol/watermark.ts:41-44 | below 10^16 a number is itself a double, or lies between an even one and a multiple of four and becomes that one |
| WatermarkCodec.FirstMisreadSeq | packages/client-ts/src/protocol/watermark.ts:41-44 | 2^53 + 1 is the first seq that TypeScript misreads: it reads 2^53, and Go the seq itself |
| WatermarkCodec.EncodingRoundTrips | packages/client-ts/src/protocol/watermark.ts:13-24 | every binary text comes back through both decoders |
| WatermarkCodec.UrlEncodeIsBase64Url | packages/client-ts/src/protocol/watermark.ts:13-15 | encoding, replacing and trimming give unpadded base64url |
| WatermarkCodec.DecodersAgree | packages/client-ts/src/protocol/watermark.ts:17-24 | on the url alphabet both decoders are the plain one |
| WatermarkCodec.ShortIffSmall | packages/client-go/watermark.go:74-84 | a bound on the digits is a bound on the number |

## Left out

- WebSocket, HTTP, TLS and JSON: frames are records of the fields that are read, and a field of the wrong type is an absent one.
- Tokens, user ids, refresh, backoff and timer durations: timers fire at any time after they were set.
- REST wrappers, history pages, uploads, typing, presence and read receipts: no state that the properties depend on.
- discardOutbox of the TypeScript session (`packages/client-ts/src/conversation.ts:384`): it leaves the in-flight set as it was, so no discipline holds after it.
- Conversations created over REST before the first connection (`packages/client-ts/src/conversation.ts:454-469`): the store is attached before the welcome then, with the same load and merge.
- resume() with a watermark of the caller in `ExactlyOnce`: `LoadEnded` and `OnLoaded` take it, but nothing is known of what it claims.
- ConversationReceive.EmittedUnlessOwn: stated until the first reset, because the remembered own seqs and ids survive a reset.
- ServerLog.FakeServer.Store: keeps the client id in the stored activity, as the real server's replay carries it; the test server strips it from the copy it stores.
- ServerLog.FakeServer.OnMessage: message frames only, with the stored copy as above; of the other frames the test server appends the native ones without an ack, as it does a message without an id here, and answers or drops the rest.
- Completeness of replays under an arbitrary server: a replay is in order and starts at or below the watermark, as the protocol requires; lost frames within it lead to another one.
- Fixed integer widths: Go and C# integers are unbounded here, and the 18 digits of the Go codec fit its integers. JavaScript numbers are rounded in `WatermarkCodec`, where texts of 16 digits reach above 2^53, and unbounded elsewhere.
- WatermarkCodec.OpaqueRoundTrips: the opaque form is that of the decimal digits; JavaScript prints a number from 10^21 on with an exponent, which no parser reads.
- AgentObject.Agent.OnWelcome: the library sort is an insertion sort by time of writing.
- AgentConservation.SendsAreConserved: keys are pairs; that a conversation id contains no NUL character, so that the joined text is one to one, is not modelled.
- Order of repeated writes of the TypeScript agent: late sends are put first one by one, so `FirstWritesInOrder` is about the first write of each send, and `EventMeans` says where an event puts the others.
- Turn lanes, asks and histories of the TypeScript agent: promise chains in its event loop, with no interleaving inside a step.
- Shutdown.CutOffEndsOnlyItself and GoSocket.CutOffEndsOnlyItself: that no result has come and that the entry is removed are one step of a caller that stops waiting; a result that comes in between is not modelled.
- Sends of the Go agent (backlog and pending): the same scheme as the Go socket.
- Pacing.PaceIsWithinRate: a sleep is taken to last at least as long as asked, and the clock not to run backwards.
- The event blocks of the Server-Sent Events stream after they are cut out: the data lines are joined and parsed by library code.
- Text decoding of stream pieces: the decoder is taken to yield the same text for every division of the bytes.
- The Phoenix binding, the Elixir server and the load scripts.
