# recomp-net, verified

A Dafny model of the protocol and data-handling core of recomp-net, with proofs of what it promises.

| part | files | what is modelled |
|---|---|---|
| LAN waiting room | `LanRoom*.dfy` | One host, up to three guests and a datagram network that loses, repeats and reorders. Host and guest handlers, the pump, the start handshake, chat ordering and the wire form of the roster. |
| Blob transfer | `IceXfer*.dfy` | Two ends of a go-back-N transfer over such a network. |
| WebSocket stream | `Ws*.dfy` | The frame encoder, the outbound buffer with partial sends, the incremental reader, and the two on one socket. |
| Hashing | `Sha256*.dfy`, `HmacVectors.dfy` | Streaming SHA-256 against FIPS 180-4 and HMAC against RFC 2104, the constants from the primes, and published test vectors. |
| Chat filter | `Chat*.dfy` | The matcher against a language of spellings, in-place masking, UTF-8 and the entry point. |
| Input | `Input*.dfy` | The input ring with invention, and the replace decision table with its rules told on the frames. |

How the parts are put together:

- Each handler is written twice: as a function on values, which the proofs use, and as a method on an object or
  array that updates state step by step, which is proved to compute that function.
- A protocol is a transition system. A run is a list of events; an event that is not possible changes nothing.
  `Execute` folds a run, `At(h, es, k)` is the state before event `k`. The network is the set of all packets ever
  sent, and any of them may be delivered at any time, any number of times or never. Theorems quantify over all runs.
- Clock readings, random numbers and what the socket does are parameters of the events.
- Machine integers are written out: 32-bit counters saturate or wrap as the code makes them, casts are functions.
- `LanRoomWorld` and `IceXferDrive` put the objects together and drive them: whatever the applications call and
  whichever packets the pumps find, the objects are where a run of the transition system is, so the theorems about
  runs are theorems about the objects. `WsDrive` does the same for a sending buffer and a reader on one socket.
- `LanRoomRules` and `LanRoomGuestRules` tell what every event does on seats and packets; `LanRoomFates` says over whole
  runs why a guest failed.
- A host is live while its revision counter is not full or its status is not negative. A full counter closes the room
  at the next change, so a host that can still launch is live.

Promises that turned out not to hold, each with the input that breaks it and the exact condition:

- A zero-length blob is documented as an end marker (`include/recomp_net/ice_xfer.h:18`), but it is never sent and
  blocks the queue for good: `EndMarkerNeverLeaves`, `EmptyBlobBlocks`, `DrainableIff`.
- A blob is not delivered exactly once: `DeliversIff`, `FinishedCanRepeat`, `RepeatExample`, and
  `DeliveredIffReadyHasRoom` for the blob that is lost.
- A delivered blob is one the peer queued only until the 32-bit ids come round: `IntegrityIff`, `WrapMixes`.
- A roster has a number of its own only while the revision counter is not full: `NewRevisionIff`, `SnapshotBreaks`.
- A host may be opened with a name, game, version, endpoint or mod set that no guest can read: `ReadableIff`,
  `AlwaysReadableIff`, `UnreadableExample`.
- After a refused WebSocket frame what is handed on depends on how the bytes were cut: `ResetForgets`, `ResetExample`.
- The chat matcher never finds a word of four or more letters with a separator past its first: `CompleteIff`,
  `ApostropheExample`.
- A whole-word entry should stay inside word boundaries (`tests/chat_filter_test.c:38`), but the boundary test does
  not take a capital for a letter: `AloneIff`, `CapitalExample`.
- With the default parameters the replace decision and the correction classes disagree: `AgreementIff`,
  `DefaultsDisagree`.
- Filtering a line changes overlong UTF-8, and an overlong NUL in it cuts the line: `LineReencodesIff`, `SeenAfter`,
  `CutExample`.

## Model

| member | source | states |
|---|---|---|
| `LanRoomTheorems.LaunchAgreement` | src/lobby/rnet_lan_room.c:436-441 | In every reachable state where the host may launch, with no bound of any kind, every seated guest is joined and holds exactly the host's roster (session, seats, caps, revision), whatever was lost, repeated or reordered. |
| `LanRoomTheorems.StartBarrier` | src/lobby/rnet_lan_room.c:362-369 | The roster is frozen only at a moment when every seated guest already holds exactly that roster. |
| `LanRoomTheorems.InformedReady` | src/lobby/rnet_lan_room.c:275-279 | While a start is under way, each seated guest earlier voted READY(1) while its own view carried the configuration being launched, with the same members, seats, caps and mod set; the host later counted that vote, and has counted no READY(0) of that guest under that configuration since. |
| `LanRoomTheorems.BallotCast` | src/lobby/rnet_lan_room.c:403-413 | Every READY(1) ballot on record was cast by that guest, joined, looking at that roster, at an event the lemma returns. |
| `LanRoomTheorems.CountedWasCast` | src/lobby/rnet_lan_room.c:275-279 | Every vote the host counts was cast earlier by that guest, joined, looking at the configuration it was counted under. |
| `LanRoomTheorems.LastVoteIsReady` | src/lobby/rnet_lan_room.c:275-279 | A guest whose ready bit is set had a READY(1) counted under this configuration, and no READY(0) counted after it. |
| `LanRoomTheorems.SnapshotConsistency` | src/lobby/rnet_lan_room.c:118-129 | At any two moments of a run whose host is live: numbers never decrease, equal revisions mean equal rosters, and equal configurations mean everything equal except revision, ready mask, session and starting. |
| `LanRoomTheorems.LiveEarlier` | src/lobby/rnet_lan_room.c:123-126 | A host that is live (its counter is not full, or its status is not negative) was live at every earlier moment. |
| `LanRoomOverflow.VotesReach` | src/lobby/rnet_lan_room.c:123-126 | Every opened host reaches every revision up to 2^32-1 by its own votes alone. |
| `LanRoomOverflow.FullCounterReusesRevision` | src/lobby/rnet_lan_room.c:123-126 | With the revision counter at 2^32-1 an admitted JOIN publishes a second roster under the same number, and the host closes. |
| `LanRoomOverflow.SnapshotBreaks` | src/lobby/rnet_lan_room.c:123-126 | Every opened host that a guest could join has a run with two moments of equal revision and different rosters, the first live and the second not. |
| `LanRoomTheorems.HistoryHappened` | src/lobby/rnet_lan_room.c:118-126 | Every revision on record was the host's roster at some moment of the run. |
| `LanRoomTheorems.GuestHoldsPast` | src/lobby/rnet_lan_room.c:305-317 | A joined guest's roster is one the host held at some moment. |
| `LanRoomTheorems.GuestNeverGoesBack` | src/lobby/rnet_lan_room.c:305-317 | A joined guest stays joined and its revision never decreases. |
| `LanRoomTheorems.NeverContradicts` | src/lobby/rnet_lan_room.c:305-317 | No packet ever sent meets the same-revision-different-roster branch of any guest. |
| `LanRoomTheorems.RunGrows` | src/lobby/rnet_lan_room.c:118-129 | Between two moments of a run no packet, history entry, ballot or record is lost and no counter goes back. |
| `LanRoomTheorems.RequestsIncrease` | src/lobby/rnet_lan_room.c:269-282 | Within one seating, across seat moves, the numbers of the requests the host applies strictly increase, so none is applied twice. |
| `LanRoomTheorems.ChatRequestsIncrease` | src/lobby/rnet_lan_room.c:283-286 | Within one seating the numbers of the chat requests the host broadcasts strictly increase, so none is broadcast twice. |
| `LanRoomTheorems.RecordedHappened` | src/lobby/rnet_lan_room.c:269-282 | Every request number on record was delivered and recorded at some event of the run. |
| `LanRoomTheorems.PendingClearedAfterRecord` | src/lobby/rnet_lan_room.c:318-318 | A guest drops its pending request only after the host recorded exactly that number, at an event the lemma returns. |
| `LanRoomTheorems.CountersGrowOverRun` | src/lobby/rnet_lan_room.c:269-286 | While a guest stays seated its request and chat counters never go back, wherever its seat moves. |
| `LanRoomTheorems.StartFreeze` | src/lobby/rnet_lan_room.c:362-369 | From a start until a seated guest's LEAVE no event changes the roster, full counter or not. |
| `LanRoomTheorems.StartMeansReady` | src/lobby/rnet_lan_room.c:394-396 | A start under way has at least two members, all ready, and a nonzero session; a wanted start has an all-ready roster that is not frozen. |
| `LanRoomTheorems.HostInvariant` | src/lobby/rnet_lan_room.c:74-86 | In every run, without limit on its length: the roster is valid, the host stays seated, links and guest seats agree one to one by id with distinct addresses, and no seated id is among the last 16 removed ones. |
| `LanRoomTheorems.ChatInHostOrder` | src/lobby/rnet_lan_room.c:299-304 | The lines a guest ever accepts are lines of the host's log, in strictly increasing host order, without repeats. |
| `LanRoomAdmission.NewcomerAnswered` | src/lobby/rnet_lan_room.c:219-243 | A JOIN of an id that holds no seat, case by case from the packet and the host: removed ids STALE, wrong game, version or size IDENTITY, wrong password PASSWORD, frozen room STARTED, taken address IDENTITY, no free seat FULL; otherwise the first free seat is given to that id, address and name, nobody else moves, and the new roster goes back. |
| `LanRoomAdmission.AdmittedIff` | src/lobby/rnet_lan_room.c:219-243 | A named JOIN of an unseated id gets a seat if and only if the id is not among the removed ones, game, version, size and password are the host's, the room is not frozen, the address is free and so is a seat. |
| `LanRoomAdmission.SeatedAnswered` | src/lobby/rnet_lan_room.c:228-232 | A JOIN of an id that holds a seat changes nothing; the owner of the seat gets the roster again, anyone else a refusal pinned to its cause. |
| `LanRoomAdmission.NamelessIgnored` | src/lobby/rnet_lan_room.c:221-221 | A JOIN without an id or a name is ignored. |
| `LanRoomAdmission.StepKeepsSeats` | src/lobby/rnet_lan_room.c:216-290 | Whoever sits in a seat after a step sat in some seat before it, with the same name and address, or has just been admitted by a fitting JOIN. |
| `LanRoomAdmission.SeatWasJoined` | src/lobby/rnet_lan_room.c:219-243 | Over whole runs: every guest seat goes back to an event, which the lemma returns, that delivered a JOIN with that id, that address and that name, with the room's game and version, a size that fits and the password the host was opened with. |
| `LanRoomAdmission.OnlyInvitedJoin` | src/lobby/rnet_lan_room.c:219-243 | A guest that is joined was opened with the host's password, game and version and room for its seats, at an event the lemma returns. |
| `LanRoomAdmission.ConstantsKept` | src/lobby/rnet_lan_room.c:150-166 | No run changes the id or password of a host, nor the game, version and size of its room. |
| `LanRoomAdmission.WasOpened` | src/lobby/rnet_lan_room.c:338-342 | Every guest of a run was opened at some event, with the identity it still has. |
| `LanRoomChat.NumberedIff` | src/lobby/rnet_lan_room.c:205-215 | An event numbers a line if and only if it is a sayable text of the host, or a fresh chat request of the owner of a seat, and numbers are left. |
| `LanRoomChat.StepUtters` | src/lobby/rnet_lan_room.c:205-215 | The line a step numbers carries the speaker's id, the name on the speaker's seat and exactly the text that was said or requested. |
| `LanRoomChat.EchoedToAll` | src/lobby/rnet_lan_room.c:205-215 | A step that numbers a line sends exactly one echo of it to each linked seat, at the address of that seat, and nothing else. |
| `LanRoomChat.AcceptsIff` | src/lobby/rnet_lan_room.c:299-304 | A guest accepts the echo of a line with a speaker and a text if and only if it is joined, the packet is for it and of its room, and the number is higher than the last one accepted; the line is then the newest of its queue, and the oldest gives way when 16 are waiting. |
| `LanRoomChat.LogWasUttered` | src/lobby/rnet_lan_room.c:205-215 | Every line of the log was uttered at an event the lemma returns, with that id, name and text. |
| `LanRoomChat.RequestWasSpoken` | src/lobby/rnet_lan_room.c:445-452 | Every chat request ever sent goes back to a Speak of that guest with that text. |
| `LanRoomChat.LineWasSpoken` | src/lobby/rnet_lan_room.c:299-304 | Every line any guest ever accepts goes back to the event that numbered it, and to the host's Say or the speaking guest's Speak, earlier in the run, of exactly that text; its name is the one on the seat at that moment. |
| `LanRoomTheorems.TakenInOrder` | src/lobby/rnet_lan_room.c:453-456 | take_chat returns the heard line at the current position and moves strictly past it; nothing else moves that position back. |
| `LanRoomTheorems.TakenInOrderOverRun` | src/lobby/rnet_lan_room.c:197-204 | Over a whole run the drop-oldest queue hands lines out in the order they were heard. |
| `LanRoomProgress.StartCanFinish` | src/lobby/rnet_lan_room.c:362-380 | From every reachable state with a start under way and nobody failed or gone, whatever was lost or reordered before, some continuation makes the host ready to launch that very roster. |
| `LanRoomProgress.LaunchableIff` | src/lobby/rnet_lan_room.c:362-369 | A room whose members are all ready and present can still be launched if and only if its revision is below 2^32-1. |
| `LanRoomProgress.ReadyCanLaunch` | src/lobby/rnet_lan_room.c:362-380 | From every reachable state whose members are all ready, some continuation freezes and launches the room with the same members, seats, caps and mod set. |
| `LanRoomProgress.RunSettled` | src/lobby/rnet_lan_room.c:291-326 | In every run: all rosters are of one room (game, version, size), joined guests hold rooms that suit them, and every link leads to the address of the guest it names. |
| `LanRoomProgress.Round` | src/lobby/rnet_lan_room.c:343-380 | Seat after seat, hearing the posted roster and its answer leaves every seat acknowledged and changes nothing else. |
| `LanRoomEvolution.NewRevisionIff` | src/lobby/rnet_lan_room.c:123-129 | A changed roster gets a number of its own exactly while the revision is below 2^32-1. |
| `LanRoomEvolution.StepEvolves` | src/lobby/rnet_lan_room.c:123-129 | Every host step leaves the roster alone or raises its revision; unless the configuration is raised too, only the ready mask, session and starting change. |
| `LanRoomEvolution.StepLive` | src/lobby/rnet_lan_room.c:123-129 | A step after which the host is live found it live, and gave every changed roster the next number. |
| `LanRoomEvolution.StepTally` | src/lobby/rnet_lan_room.c:275-279 | A ready bit after a step was just voted for, or was there before with the same seats and configuration and is not being withdrawn. |
| `LanRoomEvolution.StepLinks` | src/lobby/rnet_lan_room.c:216-290 | The only ways a step changes the link of an id: nothing, removal, or the owner's own packet turning it as the handlers say. |
| `LanRoomEvolution.StepReady` | src/lobby/rnet_lan_room.c:275-279 | A ready bit appears only for the host's own seat or by the owner's recorded READY(1) for the current configuration. |
| `LanRoomEvolution.StepStart` | src/lobby/rnet_lan_room.c:362-369 | Every step keeps: a wanted or running start has an all-ready roster. |
| `LanRoomEvolution.StepSent` | src/lobby/rnet_lan_room.c:115-122 | Every packet a step sends carries the roster and the recorded number as the step left them; echoes carry the line just appended. |
| `LanRoomEvolution.StepChat` | src/lobby/rnet_lan_room.c:205-215 | A step numbers at most one new line, with the next number, and has it queued. |
| `LanRoomHost.StepOk` | src/lobby/rnet_lan_room.c:216-290 | Every host step keeps the host state invariant. |
| `LanRoomHost.OpenOk` | src/lobby/rnet_lan_room.c:150-166 | A host that opens satisfies the invariant. |
| `LanRoomHost.RemoveOk` | src/lobby/rnet_lan_room.c:178-186 | Removing a guest keeps the invariant. |
| `LanRoomHost.MoveOk` | src/lobby/rnet_lan_room.c:187-196 | Moving a member keeps the invariant. |
| `LanRoomHost.JoinOk` | src/lobby/rnet_lan_room.c:219-243 | Admitting or refusing a JOIN keeps the invariant. |
| `LanRoomGuest.GuestSteps` | src/lobby/rnet_lan_room.c:291-326 | A guest's roster changes only by adopting an announced one with a higher revision; its chat changes only by the next accepted line or a take. |
| `LanRoomGuest.GuestPending` | src/lobby/rnet_lan_room.c:397-402 | A pending request is kept, dropped, or replaced by a vote or move carrying the guest's own view. |
| `LanRoomGuest.GuestSent` | src/lobby/rnet_lan_room.c:327-337 | What a guest sends about itself is true of it: acknowledgements name the roster it holds, requests are the pending one. |
| `LanRoomProtocol.HostTurnInv` | src/lobby/rnet_lan_room.c:216-290 | A host event keeps the invariant that ties host, guests, packets and history together. |
| `LanRoomProtocol.GuestTurnInv` | src/lobby/rnet_lan_room.c:291-326 | A guest event keeps that invariant. |
| `LanRoomProtocol.RunInv` | src/lobby/rnet_lan_room.c:216-326 | Every run of any length keeps that invariant. |
| `LanRoomRules.DepartureEffect` | src/lobby/rnet_lan_room.c:178-186 | A kick or an expiry in an open room, or the LEAVE of its owner, empties exactly that seat, voids the votes, calls a start off, keeps id, address and reason in the next of 16 places, and sends that guest one CLOSE with KICKED, TIMEOUT or CLOSED. |
| `LanRoomRules.NobodyLeaves` | src/lobby/rnet_lan_room.c:360-361 | Any other kick or expiry does nothing. |
| `LanRoomRules.RemovedAnswered` | src/lobby/rnet_lan_room.c:244-257 | A removed guest that still talks is told its own reason again, when that is due, and changes nothing. |
| `LanRoomRules.StrangersChangeNothing` | src/lobby/rnet_lan_room.c:258-259 | A packet from nobody who holds a seat, at its address and of this room, leaves the host as it was. |
| `LanRoomRules.GuestVoteEffect` | src/lobby/rnet_lan_room.c:275-279 | A new READY for the current configuration of an open room sets or clears the bit of its own seat and no other, is published if that changes anything, is recorded, and is answered with the roster. |
| `LanRoomRules.OwnVoteEffect` | src/lobby/rnet_lan_room.c:403-413 | The vote of the host likewise, refused while frozen. |
| `LanRoomRules.MoveEffect` | src/lobby/rnet_lan_room.c:187-196 | A seat moves, with its link, if and only if the room is open, the seat is taken and the other is free; the votes are void; each refusal code has its exact cause. |
| `LanRoomRules.GuestMoveEffect` | src/lobby/rnet_lan_room.c:280-282 | A new MOVE of a guest out of its own seat, for the roster as it stands, moves it if and only if that is possible; it is recorded and answered at the seat the guest then has. |
| `LanRoomRules.OtherRequest` | src/lobby/rnet_lan_room.c:273-282 | Every other new request is recorded and answered, and changes nothing else. |
| `LanRoomRules.StaleRequest` | src/lobby/rnet_lan_room.c:271-272 | A request with a recorded number is answered and not applied; one without a number is ignored. |
| `LanRoomRules.AckEffect` | src/lobby/rnet_lan_room.c:261-266 | An acknowledgement counts for its own seat, if it names the roster as it stands; only START_ACK counts for a start, and only while frozen. |
| `LanRoomRules.CapsEffect` | src/lobby/rnet_lan_room.c:425-431 | New capabilities are taken if and only if the room is open, the mod set fits and is printable, every number is in range and something differs; the votes are then void. |
| `LanRoomRules.StartEffect` | src/lobby/rnet_lan_room.c:432-435 | A start is wanted from the moment it is asked for in an open room with at least two members, all of them ready. |
| `LanRoomRules.BeginEffect` | src/lobby/rnet_lan_room.c:362-369 | The roster freezes, under the next number and the drawn session, if and only if a start is wanted, every linked seat has acknowledged this very roster, all are ready and the session is new; a drawn session that is not new ends the host with IO. |
| `LanRoomRules.LaunchEffect` | src/lobby/rnet_lan_room.c:370-372 | The room may be launched if and only if the host is in order, the room frozen and every linked seat has acknowledged the start; a host that gives up in a frozen room before that fails with TIMEOUT. |
| `LanRoomRules.ResendEffect` | src/lobby/rnet_lan_room.c:373-377 | A resend sends every linked seat its state packet and nothing else. |
| `LanRoomRules.ShutdownEffect` | src/lobby/rnet_lan_room.c:383-390 | A closing host sends CLOSE to every linked seat, unless the room may be launched. |
| `LanRoomGuestRules.StateEffect` | src/lobby/rnet_lan_room.c:305-326 | A roster that is not valid, not of the guest, too large or older is ignored; one that contradicts the held one ends the guest with IDENTITY, one without the guest with KICKED; any other is adopted, the recorded request dropped, the start remembered, and acknowledged with ACK or START_ACK. |
| `LanRoomGuestRules.RefusalEffect` | src/lobby/rnet_lan_room.c:295-295 | A refusal ends a guest that has not joined with its code, and no other. |
| `LanRoomGuestRules.CloseEffect` | src/lobby/rnet_lan_room.c:297-297 | A CLOSE ends a guest that has joined with its reason, and no other. |
| `LanRoomGuestRules.OthersIgnored` | src/lobby/rnet_lan_room.c:294-296 | A packet for another id, or of another room, does nothing. |
| `LanRoomGuestRules.RepeatEffect` | src/lobby/rnet_lan_room.c:327-337 | What a guest repeats: its JOIN, then its open request with the revision it was made for, then ACK or START_ACK of the roster it holds. |
| `LanRoomGuestRules.VoteAsks` | src/lobby/rnet_lan_room.c:403-413 | A vote becomes the open request, under the next number, for the configuration in view, if and only if the guest is joined and in order, the room open and numbers are left. |
| `LanRoomGuestRules.ClaimAsks` | src/lobby/rnet_lan_room.c:414-420 | A move becomes the open request if and only if it leads from the seat of the guest to a free one. |
| `LanRoomGuestRules.SpeakEffect` | src/lobby/rnet_lan_room.c:445-452 | A printable text of 1 to 255 bytes goes out once under the next chat number; any other changes nothing. |
| `LanRoomGuestRules.QuitEffect` | src/lobby/rnet_lan_room.c:383-390 | A joined guest that closes sends LEAVE, unless it has been handed off to a launched room. |
| `LanRoomFates.StatusMeans` | src/lobby/rnet_lan_room.c:216-326 | Over whole runs, what the status of a failed guest tells it: KICKED, the host kicked its seat; TIMEOUT, it lost the host or was let expire; CLOSED, the host closed or its own LEAVE arrived; PASSWORD, its password is not that of the host; STARTED, FULL, STALE, the room was frozen, full or had just removed it when its JOIN was refused. The lemma returns the event. |
| `LanRoomFates.FailureHasCause` | src/lobby/rnet_lan_room.c:291-326 | Every negative status of every guest goes back to an event that explains it: it lost the host, the host ended its stay for that reason, or refused its JOIN with that code. |
| `LanRoomFates.CloseHasCause` | src/lobby/rnet_lan_room.c:178-186 | Every CLOSE ever sent, repeated ones included, goes back to the event that ended that stay for that reason. |
| `LanRoomFates.RemovalHasCause` | src/lobby/rnet_lan_room.c:178-186 | Every entry of the list of removed guests was made by an event that put that guest out. |
| `LanRoomFates.RefusalHasCause` | src/lobby/rnet_lan_room.c:219-243 | Every refusal ever sent answers a JOIN that the host refused with that code. |
| `LanRoomFates.RefusalMeans` | src/lobby/rnet_lan_room.c:219-243 | What each refusal code says about the host. |
| `LanRoomFates.NeverLeftOut` | src/lobby/rnet_lan_room.c:313-315 | Every state packet of every run seats the guest it is for, so the branch that ends a guest left out of the roster is dead. |
| `LanRoomPeer.HostPeer.constructor` | src/lobby/rnet_lan_room.c:150-166 | A host object starts as the opened host value. |
| `LanRoomPeer.HostPeer.FindSlot` | src/lobby/rnet_lan_room.c:71-73 | The loop returns the first seat with the id, or -1. |
| `LanRoomPeer.HostPeer.IsAllReady` | src/lobby/rnet_lan_room.c:394-396 | The loop answers whether at least two members are seated and all are ready. |
| `LanRoomPeer.HostPeer.MarkChanged` | src/lobby/rnet_lan_room.c:123-126 | New state and no packet, as the value step says. |
| `LanRoomPeer.HostPeer.MarkConfigurationChanged` | src/lobby/rnet_lan_room.c:127-129 | New state and no packet, as the value step says. |
| `LanRoomPeer.HostPeer.Remove` | src/lobby/rnet_lan_room.c:178-186 | The in-place updates and the CLOSE packet are exactly those of the value step. |
| `LanRoomPeer.HostPeer.MoveSeat` | src/lobby/rnet_lan_room.c:187-196 | The in-place updates and the status are exactly those of the value step. |
| `LanRoomPeer.HostPeer.Say` | src/lobby/rnet_lan_room.c:205-215 | The loop over the seats appends the line and sends one echo per linked seat in seat order; refused exactly at the last number. What the line holds is StepUtters, who hears it EchoedToAll. |
| `LanRoomPeer.HostPeer.Admit` | src/lobby/rnet_lan_room.c:219-243 | A JOIN is ignored, answered again, refused with its status or seated, by loops over retired ids and addresses; NewcomerAnswered, SeatedAnswered and NamelessIgnored say on what each depends. |
| `LanRoomPeer.HostPeer.Operate` | src/lobby/rnet_lan_room.c:269-282 | A request is applied, answered and recorded as the value step says. |
| `LanRoomPeer.HostPeer.Acknowledge` | src/lobby/rnet_lan_room.c:261-266 | An acknowledgement is stored only for the current revision. |
| `LanRoomPeer.HostPeer.Handle` | src/lobby/rnet_lan_room.c:216-290 | One packet: new state and packets sent are exactly those of the value step. |
| `LanRoomPeer.HostPeer.SetOwnReady` | src/lobby/rnet_lan_room.c:403-413 | The host's own vote changes its ready bit and the revision exactly as the value step says; refused, with its code, exactly while frozen. |
| `LanRoomPeer.HostPeer.KickSeat` | src/lobby/rnet_lan_room.c:421-424 | A kick removes exactly a seated guest of a roster that is not frozen, and sends its CLOSE; the code says which. |
| `LanRoomPeer.HostPeer.ChangeCaps` | src/lobby/rnet_lan_room.c:425-431 | New capabilities renew the configuration and clear the votes, or are refused without a change; the code says which. |
| `LanRoomPeer.HostPeer.SayOwn` | src/lobby/rnet_lan_room.c:445-452 | The host's own line is broadcast from its seat; the code is success exactly when a line was numbered. |
| `LanRoomPeer.HostPeer.TakeLine` | src/lobby/rnet_lan_room.c:453-456 | The oldest queued line is returned and dropped. |
| `LanRoomPeer.HostPeer.Shut` | src/lobby/rnet_lan_room.c:383-390 | CLOSE goes to every linked seat in seat order, unless the room may launch. |
| `LanRoomPeer.HostPeer.RequestStart` | src/lobby/rnet_lan_room.c:432-435 | A start is wanted only for an all-ready roster that is not frozen. |
| `LanRoomPeer.HostPeer.MayLaunch` | src/lobby/rnet_lan_room.c:436-441 | The loop answers whether every linked guest acknowledged the frozen revision. |
| `LanRoomPeer.HostPeer.BeginIfAcked` | src/lobby/rnet_lan_room.c:362-369 | The freeze happens exactly when a start is wanted, all have acknowledged and all are ready; it fails exactly on an unusable session number. |
| `LanRoomPeer.HostPeer.SendStates` | src/lobby/rnet_lan_room.c:373-380 | The resend loop sends one state packet per linked seat in seat order. |
| `LanRoomPeer.HostPeer.Drain` | src/lobby/rnet_lan_room.c:343-353 | The drain loop handles at most 256 packets, in order. |
| `LanRoomPeer.HostPeer.ExpireSilent` | src/lobby/rnet_lan_room.c:360-361 | The time-out loop is one removal per stale linked seat, in seat order, and none while the roster is frozen. |
| `LanRoomPeer.HostPeer.Continue` | src/lobby/rnet_lan_room.c:362-380 | Exactly which of start, give-up and resend happen, in that order, and their effect. |
| `LanRoomPeer.ContinuedIs` | src/lobby/rnet_lan_room.c:362-380 | What that part of the pump comes to: an unusable session number or a timed-out start ends it before the resend. |
| `LanRoomPeer.HostPeer.Pump` | src/lobby/rnet_lan_room.c:338-382 | A whole pump is a fixed sequence of host events (at most 256 packets, time-outs, start block, resend, with its early exits), and has exactly their effect and packets. |
| `LanRoomRefinement.PumpIsRun` | src/lobby/rnet_lan_room.c:338-382 | A host's events, fed to the transition system after any past, move its host exactly as the object's pump moves and put exactly its packets on the network. |
| `LanRoomRefinement.GuestPumpIsRun` | src/lobby/rnet_lan_room.c:338-382 | The same for a guest: its events move exactly that guest and put exactly its packets on the network. |
| `LanRoomWorld.Drive` | src/lobby/rnet_lan_room.c:338-441 | One host object and any guest objects, driven by any list of application calls, pumps and arrivals in which a pump hears any packets the other side ever sent: the objects end exactly where the run of the list ends, and if launch_ready answers true then, every seated guest object is joined and holds the host object's room. |
| `LanRoomWorld.World.MayLaunch` | src/lobby/rnet_lan_room.c:436-441 | The answer is that of the value, and true only when every seated guest object holds the host object's room. |
| `LanRoomWorld.World.Do` | src/lobby/rnet_lan_room.c:338-456 | One operation extends the run by exactly its events and keeps objects and transition system together: host, guests and every packet sent. |
| `LanRoomWorld.World.AllowedIff` | src/lobby/rnet_lan_room.c:338-353 | The check made on the objects' own packets is the one the transition system makes. |
| `LanRoomWorld.World.PumpTheHost` | src/lobby/rnet_lan_room.c:338-382 | A pump of the host object is a run of the whole system. |
| `LanRoomWorld.World.PumpTheGuest` | src/lobby/rnet_lan_room.c:338-382 | A pump of a guest object is a run of the whole system, and the other guests stay as they were. |
| `LanRoomWorld.CallHost` | src/lobby/rnet_lan_room.c:383-456 | Each call of the host's application is exactly its event of the transition system. |
| `LanRoomWorld.CallGuest` | src/lobby/rnet_lan_room.c:383-456 | Each call of a guest's application is exactly its event of the transition system. |
| `LanRoomWorld.PumpedHears` | src/lobby/rnet_lan_room.c:343-353 | The events of a host pump receive only packets of its inbox. |
| `LanRoomPeer.GuestPeer.constructor` | src/lobby/rnet_lan_room.c:167-177 | A guest object starts as the opened guest value. |
| `LanRoomPeer.GuestPeer.AdoptRoom` | src/lobby/rnet_lan_room.c:311-323 | Adopting a roster: new view, start flag, pending request cleared by the echoed number, and the acknowledgement sent. |
| `LanRoomPeer.GuestPeer.Handle` | src/lobby/rnet_lan_room.c:291-326 | One packet at a guest: new state and packets sent. |
| `LanRoomPeer.GuestPeer.Drain` | src/lobby/rnet_lan_room.c:343-353 | The drain loop handles at most 256 packets, in order. |
| `LanRoomPeer.GuestPeer.Pump` | src/lobby/rnet_lan_room.c:338-382 | A whole pump of a guest is a fixed sequence of guest events, with its early exits, and has exactly their effect and packets. |
| `LanRoomPeer.GuestPeer.Repeat` | src/lobby/rnet_lan_room.c:327-337 | What an unanswered guest repeats. |
| `LanRoomPeer.GuestPeer.Ask` | src/lobby/rnet_lan_room.c:397-402 | A request takes the next number, or is refused without a change; the code is success exactly when it was taken. |
| `LanRoomPeer.GuestPeer.SetReady` | src/lobby/rnet_lan_room.c:403-413 | A guest's vote is bound to the configuration it sees; the code says why one is refused. |
| `LanRoomPeer.GuestPeer.ClaimSeat` | src/lobby/rnet_lan_room.c:414-420 | A guest may ask only to move from its own seat to a free one; the code says why one is refused. |
| `LanRoomPeer.GuestPeer.Speak` | src/lobby/rnet_lan_room.c:445-452 | A printable line takes the next chat number and goes out once, or nothing changes; the code says which. |
| `LanRoomPeer.GuestPeer.TakeOne` | src/lobby/rnet_lan_room.c:453-456 | The oldest heard line is returned and dropped. |
| `LanRoomPeer.GuestPeer.Quit` | src/lobby/rnet_lan_room.c:383-390 | LEAVE is sent exactly by a joined guest that has not handed off. |
| `LanRoomPeer.ChatRing.Queue` | src/lobby/rnet_lan_room.c:197-204 | The 16-entry ring in place is the drop-oldest queue. |
| `LanRoomPeer.ChatRing.Take` | src/lobby/rnet_lan_room.c:453-456 | The ring returns and drops its oldest line. |
| `LanRoomCodec.RoomRoundTrip` | src/lobby/rnet_lan_room.c:87-105 | read_room undoes write_room wherever the roster stands in the packet, and stops exactly at its end. |
| `LanRoomCodec.RoomFitsPacket` | src/lobby/rnet_lan_room.c:87-109 | A state packet of every roster whose texts fit their arrays takes at most 1143 of 2048 bytes, header included. |
| `LanRoomCodec.FieldsRoundTrip` | src/lobby/rnet_lan_room.c:40-64 | Reading an encoded field list gives the list back and consumes it exactly. |
| `LanRoomCodec.FieldsReadIff` | src/lobby/rnet_lan_room.c:53-64 | A list whose texts fit their arrays reads back as valid if and only if every text is printable. |
| `LanRoomCodec.Le32RoundTrip` | src/lobby/rnet_lan_room.c:38-39 | Little-endian numbers read back. |
| `LanRoomCodec.MaskRoundTrip` | src/lobby/rnet_lan_room.c:65-67 | The ready mask as a number determines the set of seats. |
| `LanRoomCodec.Buffer.PutNumber` | src/lobby/rnet_lan_room.c:40-42 | Four bytes are appended, or the buffer goes invalid with its contents kept. |
| `LanRoomCodec.Buffer.PutString` | src/lobby/rnet_lan_room.c:53-58 | Length and body are appended, or the buffer goes invalid exactly for a text too long for its array or the packet. |
| `LanRoomCodec.Buffer.WriteRoom` | src/lobby/rnet_lan_room.c:87-95 | For every roster: the writer stays valid exactly when it was, all texts fit their arrays and the packet has room, and then has written the field encoding. |
| `LanRoomCodec.Buffer.GetNumber` | src/lobby/rnet_lan_room.c:43-46 | The in-place cursor reads what the value reader reads. |
| `LanRoomCodec.Buffer.GetString` | src/lobby/rnet_lan_room.c:59-64 | Likewise for texts, with the printable check. |
| `LanRoomCodec.Buffer.ReadRoom` | src/lobby/rnet_lan_room.c:96-105 | Reading in place gives the roster and the cursor of the value reader. |
| `LanRoomWire.EveryRosterReadsBack` | src/lobby/rnet_lan_room.c:87-109 | In every run of a host opened with printable texts, its roster encodes within a packet and reads back as itself. |
| `LanRoomWire.ReadableIff` | src/lobby/rnet_lan_room.c:87-105 | A roster whose texts fit their arrays reads back as valid if and only if every one of its texts is printable. |
| `LanRoomWire.RosterReadableIff` | src/lobby/rnet_lan_room.c:150-166 | In every run of every opened host the roster fits its packet, and reads back if and only if the room's name, game, version, endpoint and mod set are printable. |
| `LanRoomWire.AlwaysReadableIff` | src/lobby/rnet_lan_room.c:150-166 | Guests can read every roster of every run if and only if those five texts were printable when the host was opened. |
| `LanRoomWire.SampleBytes` | src/lobby/rnet_lan_room.c:87-95 | The bytes of a roster with a value of its own in every field: five counted texts, ten little-endian numbers, four seats. |
| `LanRoomWire.UnreadableExample` | src/lobby/rnet_lan_room.c:150-166 | A room with a printable name and an unprintable endpoint: opening the host succeeds and no guest can read its roster. |
| `LanRoomWire.RunNames` | src/lobby/rnet_lan_room.c:47-52 | Every run keeps all texts of the roster within their arrays, and printable if they were. |
| `IceXferTheorems.TransferIntegrity` | src/lobby/rnet_ice_xfer.c:199-242 | Over a link that loses, repeats and reorders, every blob that reaches either ready queue is byte for byte one the peer queued, for the first 2^32 blobs of the peer. |
| `IceXferWrap.IntegrityIff` | src/lobby/rnet_ice_xfer.c:402-424 | That holds of every run with at most n blobs if and only if n is at most 2^32, the number of ids. |
| `IceXferWrap.WrapMixes` | src/lobby/rnet_ice_xfer.c:204-242 | A run with one blob more: the ids have come round, the head of the new blob meets a chunk of the first one that the network kept, and a blob nobody queued is delivered. |
| `IceXferWrap.RoundsDone` | src/lobby/rnet_ice_xfer.c:402-424 | Blob after blob can be queued, sent, delivered, acknowledged and taken for any number of rounds, the ids counting round modulo 2^32. |
| `IceXferTheorems.RetiredAfterAssembled` | src/lobby/rnet_ice_xfer.c:164-185 | A blob leaves the sender's queue only after an event, which the lemma returns, at which the receiver had assembled all of it. |
| `IceXferTheorems.DoneHappened` | src/lobby/rnet_ice_xfer.c:222-242 | Every id on record as assembled was assembled in full at some event. |
| `IceXferTheorems.CompletedInOrder` | src/lobby/rnet_ice_xfer.c:199-242 | Blobs are completed in the order they were queued. |
| `IceXferTheorems.SendWindow` | src/lobby/rnet_ice_xfer.c:354-373 | The head blob always has unacked <= next_off <= unacked + 16*1024, both on chunk boundaries, so the window guard never fires. |
| `IceXferTheorems.WireOffsets` | src/lobby/rnet_ice_xfer.c:144-162 | Every offset sent or acknowledged is a multiple of 1024 or the blob length, and within the blob. |
| `IceXferTheorems.NeverOverruns` | src/lobby/rnet_ice_xfer.c:222-234 | No chunk of an honest peer makes the receiver fail. |
| `IceXferTheorems.RetrySendsIffNonEmpty` | src/lobby/rnet_ice_xfer.c:354-379 | On a retry the pump sends something if and only if the head blob is not empty. |
| `IceXferTheorems.EmptyBlobBlocks` | src/lobby/rnet_ice_xfer.c:354-356 | An empty blob at the head is never sent, acknowledged or retired in any continuation, and nothing behind it is ever sent. |
| `IceXferTheorems.DeliveredIffReadyHasRoom` | src/lobby/rnet_ice_xfer.c:187-197 | A completing chunk is always acknowledged in full, but the blob is delivered if and only if the ready queue has room. |
| `IceXferTheorems.DeliversIff` | src/lobby/rnet_ice_xfer.c:204-242 | In every reachable state, for every chunk on the wire, first time or repeated: hearing it changes the ready queue if and only if it is the one awaited, the last of its blob and the queue has room, and then appends exactly that blob. |
| `IceXferTheorems.OnlyChunkRepeats` | src/lobby/rnet_ice_xfer.c:204-220 | The only chunk of a blob delivers it, every time it is heard, if and only if the ready queue has room. |
| `IceXferTheorems.EndMarkerNeverLeaves` | src/lobby/rnet_ice_xfer.c:354-356 | A zero-length blob queued on a fresh end: in every continuation it stays at the head, no chunk is ever sent and nothing is ever delivered. |
| `IceXferTheorems.RepeatExample` | src/lobby/rnet_ice_xfer.c:204-220 | A run in which one queued blob is delivered twice. |
| `IceXferProgress.DrainableIff` | src/lobby/rnet_ice_xfer.c:329-379 | In every reachable state with neither end failed: some continuation empties the send queue if and only if it holds no empty blob. |
| `IceXferProgress.HeadCanRetire` | src/lobby/rnet_ice_xfer.c:354-379 | A non-empty blob at the head can always still be delivered and retired, whatever the link lost, repeated or reordered. |
| `IceXferProgress.EmptyNeverRetired` | src/lobby/rnet_ice_xfer.c:354-356 | No continuation retires an empty blob, wherever it stands in the queue. |
| `IceXferProgress.RunMailed` | src/lobby/rnet_ice_xfer.c:144-185 | In every run, every chunk the sender counts as sent, an acknowledgement covers or the receiver has assembled was on the wire. |
| `IceXferProgress.RunDoneMailed` | src/lobby/rnet_ice_xfer.c:144-162 | In every run, every chunk of a blob the receiver has finished was on the wire. |
| `IceXferProgress.FinishedCanRepeat` | src/lobby/rnet_ice_xfer.c:204-242 | Delivery is never exactly once: in every reachable state every blob the receiver has finished can be delivered once more from chunks already sent. |
| `IceXferTheorems.MirrorRun` | src/lobby/rnet_ice_xfer.c:329-379 | Both directions behave alike, so claims about the left sender hold of the right one. |
| `IceXferTheorems.RunInv` | src/lobby/rnet_ice_xfer.c:144-276 | Every run keeps the invariant of both directions. |
| `IceXferFailure.FailedForGood` | src/lobby/rnet_ice_xfer.c:109-115 | An end that has failed stays failed in every continuation, takes no blob more and sends no chunk more. |
| `IceXferFailure.FailedIff` | src/lobby/rnet_ice_xfer.c:244-264 | An end has failed if and only if, at some event, it gave up, heard a FAIL or was offered a blob of more than 2^63-1 bytes. |
| `IceXferFailure.FailureHasCause` | src/lobby/rnet_ice_xfer.c:244-264 | Every failure goes back to such an event, which the lemma returns. |
| `IceXferFailure.FailSentIff` | src/lobby/rnet_ice_xfer.c:117-132 | FAIL is on the wire if and only if its end gave up. |
| `IceXferFailure.FailedIsSilent` | src/lobby/rnet_ice_xfer.c:329-346 | Whatever both applications call after an end has failed: it sends nothing but FAIL, hears nothing, refuses every blob, and still hands over what was ready, oldest first. |
| `IceXferFailure.AcceptedIff` | src/lobby/rnet_ice_xfer.c:402-424 | A blob is taken if and only if the end has not failed and fewer than 16 wait; it goes to the back under the next id, with nothing of it sent. |
| `IceXferFailure.QueuesBounded` | src/lobby/rnet_ice_xfer.c:187-197 | No run queues more than 16 blobs or holds more than 4 ready ones. |
| `IceXferFailure.AnyPacketContained` | src/lobby/rnet_ice_xfer.c:199-242 | Whatever packet arrives, forged ones included: the assembly stays within the announced length, a chunk that would run past it fails the end unanswered with nothing stored, and a blob is delivered only at exactly that length. |
| `IceXferProtocol.SenderTurn` | src/lobby/rnet_ice_xfer.c:164-185 | Every event at the sender keeps the facts about its direction. |
| `IceXferProtocol.ReceiverTurn` | src/lobby/rnet_ice_xfer.c:199-242 | Every event at the receiver keeps the facts about its direction. |
| `IceXferProtocol.ChunkHandled` | src/lobby/rnet_ice_xfer.c:199-242 | A genuine chunk keeps the assembly a prefix of its blob, is acknowledged on a boundary, and completes only the whole blob. |
| `IceXferObject.Xfer.constructor` | src/lobby/rnet_ice_xfer.c:278-303 | A new end is empty. |
| `IceXferObject.Xfer.QueueBlob` | src/lobby/rnet_ice_xfer.c:402-424 | Queueing takes the next id or changes nothing. |
| `IceXferObject.Xfer.TakeBlob` | src/lobby/rnet_ice_xfer.c:431-443 | The oldest ready blob is returned and dropped. |
| `IceXferObject.Xfer.OnAck` | src/lobby/rnet_ice_xfer.c:164-185 | The send queue after an acknowledgement. |
| `IceXferObject.Xfer.OnData` | src/lobby/rnet_ice_xfer.c:199-242 | Assembly buffer, ready queue and acknowledgement after a chunk. |
| `IceXferObject.Xfer.OnPacket` | src/lobby/rnet_ice_xfer.c:244-276 | One packet: new state and packets sent. |
| `IceXferObject.Xfer.SendWindow` | src/lobby/rnet_ice_xfer.c:354-379 | The window loop sends chunks until blob or window is exhausted. |
| `IceXferObject.Xfer.Pump` | src/lobby/rnet_ice_xfer.c:329-379 | A pump is the packets of the inbox in order, then the sending half; a failed end does nothing. |
| `IceXferObject.Xfer.Abort` | src/lobby/rnet_ice_xfer.c:470-476 | The end fails and one FAIL packet goes out. |
| `IceXferDrive.Drive` | src/lobby/rnet_ice_xfer.c:329-476 | Two objects, driven by any list of queue, take, abort and pump calls in which a pump hears any packets the other object ever sent: they end exactly where the run of the list ends, and each application took only blobs the other queued, byte for byte, in the order they were delivered. |
| `IceXferDrive.Perform` | src/lobby/rnet_ice_xfer.c:329-476 | One call at one object is exactly its events at that end of the transition system: state, packets, blobs queued and blobs taken. |
| `IceXferDrive.NextState` | src/lobby/rnet_ice_xfer.c:329-352 | A call whose pump hears only sent packets moves one end by its events and leaves the other alone. |
| `IceXferDrive.ServeFollows` | src/lobby/rnet_ice_xfer.c:329-379 | A pump is the hearing of its inbox and one tick; what reached the ready queue is what was taken and what still waits. |
| `WsFrame.FrameParses` | src/lobby_ws/rnet_ws.c:129-167 | Section 5.2 of RFC 6455 read back: the frame is one final text frame that unmasks (section 5.3) to the text and ends exactly where the encoder stopped. |
| `WsFrame.WriteFrame` | src/lobby_ws/rnet_ws.c:129-167 | The in-place encoder writes exactly that frame and touches nothing before it, or refuses without a change. |
| `WsFrame.MaskedBit` | src/lobby_ws/rnet_ws.c:163-165 | Each bit of a masked byte is the exclusive or of the bits of text and key, the key bytes taken in turn. |
| `WsFrame.HelloFrame` | src/lobby_ws/rnet_ws.c:129-167 | The masked frame of "Hello" is the one in section 5.7 of RFC 6455. |
| `WsFrame.MaskedTwice` | src/lobby_ws/rnet_ws.c:163-165 | Masking twice with the same key is the identity. |
| `WsTx.FrameLenAt` | src/lobby_ws/rnet_ws.c:269-281 | The length read in place is the frame length its header announces. |
| `WsTx.StreamIsFrames` | src/lobby_ws/rnet_ws.c:283-320 | Bytes sent followed by bytes pending are exactly the frames queued, from the buffer invariant. |
| `WsTx.BoundaryIff` | src/lobby_ws/rnet_ws.c:283-320 | The frame mark equals the send offset if and only if the bytes on the wire end at a frame boundary. |
| `WsTx.CompactOk` | src/lobby_ws/rnet_ws.c:218-266 | Dropping frames that have gone whole leaves the stream as it was. |
| `WsTx.AppendOk` | src/lobby_ws/rnet_ws.c:218-266 | A queued frame joins the end of the stream. |
| `WsTx.NextFrame` | src/lobby_ws/rnet_ws.c:269-281 | With bytes left before the offset, the frame at the mark exists and its length can be read there. |
| `WsTx.Tx.QueueText` | src/lobby_ws/rnet_ws.c:218-266 | The frame is queued whole or not at all; each error code has its exact cause; the backlog stays within the cap, and the high-water mark is its greatest size. |
| `WsTx.Tx.Compact` | src/lobby_ws/rnet_ws.c:235-242 | Compaction keeps what is pending. |
| `WsTx.Tx.Grow` | src/lobby_ws/rnet_ws.c:243-255 | Growing keeps what is pending and makes room. |
| `WsTx.Tx.FollowFrames` | src/lobby_ws/rnet_ws.c:311-314 | After a send the mark is the greatest frame boundary at or before the offset. |
| `WsTx.Tx.TakeSome` | src/lobby_ws/rnet_ws.c:283-320 | One partial send moves exactly those bytes from pending to the wire. |
| `WsTx.Tx.SendWhile` | src/lobby_ws/rnet_ws.c:287-315 | The send loop stops at the first result that is no progress or with nothing left, having moved exactly the bytes offered until then. |
| `WsTx.Tx.Flush` | src/lobby_ws/rnet_ws.c:283-320 | For every list of send results: exactly the bytes taken before the first would-block, error or 0, capped at the backlog, move from the front of what is pending to the wire; 0 is returned if and only if that is all of it, -1 if and only if an error or a 0 came before, and otherwise the backlog, with one would-block counted and a split frame counted exactly when the wire ends inside one. |
| `WsTx.Drive` | src/lobby_ws/rnet_ws.c:218-320 | Any interleaving of queue and flush calls: sent plus pending is the concatenation of the frames of exactly the queue calls that returned 0, in order, within the cap. |
| `WsRx.ChunkIndependent` | src/lobby/rnet_lobby_client.c:3731-3755 | However a stream of unmasked frames of at most 4096 bytes is cut into receives, the same texts come out in order, and the buffer is never full without a whole frame. |
| `WsRx.RoundTrip` | src/lobby/rnet_lobby_client.c:2564-2604 | Texts framed unmasked and received in any pieces are handed on as they were. |
| `WsRx.EndToEnd` | src/lobby/rnet_lobby_client.c:2564-2604 | Sending buffer and reader together, as values: at every moment the reader has handed on a prefix of the texts, and all of them once all is sent and received. |
| `WsDrive.Drive` | src/lobby/rnet_lobby_client.c:3731-3755 | A sending object and a reading object on one socket, driven by any list of queue calls, flushes with any partial sends and receives in any pieces: the texts handed on are a prefix of those whose queue call returned 0, and all of them once nothing is under way. Once nothing more is said, flushes that let the backlog out, then receives that take the bytes in, bring everything across. |
| `WsRx.TooLongWaits` | src/lobby/rnet_lobby_client.c:2566-2589 | An unmasked text of more than 4092 bytes is never handed on: with the buffer full its frame is still not whole. |
| `WsDrive.HearCovers` | src/lobby/rnet_lobby_client.c:3731-3755 | A receive loop takes in all that its sizes offer, or empties the stream. |
| `WsDrive.Pipe.Push` | src/lobby_ws/rnet_ws.c:283-320 | A flush on the shared socket moves exactly what the socket takes. |
| `WsDrive.Pipe.Utter` | src/lobby_ws/rnet_ws.c:218-266 | A queue call adds its text to those said exactly when it returns 0, and returns -2 exactly at the cap. |
| `WsDrive.Pipe.Hear` | src/lobby/rnet_lobby_client.c:3731-3755 | A receive loop on the shared socket advances the reader along the stream. |
| `WsDrive.FeedConcat` | src/lobby/rnet_lobby_client.c:3731-3755 | Receiving in two rounds is receiving all the pieces in one. |
| `WsRx.DrainResumes` | src/lobby/rnet_lobby_client.c:2564-2604 | Draining, then draining what is left with more bytes behind it, is draining everything at once, as long as the buffer stayed open. |
| `WsRx.PrefixDrains` | src/lobby/rnet_lobby_client.c:2564-2604 | Any prefix of a stream hands on its whole frames and leaves less than a full buffer. |
| `WsRx.ResetForgets` | src/lobby/rnet_lobby_client.c:2564-2604 | After good frames and a refused one, the frames that follow are lost if received in the same piece and read if received apart; the two agree if and only if none of them carries a text. |
| `WsRx.RefusedResets` | src/lobby/rnet_lobby_client.c:2564-2604 | A refused header behind good frames hands on their texts, empties the buffer and reports a reset. |
| `WsRx.ResetExample` | src/lobby/rnet_lobby_client.c:2564-2604 | A masked frame and a text: received in one piece the text is lost, received in two it is read. |
| `WsRx.FirstIsParsed` | src/lobby/rnet_lobby_client.c:2566-2589 | The reader takes exactly the whole frames of section 5.2 of RFC 6455 that are unmasked and have no 64-bit length, and reads opcode, payload and size as the standard does; it refuses the others by their second byte. |
| `WsRx.HandedIff` | src/lobby/rnet_lobby_client.c:2590-2595 | The handler gets the payload of a text frame of at most 4094 bytes, and nothing of any other frame. |
| `WsRx.Rx.Peek` | src/lobby/rnet_lobby_client.c:2566-2589 | The first frame as read in place. |
| `WsRx.Rx.DrainPending` | src/lobby/rnet_lobby_client.c:2564-2604 | The loop with its memmove computes the drain of the buffered bytes. |
| `WsRx.Rx.Receive` | src/lobby/rnet_lobby_client.c:3731-3755 | Each recv takes what the socket has ready, the buffer has room for and the stream still holds; the loop ends exactly when the buffer is full, the peer closed or nothing is ready, and says which; what it took is drained chunk by chunk. |
| `Sha256.Block` | src/auth/rnet_sha256.c:18-36 | The in-place block function is the compression function of section 6.2.2 of FIPS 180-4; its parts are pinned by ChBit, MajBit, the four sigma lemmas, ConstantsAreRoots, InitialValueIsRoots and DigestOfAbc. |
| `Sha256.Schedule` | src/auth/rnet_sha256.c:19-26 | The word array is the message schedule. |
| `Sha256.RunRounds` | src/auth/rnet_sha256.c:27-34 | The round loop is the 64 rounds. |
| `Sha256.Context.constructor` | src/auth/rnet_sha256.c:38-45 | A new context has taken in the empty message. |
| `Sha256.Context.TopUp` | src/auth/rnet_sha256.c:49-58 | Topping up a partly filled buffer takes in exactly the bytes it consumed. |
| `Sha256.Context.WholeBlocks` | src/auth/rnet_sha256.c:59-63 | The block loop takes in all whole blocks and leaves less than one. |
| `Sha256.Context.Update` | src/auth/rnet_sha256.c:47-68 | After an update the context has taken in the concatenation. |
| `Sha256.Context.Padding` | src/auth/rnet_sha256.c:71-76 | The tail buffer holds the rest of the message, 0x80, the zeros and the length in bits. |
| `Sha256.Context.Final` | src/auth/rnet_sha256.c:70-82 | The output is the SHA-256 digest of everything taken in, for messages under 2^61 bytes. |
| `Sha256.Compute` | src/auth/rnet_sha256.c:84-89 | The one-shot digest. |
| `Sha256Bits.RotrBit` | src/auth/rnet_sha256.c:16-16 | A rotation moves bit j + n mod 32 to bit j. |
| `Sha256Bits.ChBit` | src/auth/rnet_sha256.c:30-30 | Ch takes the bit of y where x has a 1 and that of z where it has a 0. |
| `Sha256Bits.MajBit` | src/auth/rnet_sha256.c:32-32 | Maj is the bit at least two of the three words have. |
| `Sha256Bits.BigSigma0Bit` | src/auth/rnet_sha256.c:31-31 | Each bit is the parity of the bits 2, 13 and 22 places up, cyclically. |
| `Sha256Bits.BigSigma1Bit` | src/auth/rnet_sha256.c:29-29 | Likewise 6, 11 and 25 places. |
| `Sha256Bits.SmallSigma0Bit` | src/auth/rnet_sha256.c:23-23 | Likewise 7 and 18 places, and 3 places without wrapping. |
| `Sha256Bits.SmallSigma1Bit` | src/auth/rnet_sha256.c:24-24 | Likewise 17 and 19 places, and 10 places without wrapping. |
| `Sha256Constants.PrimesInOrder` | src/auth/rnet_sha256.c:5-14 | The table of primes holds every prime up to its last entry, in order. |
| `Sha256Constants.ConstantsAreRoots` | src/auth/rnet_sha256.c:5-14 | Round constant i is the first 32 bits of the fraction of the cube root of the i-th prime (section 4.2.2 of FIPS 180-4). |
| `Sha256Constants.InitialValueIsRoots` | src/auth/rnet_sha256.c:38-45 | Initial word i is the first 32 bits of the fraction of the square root of the i-th prime (section 5.3.3). |
| `Sha256Vectors.CompressIs` | src/auth/rnet_sha256.c:18-36 | Eight runs of eight rounds over four windows of the schedule make up the compression of a block. |
| `Sha256Vectors.DigestOfAbc` | src/auth/rnet_sha256.c:84-89 | The digest of "abc", round by round, is the published one. |
| `HmacVectors.MacOfHiThere` | src/auth/rnet_auth.c:160-184 | The HMAC of "Hi There" under twenty bytes 0x0b, four compressions long, is that of test case 1 of RFC 4231. |
| `Sha256.ComputeChunks` | src/auth/rnet_sha256.c:47-82 | However the message is cut into updates, the digest is that of the whole. |
| `Sha256.TailDigest` | src/auth/rnet_sha256.c:70-77 | The last one or two blocks complete the fold over the padded message of sections 5.1.1 and 6.2. |
| `Sha256.ZeroCountLeast` | src/auth/rnet_sha256.c:72-74 | The number of zero bytes is the smallest that section 5.1.1 admits. |
| `Hmac.HmacSha256Hex` | src/auth/rnet_auth.c:160-184 | The output is the hexadecimal form of section 2 of RFC 2104 for keys of every length, longer than a block or not. |
| `Hmac.LoadKey` | src/auth/rnet_auth.c:166-171 | The key block: the key, or its digest when longer than 64 bytes, zero-filled. |
| `Hmac.HexEncode` | src/auth/rnet_auth.c:148-156 | The digit loop. |
| `Hmac.HexRoundTrip` | src/auth/rnet_auth.c:148-156 | The hexadecimal text determines the bytes. |
| `ChatMatch.MatchIsLongest` | src/chat/rnet_chat_filter.c:219-252 | For a word with no separator past its first letter (or under four letters), the scan succeeds if and only if the text spells the word there, and returns the longest such end. |
| `ChatMatch.CompleteIff` | src/chat/rnet_chat_filter.c:219-252 | A word is matched completely in all texts if and only if it has no separator past its first letter or has fewer than four letters. |
| `ChatMatch.StartsAgree` | src/chat/rnet_chat_filter.c:235-247 | Every spelling starts each letter exactly where the scan does: spellings are unambiguous up to repeats of the last letter. |
| `ChatMatch.GreedySpells` | src/chat/rnet_chat_filter.c:235-247 | Whatever the scan accepts is a spelling, for every word. |
| `ChatMatch.UncleanNeverMatches` | src/chat/rnet_chat_filter.c:237-240 | A word with a separator past its first letter is never found in any text. |
| `ChatMatch.ApostropheExample` | src/chat/rnet_chat_filter.c:237-240 | Such a word, which spells itself and is not matched in itself. |
| `ChatMatch.MatchAt` | src/chat/rnet_chat_filter.c:227-252 | The loop computes the end of the greedy match with its edge conditions. |
| `ChatScan.FilterCps` | src/chat/rnet_chat_filter.c:254-278 | The in-place scan stars exactly the ranges of the specification and counts them. |
| `ChatScan.FilterKeeps` | src/chat/rnet_chat_filter.c:254-278 | A starred character lies in a spelling of a listed word that starts on a letter; every other character is as it was. |
| `ChatScan.FilterCatches` | src/chat/rnet_chat_filter.c:254-278 | Wherever a searched word is spelled, its first character is starred, and a range starting there covers the whole spelling. |
| `ChatScan.ScanSound` | src/chat/rnet_chat_filter.c:254-278 | Ranges are disjoint, in order, and each spells a listed word. |
| `ChatScan.StarsExactly` | src/chat/rnet_chat_filter.c:268-272 | A character is a star if and only if some range covers it. |
| `ChatScan.LongestAt` | src/chat/rnet_chat_filter.c:258-267 | The inner loop finds the longest match among the words. |
| `ChatScan.WholeWordExact` | src/chat/rnet_chat_filter.c:234-248 | A whole-word entry matches with a given end if and only if that is its longest spelling and neither the character before it nor the one behind it is a letter. |
| `ChatWords.WholeWordCaught` | src/chat/rnet_chat_filter.c:234-248 | Wherever a whole-word entry is spelled, as long as possible, with no letter on either side in the line, its first character is starred, and a range starting there covers it. |
| `ChatWords.RangesLicensed` | src/chat/rnet_chat_filter.c:254-278 | Every starred range spells an entry that may stand anywhere, or a whole-word entry with no letter behind it and none before it, other than one just starred. |
| `ChatWords.SmallLetters` | src/chat/rnet_chat_filter.c:154-156 | Below 0x80 exactly the 26 small letters count as letters. |
| `ChatWords.AloneIff` | src/chat/rnet_chat_filter.c:232-248 | A whole-word match stands alone, with no letter of either case beside it, if and only if no ASCII capital touches it. |
| `ChatWords.CapitalExample` | src/chat/rnet_chat_filter.c:232-248 | The entry "ass" leaves "class" alone and stars the last three letters of "CLASS". |
| `ChatText.Apply` | src/chat/rnet_chat_filter.c:280-313 | Malformed lines, lines of more than 1024 code points, a disabled filter and lines without a hit leave every byte alone; otherwise the masked line is written, terminated, and the rest of the buffer kept. |
| `ChatText.WrittenWhole` | src/chat/rnet_chat_filter.c:303-311 | All code points of a masked terminated line fit, in no more bytes than it had. |
| `ChatText.LineRoundTrip` | src/chat/rnet_chat_filter.c:34-74 | Decoding undoes encoding on every line. |
| `ChatText.EncodeExamples` | src/chat/rnet_chat_filter.c:55-74 | One code point of each width, encoded as in RFC 3629. |
| `ChatText.EncodeRoundTrip` | src/chat/rnet_chat_filter.c:34-74 | Decoding undoes encoding whatever follows. |
| `ChatText.DecodeThenEncode` | src/chat/rnet_chat_filter.c:34-74 | One code point: re-encoding is never longer, and gives the same bytes if and only if they were the shortest form. |
| `ChatText.LineReencodesIff` | src/chat/rnet_chat_filter.c:34-74 | A whole line is re-encoded as it was if and only if every code point of it is in shortest form. |
| `ChatText.LineSeen` | src/chat/rnet_chat_filter.c:303-311 | In a buffer that holds an encoded line and its terminator a reader sees the code points before the first 0. |
| `ChatText.SeenAfter` | src/chat/rnet_chat_filter.c:303-311 | After masking, a reader of the buffer sees the masked line up to its first code point 0, and all of it if and only if there is none. |
| `ChatText.CutExample` | src/chat/rnet_chat_filter.c:280-313 | A line with a listed word and an overlong NUL, given to the entry point: the word is starred and the rest of the line is gone. |
| `ChatText.ReadLine` | src/chat/rnet_chat_filter.c:291-300 | The decoding loop accepts exactly well-formed lines of at most 1024 code points. |
| `ChatText.WriteLine` | src/chat/rnet_chat_filter.c:304-310 | The encoding loop writes the code points that fit before the terminator. |
| `InputHist.FoundIff` | src/input/rnet_input_hist.c:63-75 | A lookup returns a row if and only if it is a store of that tick that no later congruent store displaced. |
| `InputHist.MissIff` | src/input/rnet_input_hist.c:63-75 | After the last store of a tick, the lookup misses if and only if another tick congruent mod 128 was stored since, and otherwise returns that store. |
| `InputHist.NearestIs` | src/input/rnet_input_hist.c:97-109 | The backward search finds the latest row before the tick and within 127 ticks of it, or nothing if there is none. |
| `InputHist.InventedBlank` | src/input/rnet_input_hist.c:77-161 | With no row to look up in the 127 ticks before, either invention stores the neutral pad, predicted, at that tick. |
| `InputHist.InventedFrom` | src/input/rnet_input_hist.c:77-161 | Otherwise the latest such row decides: a hold repeats its whole pad, an idle is the neutral pad with its device type. |
| `InputHist.RunCarries` | src/input/rnet_input_hist.c:77-161 | A run of inventions of any length and kind carries the row it started from: holds repeat the whole pad, an idle resets it but for the device type. |
| `InputHist.BaseEvicted` | src/input/rnet_input_hist.c:77-117 | After 128 inventions the row they repeat can no longer be looked up. |
| `InputHist.History.constructor` | src/input/rnet_input_hist.c:5-20 | A reset history is empty, with the slot count clamped. |
| `InputHist.History.SetNeutral` | src/input/rnet_input_hist.c:22-34 | Only that seat's neutral pad changes. |
| `InputHist.History.Put` | src/input/rnet_input_hist.c:50-61 | The ring stays the image of the log with the row appended; other seats are untouched. |
| `InputHist.History.Get` | src/input/rnet_input_hist.c:63-75 | The in-place lookup is the lookup in the log. |
| `InputHist.History.LookBack` | src/input/rnet_input_hist.c:97-109 | The loop is the backward search. |
| `InputHist.History.InventHoldLast` | src/input/rnet_input_hist.c:77-117 | Stores, returns and counts the row that copies the nearest earlier pad within 127 ticks, or the neutral pad if there is none. |
| `InputHist.History.InventIdle` | src/input/rnet_input_hist.c:119-161 | Likewise, with the neutral pad and the device type of the last row. |
| `InputHist.History.Promote` | src/input/rnet_input_hist.c:163-175 | The authoritative row replaces what was there and is found at once, not predicted. |
| `InputHist.History.InventAll` | src/input/rnet_input_hist.c:77-161 | Any sequence of inventions at consecutive ticks appends exactly the invention run to the seat's log. |
| `InputContract.AgreementIff` | src/input/rnet_input_contract.c:354-511 | For every choice of parameters, those included that the casts to int32_t turn negative: decision and classification agree on all confirmed rows if and only if the onset deadband does not overlap the promote window. |
| `InputContract.OverlapsIff` | src/input/rnet_input_contract.c:373-403 | Where no cast turns negative, that overlap is one comparison of the analog floor, the onset deadband, the digital magnitude and the window. |
| `InputContract.AgreeIff` | src/input/rnet_input_contract.c:373-379 | Row by row the two tables differ exactly on an onset that the decision promotes. |
| `InputContract.NoOverlapAgrees` | src/input/rnet_input_contract.c:443-511 | Without overlap, a row is promoted as Micro or Continuity exactly when classified so and the dash gate agrees, and rewinds otherwise. |
| `InputContract.OverlapDisagrees` | src/input/rnet_input_contract.c:373-403 | For every deflection in the overlap, the pair of rows on which the tables differ. |
| `InputContract.DeadbandOrderSuffices` | src/input/rnet_input_contract.c:16-33 | A predict deadband no larger than the analog floor, both as cast, is enough for agreement. |
| `InputContract.DefaultsDisagree` | src/input/rnet_input_contract.c:16-33 | The default parameters overlap: a push from 13 to 15 is classified an onset and promoted as Micro. |
| `InputContract.PredictedRewinds` | src/input/rnet_input_contract.c:486-510 | Without gates a completed predicted row that differs always rewinds. |
| `InputContractRules.RunwayDecision` | src/input/rnet_input_contract.c:510-529 | Before the tick is simulated a row that differs and is not absorbed rewinds if and only if it is a release, or the host does not defer and the buttons differ or the stick moved past a threshold (out of the deadband, or past 25, from rest; across the facing threshold; more than the large delta; more than the deadband); it is deferred or insignificant in exactly the other cases. |
| `InputContractRules.CompletedDecision` | src/input/rnet_input_contract.c:443-511 | After the tick is simulated: each promote has its exact condition, told by squares around the centre, turns, moves and the answers of the host; every other row rewinds. |
| `InputContractRules.EarlyDecision` | src/input/rnet_input_contract.c:405-442 | Rows that agree are promoted, or rewound when the host forces it on a predicted one; rows the host absorbs are those that differ in the stick only. |
| `InputContractRules.ConfirmedIff` | src/input/rnet_input_contract.c:251-352 | A confirmed correction is significant if and only if a button differs or the stick moved past a threshold. |
| `InputContractRules.PredictedIff` | src/input/rnet_input_contract.c:216-352 | A predicted correction likewise, by the wider deadband, except that a key guessed where the stick was only nudged is no change. |
| `InputContractRules.ShedIff` | src/input/rnet_input_contract.c:177-214 | A release is a deflected stick that came home, or whose old place sticks out of a square a deadband wider than one around the new place. |
| `InputContractRules.OneIntentIff` | src/input/rnet_input_contract.c:86-135 | Same intent: both sticks held by hand and no axis turned. |
| `InputContractRules.DashIff` | src/input/rnet_input_contract.c:137-175 | The dash gate disagrees when a dash started, ended or turned. |
| `InputContractRules.Classified` | src/input/rnet_input_contract.c:354-403 | Every class has its exact condition in the same words. |
| `InputContractRules.LatePressRewinds` | src/input/rnet_input_contract.c:264-267 | A button that arrives late rewinds, completed or not. |
| `InputContract.PromotesAreGuarded` | src/input/rnet_input_contract.c:414-529 | For all gates: a button change on completed sim rewinds, a release is only absorbed or rewound, no promote passes a dash disagreement, a predicted row is never promoted by a deadband; the exact table is EarlyDecision, RunwayDecision and CompletedDecision. |
| `InputContract.ToleranceIsIdle` | src/input/rnet_input_contract.c:331-351 | The same-intent tolerance, activity floor and analog floor never change the significance verdict. |

## Left out

- Sockets, name resolution, clocks, random bytes and allocation failure: parameters of the events and methods.
- The packet checksum, magic and version of the LAN room, and the header of a blob packet: packets are values, and a damaged one is a lost one.
- PING and PONG and the round-trip figures of the LAN room: they touch no other state.
- The LAN room theorems assume that peer ids are unique and nonzero, that packets are not forged, and that guest addresses are nonzero.
- SnapshotConsistency: stated while the host is live, as are the other theorems about rosters except LaunchAgreement and StartCanFinish; SnapshotBreaks shows what happens beyond.
- LaunchAgreement: claimed from the host's launch_ready only; a guest may reach its handoff delay while the host later abandons the start.
- Liveness: nothing is claimed about when, or whether, a packet arrives; StartCanFinish, ReadyCanLaunch and DrainableIff say that completion stays possible.
- The transition system lets the host act after it has failed or closed, which the pump does not: it has more runs than the program.
- LanRoomPeer.GuestPeer.Speak: a send the socket refuses is a lost packet, so its error code is not returned.
- The chat ring of the LAN room is a sequence inside HostPeer and GuestPeer; ChatRing proves the ring itself.
- TransferIntegrity: for the first 2^32 blobs of an end, as are the other transfer theorems; WrapMixes shows what happens after that.
- DrainableIff: for blobs of at most 2^63-1 bytes, the longest the receiver admits.
- A path that fails or never connects fails an end without a FAIL packet: in the transition system that packet is one the network loses.
- The signalling, opening, closing, progress and path calls of the blob transfer.
- The handshake, blocking write and connection set-up of the WebSocket code, and what the lobby client does with a text.
- WsDrive.Drive: for texts of at most 4092 bytes; WsRx.TooLongWaits says that a longer one fills the reader's buffer, on which the client disconnects.
- WsRx.Rx.Receive: a failed socket reads as one with nothing more to say; disconnecting is not modelled.
- Sha256.Context.Final: for messages under 2^61 bytes, where the bit length fits its 64-bit field.
- The folding table of the chat filter and loading of the word list: the fold is an arbitrary function, the words an arbitrary list without empty entries.
- ChatText.SeenAfter: for a terminated buffer; one without a terminator is cut before its last byte, as ChatText.Apply states.
- Idempotence of the chat filter: a star is a separator for the next pass.
- NULL arguments of the input history and of the replace contract.
- The order in which the replace contract calls the host's gates: a gate is its answer.
- The rest of the repository: ICE agent, relay, LAN beacon and direct connection, lobby JSON, rollback session, remaining authentication code, modules and tools.
