# Two players, one deterministic run

A model, with proofs, of the part of the co-op mod that has to be right for two machines to play one
run: the delay-based lockstep with its re-ping, eviction, scene generations, resync and connection
handshake (`src/netplay/`), and the bookkeeping in `src/coop/coop.c` that has to agree with something
simpler than itself.

## What is modelled

**One machine.** `PeerSpec` holds the core's state as a value and says, routine by routine, what is
done to it. `Session` has the same state in the fields of a class and the routines as methods with
their loops: the receive loop, the window of fifteen slots, the resync machine, and the nested waiting
loops of `GetKeys` with their re-ping and five-second limit. Every method is proved to do to the state
exactly what `PeerSpec` says; the wait is proved to end, in one of two ways, without losing or inventing
a packet, and each of its events is proved to come when it is due. `Repings` says what that makes a
call send. `Calls` proves that a whole call is a sequence of the protocol's steps, with whatever the
other machine does between them, so what holds of every reachable state of the two machines holds
before, during and after the calls of the code.

**Two machines.** `Lockstep` runs two of these over a network that may lose, duplicate and reorder:
everything ever sent stays deliverable, any number of times, until it is lost. Words, seeds, menu flags
and the schedule are arbitrary. `LockstepInv` and `Agreement` prove the invariant and what follows for
every reachable state. `Replication` puts an arbitrary deterministic game behind each machine and
proves that both copies go through one sequence of states. `Scenes` and `Deadlock` prove the two
bounds the code never states, each in both directions: agreement needs scenes of `3 * delay + 2`
frames, and freedom from a mutual block needs a delay of at most 6. `Latch` and `Standing` say over every
run what a machine reports of itself: the latch the environment polls, the count, the pending target,
the last pair. `ResyncTargets`, `ResyncTogether`
and `Oracle` treat the resync and the desync flag, in any scene that stays in its stage and after any
scenes before it; `FifoDeadlock` shows that the delay of 7 is the bound even on a channel that neither
loses nor reorders, because a realignment throws slots away. `Handshake` treats the PING and PONG,
`Ping` the round trip.

**The co-op side.** `Ledger` (whose stock an item is credited to), `Ghosts`, `GhostRuns` and
`ShareRuns` (phantom spare, ghost, revive, life share), `AnmOverlay` (sprite tables captured and
exchanged in place), `Shots` (shots handed over in place), `Replay` (two players in a recorded word,
and the tag), `MenuRepeat` (hold-to-scroll) and `BitBuffer` (the byte buffer of `Connection.hpp`).

`Runs` builds the concrete schedules that the counterexamples and the bounds need, `ResyncRuns` and
`Realignments` those in which machines realign.

## Where the promise fails

- A connected guest has the host's settings: the comment at `src/netplay/netcode.cpp:600` takes any packet
  for a PING or a PONG, but a key packet connects too. `Handshake.AKeyPacketConnectsToo` is the run,
  `Handshake.AdoptedIffPolled` the exact condition on any network, and
  `Handshake.ConnectedGuestHasTheHostsSettings` the promise over a FIFO channel that loses nothing. A
  host that is up answers no PING (`src/netplay/netcode.cpp:569`), so a lost PONG is final:
  `Handshake.CanStillAdoptIff` is exact.
- The lockstep does not lock up: with a delay of 7 or more, and the launcher takes up to 10, loss alone can
  block both machines for good (`Deadlock.DeadlockFromSeven`); `Deadlock.DeadlockIffSeven` is exact. Nor does
  a perfect channel help once a machine realigns (`FifoDeadlock.OneJamsTheOther`), and
  `FifoDeadlock.FifoDeadlockIffSeven` is exact there.
- Both machines realign at one frame: in a stage that follows a stage, a request of the earlier one can
  still arrive and is not told apart (`Realignments.StaleRequestRealigns`).
  `ResyncTargets.RealignsAtTheHostsFrame` is the promise for a guest that has received none in its
  scene, `ResyncTargets.RealignsTogetherIffAnnounced` the exact condition without that premise, and
  `ResyncTargets.MenusAskForNothing` derives the premise in the first stage.
- Frame numbers may be reused after a scene change: not in scenes shorter than `3 * delay + 2`
  (`Scenes.ShortSceneDisagrees`); `Scenes.AgreementIffScenesLast` is exact. Across a boundary a block
  is possible at every delay, because the reset clears what would be sent again
  (`Scenes.BoundaryCanWedge`).
- The overlay is the whole load: an id whose reverse base alone differs is not captured
  (`AnmOverlay.ReverseBaseAloneIsMissed`); `AnmOverlay.OverlayIsTheLoadIff` is exact. Whether the engine's
  loader ever writes such a table is not part of this model.
- P2 does what the guest pressed: a bit above SKIP in the host's own word is taken for P2's
  (`Merge.AStrayBitIsTaken`); `Merge.MergeRecoversGuest` and `Replay.TheGuestIsReplayed` are exact.
- A life is shared after 90 frames in a row, says the comment at `src/coop/coop.c:3219-3226`: the counter stands
  still while somebody is a ghost and is not set back. `ShareRuns.GhostFramesDoNotBreakTheCount` is the run,
  `ShareRuns.DonateIff` says what is counted, and `ShareRuns.InARowIffNoGhost` when the comment is right.
- Two machines with resync on count the same run of desynced frames: not when the host realigns alone,
  its announcements lost (`Realignments.HostRealignsAlone`); `Oracle.RunsAgree` is exact.

## Model

| member | source | states |
|---|---|---|
| Merge.MergeAgrees | src/netplay/merge.cpp:9-45 | host and guest, each with the other's word, compute one word, in menus and in play |
| Merge.EitherMovesTheMenu | src/netplay/merge.cpp:12-13 | in a menu any button held on either machine is in the word, and no other |
| Merge.MergeLowHalf | src/netplay/merge.cpp:16-29 | the low nine bits are the host's, plus the guest's MENU and SKIP |
| Merge.MergeHighHalf | src/netplay/merge.cpp:16-43 | the high seven bits are the guest's buttons, over whatever the host holds there |
| Merge.MergeRecoversGuest | src/coop/coop.c:1268-1279 | unpacking P2 gives the guest's buttons if and only if the host's word adds no high bit of its own |
| Merge.AStrayBitIsTaken | src/netplay/merge.cpp:16-29 | a host word with SHOOT2 set makes an idle guest's P2 shoot |
| Merge.PackIsTwoShifts | src/coop/coop.c:1268-1296 | packing and unpacking are two shifts, SHOOT, BOMB and FOCUS by nine bits and the directions by eight |
| Merge.PackUnpack | src/coop/coop.c:1285-1296 | packing P2 over any low nine bits and unpacking gives P2's gameplay bits back |
| Merge.UnpackPack | src/coop/coop.c:1268-1296 | unpacking and packing again keeps exactly the high seven bits |
| Wire.BitsRoundTrip | src/netplay/Connection.hpp:70-80 | the two-byte form of a word and the word convert into each other, both ways |
| BitBuffer.SetOneBit | src/netplay/Connection.hpp:34-39 | setting a bit of a byte sets that bit and leaves the seven others |
| BitBuffer.Bits.Write | src/netplay/Connection.hpp:34-39 | after a write every bit of the buffer reads as before but the one written |
| BitBuffer.Bits.Or | src/netplay/Connection.hpp:52-57 | every bit of the buffer is its own or the other's, also when both are one buffer |
| BitBuffer.Bits.Clear | src/netplay/Connection.hpp:41-44 | every bit reads zero |
| PeerSpec.Overlay | src/netplay/netcode.cpp:194-212 | writing the slots frame, frame - 1, ... of a window changes these slots only, to the window's values |
| PeerSpec.ReceiveAllFrame | src/netplay/netcode.cpp:146-225 | receiving changes the received maps, the resync target and the metadata, and nothing the machine has recorded or returned |
| Session.Netcode.NoteEcho | src/netplay/netcode.cpp:164-171 | the peer's clock is remembered and an echo of one's own smoothed into the ping |
| Session.Netcode.WriteWindow | src/netplay/netcode.cpp:193-213 | the slot loop leaves the maps overlaid with the whole window |
| Session.Netcode.ConsiderResync | src/netplay/netcode.cpp:214-222 | a target is taken if and only if it lies within the next 2 * delay + 2 frames |
| Session.Netcode.Receive | src/netplay/netcode.cpp:164-222 | one packet does to the state what the specification says: keys of an older scene dropped, newer ones let in |
| Session.Netcode.RcvPacks | src/netplay/netcode.cpp:146-225 | everything up to the first empty poll is received in order, nothing after it, and the result says whether there was anything |
| Session.Netcode.SendKeys | src/netplay/netcode.cpp:227-276 | exactly one packet is sent: the last fifteen slots of the own maps under the current scene |
| Session.Netcode.RunResync | src/netplay/netcode.cpp:400-447 | the desync run, the realignment, the announcement and what is polled and sent at the top of a frame |
| Session.Netcode.ClearReceived | src/netplay/netcode.cpp:418-427 | realigning empties the received maps and keeps the own maps; what the latch and the count are worth is stated by `Latch` |
| Session.Netcode.PollResyncFired | src/netplay/netcode.cpp:639-644 | the answer is the latch, and the latch is down afterwards |
| Session.Netcode.RecordInput | src/netplay/netcode.cpp:479-493 | the own slot is written and the frame 80 before it leaves all six maps |
| Session.Netcode.ReadSlot | src/netplay/netcode.cpp:286-371 | the slot at frame - delay is compared and merged, and touching the maps is accounted for |
| Session.Netcode.AwaitPacket | src/netplay/netcode.cpp:322-337 | the inner wait ends with something received, or with the five seconds up and the slot missing; read off its events, the own window goes out each time the clock is more than a tenth of a second past the start or the last re-ping, and at no other |
| Session.Netcode.AwaitSlot | src/netplay/netcode.cpp:306-338 | both loops: the slot is there exactly if the call does not give up |
| Session.Netcode.GetKeys | src/netplay/netcode.cpp:278-371 | the nested loops end; packets polled plus packets left are the packets there were; the slot was missing before each event and each event was in time; the frame ends by merging the slot, or at the first reading of the clock past five seconds, with word 0, the link dropped and a re-ping in the last tenth of a second |
| Session.Netcode.GetInputNet | src/netplay/netcode.cpp:449-497 | one whole frame on a live link, and on a dead one the local word with nothing received or sent |
| Session.Netcode.Reset | src/netplay/netcode.cpp:607-625 | both histories, frame, flag and resync target are fresh and the scene generation is one more |
| Session.BatchFirst | src/netplay/netcode.cpp:150-159 | a receive takes the packets up to the first empty poll and leaves the others in order |
| Session.BatchIsUpToTheEmptyPoll | src/netplay/netcode.cpp:150-159 | these are the packets of the polls before the first that finds nothing, and that poll is used up |
| Session.TraceCame | src/netplay/netcode.cpp:324-326 | a receive during the wait keeps the account of packets, re-pings and missing slot |
| Session.TraceReping | src/netplay/netcode.cpp:329-333 | a re-ping changes nothing but what was sent |
| Repings.GaveUpAfterReping | src/netplay/netcode.cpp:329-333 | a call that gives up has sent its window again in its last tenth of a second, never twice within a tenth, and nothing but windows of its own unchanged slots |
| Repings.SilentCallRepings | src/netplay/netcode.cpp:322-337 | if nothing comes, the windows sent, a tenth of a second and one sleep each, fill the five seconds up to the last tenth: 49 with a counter of milliseconds |
| Latch.LatchIffRealigned | src/netplay/netcode.cpp:411-430 | over every run the latch is up exactly when the machine has realigned in this scene, and the count has grown by its realignments in all scenes |
| Latch.PollAnswers | src/netplay/netcode.cpp:636-644 | with the environment polling at will, a poll answers yes exactly when the machine has realigned since the last poll and in this scene |
| Standing.RunStands | src/netplay/netcode.cpp:214-222 | over every run a machine is armed for at most 2 * delay + 2 frames ahead and in play never for a frame gone by, its frame number is that of its call, and the pair by player is that of the last frame that returned one, and no keys after giving up |
| Calls.WaitUnfolds | src/netplay/netcode.cpp:309-338 | whatever the other machine does between the pieces of a wait, every piece is some steps of the protocol and the machine goes through the call's events |
| Calls.CallIsSteps | src/netplay/netcode.cpp:449-497 | a whole call, each receive polling what the other machine has sent by then: the pair stays reachable, and this machine ends with the call's state, packets and result |
| Calls.TheSlotMayComeLater | src/netplay/netcode.cpp:322-337 | a call can end with a slot that was not even sent when it began |
| LockstepInv.ActKeepsSound | src/netplay/netcode.cpp:146-497 | every action keeps own maps, packets and received maps truthful, whatever was read before and however long scenes last |
| LockstepInv.ActKeepsMine | src/netplay/netcode.cpp:146-497 | every action of a machine keeps its half of the invariant: maps, histories, packets and completed frames fit each other |
| LockstepInv.ActKeepsTheirs | src/netplay/netcode.cpp:146-497 | and what its peer knows of it stays true |
| LockstepInv.DepositKeepsHeard | src/netplay/netcode.cpp:181-212 | a truthful window written over the maps leaves every slot one of the sender's records of this scene or a newer one |
| LockstepInv.KeyPackTruthful | src/netplay/netcode.cpp:238-259 | a window sent for the newest frame holds in every slot of a frame that exists what was recorded for it |
| LockstepInv.RecordKeepsSelf | src/netplay/netcode.cpp:478-493 | recording keeps the own maps at exactly the last 80 frames |
| LockstepInv.SlotIsOfThisScene | src/netplay/netcode.cpp:181-191 | with scenes of at least 3 * delay + 2 frames, the slot about to be read was sent in this very scene |
| Agreement.CompletedFramesAgree | src/netplay/netcode.cpp:309-371 | in every reachable state, each frame both completed gave both the same pair, control action and flag, and the same word in the same mode |
| Agreement.CompletedFrameReads | src/netplay/netcode.cpp:286-371 | on either machine a completed frame returned what both recorded `delay` frames earlier: both words by player, the host's control action before the guest's, true exactly when the seeds were equal, and the word as its mode lays the two together |
| Agreement.Skew | src/netplay/netcode.cpp:309-338 | started frames differ by at most delay + 1, scenes by at most one, and a machine a scene ahead stands within its first delay + 1 frames |
| Agreement.WindowsAreTruthful | src/netplay/netcode.cpp:238-259 | in every run, with scenes of any length: the own maps hold exactly the last 80 frames, no packet ever sent has a made-up slot, and every slot held is a record of the peer |
| Agreement.NoOtherSceneIsRead | src/netplay/netcode.cpp:181-213 | though newer packets enter the same maps, the slot read is the peer's record of that frame of this scene |
| Replication.Replicated | src/netplay/netcode.cpp:449-497 | for every deterministic game and every schedule the two copies go through one sequence of states, with equal words, and no desync is ever flagged |
| Replication.TrailIsARun | src/coop/coop.c:1851-1873 | each state is the game's step from the state before on the word the core returned |
| Scenes.ShortSceneDisagrees | src/netplay/netcode.cpp:181-191 | with a scene of 3 * delay + 1 frames, a run in which the two machines read different pairs |
| Scenes.AgreementIffScenesLast | src/netplay/netcode.cpp:173-213 | every run agrees on every completed frame if and only if no scene is shorter than 3 * delay + 2 |
| Scenes.BoundaryCanWedge | src/netplay/netcode.cpp:607-625 | at any delay and scene length, loss at a scene boundary can block both machines for good |
| Deadlock.NoDeadlockUpToSix | src/netplay/netcode.cpp:309-338 | within a scene and with a delay up to 6, one of two blocked machines can always be freed by a re-ping |
| Deadlock.DeadlockFromSeven | src/launcher/launcher.c:94-95 | with a delay from 7 on, a reachable state in which no schedule ever frees either machine |
| Deadlock.DeadlockIffSeven | src/netplay/netcode.cpp:227-338 | a mutual block within a scene is reachable if and only if the delay is at least 7 |
| FifoDeadlock.NotStuckUpToSix | src/netplay/netcode.cpp:309-338 | with a delay up to 6 and a channel that keeps everything in order, two blocked machines can always be freed, realignments included |
| FifoDeadlock.OneJamsTheOther | src/netplay/netcode.cpp:414-430 | with a delay from 7 to 14, the guest realigns with the host `delay` frames ahead and both are blocked for good, though no packet is lost |
| FifoDeadlock.BothJam | src/netplay/netcode.cpp:414-430 | with a delay from 15 on, both realigning at their target is enough |
| FifoDeadlock.FifoDeadlockIffSeven | src/netplay/netcode.cpp:227-430 | on such a channel a mutual block within a scene is reachable if and only if the delay is at least 7 |
| ResyncTargets.RealignsAtTheHostsFrame | src/netplay/netcode.cpp:400-447 | in any stage, a guest that has received no request of an older scene in it realigns only at frames where the host does or is armed to, and never twice at one |
| ResyncTargets.RealignsTogetherIffAnnounced | src/netplay/netcode.cpp:214-222 | without that premise, a guest's realignment is the host's too if and only if the host announced the frame in this scene, and otherwise a request of an older scene set it off |
| ResyncTargets.MenusAskForNothing | src/netplay/netcode.cpp:401-405 | the premise holds in a stage whose earlier scenes were all menus |
| ResyncTargets.TargetsApart | src/netplay/netcode.cpp:436-446 | two targets of the host in one scene are at least the threshold plus 2 * delay + 2 frames apart |
| ResyncTargets.OnePendingTarget | src/netplay/netcode.cpp:214-222 | so at most one announced target can still be ahead of the guest |
| ResyncTargets.ArmedStaysArmed | src/netplay/netcode.cpp:214-222 | an armed guest keeps its target whatever arrives of its own scene |
| ResyncTogether.FireTogether | src/netplay/netcode.cpp:384-447 | over a FIFO channel without loss, in any stage, a desync that lasts makes both machines realign at initiation + 2 * delay + 2 |
| Realignments.BothRealign | src/netplay/netcode.cpp:400-447 | such a state is reachable, in a stage entered from a menu |
| Realignments.HostRealignsAlone | src/netplay/netcode.cpp:405-446 | a run in which the announcements are lost, the host realigns alone and the two counts differ at one frame |
| Realignments.StaleRequestRealigns | src/netplay/netcode.cpp:214-222 | a run of two stages in which a request of the first makes the guest realign alone in the second |
| Oracle.FlagIsExact | src/netplay/netcode.cpp:309-321 | a machine enters a frame with the flag false if and only if the seeds both recorded delay + 1 frames earlier differ |
| Oracle.RunsAgree | src/netplay/netcode.cpp:405-410 | the run is the frames since the last quiet or realigned one, and is equal on both machines if and only if that frame is |
| Ping.ReadoutIsSmoothed | src/netplay/netcode.cpp:160-171 | the readout is the smoothing of all samples seen, also those of packets dropped for their scene |
| Ping.EchoTimesTheTrip | src/netplay/netcode.cpp:164-171 | a packet's clock comes back in the peer's next packet and measures the time between on one's own clock, whatever the peer's is |
| Ping.DifficultyIsTheLast | src/netplay/netcode.cpp:192-193 | what is known of the peer's difficulty is what the last key packet of this scene or a newer one said |
| Ping.StaysAmongSamples | src/netplay/netcode.cpp:169 | it lies between the least and the greatest sample |
| Ping.RestingPoints | src/netplay/netcode.cpp:169 | under a constant round trip r it rests exactly at r - 3 .. r |
| Ping.SettlesNear | src/netplay/netcode.cpp:169 | it goes monotonically towards r, is within r - 3 .. r after at most its first distance in samples, and stays |
| Handshake.Connector.BeginHandshake | src/netplay/netcode.cpp:549-559 | everything about the link starts over, and only a positive delay is taken |
| Handshake.Connector.HsSend | src/netplay/netcode.cpp:534-547 | one packet with the own settings, and none from a host that has heard nobody |
| Handshake.Connector.Handle | src/netplay/netcode.cpp:583-601 | version check, answer, adoption and connection of one packet, in that order |
| Handshake.Connector.PumpHandshake | src/netplay/netcode.cpp:567-605 | a ping when due, then every packet up to the first empty poll, and connected is final |
| Handshake.DifferentBuildsNeverConnect | src/netplay/netcode.cpp:584-588 | if the versions differ neither machine connects in any run over any network |
| Handshake.VersionBadIffForeign | src/netplay/netcode.cpp:584-588 | the mismatch is latched if and only if a packet of another build was polled |
| Handshake.ConnectedGuestHasTheHostsSettings | src/netplay/netcode.cpp:590-600 | over a FIFO channel without loss a connected guest has the host's delay and seed |
| Handshake.AdoptedIffPolled | src/netplay/netcode.cpp:593-598 | over any network a guest with other settings has the host's if and only if its handshake polled any |
| Handshake.HostKeepsItsSettings | src/netplay/netcode.cpp:593-598 | the host's delay and seed never change |
| Handshake.HostAnswersFirst | src/netplay/Connection.cpp:440-449 | a host that has heard only PINGs has sent settings by the time it connects |
| Handshake.TheLinkComesUp | src/netplay/netcode.cpp:567-605 | one PING and one PONG connect both |
| Handshake.PumpPingsAgain | src/netplay/netcode.cpp:572-576 | a pump sends exactly one more PING if it is the first or 200 ms have passed since the last, and else none |
| Handshake.StillComesUp | src/netplay/netcode.cpp:567-605 | from every state of every run in which neither is connected, packets yet to be sent can connect both, with the host's settings |
| Handshake.StillLinking | src/netplay/netcode.cpp:534-605 | over every run a machine is linking up exactly until it is connected, and a host has sent nothing before it has heard something |
| Handshake.CanStillAdoptIff | src/netplay/netcode.cpp:567-571 | a guest not yet connected can still get the host's settings from packets yet to be sent if and only if the host is not connected |
| Handshake.DelayStaysPositive | src/netplay/netcode.cpp:593-598 | no packet whatever makes the delay less than 1 |
| Handshake.AKeyPacketConnectsToo | src/netplay/netcode.cpp:600 | without the PONG, any key packet of the core connects the guest on its own settings |
| Ledger.Items.RestoreHeldRes | src/coop/coop.c:3458-3472 | undoing the swap changes neither account |
| Ledger.Items.CheckPartnerExtend | src/coop/coop.c:3493-3517 | each tier reached since the last check extends the partner of whoever holds the struct, and nobody else |
| Ledger.Items.CollectOverlap | src/coop/coop.c:3519-3547 | afterwards the struct holds the stock of whoever `WhoIsCredited` says, and both accounts are settled |
| Ledger.Items.HookedItemLoop | src/coop/coop.c:3622-3629 | after the loop both stocks are the fold of a two-account ledger over the items, for any credits |
| Ledger.WhoIsCredited | src/coop/coop.c:3519-3547 | an item both players touch is P1's; P2's are only those P1 does not collect, in its own stock or the shared one; ghosts collect nothing; the other player gets one extend per tier |
| Ledger.ExtendsAddUp | src/coop/coop.c:3503-3511 | n mirrored extends are n lives and bombs together until both are full, lives first |
| Ledger.ExtendsCompose | src/coop/coop.c:3499-3511 | at which items the tiers were reached does not matter |
| Ledger.PartnerUntouched | src/coop/coop.c:3529-3547 | items of one player that reach no tier leave the other's account alone |
| Ledger.OneAccount | src/coop/coop.c:3499-3532 | without P2 or without separate stocks, P2's account never moves |
| Ledger.BothGetTheExtend | src/coop/coop.c:3474-3490 | a point-item extend gives both players one, whoever collected it |
| Ghosts.Coop.EnterGhostP1 | src/coop/coop.c:3114-3133 | ghost with the bombs last held and a 1up, or the end of the run if the partner is one |
| Ghosts.Coop.EnterGhostP2 | src/coop/coop.c:3099-3112 | the same for P2 |
| Ghosts.Coop.SwappedUpdate | src/coop/coop.c:4271-4303 | the engine updates P2 from P2's stock, P2 keeps the outcome, and P1's stock is back |
| Ghosts.Coop.UpdateP1 | src/coop/coop.c:4125-4170 | the loan, the update, and the loan taken back or the ghost |
| Ghosts.Coop.UpdateP2 | src/coop/coop.c:4264-4329 | the same for P2, the respawn's bombs, and a foreign game over taken back |
| Ghosts.Coop.ReviveByGraze | src/coop/coop.c:3170-3217 | the channel counter, and the donation that brings a ghost back |
| Ghosts.Coop.LifeShare | src/coop/coop.c:3231-3277 | the share counter, and the donated life as a 1up, P1 before P2 |
| Ghosts.Coop.HookedUpdate | src/coop/coop.c:4125-4380 | a whole frame of both players |
| GhostRuns.NeverBothGhosts | src/coop/coop.c:3099-3133 | over every run the two players are never both ghosts |
| GhostRuns.OverIffBothDown | src/coop/coop.c:3101-3121 | the run is over if and only if in some frame a player went down while the partner was a ghost |
| GhostRuns.FlagIsOurs | src/coop/coop.c:4125-4161 | over every run the game-over flag is up exactly when the run is over, and no player but a ghost is updated with less than one life until then |
| GhostRuns.StocksAreTheEngines | src/coop/coop.c:4264-4311 | a frame leaves each player exactly what its own update left, less the loan; a new ghost its last bombs, and P2 after losing a spare of its own its character's |
| GhostRuns.LivesAreConserved | src/coop/coop.c:3170-3277 | spares, players in play and 1ups dropped change by the net of items and of the engine's updates only; revive, share, last-life death and taking a dropped 1up keep their sum |
| GhostRuns.UnseenIsLost | src/coop/coop.c:3099-3133 | before the items were seen once, the life of a ghost's 1up is lost |
| GhostRuns.CounterIsTheChannel | src/coop/coop.c:3170-3217 | the counter is exactly the length of the current run of channel frames |
| GhostRuns.ReviveIffFullChannel | src/coop/coop.c:3186-3210 | a ghost comes back if and only if the frame completes 90 channel frames in a row, with focus let go and a spare to give |
| GhostRuns.ReviveIsPaid | src/coop/coop.c:3186-3210 | a revive takes one spare of the other player and nothing of the ghost |
| GhostRuns.ReleaseIsAnEdge | src/coop/coop.c:4365-4380 | the release is an edge: the key remembered is that of the frame before, none for a ghost |
| GhostRuns.GhostKeepsItsBombs | src/coop/coop.c:3099-3133 | a player that becomes a ghost holds the bombs it had when it last acted alive, not the respawn's |
| ShareRuns.CounterIsTheSharing | src/coop/coop.c:3241-3275 | the share counter is the number of frames with both in play since the sharing last broke off or a life was given |
| ShareRuns.DonateIff | src/coop/coop.c:3248-3272 | a life is given if and only if a donor with a spare lets go of focus after 89 such frames of sharing |
| ShareRuns.DonorPays | src/coop/coop.c:3248-3272 | a donated life is P1's if P1 has let go of focus, else P2's, and becomes a 1up |
| ShareRuns.InARowIffNoGhost | src/coop/coop.c:3219-3277 | of a donation the 89 frames before are in a row if and only if nobody was a ghost in them |
| ShareRuns.GhostFramesDoNotBreakTheCount | src/coop/coop.c:4369-4377 | a run in which a life is given two frames after a ghost came back |
| AnmOverlay.CaptureFits | src/coop/coop.c:2460-2478 | the capture has exactly the rows that differ, each once, with the loader's values |
| AnmOverlay.SwapUndoesItself | src/coop/coop.c:2733-2746 | exchanging twice restores tables and capture exactly |
| AnmOverlay.SwapShowsTheLoad | src/coop/coop.c:2733-2746 | swapped in, every row has the loader's script and sprite, and its reverse base where captured |
| AnmOverlay.OverlayIsTheLoadIff | src/coop/coop.c:2462-2471 | the overlay is the full load if and only if no row changed its reverse base alone |
| AnmOverlay.ReverseBaseAloneIsMissed | src/coop/coop.c:2462-2471 | two tables for which it is not |
| AnmOverlay.Overlay.FreeP2CharAnm | src/coop/coop.c:2491-2531 | whatever the engine's free does to the window, P1's rows are back |
| AnmOverlay.Overlay.LoadP2CharAnm | src/coop/coop.c:2396-2489 | whatever the loader writes and returns, P1's tables are as before, and on success the capture is the difference |
| AnmOverlay.Overlay.SwapAnm | src/coop/coop.c:2711-2748 | after any sequence of swaps the tables are P1's whenever the flag is off and the overlay whenever it is on; a reused slot retires it |
| Shots.MoveKeepsBoth | src/coop/coop.c:2382-2384 | moving one shot keeps the shots of both arrays together |
| Shots.TransferP2Shots | src/coop/coop.c:2368-2388 | P2's active shots, in order, fill P1's free slots and P1's stay in place; no shot is lost or made up, and then P2 has none or P1 no room |
| Replay.LocalIsGameplay | src/coop/coop.c:1083-1094 | P2's local word has a bit for each key held, and gameplay bits only |
| Replay.Recorder.HookedFrameTask | src/coop/coop.c:3943-3971 | one entry per running frame, P2 in its high bits and over the net the seed in its free half |
| Replay.Recorder.P2Input | src/coop/coop.c:4237-4249 | what P2 acts on live |
| Replay.Player.PlayFrame | src/coop/coop.c:2335-2355 | a running frame feeds P2 the entry at the head, sets the seed and moves on; a paused one does nothing |
| Replay.StreamOfTheRunningFrames | src/coop/coop.c:3962-3971 | the stream is the running frames' entries in order, wherever the pauses were |
| Replay.EntryKeepsP1 | src/coop/coop.c:3943-3958 | the entry has P1's nine bits as they were, and is the word itself over the net or without P2 |
| Replay.Retraces | src/coop/coop.c:4237-4249 | of any deterministic game, playback goes through the states of the run, so P2 is a ghost in the same frames |
| Replay.RoundTrip | src/coop/coop.c:4237-4249 | recorded with any pauses and played with any others, states, P2's inputs and the seeds come back frame by frame |
| Replay.TheGuestIsReplayed | src/coop/coop.c:1268-1296 | over the net this is what the guest pressed if and only if the host's word has no stray high bit |
| Replay.HeaderInit | src/coop/coop.c:2092-2160 | header and block carry the tag and the block the seed, no other byte changes, and without P2 none does |
| Replay.TagSurvivesInTheBlock | src/coop/coop.c:2225-2234 | character, flags and seed come back from the block whatever the header has become |
| Replay.TagInTheHeader | src/coop/coop.c:2235-2239 | without a tagged block the header's own tag gives the same |
| Replay.SavedFileShowsP2Iff | src/coop/coop.c:2092-2272 | a saved file whose header was written over shows a second player if and only if the run had one, with that run's character and flags |
| Replay.SavedReplayRoundTrips | src/coop/coop.c:2209-2355 | tag and stream together: a saved recording plays back P2's inputs, and the seeds exactly for net recordings |
| MenuRepeat.Menu.SyncMenuRepeat | src/coop/coop.c:1732-1746 | one frame of the counter and the flag |
| MenuRepeat.Menu.Frames | src/coop/coop.c:1732-1746 | a stretch of menu frames, each against the word before |
| MenuRepeat.HeldIsTheUnchangedTail | src/coop/coop.c:1734-1737 | what counts as held, read off the words alone |
| MenuRepeat.ClosedForm | src/coop/coop.c:1736-1745 | the counter is a function of the held frames, stays in 0..38, and the flag is set at the 33rd and every 8th after it, only |

## Left out

- Sockets, addresses, reconnecting and the packed byte layout of a packet; a packet is a value. Kept is that a host cannot send before it has heard from the guest.
- The game itself, its drawing, sound, memory layout and checksum: the engine's calls are arbitrary functions on the modelled fields. That one of its structures may be absent is not modelled.
- Floating point: lives and bombs are whole numbers, as the engine keeps them, and positions are reals; the x87 control word and the saved FPU state have no place in the model.
- Integers are unbounded, so the wrap-around of the frame number and of the scene generation is not modelled. Words, seeds and bytes have their width.
- The two clocks the core reads are one counter that only sleeping advances; a tenth of a second is `freq / 10` in whole counts.
- The six maps are kept in two records of three, and a class assigns a whole record where the source erases or writes one map after the other.
- Delays of 80 and more, at which an own slot would be evicted before it is read; the launcher sets 10 at most.
- Diagnostics: logs, counters of writes and zero fills, stall times, the traces.
- Agreement and the bounds stop where a machine times out: the frames completed before still agree, nothing is said after it.
- Progress across a scene boundary under loss: `Scenes.BoundaryCanWedge` shows there is none to prove.
- The resync results are about one scene, with the game in its stage from its first frame: the scene generation of a request is not looked at, and the counter is not judged in menus.
- The received maps are not bounded by 80 entries, since a late duplicate can put an old slot back.
- The reseed of the game after a realignment: `Latch` proves when a poll asks for it, `Lockstep` has no poll.
- Local control actions: the core always records none; the protocol's proofs allow any.
- `Session` keeps the waiting loops in two methods, one per loop of the nest, and their turns and ends in methods of their own.
- Life and bomb stocks shared by both players (the separate stocks switched off) are modelled for items, not for ghosts.
- Spawning and despawning P2, the movement of a ghost, and the reset of the two-player state at a stage boundary.
- A dropped 1up that falls off the screen untaken.
- Clearing P2's shots when the sprite overlay is retired, and rows of the tables outside P2's window.
- The re-force of the seed at the first stage frame of playback, and the recording's fallback when no entry can be read.
- P2 picking items up above the line, the portrait, the team border and the other co-op rules that hold no state of their own worth a proof.
