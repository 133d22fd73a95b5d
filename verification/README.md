# Flowersec v2: a verified model

A Dafny model of the hard parts of Flowersec v2: the encrypted session engine, the wire
formats under it, and the connection controllers above it. `dafny verify dfyconfig.toml`
checks the whole project.

**The session** (`Ledgers`, `Session*`). Two endpoints share a reliable control stream and one
carrier for each logical stream. `Session` is a state machine whose steps cut the source where the
two endpoints and the tasks within one can get between: opening, abandoning, accepting and
resetting streams, the inbound-responder freeze, session and stream rekeying with transitions,
epochs and watermarks, and GOAWAY. A check and the action that relies on it are two steps, so what
the check saw may be out of date when the action comes: a preface is checked, then marked; an open
is cleared, then goes on; a GOAWAY reads the frontier, stores it, then is sent; a rekey that ends
gives up its locks, then its freeze, then its activity flag. What a check saw, the epochs at which
a stream was answered (`fixed`) and whether rekeys overlapped (`overlapped`) are kept as history
that decides no step. "Left out" lists what is still one step. Every step is taken by endpoint
`a`; `Swap` exchanges the endpoints, so one set of steps and one half of the invariant describe
both. Cryptography is ideal: epoch roots are terms that are equal only when derived alike, and
carriers deliver only what the peer wrote. `SessionInvariant` states the invariant;
`SessionOpening`, `SessionAccepting`, `SessionPosting`, `SessionRekeying`, `SessionReading` and
`SessionAdopting` show that each step keeps it; `SessionTheorems`, `SessionGoaways`,
`SessionStreams` and `SessionFlags` draw the conclusions over all runs, `SessionChecks` says what the
checks do against a peer that is not honest, and `SessionExamples` builds the runs that show where
the code does less than one might expect.

**Structures inside a session.** `Ledgers.StreamLedger` packs two-bit slots into bytes and
refines a map; `ReplayWindows.ReplayWindow` is a 128-bit shifting bitmap that refines a set,
and `Datagrams.Receiver` is the receive loop over it; `Labels` are the counters that number
control records and datagrams; `StreamRecords.EncryptedStream` is one logical stream with its
three readers, `StreamDelivery` what an in-order carrier delivers of it, and `StreamPairs` its two
ends with updates that may cross; `ResponderGate` is the gate that a key update closes;
`RpcFraming` frames RPC messages on a stream.

**The wire layer.** `Wire` and `OpenPayloads` are the codecs, `WireLayouts` their bytes, `Metadata` the validator of OPEN
metadata, `Texts` and `Canonical` the canonical JSON printer with its UTF-16 key order.

**The controllers.** `Controller` follows every session through the scheduler and its
closers; `RetryPolicy`, `RetryWaits` and `RetryRuns` prove that the Rust, Go and TypeScript
schedulers start the same attempts at the same times, none too early and none too many.

## What the code does not guarantee

Each of these is a property one might expect. The model shows a run in which it fails, and
proves exactly when it holds.

- *A control record between honest endpoints is always readable.* It is refused exactly when
  the reader has pruned the roots of the record's epoch (`ControlRefusedExactlyWhenPruned`),
  as it may have when a record is posted after SESSION_KEY_UPDATE and before the switch
  (`PingDuringRekeyIsRefused`).
- *A late preface of an abandoned stream is discarded.* The epoch check comes before the
  ledger check, so it fails the session exactly when an epoch has passed in between
  (`StaleSetupIsAbandoned`, `LateSetupFailsSession`).
- *An endpoint keeps the roots of its receive epoch.* They are lost exactly when a local rekey
  ends between the check and the adoption of the peer's update (`ReceiveRootsLostExactly`,
  `CrossedRekeyLosesReceiveRoots`).
- *A GOAWAY may be repeated.* A repetition is refused exactly when its boundary has moved
  (`GoAwayRefusedExactlyWhenChanged`). An endpoint whose ledger is full sends one at every open it
  tries, and an abandonment that arrives in between moves the boundary (`MovedBoundaryIsRefused`).
- *After GOAWAY no further stream is served.* The responder reads the boundary before it gets the
  ledger's lock, so a stream begins to be served exactly when its responder had passed that check
  before the boundary was stored (`ServedAfterGoAwayExactly`, `StreamServedAfterGoAway`).
- *After GOAWAY no stream is opened past the boundary.* The open is cleared before each operation,
  so it registers a stream past the boundary exactly when it was cleared before the boundary
  arrived (`OpenedPastGoAwayExactly`, `StreamOpenedPastGoAway`); otherwise no continuation of the run
  registers it (`ForbiddenOpenStops`).
- *A freeze excludes responders.* The freeze flags are booleans, so exclusion is certain to last
  exactly when every live guard is the only one of its kind, its flag is up, and nobody is inside
  once it has been returned (`ExclusionLastsExactlyWhenSole`). The fields of the prepared rekey are
  dropped with the rekey lock first, so two local guards can overlap for a moment
  (`OverlapLosesExclusion`), and the one that is left may stand without its flag
  (`LoneGuardMayBeExposed`).
- *Outside a rekey every active stream sends at the session's epoch.* It does so wherever no rekey
  began while the freeze guard of an older one was alive (`StreamsSendAtSessionEpoch`). A stream is
  left behind exactly when a responder registers it at an epoch that has passed, or when a rekey
  ends that missed it in its plan (`LeftBehindExactly`, `RekeyLeavesBehindExactly`,
  `OverlappedRekeyLeavesStreamBehind`).
- *What a writer sends in order, the reader accepts.* Nothing stops a writer behind its own
  STREAM_KEY_UPDATE, but the reader moves to the new epoch at once; and the wait for the peer's
  update takes no acknowledgement. Everything is accepted exactly when nothing follows an update in
  its epoch but one acknowledgement right behind it, and no acknowledgement comes to that wait
  (`AcceptedExactlyWhenQuiet`, `DataBehindUpdateIsRefused`, `CrossingAckIsRefused`). In a run of both
  ends, `EndBreaksExactly` lists what else an end refuses, and `CrossingRekeyBreaksStream` is a run of
  two ordinary rekeys that cross.

- *Data is read in the order in which it was sent.* A read looks at the buffer before it gets the read
  lock, and a rekey that waits under that lock fills the buffer. Order is kept exactly when the item
  read then and the buffered ones read the same either way round (`ReadLocked`), so always when nothing
  was buffered in between (`Read`); `LateReadOvertakes` is a run in which it is not.

## Model

| member | source | states |
|---|---|---|
| `Ledgers.AdvanceReachesFrontier` | flowersec-rust/src/session_v2.rs:421-440 | walking slot by slot over settled IDs ends at the frontier of the ledger seen as a map |
| `Ledgers.FrontierIsMaximal` | flowersec-rust/src/session_v2.rs:383-385 | the frontier is a known, settled ID or zero, everything up to it is settled, and no longer settled prefix exists |
| `Ledgers.FrontierOfPrefix` | flowersec-rust/src/session_v2.rs:421-440 | a prefix that is settled up to an ID with nothing settled beyond it has that ID as its frontier |
| `Ledgers.OneSlotForward` | flowersec-rust/src/session_v2.rs:340-381 | one operation changes at most its own ID, only forward, and never lowers the frontier |
| `Ledgers.SlotsOnlyMoveForward` | flowersec-rust/src/session_v2.rs:340-381 | over any sequence of operations every slot only moves forward, settled stays settled and the frontier never falls |
| `Ledgers.OpenedAtMostOnce` | flowersec-rust/src/session_v2.rs:340-347 | after one successful open of an ID no later open of it succeeds, whatever happens in between |
| `Ledgers.MarksExactly` | flowersec-rust/src/session_v2.rs:340-403 | every operation by its ID and the state of its slot: the error it gives, or the state it leaves |
| `Ledgers.KnownIdsExactly` | flowersec-rust/src/session_v2.rs:387-403 | a ledger has slots for the odd IDs up to 2097151 of a client and for the even ones up to 2097152 of a server |
| `Ledgers.WriteSlotReads` | flowersec-rust/src/session_v2.rs:405-419 | writing one two-bit slot of a byte changes that slot and no other |
| `Ledgers.StreamLedger.constructor` | flowersec-rust/src/session_v2.rs:332-338 | a new packed ledger stands for the empty map |
| `Ledgers.StreamLedger.Set` | flowersec-rust/src/session_v2.rs:415-419 | a packed write changes exactly one entry of the map |
| `Ledgers.StreamLedger.Advance` | flowersec-rust/src/session_v2.rs:421-440 | the loop ends with the stored frontier equal to the map's frontier, terminating on the remaining slots |
| `Ledgers.StreamLedger.MarkFss2` | flowersec-rust/src/session_v2.rs:340-347 | the packed form agrees with the map on success, on the error and on the new state |
| `Ledgers.StreamLedger.MarkTerminal` | flowersec-rust/src/session_v2.rs:349-360 | likewise for resolving an opened ID |
| `Ledgers.StreamLedger.MarkPeerReset` | flowersec-rust/src/session_v2.rs:362-371 | likewise for a reset by the peer, before or after the preface |
| `Ledgers.StreamLedger.MarkLateFss2` | flowersec-rust/src/session_v2.rs:373-381 | likewise for the late preface of an abandoned ID |
| `SessionInvariant.EstablishedSafe` | flowersec-rust/src/session_v2.rs:603-709 | the state that the handshake leaves satisfies the invariant from both sides |
| `SessionOpening.AllocateSafe` | flowersec-rust/src/session_v2.rs:2379-2412 | allocating an ID under the open lock keeps the two-endpoint invariant |
| `SessionOpening.OpenerSafe` | flowersec-rust/src/session_v2.rs:2412-2592 | each check, taking the epochs, writing the preface and OPEN, reading OPEN_ACK, registering and abandoning keep it, whatever has happened since the check |
| `SessionPosting.ExhaustedOpenSafe` | flowersec-rust/src/session_v2.rs:2399-2406 | running out of IDs, after which a GOAWAY is due, keeps it |
| `SessionPosting.WriteAbandonResetSafe` | flowersec-rust/src/session_v2.rs:2292-2314 | announcing an abandonment keeps it |
| `SessionAccepting.ReadSetupSafe` | flowersec-rust/src/session_v2.rs:3054-3102 | reading and checking a preface keeps the invariant or fails with a stale epoch |
| `SessionAccepting.MarkSetupSafe` | flowersec-rust/src/session_v2.rs:3104-3113 | marking its ID afterwards, under the ledger's lock, keeps it |
| `SessionAccepting.AcceptorSafe` | flowersec-rust/src/session_v2.rs:3054-3197 | every step of accepting a stream, and entering and leaving as a responder, keep it |
| `SessionPosting.PostPlainSafe` | flowersec-rust/src/session_v2.rs:1485-1536 | labelling and sending a record that carries no protocol state keeps it |
| `SessionPosting.ResetStreamSafe` | flowersec-rust/src/session_v2.rs:2752-2754 | marking a stream as reset keeps it |
| `SessionPosting.WriteResetSafe` | flowersec-rust/src/session_v2.rs:2755-2760 | writing its STREAM_RESET later, whatever happened in between, keeps it |
| `SessionPosting.FrontierWithin` | flowersec-rust/src/session_v2.rs:2112-2123 | the frontier an acceptor announces is zero, or an ID of the opener at or below its high watermark |
| `SessionPosting.NoticeSafe` | flowersec-rust/src/session_v2.rs:2112-2118 | beginning to close, reading the frontier for a GOAWAY and storing the boundary keep the invariant, one by one |
| `SessionPosting.PostBoundarySafe` | flowersec-rust/src/session_v2.rs:2119-2123 | sending the stored boundary keeps it |
| `SessionRekeying.FrontierResolves` | flowersec-rust/src/session_v2.rs:1882-1899 | the outbound frontier never passes the high watermark, and reaching it means every opened stream is resolved |
| `SessionRekeying.PrepareStepSafe` | flowersec-rust/src/session_v2.rs:1713-1759 | taking the rekey and open locks, draining responders, giving up, and dropping the freeze and activity guards of an ended rekey keep the invariant |
| `SessionRekeying.WriteKeyUpdateSafe` | flowersec-rust/src/session_v2.rs:1855-1870 | announcing the session update keeps it |
| `SessionRekeying.RekeyStepSafe` | flowersec-rust/src/session_v2.rs:1759-1924 | preparing, committing, updating streams, switching epoch and finishing keep it |
| `SessionReading.HeaderAccepted` | flowersec-rust/src/session_v2.rs:1538-1572 | between honest endpoints the header check fails only for want of the epoch's roots |
| `SessionReading.BoundaryAccepted` | flowersec-rust/src/session_v2.rs:2083-2110 | a GOAWAY in flight from an honest acceptor is within bounds whenever it is read |
| `SessionReading.AckExpected` | flowersec-rust/src/session_v2.rs:1618-1648 | an acknowledgement in flight answers the one update its receiver is waiting on |
| `SessionReading.ReadControlSafe` | flowersec-rust/src/session_v2.rs:1592-1661 | reading and handling any control record keeps the invariant or fails in a tolerated way |
| `SessionAdopting.HeldUpdate` | flowersec-rust/src/session_v2.rs:1940-1956 | the update being received is the one its sender has outstanding |
| `SessionAdopting.WatermarkReached` | flowersec-rust/src/session_v2.rs:1978-1980 | once responders have drained, the receiver's frontier is the sender's high watermark |
| `SessionAdopting.CheckUpdatePasses` | flowersec-rust/src/session_v2.rs:1940-1980 | no check on an honest update fails, and its next roots extend the schedule |
| `SessionAdopting.CheckUpdateSafe` | flowersec-rust/src/session_v2.rs:1940-1984 | checking an update keeps the invariant |
| `SessionAdopting.AdoptSafe` | flowersec-rust/src/session_v2.rs:1981-1996 | adopting it keeps the invariant |
| `SessionAdopting.WriteKeyAckSafe` | flowersec-rust/src/session_v2.rs:1996-1997 | acknowledging it keeps the invariant |
| `SessionAdopting.FinishPeerRekeySafe` | flowersec-rust/src/session_v2.rs:1997-2003 | looking at the activity flag, then pruning and lifting the freeze, keep the invariant, one by one |
| `SessionAdopting.StreamStepSafe` | flowersec-rust/src/session_v2.rs:2912-3032 | stream updates, also of a stream already reset, their acknowledgements, FIN, closing, resetting and dropping keep it |
| `SessionAdopting.LoseCarrierSafe` | flowersec-rust/src/session_v2.rs:2297-2299 | losing whatever a reset carrier held keeps it |
| `SessionTheorems.TakeSafe` | flowersec-rust/src/session_v2.rs:1485-3310 | every step of a live endpoint keeps the invariant or ends in a tolerated failure |
| `SessionTheorems.RunSafe` | flowersec-rust/src/session_v2.rs:1485-3310 | so does every run of both endpoints, in any interleaving |
| `SessionTheorems.HonestRunsPassChecks` | flowersec-rust/src/session_v2.rs:1538-2123 | in no run does a session-level check on control labels, transitions, epochs, watermarks, boundaries, ledgers or session acknowledgements fail |
| `SessionTheorems.WatermarkAgreement` | flowersec-rust/src/session_v2.rs:1978-1980 | in every run, when responders have drained, frontier, announced watermark and the opener's high watermark are equal and the update passes |
| `SessionTheorems.OpenGetsFreshId` | flowersec-rust/src/session_v2.rs:2379-2412 | in every run an open gets a never used ID, two above the last one, which becomes the high watermark, as long as there is one; otherwise a GOAWAY is due |
| `SessionChecks.UpdatePassesExactly` | flowersec-rust/src/session_v2.rs:1940-1984 | against any peer: an update is checked exactly when no responder is left, and passes exactly when transition and epoch are the next ones, the roots are held, and every ID up to its watermark, and not the next one, is resolved |
| `SessionChecks.UpdateAdoptsExactly` | flowersec-rust/src/session_v2.rs:1981-1996 | a checked update is adopted exactly when each stream of its snapshot has taken the stream update that belongs to it, or FIN |
| `SessionChecks.ControlPassesExactly` | flowersec-rust/src/session_v2.rs:1538-1572 | against any peer: exactly the next label, or the first of an adopted epoch, passes, and the label after it is expected next |
| `SessionChecks.AckPassesExactly` | flowersec-rust/src/session_v2.rs:1618-1648 | against any peer: exactly a pending update repeated word for word, or the last one again, passes |
| `SessionChecks.BoundaryPassesExactly` | flowersec-rust/src/session_v2.rs:2083-2110 | against any peer: exactly zero, or an ID this endpoint has opened, passes as a boundary, and only if it does not change |
| `SessionChecks.ResetPassesExactly` | flowersec-rust/src/session_v2.rs:2054-2074 | against any peer: a reset passes exactly for the IDs 1 to 2097152, settles its ID and marks the stream |
| `SessionChecks.SetupPassesExactly` | flowersec-rust/src/session_v2.rs:3054-3102 | against any peer: a preface fails the session exactly when its epoch is not the receive epoch, and is served exactly when besides the roots are held and no sent boundary lies before its ID |
| `SessionChecks.RespondersCounted` | flowersec-rust/src/session_v2.rs:3199-3269 | a responder enters exactly while neither key update has closed the gate, and is counted in and out |
| `SessionChecks.OpenPassesExactly` | flowersec-rust/src/session_v2.rs:2598-2602 | an open goes on exactly when no received boundary forbids its ID |
| `SessionChecks.OpenBeginsExactly` | flowersec-rust/src/session_v2.rs:2379-2412 | an open begins exactly when no open, rekey or GOAWAY stands in its way, and uses up an ID |
| `SessionChecks.OpenAckResolves` | flowersec-rust/src/session_v2.rs:2513-2556 | reading OPEN_ACK, sealed at the receive epoch the open took, resolves its ID |
| `SessionChecks.HandleDropsExactly` | flowersec-rust/src/session_v2.rs:2028-2052 | a stream goes exactly when the application has it and no rekey holds it |
| `SessionChecks.RekeyBeginsExactly` | flowersec-rust/src/session_v2.rs:1748-1755 | a rekey begins exactly when no open, rekey or closing stands in its way |
| `SessionChecks.RekeyPreparesExactly` | flowersec-rust/src/session_v2.rs:1756-1812 | a rekey goes on to its plan exactly when every ID up to the watermark, and not the next one, is resolved, the roots are held and the epoch is not the last; it waits while some ID is not resolved |
| `SessionChecks.RekeyEndsExactly` | flowersec-rust/src/session_v2.rs:1901-1922 | a rekey ends exactly when each stream of its plan has the acknowledgement of its own update, and leaves only the roots of the current epochs |
| `SessionChecks.PreparingCancelsExactly` | flowersec-rust/src/session_v2.rs:1748-1800 | a preparation is given up exactly before it has a plan, and its flags go down |
| `SessionChecks.GuardsDropOnce` | flowersec-rust/src/session_v2.rs:1713-1746 | an ended rekey drops its freeze guard and then its activity guard, each once |
| `SessionChecks.StreamUpdatePassesExactly` | flowersec-rust/src/session_v2.rs:2912-2960 | a stream takes an update exactly when it has adopted the last one, its epoch is not the last and the next roots are held or can be derived, and then moves one epoch on |
| `SessionChecks.ClosingBeginsOnce` | flowersec-rust/src/session_v2.rs:2126-2135 | closing begins once and owes the peer a GOAWAY |
| `SessionChecks.PostLabels` | flowersec-rust/src/session_v2.rs:1485-1536 | a record is labelled with the send epoch and the next sequence and changes nothing else; after 2^64 - 1 records of an epoch, or without roots, the session fails |
| `SessionTheorems.EpochLockstep` | flowersec-rust/src/session_v2.rs:1816-2003 | in each direction the receiver is level with the sender, or one epoch ahead while a committed rekey has not switched; at most one update is anywhere between them, and transition, next epoch and watermark agree |
| `SessionTheorems.KeyScheduleAgreement` | flowersec-rust/src/session_v2.rs:1760-2007 | every root either side holds for an epoch of a direction is that many derivations from the session key, and a sender holds the roots of its own epoch |
| `SessionTheorems.StreamCanSealExactlyWhenCurrent` | flowersec-rust/src/session_v2.rs:1916-1922 | outside a rekey a stream has roots to send with exactly when it sends at the session's epoch |
| `SessionTheorems.StreamsSendAtSessionEpoch` | flowersec-rust/src/session_v2.rs:2028-2039 | until a rekey commits, every stream that may still send does so at the session's epoch, if no rekey ever began while an older freeze guard was alive |
| `SessionStreams.LeftBehindExactly` | flowersec-rust/src/session_v2.rs:3143-3182 | outside the committed part of a rekey a stream falls behind the session's epoch if and only if a responder registers it at an epoch that has passed |
| `SessionStreams.RekeyLeavesBehindExactly` | flowersec-rust/src/session_v2.rs:1901-1922 | a rekey that ends leaves every active stream current if and only if those its plan missed are current already |
| `SessionTheorems.FinishedRekeySwitchesStreams` | flowersec-rust/src/session_v2.rs:1713-1922 | over every run: a stream that neither reset nor FIN kept from sending when the rekey was prepared sends at the new epoch when that rekey ends |
| `SessionTheorems.PlanHoldsSenders` | flowersec-rust/src/session_v2.rs:1756-1812 | in every run a registered stream is in the plan of a rekey if and only if it had neither been reset nor sent FIN |
| `SessionTheorems.SnapshotHoldsReceivers` | flowersec-rust/src/session_v2.rs:1978-1984 | in every run a checked update passes, and a registered stream is in its snapshot if and only if it had neither been reset nor seen FIN |
| `SessionTheorems.AdoptedUpdateReachesStreams` | flowersec-rust/src/session_v2.rs:1981-1996 | over every run: when an update is adopted, every stream that was registered when it was checked receives at the new epoch, has seen FIN, or had been reset by then |
| `SessionFlags.StreamFlagsExactly` | flowersec-rust/src/session_v2.rs:2729-3032 | in every run a stream is registered with its flags down and no update pending, and each flag goes up for good by one kind of step: FIN read, writing side closed, reset here or by the peer |
| `SessionFlags.FlagsHaveOwners` | flowersec-rust/src/session_v2.rs:1732-1756 | in every run a freeze or activity flag that is up belongs to a rekey in progress or to a guard that an ended rekey has not dropped yet |
| `SessionTheorems.ControlRefusedExactlyWhenPruned` | flowersec-rust/src/session_v2.rs:1562-1566 | a control record is refused if and only if its epoch's roots were pruned |
| `SessionTheorems.GoAwayRefusedExactlyWhenChanged` | flowersec-rust/src/session_v2.rs:2083-2101 | a GOAWAY is refused if and only if it changes an earlier boundary, so the first never is; otherwise its boundary is recorded |
| `SessionTheorems.StaleSetupIsAbandoned` | flowersec-rust/src/session_v2.rs:3080-3084 | a preface fails the session if and only if its epoch has passed, and then its stream was already abandoned |
| `SessionTheorems.CheckedSetupUsesItsId` | flowersec-rust/src/session_v2.rs:3104-3113 | a preface that passed its checks uses up its ID, and its stream is served if and only if it was not abandoned in the meantime |
| `SessionTheorems.OpenedStreamAgrees` | flowersec-rust/src/session_v2.rs:2513-2592 | in every run the opener registers a stream at the send and receive epochs at which the acceptor set it up to receive and send |
| `SessionTheorems.AcceptedStreamAgrees` | flowersec-rust/src/session_v2.rs:3143-3182 | the acceptor registers it at those epochs |
| `SessionTheorems.FixedForGood` | flowersec-rust/src/session_v2.rs:3143-3153 | no step of any run changes the epochs at which an acceptor answered a stream |
| `SessionTheorems.RootsDroppedExactly` | flowersec-rust/src/session_v2.rs:1916-2007 | receive roots of other epochs are dropped if and only if a local rekey ends, or the peer's ends after it found the local activity flag down |
| `SessionGoaways.GoAwayCoversStreams` | flowersec-rust/src/session_v2.rs:2083-2123 | in every run the acceptor has resolved every stream up to the boundary its peer has been told |
| `SessionGoaways.ServedAfterGoAwayExactly` | flowersec-rust/src/session_v2.rs:3096-3113 | once an acceptor has stored a boundary, a step of a run begins to serve a stream if and only if it marks an unseen ID whose responder passed the check before any boundary was stored, and no further responder gets that far |
| `SessionGoaways.OpenedPastGoAwayExactly` | flowersec-rust/src/session_v2.rs:2557-2592 | once an opener has received GOAWAY, a step of a run registers a stream past the boundary if and only if its open was cleared before the boundary arrived, and no open is cleared like that any more; what it registers within the boundary, the acceptor has resolved |
| `SessionGoaways.ForbiddenOpenStops` | flowersec-rust/src/session_v2.rs:2556-2602 | once a boundary has arrived that forbids an ID whose open was not already cleared, no continuation of the run ever registers that stream |
| `SessionGoaways.ClearanceStays` | flowersec-rust/src/session_v2.rs:2083-2101 | a clearance that saw a boundary stays good, since a boundary never changes once received |
| `SessionGoaways.StepMoves` | flowersec-rust/src/session_v2.rs:2083-2123 | every step only raises the acceptor's frontier, announces boundaries at it, stores and sends announced ones, takes in sent ones and lets prefaces pass only the stored one |
| `SessionTheorems.ReceiveRootsLostExactly` | flowersec-rust/src/session_v2.rs:1916-1922 | a step loses receive roots if and only if it ends a local rekey while the peer's update is checked and not adopted |
| `SessionExamples.PingDuringRekeyIsRefused` | flowersec-rust/src/session_v2.rs:1997-2001 | a run in which a PING sent during a rekey fails the reader |
| `SessionExamples.LateSetupFailsSession` | flowersec-rust/src/session_v2.rs:3080-3084 | a run in which the preface of an abandoned stream fails the session |
| `SessionExamples.MovedBoundaryIsRefused` | flowersec-rust/src/session_v2.rs:2399-2406 | a run, of more than a million opens, in which a live endpoint with a full ledger sends a second GOAWAY that fails its peer |
| `SessionExamples.StreamServedAfterGoAway` | flowersec-rust/src/session_v2.rs:3096-3113 | a run in which a stream past the stored boundary begins to be served |
| `SessionExamples.StreamOpenedPastGoAway` | flowersec-rust/src/session_v2.rs:2557-2589 | a run in which a stream past the received boundary is registered |
| `SessionExamples.Exhaust` | flowersec-rust/src/session_v2.rs:2399-2406 | from any quiet state a server can open and abandon streams until its ledger is full |
| `SessionExamples.OverlappedRekeyLeavesStreamBehind` | flowersec-rust/src/session_v2.rs:1713-1723 | a run of two overlapping rekeys that leaves an active stream at an epoch whose roots are gone |
| `SessionExamples.CrossedRekeyLosesReceiveRoots` | flowersec-rust/src/session_v2.rs:1916-1922 | a run of crossing rekeys that leaves an endpoint without the roots of its receive epoch |
| `ReplayWindows.ShiftIsRepeatedDoubling` | flowersec-rust/src/session_v2.rs:774-788 | the machine's left shift by a variable distance below the word's width is that many doublings |
| `ReplayWindows.ShiftedBit` | flowersec-rust/src/session_v2.rs:774-781 | a shift moves every bit up by the distance and drops those that leave the word |
| `ReplayWindows.RaisedBits` | flowersec-rust/src/session_v2.rs:774-782 | raising the highest number keeps every remembered number at its new distance |
| `ReplayWindows.LoweredBits` | flowersec-rust/src/session_v2.rs:783-788 | recording an older number changes its own bit only |
| `ReplayWindows.ReplayWindow.Contains` | flowersec-rust/src/session_v2.rs:757-766 | a number is contained if and only if it was inserted or is 128 or more behind one that was |
| `ReplayWindows.ReplayWindow.Insert` | flowersec-rust/src/session_v2.rs:768-790 | the window then stands for the set with the number added |
| `Datagrams.DeliveredAtMostOnce` | flowersec-rust/src/session_v2.rs:1013-1091 | whatever datagrams arrive, no label is delivered twice |
| `Datagrams.DeliveredExactlyWhenNew` | flowersec-rust/src/session_v2.rs:1013-1091 | whatever arrived before, a datagram is delivered if and only if it is 49 to 1024 bytes long, 32 more than its ciphertext, expires after both readings of the clock, its epoch has roots, it opens, and its label is new and not 128 or more behind a delivered one |
| `Datagrams.Receiver.Seen` | flowersec-rust/src/session_v2.rs:1041-1050 | the check on the bitmaps answers for the set of delivered labels |
| `Datagrams.Receiver.Record` | flowersec-rust/src/session_v2.rs:1081-1088 | recording a label adds it to that set and leaves the other epochs alone |
| `Datagrams.Receiver.Receive` | flowersec-rust/src/session_v2.rs:1013-1091 | a call returns the first deliverable datagram, unexpired at both readings of the clock and new to the session, and skips only undeliverable ones |
| `Labels.SendLabels.LabelControl` | flowersec-rust/src/session_v2.rs:1492-1500 | a control record gets a label never assigned before, or none when the epoch's numbers are used up |
| `Labels.SendLabels.LabelDatagram` | flowersec-rust/src/session_v2.rs:970-982 | likewise for datagrams, whose numbers start over lazily |
| `Labels.SendLabels.SwitchEpoch` | flowersec-rust/src/session_v2.rs:1905-1910 | a new epoch restarts the control numbers without repeating a label |
| `Labels.ControlReader.Accept` | flowersec-rust/src/session_v2.rs:1545-1561 | under any loss, repetition or reordering the accepted labels strictly increase, and exactly the expected label is accepted |
| `StreamRecords.AdmittedIsNew` | flowersec-rust/src/session_v2.rs:2797-2834 | an accepted label, the one-shot acknowledgement included, was never accepted before |
| `StreamRecords.AfterUpdateAcceptsExactly` | flowersec-rust/src/session_v2.rs:2951-2956 | after an update exactly the new epoch's first label is accepted, and an acknowledgement at the remembered one by a reader that takes acknowledgements |
| `StreamRecords.LogIsOrdered` | flowersec-rust/src/session_v2.rs:2773-2788 | the records a stream sends carry strictly increasing labels, all before its next one |
| `StreamDelivery.AcceptedExactlyWhenQuiet` | flowersec-rust/src/session_v2.rs:2789-2910 | read in order, by whichever of the three readers takes each record, everything a writer has sent is accepted if and only if nothing follows an update in its epoch but one acknowledgement right behind it, and no acknowledgement comes to the wait for the peer's update |
| `StreamDelivery.ReaderKeepsLevel` | flowersec-rust/src/session_v2.rs:2951-2956 | after everything sent so far the reader expects the writer's next label, or the next epoch's first while an update is out |
| `StreamDelivery.DataBehindUpdateIsRefused` | flowersec-rust/src/session_v2.rs:2822-2828 | a log in which data behind an update is refused by every reader |
| `StreamDelivery.CrossingAckIsRefused` | flowersec-rust/src/session_v2.rs:2887-2907 | a quiet log, an acknowledgement and then an update, that the wait for the peer's update refuses |
| `StreamPairs.RunKeeps` | flowersec-rust/src/session_v2.rs:2853-3032 | in every interleaving of both ends a pending update is in exactly one place, on its way, taken in, or acknowledged on the way back, and the labels in flight lead from each reader to its writer |
| `StreamPairs.OpenBoth` | flowersec-rust/src/session_v2.rs:2513-2592 | two new streams, one at each end, are the pair with which every run starts |
| `StreamPairs.StreamEpochLockstep` | flowersec-rust/src/session_v2.rs:2853-3032 | in every run, however updates cross, the receiver's epoch is the sender's, or the one above while the sender's update has been taken in and not acknowledged |
| `StreamPairs.AckAlwaysCompletes` | flowersec-rust/src/session_v2.rs:3012-3032 | an acknowledgement whose label is accepted is for the pending update and brings both ends level |
| `StreamPairs.EndBreaksExactly` | flowersec-rust/src/session_v2.rs:2789-3032 | in every run of both ends, an end breaks if and only if it reads a record sent behind an update it has taken in, an acknowledgement while it waits for the peer's update, or an update that is unfit: the last one not adopted, no roots, wrong numbers or not the expected one |
| `StreamPairs.CrossingRekeyBreaksStream` | flowersec-rust/src/session_v2.rs:2887-2907 | a run of two crossing rekeys in which the end that waits for the peer's update breaks, while a read would have completed its own |
| `StreamRecords.EncryptedStream.WriteRecord` | flowersec-rust/src/session_v2.rs:2773-2788 | a record is sent at the next label, and the stream's log stays in order |
| `StreamRecords.EncryptedStream.WriteData` | flowersec-rust/src/session_v2.rs:2729-2743 | one record with the first 16384 bytes at most is sent, and nothing after FIN or reset |
| `StreamRecords.EncryptedStream.CloseWrite` | flowersec-rust/src/session_v2.rs:2744-2751 | FIN is sent once |
| `StreamRecords.EncryptedStream.Reset` | flowersec-rust/src/session_v2.rs:2752-2760 | a reset is announced once |
| `StreamRecords.EncryptedStream.SendUpdate` | flowersec-rust/src/session_v2.rs:2853-2873 | an update is sent only when none is pending, and a failed write leaves none pending |
| `StreamRecords.EncryptedStream.ProcessAck` | flowersec-rust/src/session_v2.rs:3012-3032 | exactly the pending update's acknowledgement switches the sending side; a repeat changes nothing |
| `StreamRecords.EncryptedStream.AcceptHeader` | flowersec-rust/src/session_v2.rs:2822-2834 | a header is accepted exactly when admissible, and no label is received twice |
| `StreamRecords.EncryptedStream.HandleUpdate` | flowersec-rust/src/session_v2.rs:2912-2960 | a handled update moves the receiving side on, remembers one position and sends one acknowledgement |
| `StreamRecords.EncryptedStream.AdoptUpdate` | flowersec-rust/src/session_v2.rs:1990-1995 | only the adopted update is cleared |
| `StreamRecords.EncryptedStream.Read` | flowersec-rust/src/session_v2.rs:2789-2820 | the fields afterwards are those reached by taking the accepted records one by one, and it fails if and only if the next record is refused or the last one taken breaks the stream; a buffered item comes first, at most one item is taken, and data stays in the order in which it was sent |
| `StreamRecords.EncryptedStream.PopBuffered` | flowersec-rust/src/session_v2.rs:2790-2793 | the first buffered item, and only it, leaves the buffer |
| `StreamRecords.EncryptedStream.ReadLocked` | flowersec-rust/src/session_v2.rs:2794-2820 | under the read lock the same holds whatever was buffered meanwhile; order is kept if and only if the item it returns and the buffered ones read the same either way round |
| `StreamRecords.EncryptedStream.TakeOne` | flowersec-rust/src/session_v2.rs:2797-2850 | one record changes the fields as one step of the stream's value model, and its item goes to exactly one place |
| `StreamRecords.LateReadOvertakes` | flowersec-rust/src/session_v2.rs:2789-2794 | a read that found the buffer empty and got the lock after a wait had buffered a payload returns the later payload first |
| `StreamRecords.EncryptedStream.AwaitUpdate` | flowersec-rust/src/session_v2.rs:2875-2910 | likewise for the wait for the peer's update: it buffers the items in order, ends at the update or at FIN and reads nothing beyond, and takes no acknowledgement |
| `StreamRecords.EncryptedStream.AwaitAck` | flowersec-rust/src/session_v2.rs:2962-3010 | likewise for the wait for an acknowledgement, which stops at the first record that brings it |
| `ResponderGate.Gate.TryEnter` | flowersec-rust/src/session_v2.rs:3242-3269 | a responder is counted in exactly when neither flag is set |
| `ResponderGate.Gate.Leave` | flowersec-rust/src/session_v2.rs:3203-3216 | leaving counts one responder out |
| `ResponderGate.Gate.Freeze` | flowersec-rust/src/session_v2.rs:3271-3286 | a freeze sets the flag of its own kind |
| `ResponderGate.Gate.Thaw` | flowersec-rust/src/session_v2.rs:3223-3240 | dropping a guard clears the flag of its own kind |
| `ResponderGate.CountIsLiveResponders` | flowersec-rust/src/session_v2.rs:3199-3269 | in every interleaving the count is the number of live responders, and a set flag has a live guard |
| `ResponderGate.EveryRunCounts` | flowersec-rust/src/session_v2.rs:3199-3269 | so it is in every run of a fresh gate |
| `ResponderGate.FreezeExcludesResponders` | flowersec-rust/src/session_v2.rs:3271-3310 | with one guard of each kind at a time, while a returned guard lives no responder is inside or can enter |
| `ResponderGate.ExclusionLastsExactlyWhenSole` | flowersec-rust/src/session_v2.rs:3223-3240 | from every state with an honest count and owned flags, exclusion survives every continuation without a further freeze if and only if every live guard is the only one of its kind, its flag is up and nobody is inside once it is returned |
| `ResponderGate.OverlapLosesExclusion` | flowersec-rust/src/session_v2.rs:1713-1723 | a run in which a responder enters while the second of two local guards lives |
| `ResponderGate.LoneGuardMayBeExposed` | flowersec-rust/src/session_v2.rs:1713-1723 | a run after which a single returned guard lives and a responder can still enter |
| `RpcFraming.FramesReadBack` | flowersec-rust/src/session_v2.rs:3469-3533 | reading a list of frames, with anything after them, returns the frames in order and leaves what follows |
| `RpcFraming.FrameReader.Fill` | flowersec-rust/src/session_v2.rs:3520-3533 | filling succeeds exactly when enough bytes are still to come, and loses none |
| `RpcFraming.FrameReader.ReadFrame` | flowersec-rust/src/session_v2.rs:3494-3518 | the frame read is the first of the unread bytes, whatever the chunks |
| `RpcFraming.FrameReader.ReadAll` | flowersec-rust/src/session_v2.rs:3419-3466 | the serve loop's reads: however the stream cuts the bytes of a list of frames, the reader returns exactly that list and leaves exactly the rest |
| `RpcFraming.FrameLayout` | flowersec-rust/src/session_v2.rs:3469-3492 | a frame is four bytes of length, most significant first, and its payload |
| `RpcFraming.WriteFrame` | flowersec-rust/src/session_v2.rs:3469-3492 | the bytes sent are a prefix of the frame, as long as the stream's answers add up to; all of it on success, and an error exactly at the first answer of zero or of more than was offered |
| `Wire.PrefaceReadsBack` | flowersec-rust/src/protocol_v2.rs:350-391 | a preface that can be encoded decodes to itself |
| `Wire.PrefaceWritesBack` | flowersec-rust/src/protocol_v2.rs:350-391 | an accepted preface re-encodes to the same bytes |
| `Wire.PrefaceAcceptedExactly` | flowersec-rust/src/protocol_v2.rs:364-391 | exactly the encodings of prefaces are accepted |
| `Wire.HeaderReadsBack` | flowersec-rust/src/protocol_v2.rs:464-498 | a record header that can be encoded decodes to itself |
| `Wire.HeaderWritesBack` | flowersec-rust/src/protocol_v2.rs:464-498 | an accepted record header re-encodes to the same bytes |
| `Wire.HeaderAcceptedExactly` | flowersec-rust/src/protocol_v2.rs:481-498 | exactly the encodings of record headers are accepted |
| `Wire.DatagramHeaderReadsBack` | flowersec-rust/src/protocol_v2.rs:231-270 | a datagram header that can be encoded decodes to itself |
| `Wire.DatagramHeaderWritesBack` | flowersec-rust/src/protocol_v2.rs:231-270 | an accepted datagram header re-encodes to the same bytes |
| `Wire.DatagramHeaderAcceptedExactly` | flowersec-rust/src/protocol_v2.rs:252-270 | exactly the encodings of datagram headers are accepted |
| `Wire.TypeReadsBack` | flowersec-rust/src/protocol_v2.rs:503-549 | every record type has its own code |
| `Wire.InnerReadsBack` | flowersec-rust/src/protocol_v2.rs:780-806 | an inner record that can be encoded decodes to itself |
| `Wire.InnerWritesBack` | flowersec-rust/src/protocol_v2.rs:780-806 | accepted inner bytes re-encode to themselves |
| `Wire.InnerAcceptedExactly` | flowersec-rust/src/protocol_v2.rs:795-806 | exactly the encodings of inner records are accepted |
| `Wire.InnerRecordFits` | flowersec-rust/src/protocol_v2.rs:780-850 | every inner record that can be encoded fits the ciphertext bound of the record header |
| `Wire.DatagramFits` | flowersec-rust/src/protocol_v2.rs:231-241 | every payload the sender admits has an encodable header and a wire length the receiver admits |
| `Wire.AckReadsBack` | flowersec-rust/src/session_v2.rs:2009-2026 | the acknowledgement of a stream update decodes to itself |
| `Wire.AckWritesBack` | flowersec-rust/src/session_v2.rs:2009-2026 | accepted acknowledgement bytes re-encode to themselves |
| `WireLayouts.PrefaceLayout` | flowersec-rust/src/protocol_v2.rs:350-391 | byte by byte: which prefaces can be sent and what the 56 bytes are |
| `WireLayouts.HeaderLayout` | flowersec-rust/src/protocol_v2.rs:464-498 | likewise the 24 bytes of a record header, for ciphertexts of 16 to 16408 bytes, and which error the others give |
| `WireLayouts.DatagramHeaderLayout` | flowersec-rust/src/protocol_v2.rs:231-270 | likewise the 32 bytes of a datagram header, for ciphertexts of 16 to 992 bytes and a nonzero expiry |
| `WireLayouts.TypeCodes` | flowersec-rust/src/protocol_v2.rs:503-549 | the code of every record type |
| `WireLayouts.PayloadLengths` | flowersec-rust/src/protocol_v2.rs:826-850 | the lengths of payload that each code admits |
| `WireLayouts.InnerLayout` | flowersec-rust/src/protocol_v2.rs:780-806 | the bytes of an inner record |
| `WireLayouts.AckLayout` | flowersec-rust/src/session_v2.rs:2009-2026 | the 20 bytes of the acknowledgement of a stream update |
| `WireLayouts.BigEndianDigits` | flowersec-rust/src/protocol_v2.rs:350-391 | each byte of an integer is its base-256 digit, most significant first |
| `OpenPayloads.OpenReadsBack` | flowersec-rust/src/protocol_v2.rs:853-915 | an OPEN payload decodes to itself, absent metadata becoming the empty object |
| `OpenPayloads.OpenWritesBack` | flowersec-rust/src/protocol_v2.rs:853-915 | an accepted OPEN payload re-encodes to the same bytes |
| `OpenPayloads.OpenAcceptedExactly` | flowersec-rust/src/protocol_v2.rs:878-915 | exactly the encodings of OPEN payloads are accepted |
| `OpenPayloads.OpenLayout` | flowersec-rust/src/protocol_v2.rs:853-876 | which OPEN payloads can be sent, and where the ID, hash, lengths, kind and metadata are |
| `OpenPayloads.KindAcceptedExactly` | flowersec-rust/src/protocol_v2.rs:1085-1096 | a kind is 1 to 128 bytes in normal form, without control characters and without white space at either end |
| `Texts.Utf8Injective` | flowersec-rust/src/protocol_v2.rs:1219-1228 | different texts have different bytes |
| `Texts.Utf8OneValue` | flowersec-rust/src/protocol_v2.rs:1219-1228 | the bytes of a scalar value carry it |
| `Texts.Utf16OneValue` | flowersec-rust/src/protocol_v2.rs:1230-1232 | the code units of a scalar value carry it, outside the basic plane as a surrogate pair |
| `Texts.KeyOrder` | flowersec-rust/src/protocol_v2.rs:1230-1232 | the order on keys is a strict total one |
| `Texts.KeyLessExactly` | flowersec-rust/src/protocol_v2.rs:1230-1232 | one key comes before another if and only if, at the first index where their UTF-16 forms differ, its unit is the smaller, or its form ends there |
| `Texts.SortKeysSorts` | flowersec-rust/src/protocol_v2.rs:1201-1204 | distinct keys are put in strictly increasing order of their UTF-16 code units, losing and adding none |
| `Texts.SortedOrderIsUnique` | flowersec-rust/src/protocol_v2.rs:1201-1204 | a set of keys has one sorted order |
| `Metadata.Validate` | flowersec-rust/src/protocol_v2.rs:1134-1183 | the validator with its threaded counter accepts exactly the trees within the depth, node and item limits |
| `Metadata.ValidateArray` | flowersec-rust/src/protocol_v2.rs:1161-1169 | its loop over an array accepts exactly the items that fit what the counter has left |
| `Metadata.ValidateObject` | flowersec-rust/src/protocol_v2.rs:1170-1181 | its loop over an object does so with the keys |
| `Metadata.TextRefusedExactly` | flowersec-rust/src/protocol_v2.rs:1234-1244 | a text is refused exactly for its length, for being empty, for its form or for a control character |
| `Canonical.AppendString` | flowersec-rust/src/protocol_v2.rs:1219-1228 | the loop appends exactly the quoted text |
| `Canonical.AppendValue` | flowersec-rust/src/protocol_v2.rs:1185-1217 | the printer appends exactly the canonical text of the value |
| `Canonical.AppendArray` | flowersec-rust/src/protocol_v2.rs:1191-1200 | likewise for the loop over an array |
| `Canonical.AppendObject` | flowersec-rust/src/protocol_v2.rs:1201-1214 | likewise for the loop over the keys in increasing order of their UTF-16 code units |
| `Canonical.PrintReadsBack` | flowersec-rust/src/protocol_v2.rs:1185-1217 | a printed value and what follows it can be told apart from the text alone |
| `Canonical.CanonicalTextIdentifies` | flowersec-rust/src/protocol_v2.rs:1185-1217 | two validated values have the same text if and only if they are the same JSON value |
| `Canonical.InsertionOrderIsInvisible` | flowersec-rust/src/protocol_v2.rs:1201-1214 | the order of insertion does not show in the text |
| `Canonical.CheckMetadata` | flowersec-rust/src/protocol_v2.rs:1098-1118 | metadata is accepted exactly when it is the canonical text of a valid object, or empty where allowed |
| `Canonical.MetadataNamesOneValue` | flowersec-rust/src/protocol_v2.rs:1098-1118 | accepted metadata stands for one JSON value only |
| `Controller.ControllerState.Update` | flowersec-rust/src/connection_controller.rs:394-405 | a change is made and numbered exactly when the controller is not closed |
| `Controller.ControllerState.SetConnecting` | flowersec-rust/src/connection_controller.rs:337-345 | the status, attempt and deadlines published for an attempt |
| `Controller.ControllerState.SetConnected` | flowersec-rust/src/connection_controller.rs:347-356 | the session published with the connected status |
| `Controller.ControllerState.SetWaiting` | flowersec-rust/src/connection_controller.rs:358-379 | the deadlines published for a wait, and the revision that a manual retry must name |
| `Controller.ControllerState.SetFailed` | flowersec-rust/src/connection_controller.rs:381-392 | the failed status, with the current session cleared after a session failure |
| `Controller.ControllerState.FinishClosed` | flowersec-rust/src/connection_controller.rs:407-421 | closing hands the current session to exactly one closer |
| `Controller.SessionsAreOwned` | flowersec-rust/src/connection_controller.rs:299-518 | in every interleaving with close, a current session exists exactly while connected and every session returned is current, held, being closed or closed |
| `Controller.NothingLeaks` | flowersec-rust/src/connection_controller.rs:301-619 | when the scheduler has returned and the closers have called close, every session has been closed |
| `Controller.ClosedIsFinal` | flowersec-rust/src/connection_controller.rs:394-421 | a closed controller never changes again |
| `Controller.StatusTellsPhase` | flowersec-rust/src/connection_controller.rs:299-619 | in every interleaving a retry time is shown exactly while waiting, the status tells what the scheduler is doing, closed means cancelled, and the scheduler returns only after it gave up or was cancelled |
| `Controller.RevisionIdentifies` | flowersec-rust/src/connection_controller.rs:240-253 | in every run an unchanged revision means that nothing has changed, until it saturates at 2^64 - 1 |
| `Controller.OneSessionAtATime` | flowersec-rust/src/connection_controller.rs:424-518 | in every interleaving at most one of the sessions the connector returned is neither in a closer's hands nor closed, and none while it is asked for another |
| `Controller.CancelledSchedulerStops` | flowersec-rust/src/connection_controller.rs:299-619 | once cancelled the scheduler takes at most fourteen more steps, however the closers act in between |
| `Controller.SchedulerNeverStuck` | flowersec-rust/src/connection_controller.rs:424-619 | a scheduler that was started and has not returned can always take a step |
| `Controller.CloseTakesEffect` | flowersec-rust/src/connection_controller.rs:301-313 | in every state closing makes the controller closed, and leaves the session it showed to the closer, who can close it |
| `Controller.AnySessionConnects` | flowersec-rust/src/connection_controller.rs:424-518 | any new session the connector returns can become the current one |
| `RetryPolicy.RustDelay` | flowersec-rust/src/connection_controller.rs:557-568 | the loop computes the capped exponential delay for every index |
| `RetryPolicy.GoDelay` | flowersec-go/connection_controller.go:390-402 | so does the loop over the failure ordinal |
| `RetryPolicy.TsDelay` | flowersec-ts/src/connectionController.ts:479-486 | so does the closed form with its clamped exponent |
| `RetryPolicy.BackoffTable` | flowersec-rust/src/connection_controller.rs:557-568 | the delay is 250, 500, 1000, 2000, 4000, 8000, 16000 and then 30000 milliseconds |
| `RetryWaits.RustWait` | flowersec-rust/src/connection_controller.rs:570-613 | the wait ends at the first waking the deadlines allow |
| `RetryWaits.GoWait` | flowersec-go/connection_controller.go:404-450 | so does the Go wait |
| `RetryWaits.TsWait` | flowersec-ts/src/connectionController.ts:344-377 | so does the TypeScript wait |
| `RetryWaits.WaitsAgree` | flowersec-rust/src/connection_controller.rs:570-613 | two such waits end at the same waking |
| `RetryRuns.RunRust` | flowersec-rust/src/connection_controller.rs:424-613 | on every list of outcomes and wakings the attempts start at the times of the timetable, which is stated on the outcomes and wakings alone: not after a terminal failure or the limit of failures in a row, not before a retry-after deadline, without a manual retry not before 250 ms doubled per failure up to 30 s, and otherwise at the first waking |
| `RetryRuns.RunGo` | flowersec-go/connection_controller.go:268-450 | so do those of the Go scheduler, with its own counters and timer |
| `RetryRuns.RunTs` | flowersec-ts/src/connectionController.ts:203-377 | so do those of the TypeScript scheduler |
| `RetryRuns.SchedulesAreTimetables` | flowersec-rust/src/connection_controller.rs:424-613 | the reference schedule is the timetable, in both directions: an attempt starts at a waking exactly when the outcomes and wakings call for it |
| `RetryRuns.SchedulesAreNeverEarly` | flowersec-rust/src/connection_controller.rs:538-554 | no attempt starts before the retry-after deadline of the failure before it or, without a manual retry, before its backoff; a failure that is merely retryable sets no deadline |
| `RetryRuns.SchedulesKeepTheLimit` | flowersec-rust/src/connection_controller.rs:529-537 | no schedule starts more attempts between two sessions than the limit |
| `RetryRuns.SchedulersAgree` | flowersec-ts/src/connectionController.ts:203-377 | the schedule is unique, so the three languages start the same attempts at the same times |

## Left out

- The session machine is on values; the locks, weak references and channels of the source appear
  as the guards of its steps, and aliasing is not modelled. The structures inside a session are
  classes.
- One step each, although the source may be interrupted inside: the two stores of a GOAWAY's flag
  and boundary, on either side; the epoch check of a preface and its GOAWAY check; taking the send
  epoch for OPEN_ACK and writing it; reading OPEN_ACK and resolving the ID; allocating an ID, marking
  it and raising the high watermark; raising the activity flag and the freeze flag; the checks of
  the peer's update with the roots and the snapshot it takes; storing the adopted epoch and
  transition and clearing the streams' updates; registering a stream update and writing it.
- Cryptography: HKDF, HMAC, AEAD and hashing are ideal, and the FSH2 handshake is the assumption
  that both sides start from the same session key.
- In the session machine the records on an established stream are arbitrary input; their labels
  and readers are modelled by `StreamRecords`, one endpoint at a time, and by `StreamPairs` for both
  ends of one stream.
- An endpoint that is closing goes on taking steps; what cancellation cuts short is not modelled.
- An acknowledgement of a stream update sets epoch and sequence in one step; the source stores
  them one after the other outside the send lock.
- OPEN_REJECT, which the Rust acceptor never sends, stream limits and the reserved RPC stream.
- SESSION_CLOSE, the idle watchdog, deadlines and timeouts: a nondeterministic failure step.
- Cancelled reads.
- Liveness: that rekeys finish or that waits end.
- JSON parsing, Unicode tables and normal forms: the parameters `parse` and `unicode`. Numbers
  other than 64-bit integers are one value, which validation refuses.
- QUIC, TLS, WebSocket, carriers, artifacts, leases, capability descriptors, proxies and the CLI.
- RPC envelopes, calls and handlers: only their framing is modelled.
- The failure that a controller publishes with its status, and snapshot subscriptions.
- The readings of the clock within one turn of a wait are one reading.
- Controller.SessionsAreOwned: follows the Rust scheduler; the Go and TypeScript schedulers are
  modelled for their decisions and waits only.
- Datagrams.Receiver.Receive: decoding, opening and the clock readings of a datagram come with
  it as data, and errors of the carrier or the clock are not modelled.
- StreamDelivery.AcceptedExactlyWhenQuiet: the reader handles every update it accepts; that the
  session has its roots, has adopted the previous update and waits for this one is not modelled
  there but in `StreamPairs`.
- SessionTheorems.StreamsSendAtSessionEpoch: the condition is one way; that overlapping rekeys can
  break it is shown by a run, and `LeftBehindExactly` says at which step it breaks.
- StreamRecords.EncryptedStream.SendUpdate: requires the session's next epoch, which the session
  machine proves to be one above the stream's unless rekeys overlapped.
- StreamRecords.EncryptedStream.HandleUpdate: whether the next receive roots can be had is a
  parameter.
- Wire.PrefaceReadsBack: the setup MAC is bytes, not computed.
