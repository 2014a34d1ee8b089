# xchannel-net, modelled and proved in Dafny

xchannel-net replicates single-writer, append-only logs between nodes. This project models the
parts of it whose correctness is hard to see from the code, and proves what they promise for every
input, every interleaving and every reachable state:

* **Topic multiplexer** (`MuxMachine` … `MuxEngine`, `TopicRecords`, `TopicCodec`). One writer merges
  many member logs into a topic and keeps no cursors of its own: after a restart it recovers them by
  scanning the topic's retained log through positional slot tables, while the short refs in that log
  restart from 0 with every session. `MuxMachine` is a machine whose steps are single durable effects,
  so a crash may fall inside any public call; `MuxInvariant` and `MuxSteps` prove what every step keeps;
  `MuxTheorems` draws the conclusions over whole runs; `MuxPitfalls`, `MuxTorn` and `MuxFailedCommit`
  show exactly where they stop, and `MuxWitness` runs that get there.
  `MuxEngine.Mux` is the object itself, each method proved to be a sequence of the machine's steps.
* **Replication** (`Replication`, `ReplicationMachine`, `ReplicationProgress`, `ReplicationMirror`,
  `ReplicationWindow`, `ReplicationWitness`, `StreamPoll`, `Subscription`). Source, sink and handshake as
  objects and methods; one subscription over its whole life as a machine (the origin appends, rolls, prunes and is reclaimed; the subscriber
  asks, resumes, is refused, rebuilds, crashes); the flags that keep several threads off one replica as
  another machine, one step per atomic access.
* **Registry and gossip** (`Identity`, `RegistryMap`, `RegistryStore`, `Gossip` … `GossipPost`,
  `Links`, `DialFairness`). The last-writer-wins map; a network of nodes and half-links that come and go,
  lose and reorder what is on them; the pump that answers a whole inbox in batches; the collapse of
  duplicate links; the rotation that dials a few addresses at a time.
* **Framing and codec** (`Framing`, `Fields`, `Codec`, `StreamCodec`, `ClientCodec`). The resumable
  framed connection with its buffers and offsets, against sockets that give and take bytes as they
  please; every control, stream and client message as bytes.

`ChannelLog` is the log underneath: absolute indices, segments, retention that drops whole segments
from the front. The channel library itself is not part of the repository, so this much is assumed
of it: an append and a roll each happen completely or not at all, and a read that returns nothing may or
may not have followed a roll.

`dafny verify dfyconfig.toml` checks the whole project.

How things the program does not decide enter the model: sockets are sequences of events chosen by the
environment (a chunk, nothing yet, interrupted, closed, failed); which write fails, which peer answers,
which candidate is due and what the clock says are parameters; names and addresses are byte sequences
with a validity predicate as a parameter.

Where the code and its own comments disagree the code was followed: a session attaches at most 65535
members, not 65536 (`xchannel-net-core/src/mux.rs:586-590`), because the counter must still be
incrementable after the last one.

## What turned out to hold only under a condition

Each of these is decided for all states; `MuxWitness`, `ReplicationWitness` and `Links.CutCanPart` hold runs
that lead into failing ones:

* **Attaching again.** A second attach of a member in the session that removed it, or an attach after
  the topic's own retention dropped every table naming it, resumes from a stale cursor and merges records
  again. Attaching continues exactly once if and only if the cursor read at open is still the topic's own.
* **A crash between an attach's table and its marker.** The next session attaches without the marker. The
  member's trail stays honest if and only if everything from where it stood to the resume point was
  rejected anyway: for a gap, the hole held nothing else; for a regression, the trail had not passed the
  new head.
* **One segment kept.** A crash between a roll and the table behind it forgets every member; with any other
  setting recovery is retention-proof.
* **A failed commit in a session that goes on.** While the topic is told nothing of the member beyond the
  failed record, the failure leaves no trace once the session ends, whatever else happens. The record is lost
  as soon as a later one of the member is merged, or a table lists the member with a later cursor; until then
  nothing is lost. A closing record beyond it states an untrue index and loses nothing: recovery passes over
  it, and the next session resumes at or below the failed record.
* **A member reset in place** is noticed at its next attach if and only if the wanted index is above the new
  head or below the new floor.
* **Segment boundaries.** A resume that begins at the origin's earliest retained record does not see a roll
  there, and a poll that finds nothing may swallow a roll whose first record is still to come. Mirroring
  survives a resume, and an empty poll, if and only if the stream cannot touch the replica or no boundary the
  replica lacks is passed that way. A replica's own size limit can only add boundaries.
* **Retained windows.** A caught-up replica and its origin retain the same records if and only if no torn
  roll left an empty segment in the replica's window; between an origin's roll and its next record, if and
  only if the origin has pruned nothing the replica ever had.
* **Progress of a resume.** A replica with an idle subscriber can still advance or be rebuilt if and only if
  it holds a record, or it is an empty one of this channel's current incarnation, which still has its first
  record. The others are never refused, because a request from index 0 is accepted whatever the generation,
  and never extended: the origin pruned its first record, the name was reclaimed, or the files are another
  channel's. A subscriber that cannot read its replica's position asks from 0 as well; that attempt changes
  the replica if and only if it is of the current incarnation and ends where the retained log begins.
* **A pair of nodes and its duplicate links** can come to share no link if and only if no link is at both ends
  and the least of all that either end has. Nothing the ends decide leads there; the network can, by cutting
  the least link.
* **A local claim that is not announced** leaves linked nodes apart for good if and only if it moved the
  registry; a reply repairs that as soon as the stale side speaks.

## Model

| member | source | states |
|---|---|---|
| `ChannelLog.Append` | xchannel-net-core/src/replication.rs:262-272 | appending takes the next absolute index and keeps the log well-formed |
| `ChannelLog.Roll` | xchannel-net-core/src/replication.rs:262-264 | a roll starts a segment at the head, loses no history, never lowers the earliest retained index, and keeps the previous segment unless only one is kept |
| `MuxMachine.ResumeAt` | xchannel-net-core/src/mux.rs:597-621 | an attach lands inside the member's retained log; it is unmarked exactly if it lands where recovery wanted, and landing further on is always marked a hole |
| `MuxInvariant.InitialEstablishesInv` | xchannel-net-core/src/mux.rs:482-516 | a topic that holds nothing satisfies the multiplexer's invariant |
| `MuxSteps.StepKeepsInv` | xchannel-net-core/src/mux.rs:522-847 | every durable effect of every call, every crash and everything a member's owner does keeps the invariant: tables open segments, slots agree with the newest table, each member's trail is honest |
| `MuxSteps.RunKeepsInv` | xchannel-net-core/src/mux.rs:482-847 | the invariant holds in every state of every run from an empty topic |
| `MuxSteps.AttachStep` | xchannel-net-core/src/mux.rs:570-640 | an attach keeps the invariant in every state, including what it still owes the topic as a marker |
| `MuxSteps.MergeStep` | xchannel-net-core/src/mux.rs:681-733 | merging a record keeps every member's trail honest and every retained window decodable |
| `MuxTrail.UnmarkedTrailIsThePrefix` | xchannel-net-core/src/mux.rs:681-733 | an honest trail without markers is exactly the acceptable prefix of the member's log, record for record |
| `MuxRecovery.ScanOfSuffix` | xchannel-net-core/src/mux.rs:911-952 | scanning any suffix that begins where a segment may begin agrees with scanning the whole log for every member some table in the suffix names, and knows nothing of the others |
| `MuxTheorems.MergedExactlyOnce` | xchannel-net-core/src/mux.rs:570-733 | in every state, the records that slot tables attribute to an undisturbed member are its acceptable records below the cursor, in order, once each, unchanged |
| `MuxTheorems.ExactlyOnceOverWholeHistories` | xchannel-net-core/src/mux.rs:570-733 | over any sequence of sessions and crashes, on an unpruned topic, every append-only unpruned member is merged exactly once although refs restart from 0 |
| `MuxTheorems.WindowRecallsExactlyTheNamed` | xchannel-net-core/src/mux.rs:911-952 | recovery over the retained window equals recovery over the full log if and only if a retained table names the member or there was nothing to recover |
| `MuxTheorems.RecoveryIsRetentionProof` | xchannel-net-core/src/mux.rs:533-541 | however much the topic pruned, every attached member's cursor is recovered as the full log has it, short of the live one by permanently rejected records only |
| `MuxTheorems.NoSilentHole` | xchannel-net-core/src/mux.rs:591-640 | under member retention, resets and restarts, each merged record or marker of a member fits what came before: a jump skips rejected records or what a gap names |
| `MuxTheorems.BackwardsOnlyAfterARegression` | xchannel-net-core/src/mux.rs:610-640 | an index merged again, or a lower one, always has a regression marker between the two |
| `MuxTheorems.AttachStartsInsideTheLog` | xchannel-net-core/src/mux.rs:597-623 | every attach resumes at or below the member's head, so skipping forward to it ends |
| `MuxTheorems.AtMostOneTerminalPerSession` | xchannel-net-core/src/mux.rs:759-774 | in every reachable state a terminal marker of the running session is the topic's last record |
| `MuxTheorems.RetirementIsFinal` | xchannel-net-core/src/mux.rs:571-576 | once it is written, no later call changes topic or slots |
| `MuxTheorems.MembersForgeNothing` | xchannel-net-core/src/mux.rs:687-716 | in every reachable state every merged record has an unreserved type and fits the topic's mtu |
| `MuxPitfalls.StaleCursorRepeatsRecords` | xchannel-net-core/src/mux.rs:591-597 | attaching continues the stream exactly once if and only if the cursor read at open is the topic's own; otherwise an already merged record comes again |
| `MuxPitfalls.RemovalLeavesTheCursorStale` | xchannel-net-core/src/mux.rs:739-754 | a removal keeps the cursor the session read at open, and what recovery would answer stays short of the drained cursor by rejected records only |
| `MuxPitfalls.RemovalAfterAMergeIsStale` | xchannel-net-core/src/mux.rs:739-754 | over any session: once a record of the member was merged, its removal leaves the session's cursor strictly behind the topic's own |
| `MuxPitfalls.ResetIsNoticed` | xchannel-net-core/src/mux.rs:597-621 | a member whose log was replaced in place is marked at its next attach if and only if the wanted index is above the new head or below the new floor |
| `MuxPitfalls.SingleSegmentRollForgetsEveryone` | xchannel-net-core/src/mux.rs:533-541 | keeping one segment, a crash between roll and table recovers no member at all |
| `MuxTorn.TornAttachMatters` | xchannel-net-core/src/mux.rs:623-640 | after a crash between an attach's table and its marker, and the next session's first merge, the trail is honest if and only if all from where it stood to the resume point was rejected; spelled out for gaps and for regressions |
| `MuxTorn.TornSessionRemembers` | xchannel-net-core/src/mux.rs:597-640 | the torn attach's table alone makes the next session resume where that attach did |
| `MuxFailedCommit.UntoldFailureLeavesNoTrace` | xchannel-net/src/node.rs:1253-1263 | whatever the session does after a failed commit, as long as the topic is told nothing of the member beyond the record, where it ends other steps lead without the failure |
| `MuxFailedCommit.MergeBehindLosesIt` | xchannel-net-core/src/mux.rs:717-731 | merging any later record of the member claims the failed one as merged |
| `MuxFailedCommit.TableBehindLosesIt` | xchannel-net-core/src/mux.rs:831-847 | so does any slot table that shows the member beyond it |
| `MuxFailedCommit.RejectThenTableLosesIt` | xchannel-net-core/src/mux.rs:693-697 | rejecting the next record moves the cursor past the failed one, and the next table makes that durable |
| `MuxFailedCommit.UnclaimedFailureLosesNothing` | xchannel-net/src/node.rs:1253-1263 | as long as the member is not merged again and no table lists it beyond the record, closed further on or not, everything the invariant promises holds when the session ends |
| `MuxFailedCommit.CloseBehindIsFalse` | xchannel-net-core/src/mux.rs:747-752 | a closing record written beyond it says the member was drained to an index the topic does not hold |
| `MuxFailedCommit.CloseBehindLosesNothing` | xchannel-net-core/src/mux.rs:747-752 | yet after it and the table behind it the topic holds exactly what recovery claims, and recovery resumes at or below the failed record |
| `MuxSteps.CloseAtKeepsInv` | xchannel-net-core/src/mux.rs:747-752 | a closing record keeps the invariant whatever index it states |
| `MuxWitness.StaleCursorIsReachable` | xchannel-net-core/src/mux.rs:739-754 | a run from an empty topic to an attach that will repeat a record |
| `MuxWitness.TornGapIsReachable` | xchannel-net-core/src/mux.rs:608-612 | a run to a gap whose marker matters |
| `MuxWitness.TornRegressionIsReachable` | xchannel-net-core/src/mux.rs:612-619 | a run to a regression whose marker matters |
| `MuxWitness.FailedCommitIsReachable` | xchannel-net-core/src/mux.rs:717-731 | a run to a commit whose failure loses a record |
| `MuxEngine.RecoverCursors` | xchannel-net-core/src/mux.rs:911-952 | the scan with its two maps computes the cursors the log means |
| `MuxEngine.Mux.constructor` | xchannel-net-core/src/mux.rs:482-516 | opening starts a session whose recovered cursors are those of the retained topic |
| `MuxEngine.Mux.CommitRecord` | xchannel-net-core/src/mux.rs:522-528 | the single commit path appends the record and accounts its size |
| `MuxEngine.Mux.EmitSlotTable` | xchannel-net-core/src/mux.rs:831-847 | writes one line per slot with its current cursor |
| `MuxEngine.Mux.RollIfFull` | xchannel-net-core/src/mux.rs:533-541 | rolls exactly at the limit and opens the new segment with a table, as machine steps |
| `MuxEngine.Mux.RefreshIfStale` | xchannel-net-core/src/mux.rs:726-730 | re-emits the table after the refresh count and otherwise leaves the topic alone |
| `MuxEngine.Mux.CommitFrame` | xchannel-net-core/src/mux.rs:717-731 | one member record enters the topic behind any roll, unchanged, and its slot alone moves |
| `MuxEngine.Mux.MergeOne` | xchannel-net-core/src/mux.rs:681-733 | skips only what can never be merged, merges the next acceptable record or reports that the member is caught up |
| `MuxEngine.Mux.AddMember` | xchannel-net-core/src/mux.rs:570-640 | refuses after retirement, is idempotent, fails when refs run out or the member cannot be opened, and otherwise attaches at the resume point with the marker it owes |
| `MuxEngine.Mux.AttachNew` | xchannel-net-core/src/mux.rs:579-640 | a new slot, its table and its marker are a sequence of machine steps |
| `MuxEngine.Mux.EmitMark` | xchannel-net-core/src/mux.rs:802-828 | a hole gets a gap record, a regression its own, a clean resume nothing |
| `MuxEngine.Mux.MergeBatch` | xchannel-net-core/src/mux.rs:653-660 | at most the batch limit from one member, fewer only if it is caught up |
| `MuxEngine.Mux.Poll` | xchannel-net-core/src/mux.rs:647-662 | counts exactly the data records it added, touches nothing after retirement, and every member merges its limit or is caught up |
| `MuxEngine.Mux.RemoveMember` | xchannel-net-core/src/mux.rs:739-754 | drains the member to its head, closes it at that index and forgets the slot; an unknown member changes nothing |
| `MuxEngine.Mux.CloseSlot` | xchannel-net-core/src/mux.rs:747-752 | the closing record carries the cursor, and the following table no longer lists the slot |
| `MuxEngine.Mux.Drain` | xchannel-net-core/src/mux.rs:747-747 | merges until the member's cursor is its head |
| `MuxEngine.Mux.Finish` | xchannel-net-core/src/mux.rs:759-774 | every member attached gets a closing record at its head, then one terminal marker; a second call does nothing |
| `MuxEngine.AnyPrefixIsSafe` | xchannel-net-core/src/mux.rs:522-847 | dying after any prefix of any call leaves a state the invariant covers |
| `TopicCodec.SlotTableRoundTrip` | xchannel-net-core/src/mux.rs:301-371 | a slot table within its length fields decodes to itself, whatever bytes follow it |
| `TopicCodec.OtherVersionsAreRefused` | xchannel-net-core/src/mux.rs:322-341 | a table of any other version is refused |
| `TopicCodec.SplitBack` | xchannel-net-core/src/mux.rs:78-114 | a merged record splits into its provenance and the original type, meta and body |
| `TopicCodec.RecoveryReadsTheBytes` | xchannel-net-core/src/mux.rs:911-952 | recovery over the encoded topic succeeds and finds what the records mean |
| `TopicCodec.ReachableTopicsReadBack` | xchannel-net-core/src/mux.rs:681-733 | over any run, whatever members write, the encoded topic reads back as what it means: no member record passes for a table |
| `TopicCodec.PayloadLength` | xchannel-net-core/src/mux.rs:704-716 | the size the mux checks against its mtu and rolls by is the size it writes |
| `Identity.KeysAreTotallyOrdered` | xchannel-net-core/src/identity.rs:76-99 | the order on (generation, tombstone, registration time, owner) is a strict total order |
| `Identity.ResolveTakesTheHigher` | xchannel-net-core/src/identity.rs:76-99 | the collision rule picks the higher key from either side and is commutative unless the keys tie |
| `Identity.ResolveIsAssociative` | xchannel-net-core/src/identity.rs:76-99 | grouping does not matter, ties included |
| `RegistryMap.MergeHolds` | xchannel-net/src/registry.rs:43-51 | a merge leaves an entry the incoming one cannot beat, forgets nothing, touches one name, and moves the map exactly if the name was free or the incoming key is higher |
| `RegistryMap.FoldHoldsTheHighest` | xchannel-net/src/registry.rs:43-51 | after any deliveries each name is held by one of those delivered for it that no other beats |
| `RegistryMap.DeliveryOrderDoesNotMatter` | xchannel-net/src/registry.rs:43-51 | two histories with the same identities, in any order and multiplicity, end with the same map if keys determine payloads |
| `RegistryMap.DeliveryOrderDoesNotMatterForKeys` | xchannel-net/src/registry.rs:43-51 | without that assumption they still agree on names and keys |
| `RegistryMap.TombstonedGenerationStaysDead` | xchannel-net/src/registry.rs:80-119 | along any run of merges, deregistrations, reaps and claims a tombstoned generation is never live again |
| `RegistryMap.ReclaimOpensANewGeneration` | xchannel-net/src/registry.rs:80-119 | only the owner may deregister, a reap needs no owner, and the next claim opens the next generation |
| `NameOrder.LessIsTotal` | xchannel-net/src/registry.rs:22-26 | byte-wise order on names is total and irreflexive |
| `NameOrder.NoExtensionAfterTheBlock` | xchannel-net/src/registry.rs:57-63 | past a prefix, the first name without it is followed by none with it |
| `RegistryStore.ListingIsExact` | xchannel-net/src/registry.rs:57-63 | the listing is in name order and holds exactly the live entries with the prefix |
| `RegistryStore.PutIsUpdate` | xchannel-net/src/registry.rs:43-51 | writing an entry at its place in the ordered store is updating the map |
| `RegistryStore.Store.MergeTracked` | xchannel-net/src/registry.rs:43-51 | the map becomes the merge, the winner is returned, and `changed` is true exactly if the map moved |
| `RegistryStore.Store.Get` | xchannel-net/src/registry.rs:66-68 | a tombstoned name reads as absent |
| `RegistryStore.Store.GetRaw` | xchannel-net/src/registry.rs:72-74 | finds an entry by name, tombstone or not |
| `RegistryStore.Store.ClaimEpoch` | xchannel-net/src/registry.rs:80-86 | the epoch offered for a claim is above every generation that has died |
| `RegistryStore.Store.Deregister` | xchannel-net/src/registry.rs:92-104 | returns a tombstone exactly if the name was live and owned by the caller, and then the map holds it |
| `RegistryStore.Store.Reap` | xchannel-net/src/registry.rs:111-119 | returns a tombstone exactly if the name was live, whoever owned it |
| `RegistryStore.Store.WithPrefix` | xchannel-net/src/registry.rs:57-63 | the range scan with early stop returns what looking at every entry would, in name order |
| `GossipProofs.StepKeepsInv` | xchannel-net/src/broadcast.rs:345-450 | local changes, adoptions, drops, receipts, merges, relays and replies keep every half-link covered |
| `GossipProofs.EveryHalfLinkIsCovered` | xchannel-net/src/node.rs:2184-2238 | in every reachable state, for every half-link up and every name, the receiver holds at least the sender's entry or one at least as high is on its way |
| `GossipProofs.AdoptStep` | xchannel-net/src/broadcast.rs:345-450 | the full snapshot on a new link is what covers it, also while merges are still unanswered |
| `GossipProofs.HandleStep` | xchannel-net/src/node.rs:2198-2229 | merging one arrival and posting the relay or reply keeps the coverage |
| `GossipProofs.QuietNetworkAgrees` | xchannel-net/src/node.rs:2184-2238 | in every quiet reachable state any two nodes joined by a route hold the same winners |
| `GossipProofs.QuietNetworkIsIdentical` | xchannel-net/src/node.rs:2184-2238 | and identical maps, if keys determine payloads |
| `GossipProofs.UnannouncedClaimNeverReachesAnyone` | xchannel-net/src/node.rs:860-897 | a claim merged without being announced leaves linked nodes in agreement if and only if it did not move the registry |
| `GossipTermination.DeliveryLowersTheMeasure` | xchannel-net/src/node.rs:2198-2229 | every receipt, merge, relay and reply strictly lowers a natural number, because a relay needs an ascent and a reply is above what provoked it |
| `GossipTermination.HigherRanksLower` | xchannel-net/src/node.rs:2273-2276 | an identity that beats another is strictly closer to the top of its name |
| `GossipTermination.GossipTerminates` | xchannel-net/src/node.rs:2198-2229 | without new registrations or links no run of deliveries is longer than that number, whatever the topology |
| `GossipTermination.ScopeOf` | xchannel-net/src/node.rs:2198-2229 | every state has the finite scope the termination bound needs |
| `GossipRepair.LoserIsAnswered` | xchannel-net/src/node.rs:2215-2229 | a sender whose state lost has the winner coming over the link it sent on |
| `GossipRepair.StaleSenderIsCorrected` | xchannel-net/src/node.rs:2215-2238 | if that link stays up the sender holds the winner or better once the network is quiet, even if past changes were never announced |
| `GossipConvergence.DeliveriesReachAgreement` | xchannel-net/src/node.rs:2184-2238 | from every state deliveries reach a quiet one within the measure |
| `GossipConvergence.QuietNetworkHasTheBest` | xchannel-net/src/node.rs:2184-2238 | whatever any node ever held, every node connected to it holds or beats once the network is quiet |
| `GossipConvergence.NothingIsForgotten` | xchannel-net/src/registry.rs:43-51 | along every run each node's entries only climb |
| `GossipPump.MergeInbox` | xchannel-net/src/node.rs:2198-2229 | the batches per source are the winners to relay and to send back, in arrival order, and the retired names those whose winner is a tombstone |
| `GossipPump.RelaysAreTheDues` | xchannel-net/src/node.rs:2198-2215 | a relay batch holds exactly what the single deliveries make due |
| `GossipPump.RepliesAreTheDues` | xchannel-net/src/node.rs:2215-2229 | and so does a reply batch |
| `GossipPump.NothingElseIsDue` | xchannel-net/src/node.rs:2198-2229 | an inbox makes nothing due but relays and replies of the node itself |
| `GossipPump.PumpIsManyDeliveries` | xchannel-net/src/node.rs:2198-2229 | merging a whole inbox before anything is answered is a run of single deliveries that leaves due exactly what each makes due |
| `GossipPost.PostAll` | xchannel-net/src/node.rs:2230-2238 | posting whatever is due is a run of relay and reply steps, and puts on every half-link exactly what those dues are bound for there |
| `GossipPost.DropAll` | xchannel-net/src/broadcast.rs:731-740 | dropping the links whose writes failed is a run of drops that touches no other link |
| `GossipPost.RelayBatches` | xchannel-net/src/node.rs:2232-2234 | relaying the batches in any order sends every link left, in frames, exactly what the relays due put on it |
| `GossipPost.PostBatches` | xchannel-net/src/node.rs:2230-2238 | and so it is with the replies, whichever writes fail |
| `GossipPost.Pump` | xchannel-net/src/node.rs:2184-2238 | one turn of the pump on the node's own registry and links is a run of the protocol, and hands back exactly the names found retired |
| `GossipPost.PumpIsARun` | xchannel-net/src/node.rs:2184-2238 | one turn of the pump, inbox merged, batches posted in frames, failed links dropped, is a run of the protocol; each link left carries exactly what its frames hold |
| `GossipPump.ChunksFlattenBack` | xchannel-net/src/broadcast.rs:760-767 | cutting a delta into frames loses, repeats and reorders nothing, and no frame is empty or too long |
| `GossipPump.Dissemination.SendExcept` | xchannel-net/src/broadcast.rs:717-742 | a frame reaches every link but one; only links whose write failed are dropped |
| `GossipPump.Dissemination.Relay` | xchannel-net/src/broadcast.rs:760-767 | every link still up has been sent the whole delta in order, the one it came from none of it |
| `GossipPump.Dissemination.Reply` | xchannel-net/src/broadcast.rs:769-790 | the one link gets the whole delta, or is gone after a failed write; no other link is touched |
| `Links.BothEndsRankAlike` | xchannel-net/src/broadcast.rs:69-75 | both ends of a connection compute the same initiator and the same name for it |
| `Links.Broadcast.DedupLinks` | xchannel-net/src/broadcast.rs:469-532 | keeps exactly the links not identified yet, those of disputed ids and the best per node; reports exactly the disputed ids |
| `Links.Broadcast.Addresses` | xchannel-net/src/broadcast.rs:478-483 | collects exactly the control addresses each node was claimed at |
| `Links.Broadcast.Winners` | xchannel-net/src/broadcast.rs:503-517 | finds a link per settled node that no other settled link of that node beats |
| `Links.DedupByRank` | xchannel-net/src/broadcast.rs:519-525 | read off by rank, one end's decision about its links to a node is the pair machine's, whatever other links it has and whichever other ids are disputed |
| `Links.LeastLinkSurvives` | xchannel-net/src/broadcast.rs:469-532 | whatever either end knows, whenever it adopts and decides and whichever links are dialled meanwhile, both have the least link either has, so a pair never disconnects itself |
| `Links.BothSettleOnTheLeast` | xchannel-net/src/broadcast.rs:469-532 | once both ends have adopted and identified what they have, both keep exactly that link |
| `Links.PairMayPartIffNoLeast` | xchannel-net/src/broadcast.rs:469-532 | the pairs that can come to share no link are exactly those in which no link is at both ends and beats all either has |
| `Links.CutCanPart` | xchannel-net/src/broadcast.rs:519-530 | a run to such a pair: one end has dropped a link the other still counts on when the least is cut |
| `Links.DisputedLinksStay` | xchannel-net/src/broadcast.rs:473-488 | an id claimed at two control addresses loses no link |
| `DialFairness.DialSome` | xchannel-net/src/node.rs:2074-2101 | dials at most the budget, in walking order from the cursor, and moves the cursor by what was spent |
| `DialFairness.DialsAreReady` | xchannel-net/src/node.rs:2082-2096 | only candidates that are due, none twice, never more than the budget |
| `DialFairness.DialledWithinOneRound` | xchannel-net/src/node.rs:2074-2101 | a candidate that stays due is dialled within ceil(n / budget) calls whatever the others do |
| `DialFairness.LastInLineWaits` | xchannel-net/src/node.rs:2074-2101 | that bound is tight |
| `Replication.ReplicationSource.TryNextFrame` | xchannel-net-core/src/replication.rs:102-133 | the next record with its absolute index, flagged exactly if the reader changed segment to reach it; a read that finds nothing may have followed a roll |
| `Replication.ReplicationSource.SkipTo` | xchannel-net-core/src/replication.rs:140-147 | reading forward ends at the index asked for, in the segment of the record before it |
| `Replication.Answer` | xchannel-net-core/src/stream.rs:55-147 | a resume is accepted exactly from 0, or from a position of the same incarnation between earliest and head; the start never exceeds the head |
| `Replication.AcceptSubscription` | xchannel-net-core/src/stream.rs:55-156 | decides before it seeks, and seeks only to records that exist |
| `Replication.OpenSink` | xchannel-net-core/src/replication.rs:183-236 | creates a missing replica at the stream's start, refuses one of another incarnation or channel and leaves it untouched |
| `Replication.ReplicationSink.Apply` | xchannel-net-core/src/replication.rs:253-273 | takes exactly the next index, behind a roll if flagged; anything else leaves the replica as it was |
| `ReplicationMachine.StepKeepsInv` | xchannel-net-core/src/stream.rs:55-156 | every step of origin, subscriber and wire keeps replica and frames in flight in agreement with one incarnation |
| `ReplicationMachine.ReplicaNeverSplices` | xchannel-net/src/node.rs:2775-2836 | over every run of appends, prunes, reclaims, resumes, drops, rebuilds and crashes the replica is one contiguous slice, from its own base, of the incarnation whose generation it carries |
| `ReplicationMachine.ReplicaOnlyGrowsOrIsDiscarded` | xchannel-net/src/node.rs:2815-2832 | no step rewrites a replica: it gains exactly the next record of its incarnation or is discarded after a refusal |
| `ReplicationMachine.FutileStep` | xchannel-net-core/src/replication.rs:204-214 | a stream that is not for this replica, or whose next frame is not its next record, never touches it |
| `ReplicationProgress.ResumeIsContiguous` | xchannel-net-core/src/stream.rs:104-147 | an accepted resume is of the replica's incarnation and starts at its head if and only if it holds a record, or is empty and of this incarnation, which still has its first |
| `ReplicationProgress.ReplicaCanMoveIffPromising` | xchannel-net/src/node.rs:2775-2836 | an idle subscriber's replica can still advance or be rebuilt if and only if it holds a record, or is an empty one of this channel's current incarnation, which still has its first record |
| `ReplicationProgress.EmptyReplicaNeverAdvances` | xchannel-net/src/node.rs:2786-2836 | any other stays as it is in every run: the origin pruned its first record, the name was reclaimed, or the files are another channel's |
| `ReplicationProgress.PromisingCanMove` | xchannel-net/src/node.rs:2799-2832 | the steps that move a promising one: rebuilt after a refusal, or extended by the next record |
| `ReplicationProgress.UnreadPositionTouchesIff` | xchannel-net/src/node.rs:2924-2937 | an attempt that could not read the replica's position changes the replica if and only if it is of the current incarnation and ends where the retained log begins |
| `ReplicationWitness.StuckIsReachable` | xchannel-net/src/node.rs:2786-2836 | runs to such a replica, one by pruning and one by a reclaim |
| `ReplicationMirror.CrossingIsAStart` | xchannel-net-core/src/replication.rs:119-133 | the reader changes segment exactly at segment starts, empty segments or not |
| `ReplicationMirror.StepKeepsMirror` | xchannel-net-core/src/replication.rs:253-273 | every step inside the guards, the origin rolling and writing as it likes and torn rolls included, keeps flags and starts in step with the origin |
| `ReplicationMirror.SegmentsAreMirrored` | xchannel-net-core/src/replication.rs:102-147 | however the origin rolls, writes and prunes, whatever the disconnects, crashes and resumes, inside the replica no segment start of the origin's is missing, and none is added unless the replica's own size limit rolled it |
| `ReplicationMirror.BlindResumeLosesTheBoundary` | xchannel-net-core/src/replication.rs:119-133 | the guard on resumes is exact: any resume outside it loses the boundary with its first record |
| `ReplicationMirror.EmptyPollLosesTheBoundary` | xchannel-net-core/src/replication.rs:102-118 | the guard on empty polls is exact: after any poll outside it, whatever is in flight, the replica can miss the boundary in front of it |
| `ReplicationMirror.StepKeepsEchoes` | xchannel-net-core/src/replication.rs:253-273 | a replica that rolls only when told to gets no segment start but the origin's |
| `ReplicationWitness.BlindResumeIsReachable` | xchannel-net-core/src/replication.rs:140-147 | a run to a resume outside its guard |
| `ReplicationWitness.EmptyPollIsReachable` | xchannel-net-core/src/replication.rs:102-118 | a run to an empty poll outside its guard |
| `ReplicationWindow.RetentionWindowsAgree` | xchannel-net-core/src/replication.rs:253-273 | with equal retention and the origin's newest segment in use, a caught-up replica retains exactly the origin's window if and only if no torn roll left an empty segment in its own |
| `ReplicationWindow.UntornWindowsAgree` | xchannel-net-core/src/replication.rs:253-273 | without torn rolls the windows agree if and only if the origin's newest segment is in use or it has pruned nothing the replica ever had |
| `ReplicationWindow.CutsAgree` | xchannel-net-core/src/replication.rs:244-252 | keeping the last segments cuts two segmentations of one log at the same record exactly if none of those kept is empty |
| `Subscription.SingleReplicaWriter` | xchannel-net/src/node.rs:2728-2836 | over every interleaving at most one attempt is under way, one poll-item exists and one writer is open |
| `Subscription.RebuildDeletesAlone` | xchannel-net/src/node.rs:2815-2832 | a replica's files are deleted only with no writer open, queued or polled |
| `Subscription.ClearingFirstLetsADeleteIn` | xchannel-net/src/node.rs:2869-2905 | the drop-then-clear order is needed: clearing the flag first makes a delete under a polled sink reachable from every such state |
| `Framing.FramedConn.TakeBufferedFrame` | xchannel-net-core/src/transport.rs:379-410 | returns the front frame exactly if one is whole, refuses exactly the oversized; compaction loses no byte and keeps the consumed front bounded |
| `Framing.FramedConn.TryRecvFrame` | xchannel-net-core/src/transport.rs:348-376 | keeps every byte given, returns at most one frame, and `NotYet` means no whole frame is buffered |
| `Framing.FramedConn.ReadOnce` | xchannel-net-core/src/transport.rs:353-375 | growing and cutting the inbox around a read leaves exactly what was read |
| `Framing.FramedConn.Flush` | xchannel-net-core/src/transport.rs:429-449 | written bytes and pending bytes together are the frames queued; drained exactly if nothing is pending |
| `Framing.FramedConn.QueueFrame` | xchannel-net-core/src/transport.rs:414-426 | queues a frame whole behind the others or refuses one that is too long, changing nothing |
| `Framing.OnlyOneReading` | xchannel-net-core/src/transport.rs:379-410 | a byte stream of frames can be cut into frames in one way only |
| `Framing.ReceivedIsAPrefixOfQueued` | xchannel-net-core/src/transport.rs:348-449 | for any partial reads, writes and compactions, the frames received are a prefix of those queued, all of them once every byte arrived, and no honest length is refused |
| `Fields.GetPutAll` | xchannel-net-core/src/codec.rs:35-150 | fields within bounds read back as written, with the bytes behind them untouched |
| `Fields.GetAllExtends` | xchannel-net-core/src/codec.rs:83-150 | more bytes behind change nothing in front |
| `Fields.GetAllFits` | xchannel-net-core/src/codec.rs:83-150 | whatever decodes has the layout asked for and is well-formed |
| `Fields.Reader.Take` | xchannel-net-core/src/codec.rs:94-106 | takes bytes exactly if there are enough, and moves by as many |
| `Fields.Reader.TakeAll` | xchannel-net-core/src/codec.rs:197-209 | reads a layout field by field and stops at the first failure |
| `Fields.Reader.TakeRows` | xchannel-net-core/src/codec.rs:218-227 | reads as many rows as announced, failing when the bytes run out |
| `Fields.Writer.WriteRows` | xchannel-net-core/src/codec.rs:211-216 | appends the rows in order behind what is there |
| `Codec.NoExtensionDecodes` | xchannel-net-core/src/codec.rs:140-149 | nothing longer than a frame that decodes does |
| `Codec.NoStrictPrefixDecodes` | xchannel-net-core/src/codec.rs:94-149 | no strict prefix of an encoded frame decodes, in any protocol |
| `Codec.EncodedLenIsExact` | xchannel-net-core/src/codec.rs:177-190 | the computed length of an identity is the encoder's output length |
| `Codec.EncodedLensAreExact` | xchannel-net-core/src/codec.rs:193-195 | and so is the sum over a list |
| `Codec.ControlRoundTrip` | xchannel-net-core/src/codec.rs:243-337 | every control message within bounds decodes to itself; no strict prefix and no extension decodes |
| `StreamCodec.StreamRoundTrip` | xchannel-net-core/src/codec.rs:352-478 | the same for every stream message |
| `StreamCodec.RecordLength` | xchannel-net-core/src/codec.rs:387-396 | a record costs a fixed header plus its payload |
| `ClientCodec.RequestRoundTrip` | xchannel-net-core/src/codec.rs:633-710 | the same for every client request |
| `ClientCodec.ReplyRoundTrip` | xchannel-net-core/src/codec.rs:712-783 | the same for every reply, lists included |
| `StreamPoll.ServerPollItem.Poll` | xchannel-net-core/src/stream.rs:415-434 | pending output stays below the cap plus one framed record, the source is not read before the old backlog is out, what is queued is the source's records in order, and a short batch means the source is exhausted or the peer behind |
| `StreamPoll.GrowthKeepsTheStream` | xchannel-net-core/src/stream.rs:415-434 | the origin growing between polls does not disturb a stream |
| `StreamPoll.ClientPollItem.Poll` | xchannel-net-core/src/stream.rs:460-483 | whatever the outcome, the replica has grown by exactly the next records received, in order; a short batch leaves no whole frame behind |
| `StreamPoll.ForwardedFramesArrive` | xchannel-net-core/src/stream.rs:415-483 | whatever the sockets did, the frames a subscriber takes off its connection decode to the origin's records, in order, none missing |

## Left out

- The channel library's files, mappings and headers: only the abstract log above is modelled.
- A member log reset while the mux has it open: what a reader of deleted files still sees is the channel library's business; resets while it is not attached are modelled.
- A slot table too large for the topic's own mtu: a failing control commit ends the session, as any failed commit does in the machine.
- Real time: heartbeats, write budgets and deadlines, backoff and jitter; what is due or fails is a parameter.
- Peer hints and the directory they fill: latest-wins addresses are not an ordered merge, so nothing is decided about their convergence.
- The discovery log: merging and publishing are separate steps, so its order can differ from the merge order; its record encoding is left out with it.
- Two subscription handles for one name at once: the flags modelled are per handle.
- Partial deletion of a replica directory: a rebuild removes the replica or nothing.
- Canonical form of socket addresses: an address is its printed text, so that parsing and printing are inverse is assumed.
- Reaping, membership and liveness policy, name validation, status snapshots, duplicate-id step-aside: small, mostly single-branch facts.
- Client library, daemon entry points, argument parsing, paths and permissions: input/output plumbing.
- The order of what is on one gossip link: the network may reorder it, which a connection does not do, so the theorems cover more orders than can happen.
- MuxTheorems.NoSilentHole: says nothing of a member in `broken`, the machine's record of a crash between table and marker, a second attach in one session, or an attach after every table naming the member was pruned; when each of these matters is decided in `MuxTorn` and `MuxPitfalls`. Of a member reset in place it does not say which of its logs held a rejected record.
- MuxEngine.Mux.CommitRecord: does not fail; what a session does after a failed commit is modelled on states, in `MuxFailedCommit`.
- MuxEngine.Mux.Drain: the member's log does not grow during the call; the machine lets it grow between any two steps.
- ReplicationWindow.RetentionWindowsAgree: for an origin that rolls only segments that have a record, a replica that rolls only when told to, and one retention setting throughout.
- ReplicationWindow.UntornWindowsAgree: likewise.
- Links.LeastLinkSurvives: not if the network cuts the least link itself; what the pair can come to then is decided by `Links.PairMayPartIffNoLeast`, and dialling again is left out.
