# SiteRepairCast verification

A Dafny model of SiteRepairCast, which distributes a file in blocks of 1200 bytes, grouped in
sections, from a central sender through a site proxy to many receivers over lossy multicast, with
repair rounds, TCP backfill, checkpoints and restarts. Run `dafny verify dfyconfig.toml` to check it.

The project follows the path of the data:

- `Sections`, `FileIo`: 32-bit section arithmetic, block geometry, block reads and writes on the bytes of a file.
- `Crc32`, `CrcResidue`, `Reports`, `Octets`, `Wire`, `Codecs`, `WireLayout`, `Stream`: CRC-32 and its fixed
  values, missing-block bitmaps, the big-endian field writer and reader, message codecs, where each field stands,
  control frames and their reassembly.
- `Messages`, `Connections`, `RecordLaws`: the messages as values, the proxy's record of one receiver, and what
  frames and reconnects leave in it field by field.
- `RepairPlan`, `RepairRound`, `RepairGuarantees`, `PlanCompleteness`: the peer repair planner, the rounds that
  carry it out, the baseline they must agree with, and when a peer must be used.
- `Receiver`, `ReceiverSafety`, `ReceiverOrder`, `Mismatch`: the receiver, its disk, and every run of it with
  message loss, corruption, reconnects and process kills inside operations; what a digest mismatch leaves.
- `SectionBarrier`, `SectionScript`, `LastSection`, `SectionRounds`: proxy and receivers as one system, what can
  happen to a section, what the last section waits for, and the loops that distribute it. `DirectTransfer` and `DispatchedTransfer` are the two drivers
  of these loops: the section loop of a direct transfer, and the dispatch worker.
- `ReportOrder`: the same with the control connections in TCP order. `PeerTraffic`: the same with packets
  that receivers read from their own disks for each other.
- `ReportPath`, `PeerPath`, `Backfill`: reports, peer repair and backfill from end to end.
- `Dispatch`, `CentralCache`, `CentralDialogue`, `CentralSender`: the proxy's cache, the two threads that share
  its dispatch queue, what the proxy answers to central, and central's side of a transfer.
- `Scenarios`, `FaultScenarios`: concrete runs that the theorems speak of.

Code that changes things step by step is a class or a method here too (`ReceiverConnection`,
`ReceiverAgent`, `DispatchState`, `ProxyCache`, `ControlStreamReader`, `PacketWriter`, `PacketReader`,
the repair and section loops). Each such method is proved equal to a transition on values, and the
whole-run theorems are about these transitions.

Where the code does something other than its documentation suggests, the model follows the code and
the exact condition is proved:

- The section count is computed in 32 bits; when `total_blocks + section_blocks - 1` reaches 2^32 it is
  zero and no block is covered (`Sections.CountCoversIff`). The range check of a section id looks at the
  wrapped product (`Sections.RangeCheckIff`, `Sections.WrappedIdAccepted`).
- A receiver killed between the rename of the finished file and the removal of its state file leaves a
  state that a later reload trusts without the data (`ReceiverSafety.ReloadFaithfulIff`).
- A central restarted with another section size keeps the transfer id; the proxy then truncates its part
  file but leaves the old checkpoint (`CentralCache.StaleCheckpointIff`).
- TCP backfill sends only the section in which a receiver was isolated, so it completes the receiver
  exactly when nothing else is missing (`Backfill.BackfillCompletesIff`; `Scenarios.BackfillFallsShort` is a
  run in which it does not).
- The dispatch worker keeps only the result of the last section and goes on after a digest mismatch. That
  loses nothing: the receiver that reported the mismatch is lost to the transfer
  (`Mismatch.StaysCondemned`), so with reports in TCP order no later section succeeds, and the pipeline ends
  with Success if and only if every section was delivered (`DispatchedTransfer.SuccessDeliversAll`). A
  mismatch does happen (`FaultScenarios.MismatchHappens`).
- A file found in the cache is adopted without resetting the records, so a `completed` flag may be left over
  from the file before (`SectionBarrier.CachedClaimIff` says exactly when; `FaultScenarios.FlagIsLeftOver` is
  a run in which it is). When the same file comes twice after one transfer was begun, found in the cache each
  time, with another in between, the records alone do not decide whose flag it is.
- A receiver whose publication was cut short may serve other receivers blocks it never received
  (`FaultScenarios.SuspectServes`); until then peers send what the proxy would send
  (`PeerTraffic.PeersAreHonest`).
- The packet checksum covers the payload alone: a packet renamed to an equally long block passes every check
  (`ReceiverSafety.HeaderIsNotChecked`).

The theorems about runs hold inside the 32-bit and 64-bit bounds of `Sections.Bounded`, for metadata
fixed per transfer id, and for process kills: written bytes and completed renames persist.

## Model

| member | source | states |
|---|---|---|
| Sections.InRangeIsExact | include/protocol.hpp:1403-1427 | for ids below the section count the 32-bit first block and block count never wrap and are the exact ones |
| Sections.CountIsCeiling | include/protocol.hpp:1410-1416 | the last section starts inside the file and the next would start at or past its end |
| Sections.ExactlyOneSection | include/protocol.hpp:1396-1401 | every block lies in exactly one section, the one its id is divided into |
| Sections.CountCoversIff | include/protocol.hpp:1410-1416 | the computed count covers every block if and only if its numerator does not wrap; when it wraps the count is zero |
| Sections.RangeCheckIff | include/protocol.hpp:1418-1427 | the range check accepts an id exactly by its wrapped product, and is the right check when the product fits 32 bits |
| Sections.WrappedIdAccepted | include/protocol.hpp:1418-1427 | a concrete out-of-range section id that passes the range check |
| Sections.BlocksTileFile | include/file_io.hpp:16-20 | block sizes are 1 to 1200 bytes and blocks cover the file without gap or overlap |
| Sections.SectionBytesBounds | src/sender.cpp:2080-2092 | a dispatch task has between one byte and the maximum section size |
| Sections.SectionBytesSum | src/sender.cpp:2084-2092 | the byte counts of all sections add up to the file size |
| FileIo.DataFile.WriteAllAt | include/file_io.hpp:62-78 | under any partial progress the file is the old one with a prefix of the data at the offset, all of it exactly on success; a write past the end extends the file with zeros |
| FileIo.SplicedAt | include/file_io.hpp:62-78 | the length of the file after such a write, and every byte of it |
| FileIo.DataFile.ReadBlock | include/file_io.hpp:16-58 | under any partial progress a returned payload is the block's size and bytes; failure only at early end of file, error or no progress |
| FileIo.SameBlocksSameFile | include/file_io.hpp:16-20 | two files of the announced size are equal exactly when all their blocks are |
| FileIo.WriteReplacesBlock | include/file_io.hpp:62-78 | writing a block at its offset changes exactly that block |
| FileIo.CutWriteTearsBlock | include/file_io.hpp:62-78 | a write cut short leaves every other block as it was |
| Crc32.TableEntry | src/checksum.cpp:17-27 | a table entry is eight steps of bit-at-a-time division |
| Crc32.BuildTable | src/checksum.cpp:17-27 | the table holds the entry of every byte value |
| Crc32.Compute | src/checksum.cpp:15-32 | the table-driven loop yields the bit-at-a-time reflected division of section 8 of RFC 1952 for every input |
| Crc32.Lookup | src/checksum.cpp:30 | one table step equals eight single-bit steps |
| Crc32.BurstDetected | src/checksum.cpp:15-32 | payloads that differ only inside at most four consecutive bytes have different checksums |
| Crc32.WindowDetected | src/checksum.cpp:15-32 | the same for two equal-length payloads that agree outside a four-byte window |
| Crc32.LastByteInversionDetected | src/sender.cpp:1546-1551 | inverting the last byte always changes the checksum |
| CrcResidue.CheckValue | src/checksum.cpp:15-32 | the checksum of the ASCII digits 1 to 9 is 0xcbf43926, the check value of the CRC-32 of RFC 1952 |
| CrcResidue.ResidueIsFixed | src/checksum.cpp:15-32 | dividing any payload followed by its own checksum, low byte first, from the all-ones register leaves 0xdebb20e3; the checksum of that string is 0x2144df1c |
| Reports.BitmapSet | include/protocol.hpp:1376-1385 | sets exactly one mark, or refuses an index outside the bitmap and changes nothing |
| Reports.MakeMissingBitmap | src/receiver.cpp:720-738 | the bitmap marks exactly the unreceived blocks of the section and the count is their number |
| Reports.ValidateMissingBitmap | src/sender.cpp:760-782 | accepts exactly the well-formed reports: right size, clear unused bits, count of marks, non-empty when Missing |
| Reports.ReportAccepted | src/sender.cpp:760-782 | a report built by a receiver always passes, and reading it back gives exactly the missing blocks |
| WireLayout.LowBitFirst | include/protocol.hpp:1365-1385 | block k is bit k mod 8 of byte k div 8, counted from the least significant bit |
| Octets.ByteRoundTrip | include/protocol.hpp:43-59 | a number below 256 survives the trip through a byte |
| Wire.ReadsWhatWasWritten | include/protocol.hpp:38-121 | reading fields yields values and a rest if and only if the bytes are these values written, followed by that rest |
| Wire.PacketWriter.Number | include/protocol.hpp:43-59 | appends one big-endian field to what was written |
| Wire.PacketReader.Number | include/protocol.hpp:73-92 | reads one big-endian field, and throws exactly when the packet is truncated |
| Wire.EncodeSectionStatus | include/protocol.hpp:717-736 | writes the status frame, and throws exactly for a bitmap of 2^32 bytes or more |
| Wire.DecodeSectionStatus | include/protocol.hpp:738-773 | decodes as the specification function, all error branches included |
| Wire.StatusDecodesIff | include/protocol.hpp:717-773 | a frame decodes to a status if and only if it is that status's frame, with any reserved field |
| Wire.StatusRoundTrip | include/protocol.hpp:717-773 | decoding undoes encoding |
| Wire.ReportFitsFrameIff | include/protocol.hpp:717-736 | a report fits one control frame exactly up to 8,388,320 blocks |
| WireLayout.HighByteFirst | include/protocol.hpp:43-59 | byte i of a field is the digit of weight 256^(width-1-i): the most significant byte comes first |
| WireLayout.StatusLayout | include/protocol.hpp:717-736 | the frame begins with "SRCC", version 10 and type 2, and its fields follow in this order at these widths |
| Codecs.EncodeData | include/protocol.hpp:261-280 | writes the datagram, and throws exactly for payloads above 1200 bytes |
| Codecs.ParseData | include/protocol.hpp:282-307 | decodes as the specification function, all error branches included |
| Codecs.DataDecodesIff | include/protocol.hpp:261-307 | a datagram decodes to a packet if and only if it is that packet's datagram, with any reserved field |
| Codecs.EncodeFileMeta | include/protocol.hpp:628-656 | writes the frame, and throws exactly for an empty or over-long name |
| Codecs.DecodeFileMeta | include/protocol.hpp:658-688 | decodes as the specification function, all error branches included |
| Codecs.MetaDecodesIff | include/protocol.hpp:628-688 | a frame decodes to a message if and only if it is the one frame of that message |
| Codecs.EncodePeerTask | include/protocol.hpp:1266-1296 | writes the task frame, and throws exactly outside 1 to 64 blocks |
| Codecs.DecodePeerTask | include/protocol.hpp:1298-1342 | decodes as the specification function, block loop and error branches included |
| Codecs.TaskDecodesIff | include/protocol.hpp:1266-1342 | a frame decodes to a task if and only if the task has 1 to 64 blocks and it is that task's frame, with any reserved field |
| WireLayout.DataLayout | include/protocol.hpp:261-280 | the datagram begins with "SRC1", version 10 and type 2, and its fields follow in this order at these widths |
| WireLayout.ChecksumHighByteFirst | include/protocol.hpp:261-280 | the checksum field is written most significant byte first |
| WireLayout.MetaLayout | include/protocol.hpp:628-656 | the same for FILE_META, type 10 |
| WireLayout.TaskLayout | include/protocol.hpp:1266-1296 | the same for PEER_REPAIR_TASK, type 21 |
| Stream.SplitIff | src/receiver.cpp:66-88 | cutting a buffer yields frames and a rest if and only if it is their stream followed by a proper prefix of one frame |
| Stream.ControlStreamReader.ReadFrames | src/receiver.cpp:50-90 | one call returns the complete frames of kept plus received bytes and keeps the rest, or throws at an invalid length |
| Stream.ReturnedAndKept | src/receiver.cpp:50-90 | frames returned so far and the kept buffer account for every byte received, and the buffer is a proper prefix of at most one frame |
| Stream.ChunkingDoesNotMatter | src/receiver.cpp:50-90 | however a valid stream is cut into arrivals, the calls return exactly its frames in order and keep exactly its tail |
| Stream.WriteAll | include/control_io.hpp:14-31 | under short writes a prefix is written, all of it exactly on success |
| Stream.ReadAll | include/control_io.hpp:33-50 | under short reads success yields exactly the next bytes of the stream |
| Stream.SendControlFrame | include/control_io.hpp:52-61 | succeeds exactly when the frame has an allowed size and is on the wire whole; otherwise a prefix of it was sent |
| Stream.ReceiveControlFrame | include/control_io.hpp:63-74 | success took exactly one allowed frame off the stream |
| Stream.ReadersAgree | include/control_io.hpp:63-74 | the blocking and the incremental reader cut the same first frame |
| Connections.ReceiverConnection.SendFrame | src/sender.cpp:323-338 | a send arrives only on an open connection and a failure closes it |
| Connections.ReceiverConnection.HandleControlFrame | src/sender.cpp:812-870 | the record after a report or completion, stale and malformed ones ignored |
| Connections.ReceiverConnection.InstallConnection | src/sender.cpp:609-684 | the record after a reconnect, for each combination of announced and recorded state |
| Connections.ReceiverConnection.BeginTransfer | src/sender.cpp:1858-1903 | the record after a transfer begins: reset, and completed at once if the receiver had registered this transfer as completed |
| Connections.ReceiverConnection.HandleMetaFrame | src/sender.cpp:2460-2503 | the record after a frame of the metadata phase; throws exactly at a META_READY of another transfer |
| Connections.ReceiverConnection.AdoptCachedTransfer | src/sender.cpp:2000-2010 | the record when the file is found in the cache: completed if registered so, nothing reset |
| Connections.ReceiverConnection.HandleReadyFrame | src/sender.cpp:1653-1672 | the record after a frame of the ready phase, stale ones ignored |
| RecordLaws.ComesBackActive | src/sender.cpp:659-683 | a receiver that reconnects in the middle of the transfer and was not given up is active again, isolated or not before, and owes metadata and report |
| RecordLaws.ComesBackCompleted | src/sender.cpp:620-643 | a receiver that reconnects having published the transfer counts as completed, even if it had been given up |
| RecordLaws.GivenUpStaysOut | src/sender.cpp:652-660 | a receiver that was given up stays out of the transfer, ready for the next one only if it comes back idle |
| RecordLaws.LateReportIsolates | src/sender.cpp:996-1022 | a receiver is set aside if and only if it takes part, reported blocks missing and the round is not below the limit; its list grows by exactly these blocks |
| RecordLaws.CompletionNeedsReport | src/sender.cpp:846-866 | a completion counts if and only if it is this transfer's and a report of the whole section came before it in the round; any other changes nothing |
| RecordLaws.ForeignReportIsIgnored | src/sender.cpp:812-844 | a report of another transfer, section or round, or one that fails the check, changes nothing |
| RecordLaws.OrdinaryTransfer | src/sender.cpp:812-870 | admitted, reported complete, completed, ready: the flags at each point of an undisturbed transfer, and a blank record at the beginning of the next |
| Connections.ResetRoundState | src/sender.cpp:784-793 | clears the round fields of every receiver and nothing else |
| Connections.IsolateSlowReceivers | src/sender.cpp:996-1022 | isolates exactly the active receivers that reported missing blocks late enough, adding exactly these blocks to their lists |
| Connections.AllSettled | src/sender.cpp:1573-1579 | true exactly when every receiver is completed, isolated, abandoned or reported the section complete |
| Connections.RoundResponsesComplete | src/sender.cpp:797-808 | before the last section: true exactly when every receiver is completed, isolated, abandoned or has reported; in the last one a receiver that reported Complete still owes its completion |
| RepairRound.MissingTargets | src/sender.cpp:1025-1043 | the target list of a block is the ascending list of active receivers that reported it missing |
| RepairRound.FindSource | src/sender.cpp:1283-1334 | the first source already serving the target, else the first with spare capacity, that vouched for the block |
| RepairRound.MakePlan | src/sender.cpp:1217-1355 | the planning loops compute the plan function |
| RepairPlan.PlanConserves | src/sender.cpp:1217-1355 | each block one receiver alone lacks is planned for it exactly once, on one source or as fallback; nothing else is |
| RepairPlan.MulticastExact | src/sender.cpp:1220-1271 | exactly the blocks at least two receivers lack are multicast, in order |
| RepairPlan.PlanCapped | src/sender.cpp:1281-1346 | a source's load counter equals its number of targets with a non-empty plan and is at most two |
| RepairPlan.PlanServable | src/sender.cpp:1176-1215 | a source is asked only for blocks its last report vouches for, for another receiver that alone lacks them |
| RepairRound.DispatchPair | src/sender.cpp:1377-1434 | chunks of 1 to 64 concatenate to the plan entry; undelivered chunks all return to the fallback; a failed connection stays failed |
| RepairRound.DispatchTasks | src/sender.cpp:1356-1435 | every plan entry is split between delivered tasks and fallback; entries of at least 16 blocks are issued whole and in order, smaller ones not at all |
| RepairRound.SendFallback | src/sender.cpp:1439-1490 | unicasts exactly the fallback lists in order and counts their bytes |
| RepairRound.ReToRe | src/sender.cpp:1137-1510 | a peer round does all of the above, whatever sends fail |
| RepairRound.SendRepairRound | src/sender.cpp:1069-1133 | a baseline round multicasts shared blocks and unicasts sole blocks, with the metric counters |
| RepairGuarantees.RoundExact | src/sender.cpp:1220-1490 | a block is multicast once exactly when two or more lack it, and addressed once exactly to the only receiver that lacks it |
| RepairGuarantees.ServedExactlyOnce | src/sender.cpp:1220-1490 | whatever task sends fail, each reported pair is served once by multicast, delivered task or unicast, and no unreported pair is addressed |
| RepairGuarantees.BaselineServesOnce | src/sender.cpp:1069-1133 | the baseline serves each reported pair once and addresses no unreported one |
| RepairGuarantees.TasksServable | src/sender.cpp:1377-1434 | every issued task has 1 to 64 blocks, two different receivers, and only blocks its source vouched for |
| RepairGuarantees.SourceCap | src/sender.cpp:1281-1346 | no source gets tasks for three different targets |
| PlanCompleteness.FallbackIsLastResort | src/sender.cpp:1281-1346 | a block is left to the fallback only if every other connected receiver that takes part and reported to hold it serves two others and not this target |
| PlanCompleteness.UnicastHasReason | src/sender.cpp:1350-1500 | the proxy sends a block itself that a receiver reported to hold only if that one serves two others, the block's peer had fewer than 16 blocks for the target, or the task was not delivered |
| PlanCompleteness.TasksAreWorthwhile | src/sender.cpp:1350-1440 | a source that gets a task for a target is issued at least 16 blocks for it, at most 64 in one task |
| RepairGuarantees.PeerRefinesBaseline | src/sender.cpp:1069-1510 | on the same reports both modes multicast the same, peer reads plus peer blocks are the baseline's reads, and peer bytes plus delivered bytes are the baseline's bytes, so never more |
| Receiver.ReceiverAgent.HandleData | src/receiver.cpp:1424-1470 | DATA is ignored, rejected, counted as duplicate, or stored and marked, as the transition on values says |
| Receiver.ReceiverAgent.HandleBackfillData | src/receiver.cpp:1059-1092 | the same for backfilled blocks, which are saved at once |
| Receiver.ReceiverAgent.HandleSectionEnd | src/receiver.cpp:859-896 | the drain state after SECTION_END, for late, repeated and out-of-order ones |
| Receiver.ReceiverAgent.TimerFired | src/receiver.cpp:790-843 | the drain report and its effects, in the order save, publish, report |
| Receiver.ReceiverAgent.FinalizeTransfer | src/receiver.cpp:741-772 | publishes exactly a full file whose digest matches, and records a mismatch of a full file |
| Receiver.ReceiverAgent.LoadState | src/receiver.cpp:553-591 | loads exactly a state that matches the metadata, the file size and its own count |
| Receiver.ReceiverAgent.HandleFileMeta | src/receiver.cpp:914-1002 | accepts or repeats FILE_META, reloading a state or truncating the part file; a refusal ends in a reconnect |
| Receiver.ReceiverAgent.ExecutePeerTask | src/receiver.cpp:365-439 | sends exactly the requested blocks that are held and of the named section, and nothing to port zero |
| Receiver.ReceiverAgent.ReconnectProxy | src/receiver.cpp:1321-1341 | the state and the registration after a reconnect |
| ReceiverSafety.AcceptedIsAuthentic | src/receiver.cpp:1438-1450 | a packet that passes the checks carries the source's block, even if up to four consecutive bytes were damaged |
| ReceiverSafety.HeaderIsNotChecked | src/receiver.cpp:1428-1450 | a packet renamed to an equally long block passes every check, and is right if and only if the two blocks are equal |
| ReceiverSafety.StepKeeps | src/receiver.cpp:553-1480 | every step and every kill inside one keeps all marks, in memory and saved, on blocks with source content |
| ReceiverSafety.ReportsStayTrue | src/receiver.cpp:809-843 | whatever a receiver has reported stays true for the rest of the run |
| ReceiverSafety.CompleteStaysComplete | src/receiver.cpp:809-824 | a section once reported complete stays complete, in memory and on disk, through any kills and reloads, until publication |
| ReceiverSafety.MarksAreFaithful | src/receiver.cpp:553-620 | every marked block is in the temporary file with source content |
| ReceiverSafety.PublishedIsRight | src/receiver.cpp:741-772 | every published file has the transfer's digest, and is the source unless an earlier publication was cut short |
| ReceiverSafety.MismatchNeedsCut | src/receiver.cpp:741-757 | a full file mismatches its digest only if an earlier publication was cut short |
| ReceiverSafety.ReloadFaithfulIff | src/receiver.cpp:697-708 | a second reload trusts only real blocks if and only if there was no state without part file, or the source is zero where it marks |
| ReceiverSafety.CutPublicationIsUnfaithful | src/receiver.cpp:760-767 | a kill between rename and state removal produces that state |
| Mismatch.DrainCondemns | src/receiver.cpp:809-843 | a drain that reports a mismatch has left a state that marks all blocks beside a part file with another digest |
| Mismatch.StaysCondemned | src/receiver.cpp:553-1480 | no step undoes that, kills and reloads included, and the receiver then sends no completion and no drain report but failures of that transfer |
| Mismatch.AckFollowsOn | src/receiver.cpp:1130-1143 | the first report after a registration as completed is no drain report |
| ReceiverOrder.OrderDoesNotMatter | src/receiver.cpp:1424-1470 | any two sequences of arrivals that offer the same blocks leave the same marks, count and file; the count is the number of marks |
| ReceiverOrder.InvertedIsRejected | src/receiver.cpp:1446-1450 | the injected corruption of the last byte is always rejected and changes nothing else |
| ReceiverOrder.StepGrows | src/receiver.cpp:1424-1470 | while a transfer lives in memory no step loses a mark |
| ReceiverOrder.DrainReportsIncrease | src/receiver.cpp:859-896 | between reconnects drain reports strictly increase in (section, round), for any interleaving of end notices |
| ReceiverOrder.DrainStartsIff | src/receiver.cpp:859-896 | an idle receiver starts a drain on a section end if and only if it is for a later section, or for the same one with a round above the last reported and not below the last announced |
| ReceiverOrder.ReconnectAsksAgain | src/receiver.cpp:1321-1345 | after a reconnect every section end starts a drain again, whatever was reported before, and the received blocks stay |
| ReceiverOrder.UdpEndIsSectionEnd | src/receiver.cpp:1472-1490 | a UDP end notice works as a SECTION_END for a receiver still in the transfer, and not otherwise |
| ReceiverOrder.LetsGoIff | src/receiver.cpp:1122-1168 | a receiver forgets its transfer exactly when told that it failed or that its own completion arrived, and answers that it is ready |
| ReceiverOrder.PeerSendsAll | src/receiver.cpp:398-433 | a source in the transfer sends every requested block it marked, with source content, in packets a target accepts |
| ReportPath.ReportReachesPlanner | src/receiver.cpp:790-824 | a report fits a frame, decodes to itself, is accepted, and makes the planner see exactly what the receiver lacks |
| ReportPath.TargetsAreExact | src/sender.cpp:1025-1043 | the target list of a block contains a reporting receiver exactly when it lacks the block |
| ReportPath.PublicationIsRecorded | src/sender.cpp:846-866 | a receiver that publishes when its drain ends is marked completed by the two frames it sends |
| PeerPath.LosslessRoundCompletes | src/sender.cpp:1069-1510 | one repair round of either mode whose packets arrive, in any order and however often, completes the section a receiver reported |
| PeerPath.HeldWhenReported | src/sender.cpp:1176-1215 | a block the planner believes a source holds was marked when it reported |
| PeerPath.EligibleIffMarked | src/sender.cpp:1176-1215 | a connected receiver that takes part is eligible as a source in the round after its report if and only if it had the block marked |
| PeerPath.IssuedTaskIsServed | src/receiver.cpp:365-439 | a task issued on a report is served completely by a source that has neither reconnected nor published since |
| Backfill.BackfillOneReceiver | src/sender.cpp:1686-1823 | sends the whole list or abandons the receiver; afterwards the record is completed, registered and no longer isolated if and only if the completion of this transfer came before any failure of it, else it shows the failure or is abandoned |
| Backfill.ListedExactly | src/sender.cpp:1004-1017 | isolating a receiver right after its report lists exactly the blocks of that section it lacks |
| Backfill.BackfillCompletesIff | src/receiver.cpp:1094-1120 | backfill publishes the source if and only if every block the receiver lacked was on the list; otherwise it reports failure |
| Backfill.CompletedIff | src/sender.cpp:1741-1817 | whatever frames come, the wait leaves the record completed if and only if the completion of this transfer precedes every failure of it |
| Backfill.BackfillRecordedIff | src/sender.cpp:1686-1823 | with the receiver's own answer handed over behind stale frames, the record becomes completed if and only if every block the receiver lacked was on the list |
| Backfill.BackfilledSurvives | src/receiver.cpp:1060-1092 | a block taken by backfill survives a kill: reloaded, the receiver has it in its marks and in its part file, with all it had before |
| SectionBarrier.FreshReceiver | src/sender.cpp:688-716 | a receiver with an empty disk is one a starting proxy may find |
| SectionBarrier.RegisteredHolds | src/sender.cpp:688-716 | the records a proxy makes when it starts, for the first time or again, are true of the receivers' disks |
| SectionBarrier.RoundFrameKeeps | src/sender.cpp:812-870 | a handled frame leaves the record true of the receiver's disk |
| SectionBarrier.InstallKeepsConn | src/sender.cpp:609-684 | so does a reconnect, whatever state it announces |
| SectionBarrier.SettledHolds | src/sender.cpp:1573-1579 | a settled receiver that was never set aside holds the section |
| SectionBarrier.NextKeeps | src/sender.cpp:1516-1609 | every step of proxy or receivers keeps the system's invariant |
| SectionBarrier.DeliveredIsHeld | src/sender.cpp:1516-1609 | in every reachable state a receiver never set aside in the transfer holds every delivered section durably, or has published |
| SectionBarrier.CompletedHasPublished | src/sender.cpp:846-866 | in every reachable state a receiver marked completed has published a file with the digest of the transfer its flag speaks of: the current one, unless that was found in the cache |
| SectionBarrier.CachedClaimIff | src/sender.cpp:2000-2010 | in every reachable state: after a transfer that was begun, the flag speaks of a file found in the cache if and only if the receiver registered it as completed or was completed in that very transfer; later in a chain of cached files, for a file that is new in it, if and only if it registered so |
| SectionBarrier.BarrierHolds | src/sender.cpp:1924-1929 | in an execution with sections in order, a delivered section s means all of 0..s are held; DirectTransfer establishes the order |
| SectionScript.CollectedPeers | src/sender.cpp:953-993 | receivers go their own way, whether or not the proxy still listens |
| SectionScript.VerdictAlike | src/sender.cpp:1573-1608 | which connections are open changes nothing in a section's result |
| SectionRounds.HandleInput | src/sender.cpp:873-948 | one event of a wait: a frame read from a watched receiver, a reconnect accepted, or a hang-up, on the record it concerns |
| SectionRounds.HandleWait | src/sender.cpp:963-984 | one wait and the reads after it: the receivers active before it are watched, and each is read at most once |
| SectionRounds.CollectReports | src/sender.cpp:953-993 | the report loop plays wait after wait, each event a step of the system; if it ends before its waits, every receiver that takes part has reported, and in the last section none of them is left at Complete |
| LastSection.ReadOncePerWait | src/sender.cpp:963-984 | further frames of a receiver that was read in a wait stay unread until the next one |
| LastSection.CollectionStops | src/sender.cpp:953-993 | the loop stops at the first test at which nothing is owed, whatever comes later |
| LastSection.ReportsAreEnough | src/sender.cpp:797-808 | before the last section it stops at the first test at which every active receiver has reported, completions or not |
| LastSection.OwedIffRanOut | src/sender.cpp:953-993 | something is owed at the end of a collection if and only if something was owed at every test, so that the deadline ended it |
| LastSection.NobodyIsLeftComplete | src/sender.cpp:797-808 | a collection of the last section that ends before its waits leaves no receiver that takes part with its report at Complete |
| LastSection.LastSectionFinishes | src/sender.cpp:1516-1609 | after a Success of the last section every receiver is completed, isolated or abandoned if and only if the deciding collection was not ended by the deadline |
| SectionRounds.DistributeSection | src/sender.cpp:1516-1609 | with frames, reconnects, hang-ups and receivers' own steps in between, the section loop makes only steps of the system and returns the script's verdict: Success with every receiver settled, Failed with one unsettled, or the mismatch a receiver reported; after Success of the last section all receivers are completed, isolated or abandoned if and only if the deadline did not end the deciding collection |
| SectionRounds.SuccessMeansHeld | src/sender.cpp:1516-1609 | after Success every receiver never set aside holds the section or has published |
| DirectTransfer.AllReceiversCompleted | src/sender.cpp:1612-1616 | true exactly when every receiver is completed or abandoned |
| DirectTransfer.DistributeSections | src/sender.cpp:1922-1929 | sections in order until one is not delivered or all receivers are finished; exactly 0..m-1 were delivered, and every receiver never set aside holds them all or has published |
| DirectTransfer.ExecutionGoesOn | src/sender.cpp:1924-1929 | the steps of that loop extend an execution with sections in order to another |
| DispatchedTransfer.JointKeeps | src/sender.cpp:2095-2145 | whatever threads and receivers do, a section is delivered if and only if the worker logged Success for it |
| DispatchedTransfer.HeldIffLogged | src/sender.cpp:2095-2145 | sections 0..m-1 are all delivered if and only if all their logged results are Success, and then they are held |
| DispatchedTransfer.MismatchLeaves | src/sender.cpp:2127-2143 | in any order of reports, a section that ended in a mismatch stays undelivered; after a clean finish all were delivered if and only if no mismatch was logged |
| ReportOrder.SectionKeeps | src/sender.cpp:953-993 | with reports in TCP order a section that ends in a mismatch leaves a receiver lost to the transfer, and once one is lost no section succeeds |
| DispatchedTransfer.SuccessDeliversAll | src/sender.cpp:2127-2143 | with reports in TCP order no section succeeds after a mismatch, and after a clean finish the result kept is Success if and only if every section was delivered, which are then all held |
| PeerTraffic.PeersAreHonest | src/receiver.cpp:365-439 | a run in which receivers also get what peers read from their disks is an execution of the system, as long as such packets come for transfers that no receiver was killed in the publication of |
| Scenarios.RepairedThenDelivered | src/sender.cpp:1516-1609 | a playable script in which a lost block is reported missing, repaired and reported complete, and the section succeeds |
| Scenarios.BegunIsReached | src/sender.cpp:1914-1921 | the state that script starts from is reached from registration |
| Scenarios.BackfillFallsShort | src/sender.cpp:1004-1017 | a receiver isolated in one section and lacking a block of the next is not completed by backfill, although both sections succeed |
| FaultScenarios.MismatchHappens | src/receiver.cpp:741-768 | from registration on, a receiver killed inside its publication comes to report a mismatch, read in TCP order, and the section ends in one |
| FaultScenarios.SuspectCanStart | src/sender.cpp:2095-2145 | the dispatch pipeline may start from the state before it |
| FaultScenarios.SuspectServes | src/receiver.cpp:365-439 | the receiver of that run, asked as a peer, sends bytes it never received in a packet that passes every check |
| FaultScenarios.FlagIsLeftOver | src/sender.cpp:1983-2010 | an execution in which one file is completed, the next is found in the cache, and the flag stays up although the receiver has nothing of it |
| Dispatch.DispatchState.TakeTask | src/sender.cpp:2099-2108 | the worker's critical section before a task: sleep, leave, or take the oldest task |
| Dispatch.DispatchState.RecordResult | src/sender.cpp:2131-2143 | the worker's critical section after a task: bytes returned, result kept, failure cancels |
| Dispatch.DispatchState.RecordThrow | src/sender.cpp:2118-2126 | the worker's critical section after an exception: bytes returned, failure and cancellation flagged |
| Dispatch.DispatchState.FinishProducing | src/sender.cpp:2204-2208 | the producer's critical section at the end is the one of the interleaved system |
| Dispatch.DispatchState.Cancel | src/sender.cpp:2146-2151 | so is the critical section of a stop |
| Dispatch.DispatchState.PushTask | src/sender.cpp:2177-2195 | the producer's critical section: refuse after a failure, else append and count while at most four sections' bytes result, or two are left on a retry, else sleep |
| Dispatch.PendingIsExact | src/sender.cpp:2095-2202 | in every interleaving the byte counter is queued plus in-flight bytes, never underflows and never exceeds four times the largest section |
| Dispatch.NeverBothAsleep | src/sender.cpp:2095-2213 | no reachable state leaves both threads waiting, or the producer joining a sleeping worker |
| Dispatch.NeverStuck | src/sender.cpp:2095-2213 | until the producer is done some step other than a spurious wake-up is possible |
| Dispatch.RunsAreBounded | src/sender.cpp:2095-2213 | a run has at most 20 n + 8 steps plus two for each spurious wake-up, so the pipeline ends |
| Dispatch.CleanFinish | src/sender.cpp:2204-2213 | an uncancelled finish has distributed sections 0..n-1 exactly once in order and kept the last result |
| CentralCache.ProxyCache.constructor | src/sender.cpp:2037-2067 | opens the cache: loads a matching checkpoint or truncates, and marks the sections below it |
| CentralCache.ProxyCache.HandleCentralData | src/sender.cpp:2234-2267 | stores and marks a valid block of the expected section; counts everything else |
| CentralCache.ProxyCache.HandleCentralEnd | src/sender.cpp:2274-2304 | accepts a section end exactly when it is the expected one, nothing was rejected and no block is missing, and saves the checkpoint first |
| CentralCache.ProxyCache.CommitCache | src/sender.cpp:2320-2343 | commits exactly a full file with the right digest |
| CentralCache.StepKeeps | src/sender.cpp:2037-2347 | every step of either thread, every frame and every kill keeps the cache invariant |
| CentralCache.ResumeIsSafe | src/sender.cpp:204-235 | a loaded checkpoint n has all sections below n on disk with source content, and n is at least what was ever confirmed |
| CentralCache.CachedMeansSource | src/sender.cpp:2331-2347 | once central is told the file is cached, the committed cache is the source |
| CentralCache.OpensUnlessCached | src/sender.cpp:1983-2037 | a session opens unless the final cache file has the announced digest; central is then told that all sections are there |
| CentralCache.CommitLeavesOnlySource | src/sender.cpp:2320-2343 | a commit leaves the source as the final cache file, with part file and checkpoint gone |
| CentralCache.CommittedOnlyOnce | src/sender.cpp:1983-2016 | a committed cache is never touched again |
| CentralCache.WorkerReadsCommitted | src/sender.cpp:2110-2115 | every block of the section in the worker's hands was checked and stored with source content before |
| CentralCache.WritesAvoidReads | src/sender.cpp:2234-2311 | no step changes a block of an enqueued section: writes and reads are disjoint |
| CentralCache.StaleCheckpointIff | src/sender.cpp:2037-2041 | after a session with another section size the old checkpoint is safe if and only if the size is the same or the source starts with zeros up to it |
| CentralDialogue.StepSends | src/sender.cpp:2037-2347 | the replies a step adds to what central was ever told |
| CentralDialogue.UndisturbedReplies | src/sender.cpp:2037-2347 | in every run a session that opens and ends without a disconnect or kill sends exactly the ordinary replies, from where it resumed |
| CentralSender.SendFile | src/central_sender.cpp:212-326 | sends whole sections in order from the resume point, succeeds exactly when every reply is accepted, and does succeed on the ordinary replies: resume at any section, one confirmation without a digest for each but the last, and the digest at the end |
| CentralSender.UndisturbedIsConfirmed | src/central_sender.cpp:240-325 | so `send_file` returns true on the replies of every undisturbed session |
| CentralSender.SectionIsAccepted | src/central_sender.cpp:278-302 | an undamaged section as central sends it is stored without rejection and its end is accepted |
| CentralSender.SuccessMeansCommitted | src/central_sender.cpp:303-325 | when `send_file` returns true the proxy's committed cache is the source, whatever disconnects and kills came before |

## Left out

- Sockets, epoll, timers, pacing, the 256-packet batch budget, logging, command lines and environment variables: I/O around the logic.
- Timeouts are events that may happen at any time; the network may lose, repeat, reorder and damage UDP packets, damage being confined to four consecutive payload bytes. Header damage that renames a block but leaves its payload and checksum is not among the faults; ReceiverSafety.HeaderIsNotChecked says what it would do.
- The control channel of the system is weaker than TCP: a report may be handed to the proxy at any time after it was sent, any number of times. ReportOrder adds TCP order, and that BACKFILL_END is not sent before the pipeline has ended.
- SHA-256 is a function parameter without further assumptions; transfer ids are given.
- Storage limits and disk space checks; other file system calls succeed.
- `kill` is the only failure: a power loss that undoes synced or renamed data is not modelled.
- Receiver publication is keyed by transfer id; two transfers with the same output file name overwrite each other's file, which is not modelled.
- The backfill list is a set of block ids; its sorting and removal of duplicates are not modelled.
- The thread pool of the backfill: each isolated receiver is handled alone.
- The retry with a new transfer id after a digest mismatch (`src/sender.cpp:2366-2375`, `src/sender.cpp:2542-2551`) and the session loop over several files.
- The fields `block_size` and `section_id` of FILE_META, which the code requires to be constants, outside the codec.
- SESSION_END, REGISTER ports, and codecs of the fixed-size messages: the writer and reader law covers them.
- The hooks that drop, duplicate, reverse or corrupt packets on request, except that injected corruption is rejected.
- SectionBarrier.DeliveredIsHeld: packets from peers are taken as made from the source file, which PeerTraffic.PeersAreHonest derives for transfers that no receiver was killed in the publication of; what a peer with a cut publication spreads is not followed.
- SectionBarrier.CachedClaimIff: a file that comes a second time in a chain of cached files is decided only by the history of the flag.
- DirectTransfer.DistributeSections: the section loop of `send_file_attempt`; the metadata phase before it, and backfill, failure notice and ready phase after it, are steps of the system and no loops of their own.
- CentralSender.SendFile: one connection; the reconnect loop around it repeats it.
- Codecs.DataDecodesIff: reserved fields are ignored by the decoder, so a message has more than one accepted frame.
