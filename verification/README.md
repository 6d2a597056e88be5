# Q-Crate data path: a Dafny model with proofs

Q-Crate moves IQ samples from an FPGA through a pool of DMA banks, a two-threaded UDP sender and a lossy network
into a durable recorder; pulse sequences go the other way, through a compiler, a binary image and a loader on the R5.
This project models the code behind those promises and proves them for every input, every interleaving and every run.

| files | what they hold |
|---|---|
| Crc32, Crc32Check, Protocol | the CRC, which CRC it is, and the datagrams as decoded fields |
| Packetizer | a shot cut into datagrams |
| Ordering, Gaps, RunFormat, ShotModel, RunModel | the recorder as values: a shot, its verdict, a run and its steps |
| RunLaws | what becomes of one datagram, by its own fields |
| Tiling, Verdicts, CompleteShots, Publication, Conflicts, ShotLedger, RunCounts | what a COMPLETE record means, what spoils one, what the files hold, that every shot is recorded once and that the counters add up, for any datagrams |
| SentShots, SentVerdicts, SentStream, Soundness, Completeness, CleanRuns, CleanDelivery, CleanWhole | a conforming sender, a lossy network and the recorder |
| Recorder, RecorderRun | the recorder's mutable state and loops, proved to take RunModel's steps |
| BankPool, PoolInvariant, PoolRun, PoolTraces, PoolTokens, PoolOwnership, PoolDiscards, PoolExample | the driver's bank pool: steps, invariants, tokens, bytes, the count of discarded banks, a small run |
| PoolEvidence, PoolLaws | what START lets through, what a granted bank has shown, and what each request answers |
| PoolDriver | the driver's fields and locked sections, proved to take BankPool's steps |
| Streamer, StreamerLaws, StreamerOwnership, StreamerDelivery, BankQueue | the acquisition and sender threads over the pool, and the ring buffer between them |
| EndToEnd, ZeroTime | pool, sender, network and recorder together; a run whose first sample time is zero |
| Waveform, SequenceCompiler, SequenceImage, SequenceLayout, SequenceLoader, SequenceLaws, SequenceService, SequenceToolchain | pulses, transition tables, images and their bytes, the R5's loader and its commands |
| ConfigModel, ConfigService | the R5's configuration transaction and the profile check |
| DspModel, DspLaws, DspReferences | the fixed-point signal path, what its samples and words mean, and the two references that compute it |
| RunCatalog, RunIndex | reading a run's index whole, and incrementally with a bounded cache |

State that the source updates in place is a class whose methods are proved against a function on its value; the
theorems over runs are about those functions. The network, the hardware, the kernel's scheduling and every register
read are inputs of the steps: they may do whatever the types allow, unless a `requires` says otherwise.

Run `dafny verify dfyconfig.toml` here.

Three results are negative. Each comes with a concrete run and with the exact condition under which the promise holds:

- A clean recorder run does not show that the stream's first shots arrived: nothing announces where a stream begins
  (CleanDelivery.LostShotIsClean). It is the whole stream exactly when some datagram of the first shot reached the
  recorder before it had filed a timed shot (CleanWhole.CleanIsWhole).
- A sender run can report success although its first sample time is zero (ZeroTime.ZeroTimeSucceeds): sample times
  are compared from the second bank on. The recorder never calls that shot COMPLETE (EndToEnd.ZeroTimeNeverComplete);
  a shot that arrives whole is COMPLETE exactly when its timestamp is not zero (Completeness.CompleteIffTimed).
- The driver's count of discarded banks is that of the last stop, so its own counters stop balancing after a second
  one (PoolDiscards.SecondStopBreaks). They balance exactly unless, since the last START, a STOP threw READY banks
  away and another was carried out after it (PoolDiscards.DriverBalance).

## Model

| member | source | states |
|---|---|---|
| `EndToEnd.CompleteIsWhatTheDmaWrote` | kv260/linux/data_plane/qcrate_streamer.c:916-1053 | From any START, however the sender's threads, the kernel and the hardware interleave: after a run that reports success, over a network that loses, repeats and reorders datagrams at will, every COMPLETE record of the recorder names one DMA bank that showed clean evidence, its extent of the sample file is byte for byte what the DMA left in that bank, and its frame count, frame length, format and configuration are the job's; COMPLETE records ascend in shot id and timestamp - also when the recorder gives up |
| `EndToEnd.ZeroTimeNeverComplete` | host/data_plane/qcrate_recorder.c:691-700 | Whatever arrives, no COMPLETE record names a shot of a successful sender run whose sample time is zero |
| `ZeroTime.ZeroTimeSucceeds` | kv260/linux/data_plane/qcrate_streamer.c:961-971 | A concrete run from START to reported success whose first sample time is zero |
| `Crc32.StepLoop` | common/data_plane/qcrate_data_packetizer.c:8-17 | The bit loop on one byte computes the CRC-32 step |
| `Crc32.UpdateLoop` | common/data_plane/qcrate_data_packetizer.c:6-18 | The byte loop computes the reflected CRC-32 update of zlib (section 8 of RFC 1952) |
| `Crc32Check.Coefficients` | common/data_plane/qcrate_data_packetizer.c:14-15 | The divisor has the coefficients of the CRC-32 of IEEE 802.3, reflected |
| `Crc32Check.CheckValue` | common/data_plane/qcrate_data_packetizer.c:6-18 | The checksum of "123456789" is cbf43926 |
| `Crc32.UpdateConcat` | common/data_plane/qcrate_data_packetizer.c:6-18 | Updating with two chunks one after the other is updating with their concatenation: chunked and one-shot CRC agree |
| `Crc32.UpdateInjective` | common/data_plane/qcrate_data_packetizer.c:6-18 | Different running CRCs stay different under the same data |
| `Crc32.UpdateWordLoop` | kv260/r5_freertos/qcrate_rpmsg_service.c:199-212 | The R5 CRC of a 32-bit word is the byte CRC of its four little-endian bytes |
| `Crc32Check.LittleEndian` | kv260/r5_freertos/qcrate_rpmsg_service.c:199-212 | The four bytes of a word, least significant first, make up the word |
| `Crc32.WordChangeDetected` | host/sequence_compiler/qcrate_sequence.py:244-249 | Data that differ only in four consecutive bytes, wherever they lie, have different checksums |
| `Packetizer.Check` | common/data_plane/qcrate_data_packetizer.c:60-91 | The argument, size and sequence guards, with which of them reports first |
| `Packetizer.Packetize` | common/data_plane/qcrate_data_packetizer.c:37-209 | Exactly the accepted shots are emitted; datagram 0 announces the configured profile field by field, datagram i carries the next 334 samples or the rest of its frame with its marks, timestamp and bytes, and the last states the totals and the CRC, all in the fields of the configuration; a failing socket leaves a prefix; the result fields are those of the whole shot |
| `Packetizer.AllSay` | common/data_plane/qcrate_data_packetizer.c:96-196 | Every datagram of a shot says what its place requires, and there are 2 more than ceil(frame samples / 334) for each frame |
| `Packetizer.EmitFrame` | common/data_plane/qcrate_data_packetizer.c:128-171 | The inner loop emits the packets of one frame: the running sequence, offset and CRC follow the datagrams emitted |
| `Packetizer.PlaceUnique` | common/data_plane/qcrate_data_packetizer.c:127-171 | Frame and packet number determine a DATA packet and are determined by its place in the shot |
| `Packetizer.EmitEndOfStream` | common/data_plane/qcrate_data_packetizer.c:212-242 | The closing heartbeat is emitted, with the given stream, run, shot and sequence and only the end-of-stream flag, exactly for good arguments, a sequence with a successor and a socket that takes it; otherwise nothing is, and the status says which guard failed first |
| `SentShots.SequenceAt` | common/data_plane/qcrate_data_packetizer.c:112-206 | The i-th datagram of a shot carries the initial sequence plus i, the shot identity, and fits a datagram |
| `Gaps.CountMissing` | host/data_plane/qcrate_recorder.c:589-611 | On ascending sequences with 64-bit wrap-around, the loop counts the absent sequences from STREAM_INFO to SHOT_END, saturated at 32 bits |
| `Gaps.SequenceComplete` | host/data_plane/qcrate_recorder.c:567-587 | The completeness loop answers yes exactly when no sequence is absent |
| `Gaps.FindMissingRanges` | host/data_plane/qcrate_receiver.py:144-163 | The ranges found are exactly the absent sequences, as maximal separate gaps in order, and the count is their number |
| `Ordering.SortedUnique` | host/data_plane/qcrate_recorder.c:513-535 | The two sort orders are total on packets of different sequence, so an unstable library sort has only one possible result |
| `Recorder.ShotState.AddPacket` | host/data_plane/qcrate_recorder.c:458-511 | The duplicate scan and the counters update the shot in place as ShotModel.AddPacket says, and the status tells whether the sequence was held |
| `Recorder.ShotState.SortBySequence` | host/data_plane/qcrate_recorder.c:645-646 | Sorting in place permutes the packets into ascending sequence |
| `Recorder.ShotState.CountMissing` | host/data_plane/qcrate_recorder.c:589-611 | Counting on the sorted packets gives the number of absent sequences |
| `Recorder.ShotState.SequenceComplete` | host/data_plane/qcrate_recorder.c:567-587 | On the sorted packets, complete means that nothing between the ends is absent |
| `Recorder.Scan` | host/data_plane/qcrate_recorder.c:671-727 | The pass over the packets collects exactly the admissible DATA packets, their totals, first timestamp and source flags, and notices any malformed packet |
| `Recorder.WalkOne` | host/data_plane/qcrate_recorder.c:743-766 | One packet of the frame walk passes exactly when it continues its frame or starts the next full one |
| `Recorder.WalkFrames` | host/data_plane/qcrate_recorder.c:734-771 | The frame walk accepts exactly the packets that tile frames 0, 1, 2, ...; it counts the frames and runs the CRC over the payloads |
| `Recorder.Gather` | host/data_plane/qcrate_recorder.c:837-844 | The copy loop yields the payloads in frame order |
| `Tiling.Placement` | host/data_plane/qcrate_recorder.c:742-769 | In packets that pass the frame walk, each one starts where the samples before it end |
| `Tiling.StartMarked` | host/data_plane/qcrate_recorder.c:743-753 | A packet at the start of a frame is marked so |
| `Tiling.CarriedOnce` | host/data_plane/qcrate_recorder.c:742-769 | In packets that pass the frame walk every sample of every frame is carried by one packet and by no other |
| `Tiling.SampleSource` | host/data_plane/qcrate_recorder.c:742-844 | Sample k of the published bytes is the one its packet carries for it |
| `Verdicts.CompleteShape` | host/data_plane/qcrate_recorder.c:645-849 | A shot of less than 16 GiB judged free of issues has no gap, its DATA packets tile frames 0..n-1, sample bytes are 4 * frames * frame samples, and the CRC of the published bytes is the announced one - whatever datagrams arrived |
| `CompleteShots.RulesMet` | host/data_plane/qcrate_recorder.c:645-800 | A shot judged free of issues, whatever datagrams arrived: one STREAM_INFO, one SHOT_END and otherwise DATA packets, every one by the rules of its type; a known profile; all sequences between the ends; a timestamp on the first DATA packet only; totals, ends and status as the sender states them |
| `CompleteShots.RecordNames` | host/data_plane/qcrate_recorder.c:802-831 | Its record names those packets: both end sequences, the first timestamp, counts, sizes, CRC, format and configuration as announced |
| `CompleteShots.AnyRecord` | host/data_plane/qcrate_recorder.c:802-831 | Every record, COMPLETE or not: COMPLETE and an extent exactly without issues, ends and counters of the shot, and the sender's complaints exactly those of its well-formed DATA packets |
| `CompleteShots.LaterObjects` | host/data_plane/qcrate_recorder.c:1081-1127 | A second STREAM_INFO or SHOT_END conflicts and changes neither; different totals also break the protocol |
| `RecorderRun.Assess` | host/data_plane/qcrate_recorder.c:645-800 | The issue flags raised step by step are those of the verdict |
| `RecorderRun.SortKeepsVerdict` | host/data_plane/qcrate_recorder.c:908-924 | Sorting a shot in place before it is complete changes nothing about how it will be published |
| `RunModel.Lowest` | host/data_plane/qcrate_recorder.c:875-892 | The shot picked is the first of least STREAM_INFO sequence |
| `RecorderRun.RunState.Write` | host/data_plane/qcrate_recorder.c:833-864 | Samples are appended before the record that names them, and the sample offset stays the size of the file |
| `RecorderRun.RunState.FinalizeShot` | host/data_plane/qcrate_recorder.c:625-873 | Asks for a retry exactly when packets are missing and it is not forced; otherwise the run takes the step Publish |
| `RecorderRun.RunState.LowestSequenceShot` | host/data_plane/qcrate_recorder.c:875-892 | The search loop finds that shot |
| `RecorderRun.RunState.RemoveAndFinalize` | host/data_plane/qcrate_recorder.c:894-906 | A published shot leaves the run and the others stay |
| `RecorderRun.RunState.FinalizeNext` | host/data_plane/qcrate_recorder.c:908-924 | One round of finalize_ready; the retry status cannot come back |
| `RecorderRun.RunState.FinalizeReady` | host/data_plane/qcrate_recorder.c:908-924 | The loop publishes the lowest complete shots as RunModel.FinalizeReady says |
| `RecorderRun.RunState.FinalizeRemaining` | host/data_plane/qcrate_recorder.c:926-935 | The loop publishes or quarantines every open shot |
| `RecorderRun.RunState.FindOrCreate` | host/data_plane/qcrate_recorder.c:422-444 | The shot of an id is found, or created while one of the 256 slots is free |
| `RecorderRun.RunState.CreateShot` | host/data_plane/qcrate_recorder.c:432-444 | A new empty shot is added after the open ones, which stay |
| `RecorderRun.RunState.NoteObject` | host/data_plane/qcrate_recorder.c:1081-1127 | What a STREAM_INFO or SHOT_END tells the shot, the profile and the terminal mark |
| `RecorderRun.RunState.AcceptOwn` | host/data_plane/qcrate_recorder.c:1045-1127 | Heartbeats, late packets and packets of shots, once they are known to be of this run |
| `RecorderRun.RunState.SavePending` | host/data_plane/qcrate_recorder.c:954-987 | Packets before selection are held back, up to 4096 |
| `RecorderRun.RunState.ReplayPending` | host/data_plane/qcrate_recorder.c:994-1013 | The packets held back are ingested in order; after a failure the rest is dropped and the run stays as it was left |
| `RecorderRun.RunState.Ingest` | host/data_plane/qcrate_recorder.c:1015-1127 | One datagram takes the run from its value to RunModel.Ingest of it, through selection, replay, the shot and what that completes, whether or not the recorder goes on |
| `RecorderRun.Receive` | host/data_plane/qcrate_recorder.c:1302-1342 | Every arrival and then finalize_remaining, or nothing more once the recorder gave up: outcome and log are those of the model, for any arrivals |
| `RunLaws.Unselected` | host/data_plane/qcrate_recorder.c:954-1044 | Before a run is selected: unreadable datagrams are counted, up to 4096 others held back in order, and a STREAM_INFO selects its sender, run and stream |
| `RunLaws.Selected` | host/data_plane/qcrate_recorder.c:1026-1078 | After that: unreadable, foreign, late and heartbeat packets are told apart by their own fields and change only what they should; a packet of a new shot is refused exactly when 256 others are open |
| `RunLaws.AddedToRun` | host/data_plane/qcrate_recorder.c:1081-1127 | Only the first STREAM_INFO of all sets the profile, and only a shot's first SHOT_END with the end-of-stream flag sets the end |
| `RunLaws.PublishedContext` | host/data_plane/qcrate_recorder.c:855-864 | A published shot sets the next expected sequence if it has a SHOT_END, and the last timed shot if it has a time |
| `Conflicts.NeverComplete` | host/data_plane/qcrate_recorder.c:467-482 | Two different datagrams of one sequence, both taken while their shot has no record: the shot's next record is INCOMPLETE, whatever arrives before, between and after, and a closed run has one |
| `Conflicts.EveryRunTidy` | host/data_plane/qcrate_recorder.c:467-482 | In every run open shots differ in identity and hold each sequence once |
| `RunCounts.ManifestAgrees` | host/data_plane/qcrate_recorder.c:847-867 | Whatever arrives, the recorder's complete, incomplete, duplicate and reordered counters are the analyzer's figures of the index, and no more datagrams are recorded than came in time |
| `Publication.EveryRunDurable` | host/data_plane/qcrate_recorder.c:802-866 | For any datagrams and any size limit, and also when the recorder gives up: after every single write the files can be read - consecutive disjoint extents inside the sample file, records that pass the analyzer checks, for each COMPLETE one the recorded CRC, a first packet before the last with nothing missing between, and packets that follow all the rules and are what the record says, whole frames for every record below 16 GiB - and the extents cover the sample file exactly; closing leaves no shot open |
| `ShotLedger.EveryShotRecorded` | host/data_plane/qcrate_recorder.c:422-444 | Over any run the shots opened are those recorded and those still open, each once; a closed run has exactly one record for every shot it opened, and no other |
| `SentVerdicts.SortedAsSent` | host/data_plane/qcrate_recorder.c:645-652 | The packets of a shot of which nothing is absent are, sorted, exactly the datagrams sent |
| `SentVerdicts.JudgeSent` | host/data_plane/qcrate_recorder.c:645-800 | For packets of a sent shot of which nothing is absent, which issues are raised and what is published, exactly; a shot sent without a timestamp, or with zero, is refused for that |
| `SentVerdicts.SentRecord` | host/data_plane/qcrate_recorder.c:802-831 | If it raises none, its record says, in the sender's configuration: first and last packet sequence, timestamp, frames, DATA packets, size, CRC, format, configuration, nothing missing and no complaint |
| `Soundness.PublishedAreSent` | host/data_plane/qcrate_recorder.c:794-935 | A conforming sender and a network that drops, repeats and permutes: in every run each COMPLETE record has every field of one sent shot's configuration and its extent holds exactly that shot's samples, COMPLETE records ascend in id and timestamp, before draining and after it, and when the recorder gives up |
| `Completeness.ShotDelivered` | host/data_plane/qcrate_recorder.c:1015-1127 | A shot whose datagrams arrive in any order with any duplicates, while the earlier ones are done, is published COMPLETE with every field the sender configured; duplicates are the arrivals up to the completing one less the distinct datagrams, and what comes after it is late |
| `Completeness.RoundTrip` | host/data_plane/qcrate_recorder.c:458-1127 | Any accepted timed shot within the size limit, its datagrams in any order with any duplicates and at most 4096 before STREAM_INFO, fed to a fresh recorder: exactly one COMPLETE record, which has the sender's first and last sequence, timestamp, frames, packet counts, size, CRC, format and configuration, nothing missing, and the duplicates, reorderings and receive times of the arrivals; and the sample file is the sender's buffer |
| `Completeness.CompleteIffTimed` | host/data_plane/qcrate_recorder.c:691-700 | A shot delivered whole to a fresh recorder gets a COMPLETE record exactly when its timestamp is not zero |
| `CleanRuns.CleanMeansSuffix` | host/data_plane/qcrate_recorder.c:1528-1532 | A run that ends clean holds every sent shot from some first timed one to the last, and their samples |
| `CleanRuns.CleanCounts` | host/data_plane/qcrate_recorder.c:1528-1532 | A clean run has no malformed, conflicting or overflowing packet, no INCOMPLETE shot, some COMPLETE one and an end |
| `CleanDelivery.DeliveredIsClean` | host/data_plane/qcrate_recorder.c:1528-1532 | A stream delivered shot by shot, each in any order with duplicates, ends clean |
| `CleanWhole.CleanIsWhole` | host/data_plane/qcrate_recorder.c:1067-1070 | A clean run is the whole stream exactly when some datagram of the first shot arrived while no timed shot had been filed |
| `CleanWhole.AcceptFirst` | host/data_plane/qcrate_recorder.c:1067-1075 | One packet files the first shot exactly when it is of that shot and no timed shot has been filed |
| `CleanDelivery.LostShotIsClean` | host/data_plane/qcrate_recorder.c:1528-1532 | A concrete stream whose first shot is lost entirely still ends clean: nothing announces where a stream begins |
| `BankPool.FindFree` | kv260/linux/petalinux/qcrate-kv260/project-spec/meta-user/recipes-modules/qcrate-dma/files/qcrate_dma.c:800-809 | The first FREE bank, or none when no bank is FREE |
| `BankPool.FindReady` | kv260/linux/petalinux/qcrate-kv260/project-spec/meta-user/recipes-modules/qcrate-dma/files/qcrate_dma.c:811-825 | The READY bank of least sequence, or none when no bank is READY |
| `PoolInvariant.Disjoint` | kv260/linux/petalinux/qcrate-kv260/project-spec/meta-user/recipes-modules/qcrate-dma/files/qcrate_dma.c:888 | Bank ranges do not overlap |
| `PoolRun.GeometryFits` | kv260/linux/petalinux/qcrate-kv260/project-spec/meta-user/recipes-modules/qcrate-dma/files/qcrate_dma.c:266-287 | A geometry START accepts has all its banks inside the buffer and all its frames inside a bank |
| `PoolInvariant.OldestIsNext` | kv260/linux/petalinux/qcrate-kv260/project-spec/meta-user/recipes-modules/qcrate-dma/files/qcrate_dma.c:811-825 | The oldest READY bank is the next in sequence |
| `PoolRun.DrainSound` | kv260/linux/petalinux/qcrate-kv260/project-spec/meta-user/recipes-modules/qcrate-dma/files/qcrate_dma.c:837-883 | Draining keeps the invariant, and leaves no DMA when it succeeds |
| `PoolRun.ArmSound` | kv260/linux/petalinux/qcrate-kv260/project-spec/meta-user/recipes-modules/qcrate-dma/files/qcrate_dma.c:885-954 | Arming a FREE bank keeps the invariant on every one of its exits; success means the DMA is in flight |
| `PoolRun.FinalizeSound` | kv260/linux/petalinux/qcrate-kv260/project-spec/meta-user/recipes-modules/qcrate-dma/files/qcrate_dma.c:956-1064 | Finalizing ends the DMA: the bank is READY with the next sequence, or FREE again |
| `PoolRun.ThreadGood` | kv260/linux/petalinux/qcrate-kv260/project-spec/meta-user/recipes-modules/qcrate-dma/files/qcrate_dma.c:1081-1150 | A thread iteration keeps every invariant, and afterwards a running pool has a DMA under way or no FREE bank |
| `PoolRun.StartGood` | kv260/linux/petalinux/qcrate-kv260/project-spec/meta-user/recipes-modules/qcrate-dma/files/qcrate_dma.c:1152-1243 | START keeps every invariant whether it is refused, fails to arm or succeeds |
| `PoolEvidence.StartAccepted` | kv260/linux/petalinux/qcrate-kv260/project-spec/meta-user/recipes-modules/qcrate-dma/files/qcrate_dma.c:1152-1182 | Exactly which requests START takes: two to 64 triggered banks of 1 to 255 frames that the engine can transfer and the buffer can hold |
| `PoolEvidence.StartBegins` | kv260/linux/petalinux/qcrate-kv260/project-spec/meta-user/recipes-modules/qcrate-dma/files/qcrate_dma.c:1152-1243 | START succeeds exactly for such a request, a free buffer and hardware that takes the first bank; then the geometry is the request's, bank 0 is poisoned and filling, the others free, the run id new and nothing counted |
| `PoolLaws.StartRefused` | kv260/linux/petalinux/qcrate-kv260/project-spec/meta-user/recipes-modules/qcrate-dma/files/qcrate_dma.c:1180-1194 | Busy exactly for a good request while the buffer is taken; a refusal leaves the pool as it was |
| `PoolEvidence.ArmSucceeds` | kv260/linux/petalinux/qcrate-kv260/project-spec/meta-user/recipes-modules/qcrate-dma/files/qcrate_dma.c:885-935 | A bank is armed exactly when it is FREE, none is filling and the hardware takes it; it is then poisoned with a5 and of the next generation |
| `PoolEvidence.BankCompletes` | kv260/linux/petalinux/qcrate-kv260/project-spec/meta-user/recipes-modules/qcrate-dma/files/qcrate_dma.c:956-1064 | A bank becomes READY exactly on a clean report - whole transfer, DONE without error, all frames, one trigger seen and timed - with its place, size, sequence and bytes in its grant and the counters moved; else it is FREE again |
| `PoolLaws.DrainLaw` | kv260/linux/petalinux/qcrate-kv260/project-spec/meta-user/recipes-modules/qcrate-dma/files/qcrate_dma.c:837-883 | When draining frees the bank, and what it reports otherwise |
| `PoolLaws.StopCarriedOut` | kv260/linux/petalinux/qcrate-kv260/project-spec/meta-user/recipes-modules/qcrate-dma/files/qcrate_dma.c:1098-1118 | What a stop that is carried out frees, counts and reports |
| `PoolLaws.StarvationLaw` | kv260/linux/petalinux/qcrate-kv260/project-spec/meta-user/recipes-modules/qcrate-dma/files/qcrate_dma.c:1128-1145 | Running out of FREE banks is counted once until a bank is armed again |
| `PoolRun.DequeueGood` | kv260/linux/petalinux/qcrate-kv260/project-spec/meta-user/recipes-modules/qcrate-dma/files/qcrate_dma.c:1252-1295 | DEQUEUE grants the bank of the next sequence, with the bytes it was completed with, or refuses because none is READY |
| `PoolLaws.DequeueRefused` | kv260/linux/petalinux/qcrate-kv260/project-spec/meta-user/recipes-modules/qcrate-dma/files/qcrate_dma.c:1273-1282 | DEQUEUE has nothing to give exactly when no bank is READY, and its error says whether the pool is faulted, running or shut down |
| `PoolLaws.ReleaseLaw` | kv260/linux/petalinux/qcrate-kv260/project-spec/meta-user/recipes-modules/qcrate-dma/files/qcrate_dma.c:1305-1331 | RELEASE frees exactly the bank of a matching token and wakes the thread |
| `PoolLaws.StopLaw` | kv260/linux/petalinux/qcrate-kv260/project-spec/meta-user/recipes-modules/qcrate-dma/files/qcrate_dma.c:1412-1429 | STOP is stale, busy or taken, by the run it names |
| `PoolLaws.CaptureLaw` | kv260/linux/petalinux/qcrate-kv260/project-spec/meta-user/recipes-modules/qcrate-dma/files/qcrate_dma.c:339-380 | A single capture writes only to a buffer nobody has, and leaves it the DMA's bytes or the poison |
| `PoolTraces.NextGood` | kv260/linux/petalinux/qcrate-kv260/project-spec/meta-user/recipes-modules/qcrate-dma/files/qcrate_dma.c:1081-1429 | Every request, thread iteration and hardware event keeps the invariant |
| `PoolTraces.EveryStateBalanced` | kv260/linux/petalinux/qcrate-kv260/project-spec/meta-user/recipes-modules/qcrate-dma/files/qcrate_dma.c:827-834 | In every reachable state free + ready + user + active DMA is the bank count, produced = dequeued + ready + discarded, dequeued = consumed + user, a faulted pool is not running, and a running pool will be woken: its DMA is in flight or its completion pending, or a KICK is pending when a bank is FREE |
| `PoolEvidence.EveryGrantClean` | kv260/linux/petalinux/qcrate-kv260/project-spec/meta-user/recipes-modules/qcrate-dma/files/qcrate_dma.c:1017-1063 | In every reachable state each READY or handed out bank, and each bank DEQUEUE grants, has shown a clean report; its grant is its place, its size and its bytes |
| `PoolEvidence.EveryStateBooked` | kv260/linux/petalinux/qcrate-kv260/project-spec/meta-user/recipes-modules/qcrate-dma/files/qcrate_dma.c:1039-1064 | In every reachable state bytes are counted by the bank, the high-water mark lies between the READY banks and those produced, and errors are counted exactly when one is noted |
| `PoolDiscards.StepDiscards` | kv260/linux/petalinux/qcrate-kv260/project-spec/meta-user/recipes-modules/qcrate-dma/files/qcrate_dma.c:1066-1079 | What each step does to the two counts of discarded banks: START clears both, a stop that is carried out adds to the total and overwrites the driver's, nothing else touches them |
| `PoolDiscards.StopKeepsCount` | kv260/linux/petalinux/qcrate-kv260/project-spec/meta-user/recipes-modules/qcrate-dma/files/qcrate_dma.c:1098-1118 | A stop leaves the driver's count right exactly when the drain or the stream reset fails, or no stop before it threw banks away |
| `PoolDiscards.DriverBalance` | kv260/linux/petalinux/qcrate-kv260/project-spec/meta-user/recipes-modules/qcrate-dma/files/qcrate_dma.c:1066-1079 | In every reachable state the driver's own counters balance exactly unless, since the last START, a stop threw READY banks away and another was carried out after it |
| `PoolDiscards.SecondStopBreaks` | kv260/linux/petalinux/qcrate-kv260/project-spec/meta-user/recipes-modules/qcrate-dma/files/qcrate_dma.c:1098-1118 | A concrete run after which the driver reports one bank produced and none dequeued, ready or discarded |
| `PoolRun.WaitIsAnswered` | kv260/linux/petalinux/qcrate-kv260/project-spec/meta-user/recipes-modules/qcrate-dma/files/qcrate_dma.c:1333-1347 | RELEASE's wait for the next bank to be armed is over after the next thread iteration |
| `PoolTokens.NoOverwrite` | kv260/linux/petalinux/qcrate-kv260/project-spec/meta-user/recipes-modules/qcrate-dma/files/qcrate_dma.c:339-365 | No step - the next arm and its poison, the DMA, a single-shot or triggered capture - writes into a READY or USER_OWNED bank |
| `PoolOwnership.AcceptsOutstanding` | kv260/linux/petalinux/qcrate-kv260/project-spec/meta-user/recipes-modules/qcrate-dma/files/qcrate_dma.c:1309-1325 | RELEASE takes exactly the tokens of banks userspace owns |
| `PoolOwnership.DequeueTokens` | kv260/linux/petalinux/qcrate-kv260/project-spec/meta-user/recipes-modules/qcrate-dma/files/qcrate_dma.c:1283-1289 | DEQUEUE adds one new token to those outstanding |
| `PoolOwnership.ReleaseTokens` | kv260/linux/petalinux/qcrate-kv260/project-spec/meta-user/recipes-modules/qcrate-dma/files/qcrate_dma.c:1309-1328 | RELEASE succeeds exactly for an outstanding token and takes away that one only |
| `PoolOwnership.TokenTakenOnce` | kv260/linux/petalinux/qcrate-kv260/project-spec/meta-user/recipes-modules/qcrate-dma/files/qcrate_dma.c:1309-1325 | However the run goes on, restarts included, a token once released is refused as stale for ever |
| `PoolOwnership.BytesUntilRelease` | kv260/linux/petalinux/qcrate-kv260/project-spec/meta-user/recipes-modules/qcrate-dma/files/qcrate_dma.c:1178-1188 | Over any run, as long as a token is outstanding the bytes and the place of its bank do not change |
| `PoolOwnership.RunIsFifo` | kv260/linux/petalinux/qcrate-kv260/project-spec/meta-user/recipes-modules/qcrate-dma/files/qcrate_dma.c:1039-1063 | After any START, the n-th bank dequeued carries bank sequence n |
| `PoolDriver.DmaDevice.Drain` | kv260/linux/petalinux/qcrate-kv260/project-spec/meta-user/recipes-modules/qcrate-dma/files/qcrate_dma.c:837-883 | The fields are updated in place as the model says, for every report of the hardware |
| `PoolDriver.DmaDevice.Arm` | kv260/linux/petalinux/qcrate-kv260/project-spec/meta-user/recipes-modules/qcrate-dma/files/qcrate_dma.c:885-954 | The poison, the counters, the generation and the recovery path, in place |
| `PoolDriver.DmaDevice.Finalize` | kv260/linux/petalinux/qcrate-kv260/project-spec/meta-user/recipes-modules/qcrate-dma/files/qcrate_dma.c:956-1063 | The grant and the counters, in place |
| `PoolDriver.DmaDevice.DiscardReady` | kv260/linux/petalinux/qcrate-kv260/project-spec/meta-user/recipes-modules/qcrate-dma/files/qcrate_dma.c:1066-1079 | The loop frees every READY bank and counts them |
| `PoolDriver.DmaDevice.FindFree` | kv260/linux/petalinux/qcrate-kv260/project-spec/meta-user/recipes-modules/qcrate-dma/files/qcrate_dma.c:800-809 | The search loop finds the model's FREE bank |
| `PoolDriver.DmaDevice.FindReady` | kv260/linux/petalinux/qcrate-kv260/project-spec/meta-user/recipes-modules/qcrate-dma/files/qcrate_dma.c:811-825 | The search loop finds the model's READY bank |
| `PoolDriver.DmaDevice.ThreadIteration` | kv260/linux/petalinux/qcrate-kv260/project-spec/meta-user/recipes-modules/qcrate-dma/files/qcrate_dma.c:1095-1148 | An iteration of the thread loop takes the model's step and keeps the invariant |
| `PoolDriver.DmaDevice.Start` | kv260/linux/petalinux/qcrate-kv260/project-spec/meta-user/recipes-modules/qcrate-dma/files/qcrate_dma.c:1152-1243 | START in place |
| `PoolDriver.DmaDevice.Dequeue` | kv260/linux/petalinux/qcrate-kv260/project-spec/meta-user/recipes-modules/qcrate-dma/files/qcrate_dma.c:1273-1295 | DEQUEUE in place |
| `PoolDriver.DmaDevice.Release` | kv260/linux/petalinux/qcrate-kv260/project-spec/meta-user/recipes-modules/qcrate-dma/files/qcrate_dma.c:1305-1331 | RELEASE in place |
| `PoolDriver.DmaDevice.Stop` | kv260/linux/petalinux/qcrate-kv260/project-spec/meta-user/recipes-modules/qcrate-dma/files/qcrate_dma.c:1412-1429 | The request part of STOP in place |
| `PoolDriver.DmaDevice.DmaComplete` | kv260/linux/petalinux/qcrate-kv260/project-spec/meta-user/recipes-modules/qcrate-dma/files/qcrate_dma.c:195-211 | The completion callback for a pool transfer |
| `BankQueue.Queue.Push` | kv260/linux/data_plane/qcrate_streamer.c:695-713 | The ring buffer appends a token, or nothing once the pipeline failed |
| `BankQueue.Queue.Pop` | kv260/linux/data_plane/qcrate_streamer.c:715-735 | The ring buffer hands out its oldest token, or says that the producer is done or the pipeline failed |
| `StreamerOwnership.PushNeverWaits` | kv260/linux/data_plane/qcrate_streamer.c:695-713 | queue_push never finds the queue full |
| `StreamerOwnership.NextOwning` | kv260/linux/data_plane/qcrate_streamer.c:916-1053 | Every step of either thread and of the kernel keeps the tokens in the threads' hands equal to the banks userspace owns |
| `StreamerDelivery.EveryInterleaving` | kv260/linux/data_plane/qcrate_streamer.c:916-1053 | In every interleaving: tokens queued and held are distinct, are exactly the banks userspace owns, in completion order and with their bytes untouched; the queue has room for the next; the k-th datagram on the wire carries packet sequence k |
| `StreamerLaws.CheckLaw` | kv260/linux/data_plane/qcrate_streamer.c:876-977 | A dequeued bank is queued exactly when it is of this run and geometry, shows clean evidence and comes after the one before |
| `StreamerLaws.PushLaw` | kv260/linux/data_plane/qcrate_streamer.c:695-713 | Pushing appends and counts the bank, or gives it back once the pipeline failed |
| `StreamerLaws.PopLaw` | kv260/linux/data_plane/qcrate_streamer.c:715-735 | The sender takes the oldest bank, ends when none is to come and stops on failure |
| `StreamerLaws.SettleLaw` | kv260/linux/data_plane/qcrate_streamer.c:1014-1034 | The sender goes on exactly when the shot went out whole, the bank was taken back and the next one armed where it was waited for |
| `StreamerLaws.EndLaw` | kv260/linux/data_plane/qcrate_streamer.c:1035-1050 | The closing heartbeat is sent exactly after everything acquired was sent, and its absence is a failure |
| `StreamerLaws.ReturnLaw` | kv260/linux/data_plane/qcrate_streamer.c:953-990 | A bank given back for cause fails the pipeline |
| `StreamerDelivery.SuccessDelivers` | kv260/linux/data_plane/qcrate_streamer.c:1138-1141 | When the run reports success every bank dequeued was sent once, in order, with the bytes the DMA left, under the job's profile and the bank's shot id and time, had shown clean evidence, and was released; the wire is their datagrams and the closing heartbeat |
| `StreamerDelivery.SuccessConforms` | kv260/linux/data_plane/qcrate_streamer.c:968-977 | The stream a successful run sends meets the recorder's assumptions |
| `StreamerDelivery.StartIsFresh` | kv260/linux/data_plane/qcrate_streamer.c:1102-1113 | A successful START gives the pipeline the pool its proofs begin with |
| `Waveform.SameLevelsSameTable` | host/sequence_compiler/qcrate_sequence.py:165-189 | Two tables with strictly changing states that drive the same outputs at every tick are equal |
| `Waveform.EqualTables` | host/sequence_compiler/qcrate_sequence.py:152-161 | Two pulse lists compile to equal tables exactly when they ask for the same waveform |
| `SequenceCompiler.File` | host/sequence_compiler/qcrate_sequence.py:106-128 | Each pulse is checked and filed under its channel |
| `SequenceCompiler.ApartMeansDisjoint` | host/sequence_compiler/qcrate_sequence.py:131-141 | Comparing sorted neighbours finds an overlap exactly when two pulses of the channel overlap |
| `SequenceCompiler.CheckOverlap` | host/sequence_compiler/qcrate_sequence.py:133-141 | The overlap loop |
| `SequenceCompiler.Collect` | host/sequence_compiler/qcrate_sequence.py:143-150 | The changes dictionary holds, for each tick, what starts and what ends there |
| `SequenceCompiler.Transition` | host/sequence_compiler/qcrate_sequence.py:155-156 | At a tick an output is high exactly when a pulse starts there, or one was on and none ends there |
| `SequenceCompiler.Turn` | host/sequence_compiler/qcrate_sequence.py:154-159 | One turn of the event loop keeps the table driving what the pulses ask for up to the next tick |
| `SequenceCompiler.ValidateEvents` | host/sequence_compiler/qcrate_sequence.py:165-189 | The loop accepts exactly the tables of 2 to 128 events in normal form that end low |
| `SequenceCompiler.Compile` | host/sequence_compiler/qcrate_sequence.py:99-162 | At every tick bit 0 of the table's level is set exactly while a channel-0 pulse lasts, bit 1 exactly while a channel-1 pulse does, and no other bit; pulses are refused exactly for being none, illegal or overlapping, or when their table has more than 128 events |
| `SequenceImage.EventRoundTrip` | host/sequence_compiler/qcrate_sequence.py:28 | Sixteen bytes parse to an event exactly when they are its encoding |
| `SequenceImage.ImageBijection` | host/sequence_compiler/qcrate_sequence.py:192-256 | decode_sequence accepts exactly the images encode_sequence makes, and each undoes the other |
| `SequenceLayout.ImageLayout` | host/sequence_compiler/qcrate_sequence.py:192-209 | An image byte for byte: QSEQ, version 1, header size 32, count, event size 16, 200000000 ticks a second, CRC, zeros, and each event as 8 + 4 + 4 little-endian bytes |
| `SequenceImage.BurstRejected` | host/sequence_compiler/qcrate_sequence.py:244-249 | Changing four consecutive bytes of an image, in the header, in the payload or across both, makes it unreadable |
| `SequenceLoader.ValidateMeansProper` | kv260/r5_freertos/qcrate_rpmsg_service.c:432-448 | The R5 test of one event against the last is the whole-table test at that event |
| `SequenceLoader.LoadEventSafe` | kv260/r5_freertos/qcrate_rpmsg_service.c:450-518 | What LOAD_EVENT accepts, exactly, and what it leaves in memory |
| `SequenceLayout.LoadedEvent` | kv260/r5_freertos/qcrate_rpmsg_service.c:450-490 | The four words of an event: timestamp low and high, state, flags |
| `SequenceLaws.ValidTables` | kv260/r5_freertos/qcrate_rpmsg_service.c:432-448 | The tables that may run, event by event in numbers |
| `SequenceLaws.FaultNames` | kv260/r5_freertos/qcrate_rpmsg_service.c:432-448 | A fault names what is wrong with an event, and an event without one is in order |
| `SequenceLaws.BeginLaw` | kv260/r5_freertos/qcrate_rpmsg_service.c:392-430 | When LOAD_BEGIN starts a load of 2 to 128 events, and what a refusal abandons or keeps |
| `SequenceLaws.CommitLaw` | kv260/r5_freertos/qcrate_rpmsg_service.c:520-569 | When LOAD_COMMIT commits, its errors, and that it always ends the load |
| `SequenceLaws.RunLaw` | kv260/r5_freertos/qcrate_rpmsg_service.c:592-679 | When ARM, START and RESET act, and that none touches the memory |
| `SequenceLoader.NextSafe` | kv260/r5_freertos/qcrate_rpmsg_service.c:392-679 | Every command, with right or wrong length and faithful or faulty memory, keeps the loader safe |
| `SequenceLoader.ArmSeesValidTables` | kv260/r5_freertos/qcrate_rpmsg_service.c:592-618 | In every state any command sequence reaches, loading excludes committed, and ARM is let through only over a table validate_events accepts, with the announced CRC |
| `SequenceLoader.RunningTableFixed` | kv260/r5_freertos/qcrate_rpmsg_service.c:392-569 | While the sequencer is not idle no command changes the event memory or the count |
| `SequenceLoader.LoadCommits` | kv260/r5_freertos/qcrate_rpmsg_service.c:392-569 | On idle hardware with faithful memory a load of any length commits exactly when validate_events accepts the table and the CRC is that of its bytes; the memory then holds the table |
| `SequenceService.Service.Begin` | kv260/r5_freertos/qcrate_rpmsg_service.c:392-430 | LOAD_BEGIN in place |
| `SequenceService.Service.WriteWords` | kv260/r5_freertos/qcrate_rpmsg_service.c:491-511 | The write, read-back and CRC loop |
| `SequenceService.Service.LoadEvent` | kv260/r5_freertos/qcrate_rpmsg_service.c:450-518 | LOAD_EVENT in place |
| `SequenceService.Service.Commit` | kv260/r5_freertos/qcrate_rpmsg_service.c:520-569 | LOAD_COMMIT in place |
| `SequenceToolchain.PulsesReachTheSequencer` | kv260/r5_freertos/qcrate_rpmsg_service.c:520-569 | A compiled table survives image and load: the R5 commits it, and at every tick bit 0 of what the event memory drives is set exactly while a channel-0 pulse lasts, bit 1 exactly while a channel-1 pulse does, and no other bit |
| `SequenceToolchain.OneImageOneWaveform` | host/sequence_compiler/qcrate_sequence.py:192-209 | Compiled pulse lists have equal images exactly when they ask for the same waveform |
| `ConfigModel.CommitAllOrNothing` | kv260/r5_freertos/qcrate_rpmsg_service.c:729-851 | After any requests a commit never fails its own re-check; OK exactly when the profile is validated, the hardware ready and every register shows its word, and then the stream registers are words 9 and 10 and the mode 1, and active word i is word i; which error each other answer of the hardware gives, and what each leaves in the stream, shadow and active registers |
| `ConfigModel.CommitsLastStaged` | kv260/r5_freertos/qcrate_rpmsg_service.c:681-851 | In the words of the last STAGE request in force: a commit is OK exactly when they are sound, were validated since and the honest hardware shows them, and then the registers hold them |
| `ConfigModel.CommitUnstaged` | kv260/r5_freertos/qcrate_rpmsg_service.c:745-749 | With no STAGE request in force a commit is refused and changes no register |
| `ConfigModel.CommitReasons` | kv260/r5_freertos/qcrate_rpmsg_service.c:745-848 | The reason given for a refused commit names what stood in the way |
| `ConfigModel.CheckMeansSound` | common/config/qcrate_runtime_config.c:7-43 | The validator passes exactly the profiles within the limits, in numbers, and a reason names a limit that is broken |
| `ConfigModel.RunTrusted` | kv260/r5_freertos/qcrate_rpmsg_service.c:681-720 | Validated always means that the staged words pass the validator |
| `ConfigService.Service.Commit` | kv260/r5_freertos/qcrate_rpmsg_service.c:729-851 | The commit with its restore paths, in place; on OK the stream registers hold words 9 and 10 and the mode 1, and the active ones words 0 to 8 |
| `ConfigService.Service.Validate` | kv260/r5_freertos/qcrate_rpmsg_service.c:698-720 | VALIDATE in place: OK exactly for a staged sound profile |
| `ConfigService.Service.Recover` | kv260/r5_freertos/qcrate_rpmsg_service.c:864-880 | RECOVER in place: refused exactly while the DSP is busy; else nothing is staged, all words are zero and the shadow is the active configuration |
| `DspModel.LfsrNeverZero` | host/dsp_model/qcrate_dsp_reference.py:63-67 | From a nonzero 16-bit seed the noise generator never reaches zero and stays within 16 bits |
| `DspModel.StepIsXor` | host/dsp_model/qcrate_dsp_reference.py:63-67 | A step is a shift and, after an odd state, the bitwise exclusive-or with 0xB400 |
| `DspModel.AdcBound` | host/dsp_model/qcrate_dsp_reference.py:152-154 | For a profile the R5 accepts, source plus noise stays in [-0x8000, 0x8000]: clamping moves a sample by at most one step |
| `DspModel.AcceptedSignal` | common/config/qcrate_runtime_config.c:15-30 | At every input sample of an accepted profile the noise state is not zero and the converter's value is at most one step off |
| `DspModel.MixerNeverClamps` | host/dsp_model/qcrate_dsp_reference.py:155-156 | The 18-bit clamp after the mixer never acts |
| `DspModel.FilterFits` | host/dsp_model/qcrate_dsp.py:502-515 | 217 products of 18-bit samples and 18-bit taps fit 48 bits |
| `DspModel.NoOverflow` | host/dsp_model/qcrate_dsp.py:512-515 | With 18-bit taps neither accumulator overflow error can be raised, whatever the other parameters |
| `DspLaws.RoundShiftNearest` | host/dsp_model/qcrate_dsp_reference.py:23-26 | A rounding shift gives the nearest whole number, the one farther from zero when two are |
| `DspLaws.RoundedOnce` | host/dsp_model/qcrate_dsp_reference.py:23-26 | There is only one such number |
| `DspLaws.NcoIsWave` | host/dsp_model/qcrate_dsp_reference.py:50-60 | The oscillator reads a full wave of 4096 steps folded from the quarter-wave table |
| `DspLaws.NcoLaws` | host/dsp_model/qcrate_dsp_reference.py:50-60 | It repeats after a turn, changes sign after half of one, mirrors about the quarter, is constant over 2^20 phases, starts with the table and has its ends at the quarters |
| `DspLaws.PhasesAt` | host/dsp_model/qcrate_dsp_reference.py:157-158 | Phases are the initial one plus i increments, modulo 2^32 |
| `DspLaws.AdcMeans` | host/dsp_model/qcrate_dsp_reference.py:145-154 | Input sample i is the cosine at the signal's phase and the noise after i + 1 steps, each scaled and rounded, clipped to 16 bits |
| `DspLaws.MixerMeans` | host/dsp_model/qcrate_dsp_reference.py:148-156 | The mixer outputs are its product with the local oscillator's cosine and with minus its sine, rounded at 2^13 and clipped to 18 bits |
| `DspLaws.QuarterTurn` | host/dsp_model/qcrate_dsp_reference.py:155-156 | A quarter turn of the local oscillator takes I to Q |
| `DspLaws.ImpulseResponse` | host/dsp_model/qcrate_dsp_reference.py:160-169 | A unit sample at input j contributes tap 16k + 15 - j of 217 to output k |
| `DspLaws.FilterLinear` | host/dsp_model/qcrate_dsp_reference.py:160-169 | The filter is linear |
| `DspLaws.WordMeans` | host/dsp_model/qcrate_dsp_reference.py:170-172 | Signed halves of word k: the I sum in the low one and the Q sum in the high one, each 2^-19 of it rounded and clipped |
| `DspLaws.StandingWord` | host/dsp_model/qcrate_dsp_reference.py:142-174 | A full-scale standing tone gives words 00007ffd, and 80030000 a quarter turn later |
| `DspReferences.GenerateWords` | host/dsp_model/qcrate_dsp_reference.py:142-174 | The streaming loop yields word k, whose low half is the I filter output at input 16k + 15 and whose high half the Q one, as signed 16-bit numbers, for all parameters, tables and lengths |
| `DspReferences.LfsrNoise` | host/dsp_model/qcrate_dsp.py:373-385 | The noise sequence, step by step; exactly the nonzero 16-bit seeds are taken |
| `DspReferences.RunFrontend` | host/dsp_model/qcrate_dsp.py:427-454 | The frontend fills both mixer arrays with the samples the definition gives |
| `DspReferences.RunFir` | host/dsp_model/qcrate_dsp.py:484-519 | The decimating filter, and exactly when it reports an overflow |
| `DspReferences.PackWords` | host/dsp_model/qcrate_dsp.py:584-590 | I in the low half and Q in the high half of each word, modulo 2^16 |
| `DspReferences.RunModel` | host/dsp_model/qcrate_dsp.py:572-590 | For any parameters the batch model fails exactly for no output, a bad seed or an accumulator that overflows, and otherwise yields the streaming words, I in the low half and Q in the high |
| `DspReferences.Compare` | host/dsp_model/qcrate_dsp.py:593-618 | With 18-bit taps the two references agree for all parameters, tables and lengths |
| `DspReferences.GenerateBoth` | host/dsp_model/qcrate_dsp_reference.py:142-174 | For any parameters a shorter streaming run is a prefix of a longer one |
| `RunCatalog.SkippedIsTheRest` | host/analyzer/qcrate_run.py:378-385 | The skipped ids and the records together fill the range from the first id to the last |
| `RunCatalog.OpensWhen` | host/analyzer/qcrate_run.py:407-450 | A run opens exactly when its header is right, every record decodes, ids ascend and COMPLETE extents lie apart inside the sample file |
| `RunCounts.HealthNext` | host/analyzer/qcrate_run.py:378-402 | What one more record adds to each health figure |
| `RunIndex.Catalog.CacheRecord` | host/analyzer/qcrate_run.py:543-547 | The cache keeps only true records, in order of use, within its limit |
| `RunIndex.Catalog.DecodeRange` | host/analyzer/qcrate_run.py:549-566 | A range decodes as a whole or not at all |
| `RunIndex.Catalog.RecordAt` | host/analyzer/qcrate_run.py:568-575 | The record at an ordinal, cached or not |
| `RunIndex.Catalog.FindShotId` | host/analyzer/qcrate_run.py:580-591 | The binary search finds the record of a shot exactly when there is one |
| `RunIndex.Catalog.Accumulate` | host/analyzer/qcrate_run.py:608-633 | One record is counted exactly when the run with it is consistent |
| `RunIndex.Catalog.Refresh` | host/analyzer/qcrate_run.py:659-690 | After any growth, sliced in any way and with a partial last record, refresh succeeds exactly when a reading of the whole run would, and its figures are those of the whole run |
| `RunIndex.Catalog.Growing` | host/analyzer/qcrate_run.py:659-672 | What was read stays good when the files are appended to |

## Left out

- Byte codecs of the datagram header, STREAM_INFO and SHOT_END and of the index records: plain field-by-field layouts; datagrams and records are modelled as decoded fields, and equal fields stand for equal bytes.
- Sockets, poll loops, files, signals, options, JSON documents, manifests and reports; a write error or a failed allocation ends the original and is not modelled.
- The recorder's journal, its kernel-drop counter and the interrupted flag, which also keep a run from being called clean.
- 32-bit wrap-around of the recorder's datagram, duplicate and reordering counters, and 64-bit wrap-around of run ids, bank sequences and statistics: naturals.
- Verdicts.CompleteShape: needs a shot below 16 GiB, so that 32-bit sample offsets cannot wrap within a frame; that the bytes are whole frames is claimed of such records only, whatever the size limit.
- Publication.EveryRunDurable: assumes a receive clock that does not run backwards, as the monotonic clock promises.
- Ascending ids are claimed of COMPLETE records only; INCOMPLETE shots also move the last shot id, and shots without a timestamp do not.
- Closing the device after a failed drain: that path resets bank states while a DMA may still be active.
- PoolDriver.DmaDevice.Release: the locked section only; the wait that may follow, and the error it may return for a bank already given back, is the answer of the sender's Settle step in Streamer.
- The stop handler's wait for the thread and the wait before DEQUEUE: only the locked sections are steps; a wait only decides the error returned.
- The single-shot and triggered capture ioctls are modelled by what they write and when they are let in, on values; their register evidence is not.
- StreamerDelivery.EveryInterleaving: one call into the driver, the queue or the packetizer is one step; the mutex and condition variables are what makes it one.
- The sender's pacing, its R5 arm and start exchanges and their retries: each is a step that may succeed or fail.
- The JSON checks of the sequence compiler; its pulses are any integers.
- The R5's ping, info, scratch and statistics commands, and its START and ABORT waits.
- Table generation, floating-point models, profile compilation (whose two roundings can sum to an amplitude the R5 refuses), plots, sweeps and qualification scripts.
- The analyzer's reports, its measured duration and reading of samples.
- The receiver's shot assembler, a second implementation of reassembly for diagnostics.
