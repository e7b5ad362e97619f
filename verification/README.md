# Bus replay: a model of the capture pipeline

A logic analyser samples lines, and sends changes of level (records) and, at the points of a
grid of C ticks, the levels of all lines (heartbeats) over serial data channels. It reports
losses over SPI. The host parses, merges, stores, decodes, records, indexes, replays and
forwards what comes. This project models that pipeline and proves what it is there for: that no
stored level is wrong, that decoders see one order of things however they came, that no loss
goes unmarked, and that what was written is what is read, from any cutting, prefix or place.

## Layout

Each component has pure modules, which say what its state is, what each operation makes of it,
and prove what runs of them keep, and a module with a class, whose methods do the same in place
and are proved against those functions.

- Wire format: `CaptureInfo`, `WireFormat`, `WireStreams`, `WireRoundTrip`, `WireUnwrap`, `WireAccepts`,
  `WireResume`, `WireLosses`, `WireBeats`, and its check byte in `WireCheck` over `Polynomials`; classes in `WireParser` and `WireWriter`.
- Store: `StoreChannel`, `StoreTruth`, `StoreRuns`, `StoreQueries`, `StoreLatest`, `StoreTrims`,
  `StoreMachine`, `StoreLosses`; classes in `StoreLists` (one channel) and `Store`.
- Merge and decoding: `MergeOrder`, `MergeMachine`, `CodecQueue`, `I2cLine`, `I2cKeeps`,
  `I2cTrip`, `I2cGroups`, `I2cMarks`, `I2cSession`; classes in `Merge`, `Codec` and `I2c`.
- Loss reports: `LossDevice`, `LossReports`, `LossProgress`, `LossHost`, `LossLate`; class `CaptureLoop` in `LossSteps`, the
  device's cleanup and housekeeping steps, and `LossTracker` in `LossHost`.
- Replay from the store: `ReplayStore`, `ReplayOrder`, `ReplayMeans`, `ReplayFeeds`; class `Group` in `Replay`.
- Files: `ThcFile`, `ThcCheck`, `IndexLanes`, `Ledger`, `RecorderFile`, `Seek`, `SeekStreams`; classes in
  `Thc`, `Index`, `Recorder` and `Seek`.
- Joining a running capture: `LinkJoin`, `LinkStreams`; class in `Link`.

The pieces are used in each other's proofs. Chunk independence gives seeking, the index and
joining; the replay's order
of calls gives the merge's contract; the merge's order gives the decoder's; a balanced queue
gives the index its stream offsets; the recorder's file gives the reader its chunks.

## What turned out not to hold

- A stream whose heartbeats are 256 grid points apart or more does not read back.
  `WireUnwrap.ReadsBackIff` says that it does exactly when they are closer.
- Trimming can change a level it keeps: a kept heartbeat that contradicts the record of its own
  tick is lost by a trim to that tick (`StoreTrims.TrimCanLose`). `StoreTrims.TrimKeepsLevels`
  says that this is the only case, and `StoreTrims.TrueTrims` that true levels are never lost.
- A loss report's position does not always stand for its tick: `LossHost.PositionExact` says when
  it does. `LossLate.LateLossMissed` runs the device into a loss just past 2^32 ticks that the
  host's range misses, so `LossHost.EndToEnd` asks for positions that read back.
- A heartbeat is not always read as given: where a record and a heartbeat of one tick contradict
  each other and a trim takes the heartbeat, a second heartbeat like it is not kept
  (`StoreLatest.RepeatMisread`). `StoreLatest.BeatReadsIff` says that only a repeat of the last
  level given, on a channel that reads otherwise, is misread.
- A loss told before it starts keeps the level unknown at ticks before its start
  (`StoreLatest.AheadUnknown`), up to the first information past it. `StoreLatest.LatestUnknown`
  says that only a loss told that reaches the last record or heartbeat, or past it, can.
- On arbitrary bytes a record may repeat its channel's last tick, so ticks are proved not to go
  back; that they rise holds of written streams, whose calls are reported as they were made.

## Model

| member | source | states |
|---|---|---|
| WireRoundTrip.RoundTrip | firmware/ports/bus_replay/host/capture/wire.c:308-404 | Whatever calls the writer accepts, its heartbeats under 256 grid points apart, a fresh parser fed the bytes in any cutting reports exactly those calls in order, with nothing left over and no error, and no mismatch if the bitmasks follow the records |
| WireUnwrap.ReadsBackIff | firmware/ports/bus_replay/host/capture/wire.c:457-512 | A written stream is reported exactly if and only if every heartbeat comes fewer than 256 grid points after the one before it |
| WireUnwrap.FarIsAnother | firmware/ports/bus_replay/host/capture/wire.c:457-512 | A heartbeat 256 or more grid points on is reported as another one |
| WireAccepts.AcceptedIff | firmware/ports/bus_replay/host/capture/wire.c:308-404 | The writer takes a sequence of calls if and only if each is in order after those before it: a heartbeat after every heartbeat and not before a record, a record of the block after every heartbeat and its channel's records, at most C past one of them |
| WireResume.TrustedAgain | firmware/ports/bus_replay/host/capture/wire.c:432-547 | After a break a written stream that goes on, behind bytes that cannot be taken for a heartbeat, is reported from its first heartbeat, that one unverified and its records withheld, and exactly as written from the second on |
| WireCheck.CheckIsRemainder | firmware/ports/bus_replay/host/capture/wire.c:415-425 | The check byte is the remainder of the bytes, with the start value in front, as a polynomial over GF(2) modulo x^8 + x^2 + x + 1 |
| WireCheck.MatchesIff | firmware/ports/bus_replay/host/capture/wire.c:457-512 | A check byte matches if and only if bytes, check and start value together are a multiple of that polynomial |
| WireCheck.DamageSeen | firmware/ports/bus_replay/host/capture/wire.c:415-425 | Bytes whose check byte matches, damaged in any way within 8 bits in a row, their check byte included, do not match, from any start value |
| WireCheck.OneByteWithin | firmware/ports/bus_replay/host/capture/wire.c:415-425 | Damage in one byte is within 8 bits in a row |
| WireCheck.DamageRejected | firmware/ports/bus_replay/host/capture/wire.c:457-512 | A heartbeat so damaged, in itself or in the records before it, is counted as an error, and nothing is trusted |
| WireRoundTrip.RecordEncodes | firmware/ports/bus_replay/host/capture/info.c:124-147 | W bytes hold every record that can be written, and no record is the all-zero marker |
| WireRoundTrip.HeartbeatParses | firmware/ports/bus_replay/host/capture/wire.c:358-404 | A heartbeat read where the parser is at its first byte is reported as written, whatever follows |
| WireRoundTrip.BeatPosition | firmware/ports/bus_replay/host/capture/wire.c:457-480 | The stream position noted for a heartbeat is that of its first byte |
| WireRoundTrip.SeekIsSuffix | firmware/ports/bus_replay/host/capture/wire.c:76-80 | A parser started at a heartbeat of a written stream reports what the full parse reports from there, but for the first heartbeat's flag, in any cutting |
| WireStreams.ChunkIndependence | firmware/ports/bus_replay/host/capture/wire.c:96-144 | On every byte stream, any cutting gives the state, the leftover and the events of the whole |
| WireStreams.DrainLeavesLittle | firmware/ports/bus_replay/host/capture/wire.c:96-144 | What is left is a suffix shorter than a heartbeat, no more of it can be parsed, and position and leftover add up to the bytes fed |
| WireStreams.NoRecordUntrusted | firmware/ports/bus_replay/host/capture/wire.c:515-547 | After a start, a failed check or a break no record is reported before a heartbeat with no failed check since, whose bytes are in the stream with their check byte the CRC-8 of the bytes up to it, unless it opens an unverified start |
| WireStreams.BeatChecked | firmware/ports/bus_replay/host/capture/wire.c:457-512 | Every heartbeat reported as verified is in the stream: its zero marker, grid index and bitmask, and a check byte that matches |
| WireStreams.StreamTicksNeverGoBack | firmware/ports/bus_replay/host/capture/wire.c:457-547 | On every byte stream heartbeat ticks, and each channel's record ticks, never go back |
| WireStreams.DrainWatched | firmware/ports/bus_replay/host/capture/wire.c:457-547 | Every record reported is of a channel of the block, and at most C past its reference |
| WireStreams.BreakIsOk | firmware/ports/bus_replay/host/capture/wire.c:151-159 | A break keeps the parser's state sound and leaves nothing trusted |
| WireLosses.ExcusedExactly | firmware/ports/bus_replay/host/capture/wire.c:179-208 | A parser given bytes, breaks and losses in any order does all that one told of no loss does with the same bytes at once: the events, what is left over, and every part of its state but the mismatches, the last good tick included. Those open are exactly the ones found that no loss overlaps, told before or after, and the excused are the rest |
| WireLosses.OrderDoesNotMatter | firmware/ports/bus_replay/host/capture/wire.c:550-575 | Two runs given the same bytes between breaks, in any cutting, and the same losses, whenever told, report the same events and end with the same state, mismatches and counts, though ended losses are let go of |
| WireLosses.DrainPaired | firmware/ports/bus_replay/host/capture/wire.c:96-144 | Bytes parsed side by side by a parser told of losses and one told of none: the same events and leftover, and the mismatches stay those no loss explains |
| WireBeats.SightedNoted | firmware/ports/bus_replay/host/capture/wire.c:457-480 | Where a reported heartbeat begins is the position the parser notes for its handler |
| WireBeats.SightingsAreLogged | firmware/ports/bus_replay/host/capture/wire.c:457-512 | The heartbeats so placed are those reported, in order |
| WireBeats.SightingsAnyCut | firmware/ports/bus_replay/host/capture/wire.c:457-480 | The heartbeats reported of a stream, with the positions of their first bytes, are the same in every cutting |
| WireBeats.SightingsLie | firmware/ports/bus_replay/host/capture/wire.c:457-480 | Each lies whole in the bytes parsed, one after another |
| WireBeats.WrittenStreamSighted | firmware/ports/bus_replay/host/capture/wire.c:358-404 | Of a written stream they are just the heartbeats the writer put, where it put them |
| WireLosses.AcceptIsSight | firmware/ports/bus_replay/host/capture/wire.c:457-512 | A trusted heartbeat notes one mismatch for each level it contradicts, and its tick is the last good one if none |
| WireParser.Wire.constructor | firmware/ports/bus_replay/host/capture/wire.c:36-68 | A parser that has seen nothing |
| WireParser.Wire.StartStreamAt | firmware/ports/bus_replay/host/capture/wire.c:76-80 | A stream that begins at a grid count, checked or not |
| WireParser.Wire.Feed | firmware/ports/bus_replay/host/capture/wire.c:96-144 | The parse loop over a fixed buffer does what parsing the whole does |
| WireParser.Wire.SyncAt | firmware/ports/bus_replay/host/capture/wire.c:432-454 | Finds the first place a heartbeat may begin, as the moves of the specification do |
| WireParser.Wire.TakeHeartbeat | firmware/ports/bus_replay/host/capture/wire.c:457-512 | Checks, unwraps and judges a heartbeat as specified |
| WireParser.Wire.TakeRecord | firmware/ports/bus_replay/host/capture/wire.c:515-547 | Decodes and delivers a record, or withholds it, as specified |
| WireParser.Wire.BreakStream | firmware/ports/bus_replay/host/capture/wire.c:151-159 | Drops what is buffered and trusts nothing |
| WireParser.Wire.AddLossSpan | firmware/ports/bus_replay/host/capture/wire.c:179-208 | Excuses the mismatches a loss overlaps, and keeps it for later ones |
| WireParser.Wire.JudgeLevels | firmware/ports/bus_replay/host/capture/wire.c:457-512 | Every contradicted level is a mismatch, excused if a loss covers it |
| WireParser.ComputeCrc8 | firmware/ports/bus_replay/host/capture/wire.c:415-425 | The check byte, bit by bit: what WireCheck proves the remainder |
| WireWriter.Encoder.PutRecord | firmware/ports/bus_replay/host/capture/wire.c:308-349 | Writes a record, or refuses it, as specified |
| WireWriter.Encoder.PutHeartbeat | firmware/ports/bus_replay/host/capture/wire.c:358-404 | Writes a heartbeat, or refuses it, as specified |
| CaptureInfo.TagBits | firmware/ports/bus_replay/host/capture/info.c:124-133 | The fewest tag bits that tell a block's channels apart |
| CaptureInfo.RecordWidth | firmware/ports/bus_replay/host/capture/info.c:137-147 | The fewest bytes that hold every record's value |
| CaptureInfo.Mapping | firmware/ports/bus_replay/host/capture/info.c:154-214 | Blocks tile the enabled channels, evenly or at the split channels, and every block's configuration can encode its records |
| StoreMachine.ReadingsTrue | firmware/ports/bus_replay/host/ui/store/store.c:1169-1223 | Whatever the order of records, heartbeats, losses and trims, a level read at a held and arrived tick is unknown or the true one, if records and heartbeats are true and every missing change lies in a reported loss |
| StoreTruth.NeverWrong | firmware/ports/bus_replay/host/ui/store/store.c:1169-1217 | The same of one channel whose state keeps the store's promise |
| StoreRuns.RunNeverWrong | firmware/ports/bus_replay/host/ui/store/store.c:1169-1217 | The same after any run of a channel's operations |
| StoreTruth.RecordSafe | firmware/ports/bus_replay/host/ui/store/store.c:628-659 | A true record keeps the promise |
| StoreTruth.BeatSafe | firmware/ports/bus_replay/host/ui/store/store.c:666-704 | A true heartbeat keeps the promise, kept or not |
| StoreTruth.RingSafe | firmware/ports/bus_replay/host/ui/store/store.c:1074-1112 | Holding a heartbeat, and letting old ones go, keeps the promise |
| StoreTruth.LossSafe | firmware/ports/bus_replay/host/ui/store/store.c:708-747 | A loss, early, late or overlapping, keeps the promise |
| StoreTruth.SpanAddSafe | firmware/ports/bus_replay/host/ui/store/store.c:914-957 | A new unknown span shields its loss and is merged with those it meets |
| StoreTruth.TrimSafe | firmware/ports/bus_replay/host/ui/store/store.c:853-886 | Trimming keeps the promise |
| StoreTruth.DropSafe | firmware/ports/bus_replay/host/ui/store/store.c:788-816 | Dropping a block of records keeps the promise |
| StoreTrims.TrimKeepsLevels | firmware/ports/bus_replay/host/ui/store/store.c:853-886 | Trimming to a tick keeps every level from there on if and only if no kept heartbeat contradicts the record of that tick |
| StoreTrims.TrimCanLose | firmware/ports/bus_replay/host/ui/store/store.c:820-846 | A channel whose heartbeat contradicts the record of its own tick, and loses it by a trim to that tick |
| StoreTrims.SafeTrims | firmware/ports/bus_replay/host/ui/store/store.c:853-886 | The same if and only if, in every state that keeps the promise |
| StoreTrims.TrueTrims | firmware/ports/bus_replay/host/ui/store/store.c:853-886 | With true records and heartbeats no trim changes a level it keeps |
| StoreQueries.UnknownIff | firmware/ports/bus_replay/host/ui/store/store.c:1169-1217 | A level reads unknown exactly before the cover and inside the spans |
| StoreQueries.RunKnownUnlessLost | firmware/ports/bus_replay/host/ui/store/store.c:964-1012 | A held level is unknown only between the start of a loss, or of the capture, and the first information after one |
| StoreQueries.UnknownInExact | firmware/ports/bus_replay/host/ui/store/store.c:1227-1246 | The unknown flag of a range says whether some tick in it reads unknown |
| StoreQueries.LossInExact | firmware/ports/bus_replay/host/ui/store/store.c:1250-1266 | The loss flag of a range says whether some reported loss overlaps it |
| StoreQueries.FlagsExact | firmware/ports/bus_replay/host/ui/store/store.c:1227-1266 | Both flags, after any run whose records and heartbeats come in tick order |
| StoreQueries.IvalAddIs | firmware/ports/bus_replay/host/ui/store/store.c:1016-1047 | Loss intervals stay sorted and apart, and hold exactly the ticks of the losses |
| StoreQueries.SpanAddTight | firmware/ports/bus_replay/host/ui/store/store.c:964-1012 | A new span ends at the first information at or after its losses' ends |
| StoreLatest.LatestUnknown | firmware/ports/bus_replay/host/ui/store/store.c:914-957 | From the last record or heartbeat given on, in any run in order, a held tick reads unknown only if a loss told reaches the tick of that record or heartbeat or past it; and if that loss has started by the tick, it does |
| StoreLatest.LatestReads | firmware/ports/bus_replay/host/ui/store/store.c:666-704 | With no loss told that reaches it, the last record or heartbeat given is the level read from its tick on, if records and heartbeats of one tick agree |
| StoreLatest.BeatReadsIff | firmware/ports/bus_replay/host/ui/store/store.c:666-704 | For any records and heartbeats in order: a heartbeat no loss told reaches is read at its tick if and only if it is not a repeat of the last level given that the channel reads otherwise |
| StoreLatest.RepeatMisread | firmware/ports/bus_replay/host/ui/store/store.c:820-886 | A channel that misreads such a repeat |
| StoreLatest.AheadUnknown | firmware/ports/bus_replay/host/ui/store/store.c:914-957 | A loss told before it starts keeps the level unknown from before its start |
| StoreMachine.ColumnMeans | firmware/ports/bus_replay/host/ui/store/store.c:359-413 | A column's edge levels, changes and flags are those of reading its ticks one by one: the levels at the ends of the ticks around it, the records in it, whether some tick reads unknown and whether a reported loss overlaps it |
| StoreMachine.ColumnsJoin | firmware/ports/bus_replay/host/ui/store/store.c:359-413 | Adjacent columns join: the one ends as the next begins, and one column over both has the outer levels, the sum of the changes and the marks of either |
| StoreMachine.ColumnLevelsTrue | firmware/ports/bus_replay/host/ui/store/store.c:359-413 | Of a store fed with the truth, a column within what is held and arrived has edge levels that are unknown or the true ones |
| StoreMachine.HeartbeatRead | firmware/ports/bus_replay/host/ui/store/store.c:666-704 | Over any run of a whole store, just after a heartbeat every channel of its data channel that no loss told reaches reads the heartbeat's level at its tick |
| StoreMachine.ChannelRuns | firmware/ports/bus_replay/host/ui/store/store.c:260-287 | Each channel of a store goes through just its own operations |
| StoreMachine.OldestCovers | firmware/ports/bus_replay/host/ui/store/store.c:853-886 | What channels let go of is older than the store's oldest tick |
| StoreLists.Channel.Level | firmware/ports/bus_replay/host/ui/store/store.c:1220-1223 | The level by binary searches over packed blocks, spans and anchors |
| StoreLists.Channel.Unknown | firmware/ports/bus_replay/host/ui/store/store.c:1227-1246 | The unknown flag by binary search |
| StoreLists.Channel.Loss | firmware/ports/bus_replay/host/ui/store/store.c:1250-1266 | The loss flag by binary search |
| StoreLists.Channel.ColumnFrom | firmware/ports/bus_replay/host/ui/store/store.c:359-413 | One column, its start carried over from its neighbour |
| StoreLists.Channel.SpanResolve | firmware/ports/bus_replay/host/ui/store/store.c:964-1012 | Where a span ends, by records, anchors and held heartbeats |
| StoreLists.Channel.SpanAdd | firmware/ports/bus_replay/host/ui/store/store.c:914-957 | Inserts a span and merges it in place with those it meets |
| StoreLists.Channel.AnchorPut | firmware/ports/bus_replay/host/ui/store/store.c:1051-1070 | An anchor in tick order, in place of one of its tick |
| StoreLists.Channel.IvalAdd | firmware/ports/bus_replay/host/ui/store/store.c:1016-1047 | Merges a loss interval in place |
| StoreLists.Channel.Push | firmware/ports/bus_replay/host/ui/store/store.c:628-659 | Takes a record, or refuses one that does not come later |
| StoreLists.Channel.Beat | firmware/ports/bus_replay/host/ui/store/store.c:666-704 | Keeps a heartbeat that makes the level known or contradicts the records; StoreLatest says what is read then |
| StoreLists.Channel.Lose | firmware/ports/bus_replay/host/ui/store/store.c:708-747 | A loss on one channel |
| StoreLists.Channel.TrimTo | firmware/ports/bus_replay/host/ui/store/store.c:853-886 | Lets go of what only told about older ticks, keeping the level as the base |
| StoreLists.Channel.Forget | firmware/ports/bus_replay/host/ui/store/store.c:788-816 | Drops the oldest full block of records |
| Store.RingPush | firmware/ports/bus_replay/host/ui/store/store.c:1074-1112 | Held heartbeats: a new one in, those too old out |
| Store.Store.Put | firmware/ports/bus_replay/host/ui/store/store.c:628-659 | A record goes to its channel, and nothing else changes; every channel's newest block stays |
| Store.Store.Beat | firmware/ports/bus_replay/host/ui/store/store.c:666-704 | A heartbeat goes to the channels of its data channel and is held |
| Store.Store.Lose | firmware/ports/bus_replay/host/ui/store/store.c:708-747 | A loss goes to the channels that lost records, and is one more of those told of |
| Store.Store.Losses | firmware/ports/bus_replay/host/ui/store/store.c:599-624 | The first of the kept losses that meet a range, in order of their start; from the oldest tick on, those are exactly the losses ever told that meet it |
| Store.Store.KeepLoss | firmware/ports/bus_replay/host/ui/store/store.c:708-747 | The kept losses stay in order of their start, and each told one that reaches the oldest tick is kept as often as it was told |
| StoreLosses.DropKeeps | firmware/ports/bus_replay/host/ui/store/store.c:880-885 | Letting go of the first losses that end before the oldest tick loses none that reaches it |
| StoreLosses.ToldIsFound | firmware/ports/bus_replay/host/ui/store/store.c:599-624 | A query from the oldest tick on finds a loss if and only if it was told and meets the range |
| Store.Store.DropOldest | firmware/ports/bus_replay/host/ui/store/store.c:788-816 | Drops the block that ends first, as a trim of the store |
| Store.Store.TrimSide | firmware/ports/bus_replay/host/ui/store/store.c:820-846 | Trims the channel with the longest list of anchors or intervals, at its middle entry |
| Store.Store.Enforce | firmware/ports/bus_replay/host/ui/store/store.c:780-784 | Only trims, whatever the memory limit asks for |
| Store.Store.LevelAt | firmware/ports/bus_replay/host/ui/store/store.c:339-356 | The level of a channel, if it is held and arrived |
| Store.Store.Columns | firmware/ports/bus_replay/host/ui/store/store.c:359-413 | All columns of a channel are the ones specified |
| MergeMachine.Confluence | firmware/ports/bus_replay/host/codec/merge.c:165-247 | Of every input that keeps the contract, however its data channels interleave, the merge hands over the one sorted merge; each advance, rising, comes after everything up to it and before everything later |
| MergeMachine.InterleavingsAgree | firmware/ports/bus_replay/host/codec/merge.c:62-139 | Two interleavings of the same arrivals give the same |
| MergeMachine.ReleasedInTime | firmware/ports/bus_replay/host/codec/merge.c:77-132 | Whenever the input stops, an entry has been handed over if and only if it arrived and every data channel that carries channels was given a watermark at or past its tick |
| MergeOrder.Unique | firmware/ports/bus_replay/host/codec/merge.c:222-247 | Two sorted sequences that agree on every data channel are the same |
| MergeOrder.DrainIs | firmware/ports/bus_replay/host/codec/merge.c:165-218 | What is released is sorted, within the limit, and all of that |
| MergeOrder.DrainKeeps | firmware/ports/bus_replay/host/codec/merge.c:165-218 | Per data channel, what is released and what is left is what was there |
| Merge.Merge.NextQueue | firmware/ports/bus_replay/host/codec/merge.c:222-247 | The queue holding the next entry, by tick, records before levels, then channel |
| Merge.Merge.HandOver | firmware/ports/bus_replay/host/codec/merge.c:165-218 | Releases in a loop what the specification releases at once |
| Merge.Merge.Record | firmware/ports/bus_replay/host/codec/merge.c:62-72 | A record joins its data channel's queue |
| Merge.Merge.Heartbeat | firmware/ports/bus_replay/host/codec/merge.c:77-101 | A heartbeat's levels and watermark, and what they release |
| Merge.Merge.Level | firmware/ports/bus_replay/host/codec/merge.c:105-115 | One channel's level at the end of a tick |
| Merge.Merge.Advance | firmware/ports/bus_replay/host/codec/merge.c:119-132 | A watermark of every data channel |
| Merge.Merge.Finish | firmware/ports/bus_replay/host/codec/merge.c:136-139 | Hands over all that is left |
| CodecQueue.ReleaseOrder | firmware/ports/bus_replay/host/codec/codec.c:267-290 | Items are handed over in nondecreasing start order, each emitted one once, if none starts before what decoders asked for |
| CodecQueue.HeldLongEnough | firmware/ports/bus_replay/host/codec/codec.c:267-290 | Over any run: an item released before the end goes when the tick last advanced to is past its end by the hold and every horizon last declared is past its start, and everything released or emitted after it, to the end of the run, starts no earlier |
| CodecQueue.GoesWhenFree | firmware/ports/bus_replay/host/codec/codec.c:267-290 | Over any run: a request releases the first item not released yet, in the order of starts, exactly when its end is past by the hold at the last tick and every last horizon is past its start, or the input has ended |
| CodecQueue.LowestAskedIs | firmware/ports/bus_replay/host/codec/codec.c:356-361 | The horizon of a turn is the tick or one of those the decoder asked for, and not above any of them |
| CodecQueue.OwnSuffices | firmware/ports/bus_replay/host/codec/codec.c:356-361 | One operation of a decoder that keeps to its own horizon is allowed, and keeps the horizons below what each declared |
| CodecQueue.OwnAllows | firmware/ports/bus_replay/host/codec/codec.c:356-361 | Decoders that each keep to the horizons they declared keep the queue's contract over a whole run |
| CodecQueue.OwnReleases | firmware/ports/bus_replay/host/codec/codec.c:267-290 | So every such run, from the start, releases in order |
| Codec.Session.PendingInsert | firmware/ports/bus_replay/host/codec/codec.c:546-576 | Inserts by start, behind items of the same start |
| Codec.Session.Emit | firmware/ports/bus_replay/host/codec/codec.c:334-352 | A finished item, numbered before its children |
| Codec.Session.Advance | firmware/ports/bus_replay/host/codec/codec.c:488-501 | The session's tick moves; each decoder's horizon moves in its own turn |
| Codec.Session.Turn | firmware/ports/bus_replay/host/codec/codec.c:488-501 | A decoder's turn in an advance: its horizon is the tick, or the lowest it asks for, and above neither |
| Codec.Session.NextItem | firmware/ports/bus_replay/host/codec/codec.c:267-290 | The next item, if it may go |
| I2cTrip.DecodeUndoesEncode | firmware/ports/bus_replay/host/codec/i2c/i2c.c:232-385 | A transaction driven as START, bits, ACK, repeated STARTs and STOP is decoded as one item with exactly its words, lanes and NAKs (sections 3.1.4 to 3.1.6 of UM10204) |
| I2cGroups.CallsDecode | firmware/ports/bus_replay/host/codec/i2c/i2c.c:154-229 | The same of the decoder's calls, whatever the order of records in a tick and wherever advances fall |
| I2cGroups.GroupIsEdges | firmware/ports/bus_replay/host/codec/i2c/i2c.c:232-255 | A tick's edges are taken as SCL fall, SDA, SCL rise |
| I2cKeeps.SegmentsTile | firmware/ports/bus_replay/host/codec/i2c/i2c.c:292-452 | On any edges, the segments of every item tile its words |
| I2cKeeps.HorizonKept | firmware/ports/bus_replay/host/codec/i2c/i2c.c:190-200 | No item starts before the horizon the decoder gave, for every sequence of calls in order |
| I2cMarks.LossMarks | firmware/ports/bus_replay/host/codec/i2c/i2c.c:203-229 | A loss told while a transaction it reaches is open: whatever is called then, the first item that comes out is that transaction, marked |
| I2cMarks.LevelMarks | firmware/ports/bus_replay/host/codec/i2c/i2c.c:175-187 | So does a level that contradicts the line, of the transaction open by then |
| I2cMarks.NothingMarked | firmware/ports/bus_replay/host/codec/i2c/i2c.c:154-229 | On calls of which none does that, no item is marked |
| I2cSession.HonoursOnCaptures | firmware/ports/bus_replay/host/codec/i2c/i2c.c:154-229 | So it is for every sequence the merge can deliver |
| I2cSession.SessionReleases | firmware/ports/bus_replay/host/codec/codec.c:186-290 | A session of any number of I2C decoders, on whatever capture, however its data channels interleave, wherever losses are told and items asked for: its items come out sorted by start, each once, and all of them once asked for often enough after the end |
| I2cSession.SessionKeeps | firmware/ports/bus_replay/host/codec/i2c/i2c.c:190-229 | Every decoder of a session keeps to the horizons it declared, over the whole run |
| I2cSession.HorizonAsked | firmware/ports/bus_replay/host/codec/i2c/i2c.c:190-200 | What the decoder asks for is its horizon |
| I2c.I2cDecoder.Record | firmware/ports/bus_replay/host/codec/i2c/i2c.c:154-171 | A record starts a tick's group or joins it |
| I2c.I2cDecoder.ChangeSda | firmware/ports/bus_replay/host/codec/i2c/i2c.c:259-271 | START and STOP |
| I2c.I2cDecoder.ChangeScl | firmware/ports/bus_replay/host/codec/i2c/i2c.c:275-285 | A rising clock takes a bit |
| I2c.I2cDecoder.Bit | firmware/ports/bus_replay/host/codec/i2c/i2c.c:331-367 | Bits make words, with their ACK |
| I2c.I2cDecoder.CloseTransaction | firmware/ports/bus_replay/host/codec/i2c/i2c.c:400-452 | The item of a transaction, and what of it was not acknowledged |
| I2c.I2cDecoder.Level | firmware/ports/bus_replay/host/codec/i2c/i2c.c:175-187 | A level given outside a tick's edges |
| I2c.I2cDecoder.Advance | firmware/ports/bus_replay/host/codec/i2c/i2c.c:190-200 | Takes the group that is over and says how far it is |
| I2c.I2cDecoder.Finish | firmware/ports/bus_replay/host/codec/i2c/i2c.c:215-229 | Ends an open transaction |
| LossReports.NoLossEscapes | firmware/ports/bus_replay/device/src/capture.c:703-960 | After any interleaving, a finished loss is in a report sent, the loaded one, the snapshot or the hand-over, and that holds the range and the counters that tell of it |
| LossReports.NeverTogether | firmware/ports/bus_replay/device/src/capture.c:746-931 | The two copies of the snapshot are never in progress together, and what was given out is what was sent or is still to be |
| LossProgress.EveryLossCanBeSent | firmware/ports/bus_replay/device/src/capture.c:703-960 | From every state a run leads to, whatever steps it stopped between, further steps put any loss finished so far into a sent report |
| LossProgress.Round | firmware/ports/bus_replay/device/src/capture.c:794-960 | From any of its steps housekeeping comes back to where it has nothing to do; a round that found the buffers given back loads what waits, and counts a report the host read in full as sent |
| LossReports.MoveInv | firmware/ports/bus_replay/device/src/capture.c:703-960 | Every step of cleanup, housekeeping and the host keeps the invariant |
| LossReports.FlushConserves | firmware/ports/bus_replay/device/src/capture.c:713-743 | Moving slice counts into the counters keeps every drop counted |
| LossReports.LostIsTotal | firmware/ports/bus_replay/device/src/capture.c:746-770 | The counters handed over are the drops so far, modulo 2^32 |
| LossSteps.CaptureLoop.StLossEnd | firmware/ports/bus_replay/device/src/capture.c:703-710 | The end of a loss |
| LossSteps.CaptureLoop.StFlush | firmware/ports/bus_replay/device/src/capture.c:713-725 | One nibble of a slice into its counter |
| LossSteps.CaptureLoop.StSnap | firmware/ports/bus_replay/device/src/capture.c:746-770 | Hands the range and the counters over, three at a time |
| LossSteps.CaptureLoop.HkAmount | firmware/ports/bus_replay/device/src/capture.c:858-867 | A report counts as sent, once, when a transfer clocked out all of it |
| LossSteps.CaptureLoop.HkDecide | firmware/ports/bus_replay/device/src/capture.c:870-891 | Claims the snapshot for a report, which keeps its start if it was not sent |
| LossSteps.CaptureLoop.HkCopy | firmware/ports/bus_replay/device/src/capture.c:896-911 | Copies a finished loss into the pending report, which grows if it was not sent |
| LossSteps.CaptureLoop.HkRelease | firmware/ports/bus_replay/device/src/capture.c:948-959 | Gives the buffer back to the host |
| LossHost.EndToEnd | firmware/ports/bus_replay/host/capture/loss.c:56-78 | Of any reports that arrive, with their positions read as ticks at the host's own grid point, every loss the last one covers lies in a marked range with a count, on every channel it dropped records of, if the positions used can be read back and fewer than 2^32 reports and drops lie between two arrivals |
| LossHost.AllCovered | firmware/ports/bus_replay/host/capture/loss.c:56-78 | The same from any point on |
| LossHost.MarksNoMore | firmware/ports/bus_replay/host/capture/loss.c:56-78 | After any run of the device and for any reports that arrive, each range is exact: from the first loss newly told of to the last, or, after reports that did not arrive, from the end of the last loss told of, or from 0; a marked tick in no loss lies between two losses of one report or after a report that did not arrive |
| LossHost.RangesExact | firmware/ports/bus_replay/host/capture/loss.c:56-78 | The same ranges from any point on |
| LossHost.CountsAddUp | firmware/ports/bus_replay/host/capture/loss.c:56-78 | Counter differences add up to the device's drops, across wrap-around, wherever the positions are |
| LossHost.DeviceTells | firmware/ports/bus_replay/device/src/capture.c:746-960 | What the device sends tells its losses in order |
| LossHost.PositionExact | firmware/ports/bus_replay/host/capture/wire.c:212-222 | A position reads back as its tick if and only if its grid count is within 2^31 of the host's and the 2^32-tick wraps before it are a whole multiple of C: always in the first 2^32 ticks |
| LossLate.LateLossMissed | firmware/ports/bus_replay/host/capture/loss.c:56-78 | A run of the device whose loss comes just past 2^32 ticks: its report arrives, with the host at the loss's own grid point, and the marked range misses it |
| LossHost.PositionWraps | firmware/ports/bus_replay/host/capture/wire.c:212-222 | Past 2^32 ticks a position no longer says which tick it was |
| LossHost.LossTracker.TakeReport | firmware/ports/bus_replay/host/capture/loss.c:56-78 | Counter differences, and the range, widened only over a report that did not arrive |
| LossHost.LossTracker.SetBase | firmware/ports/bus_replay/host/capture/loss.c:39-47 | Starts from a report that already was |
| ReplayMeans.GivesAll | firmware/ports/bus_replay/host/ui/session/session.c:1119-1227 | Once caught up, decoders were given every stored record past the skipped tick up to the target, exactly once, in the one order of the merge, whatever the steps |
| ReplayMeans.GivesFromStart | firmware/ports/bus_replay/host/ui/session/session.c:1119-1227 | Over any steps of a new group, once caught up: decoders were given exactly the records the store had from its oldest at the first step on, up to the target, less those at or before its oldest tick then, each once and in order; none is left out when that tick is 0 |
| ReplayMeans.TargetIs | firmware/ports/bus_replay/host/ui/session/session.c:1135-1142 | A step goes up to the watermark, or stays the hold behind it while the capture runs |
| ReplayMeans.StepsDoNotMatter | firmware/ports/bus_replay/host/ui/session/session.c:1119-1227 | Two groups that began alike were given the same, however each was stepped |
| ReplayMeans.LevelsGiven | firmware/ports/bus_replay/host/ui/session/session.c:1062-1076 | At every grid point up to the target the level of every known channel was given |
| ReplayMeans.ReplayFeedsMerge | firmware/ports/bus_replay/host/ui/session/session.c:1097-1107 | Calls so ordered keep the merge's contract, and the merge hands over just what was given |
| ReplayMeans.GroupFeedsMerge | firmware/ports/bus_replay/host/ui/session/session.c:1119-1227 | And a group's calls are so ordered, wherever its steps fall |
| Replay.Group.Step | firmware/ports/bus_replay/host/ui/session/session.c:1119-1227 | A first step begins at the store's oldest records, past its oldest tick, at the first grid point from there; a step takes nothing back, reaches its target or feeds a step's worth; it tells only the store's losses within the late window and the target, each after the records up to its start and before the later ones, and once at its target every such loss, the first 64 of them, was told now or before; and it restarts only when the store let go of what was to be read; in between the store may have grown |
| Replay.Group.StepTo | firmware/ports/bus_replay/host/ui/session/session.c:1155-1227 | The same from a group that has begun |
| Replay.Group.Feed | firmware/ports/bus_replay/host/ui/session/session.c:1097-1107 | A record, after the levels and the losses before it |
| Replay.Group.LevelsBefore | firmware/ports/bus_replay/host/ui/session/session.c:1062-1076 | The levels of every grid point before a tick, after the records up to it |
| Replay.Group.LossesBefore | firmware/ports/bus_replay/host/ui/session/session.c:1005-1023 | Every known loss before a tick, once the decoders have taken what is before it |
| Replay.Group.LossesKnown | firmware/ports/bus_replay/host/ui/session/session.c:1027-1054 | The store's losses up to the target, but for those told lately |
| Replay.StepPastZero | firmware/ports/bus_replay/host/ui/session/session.c:1213-1217 | A step that stops at its limit is past tick 0, so it never lets decoders past what is still to come |
| ReplayOrder.CoreLater | firmware/ports/bus_replay/host/ui/session/session.c:1119-1227 | What a group has done stays right as the store grows |
| ReplayFeeds.HeldGrows | firmware/ports/bus_replay/host/ui/store/store.c:628-704 | Records and heartbeats in tick order only add to what a group sees of the store, with no record at or before the watermark it saw |
| ReplayFeeds.HeldIsStore | firmware/ports/bus_replay/host/ui/store/store.c:553-596 | What a group sees of a channel is what the store holds, numbered from the first record it took |
| ReplayStore.ReadMerged | firmware/ports/bus_replay/host/ui/store/store.c:553-596 | Records of all channels in one order, each once, up to the watermark, or refused if some were dropped |
| ReplayStore.TookOn | firmware/ports/bus_replay/host/ui/store/store.c:553-596 | Readings one after another are one reading |
| LinkJoin.ClientJoins | firmware/ports/bus_replay/host/modes/link.c:866-899 | A joining client is offered exactly a suffix of each stream, from the first byte of the first heartbeat at or after the grid count it was told, no byte twice or missing over any pulls |
| LinkJoin.PullKeeps | firmware/ports/bus_replay/host/modes/link.c:834-858 | Every pull keeps it so |
| LinkStreams.ClientGetsSuffix | firmware/ports/bus_replay/host/modes/link.c:866-899 | The same of any byte stream whose pulls are parsed: from the first heartbeat at or after the grid count, among those the parse of the whole stream reports |
| LinkStreams.ClientGetsWritten | firmware/ports/bus_replay/host/modes/link.c:866-899 | Of a written stream, from the first such heartbeat the writer put |
| LinkStreams.PullHonest | firmware/ports/bus_replay/host/modes/link.c:379-400 | The heartbeats a pull completes end in the bytes it brings |
| Link.Link.Pull | firmware/ports/bus_replay/host/modes/link.c:834-858 | The link's pull is the one specified, on every data channel; with nothing owed and room for what it brings, all that it offers is queued |
| Link.Link.TeeRead | firmware/ports/bus_replay/host/modes/link.c:340-346 | The tail stays the end of the stream |
| Link.Link.Trim | firmware/ports/bus_replay/host/modes/link.c:838-846 | Only the end of each tail is kept |
| Link.Link.OnHeartbeat | firmware/ports/bus_replay/host/modes/link.c:379-400 | Notes where a heartbeat starts |
| Link.Link.OnAttach | firmware/ports/bus_replay/host/modes/link.c:679-716 | Tells the next grid count every data channel reaches |
| Link.Link.Attach | firmware/ports/bus_replay/host/modes/link.c:872-899 | Channels that began go on, the others begin at their heartbeat |
| Link.Link.Forward | firmware/ports/bus_replay/host/modes/link.c:866-910 | What a pull passes on |
| Link.Link.Enqueue | firmware/ports/bus_replay/host/modes/link.c:917-962 | Queues a message exactly if it fits in the limit, after an overflow event exactly if something of its kind is owed, else counts it as dropped; the queue grows by just what was queued |
| Link.QueuedIsSuffix | firmware/ports/bus_replay/host/modes/link.c:866-962 | If the queue stayed within its limit over the pulls since a client attached, what was queued of each channel is the stream itself from where its part began, with no overflow event |
| Link.WentOne | firmware/ports/bus_replay/host/modes/link.c:917-962 | A message offered with nothing owed and room for it is queued as it is, and leaves nothing owed |
| Link.Link.Sent | firmware/ports/bus_replay/host/modes/link.c:531-555 | What is queued is what was put into the queue, replies included, less what was sent |
| Ledger.GapsAreNamed | firmware/ports/bus_replay/host/capture/recorder.c:222-252 | Of two pieces of a channel queued one after the other, the second begins where the first ends, or past that by what the overflow events between them name |
| Ledger.BytesBalance | firmware/ports/bus_replay/host/capture/recorder.c:222-252 | The bytes offered on a channel are those queued, those named as dropped, and those still to be named |
| Ledger.DataBalanced | firmware/ports/bus_replay/host/capture/recorder.c:222-252 | Data offered to the recorder, taken or not, keeps the books balanced |
| Ledger.ControlBalanced | firmware/ports/bus_replay/host/capture/recorder.c:256-273 | So does a control message |
| Ledger.OtherBalanced | firmware/ports/bus_replay/host/modes/link.c:917-962 | So does a message to a client that is not data |
| Ledger.OfferBalanced | firmware/ports/bus_replay/host/modes/link.c:917-962 | So does data to a client |
| Recorder.Recorder.RecordData | firmware/ports/bus_replay/host/capture/recorder.c:222-252 | Queued whole with its event, or dropped and counted, just by the queue's size |
| Recorder.Recorder.RecordControl | firmware/ports/bus_replay/host/capture/recorder.c:256-273 | Likewise |
| Recorder.Recorder.RecordEvent | firmware/ports/bus_replay/host/capture/recorder.c:277-293 | Never dropped but after an error |
| Recorder.Recorder.RecordHeartbeat | firmware/ports/bus_replay/host/capture/recorder.c:300-316 | One mark every K grid points |
| Recorder.Recorder.Push | firmware/ports/bus_replay/host/capture/recorder.c:580-608 | Refused exactly when too large for the queue or after an error; the queue's size counts what waits and what the writer has |
| Recorder.Recorder.Take | firmware/ports/bus_replay/host/capture/recorder.c:422-429 | The writer takes the queue in order |
| Recorder.Recorder.PutNext | firmware/ports/bus_replay/host/capture/recorder.c:470-490 | An item into the batch and the index, at its file offset |
| Recorder.Recorder.Flush | firmware/ports/bus_replay/host/capture/recorder.c:493-506 | The file is what was put, in order, and only ever grows |
| Recorder.Recorder.Account | firmware/ports/bus_replay/host/capture/recorder.c:452-462 | Gives room back, and passes an error on |
| RecorderFile.WriterIndexes | firmware/ports/bus_replay/host/capture/recorder.c:470-490 | The writer's index of a channel is that of its stream alone |
| RecorderFile.FileIsChunks | firmware/ports/bus_replay/host/capture/recorder.c:470-490 | The file is its header, its chunks and a footer |
| RecorderFile.RecordingReadsBack | firmware/ports/bus_replay/host/capture/recorder.c:470-506 | From whatever prefix of a recording survives a reader takes exactly the chunks wholly inside it |
| RecorderFile.OverflowReads | firmware/ports/bus_replay/host/capture/recorder.c:553-572 | An overflow event reads back as what was dropped |
| IndexLanes.IndexIsSearch | firmware/ports/bus_replay/host/capture/index.c:112-148 | Letting go of chunks changes nothing: every heartbeat finds the chunk a search over all chunks finds |
| IndexLanes.EntriesAreFirsts | firmware/ports/bus_replay/host/capture/index.c:112-148 | A channel's entries are exactly the first heartbeat in the file of every K grid points that have one |
| IndexLanes.IndexNamesFirsts | firmware/ports/bus_replay/host/capture/index.c:72-148 | Both together, and each entry names the very byte its heartbeat begins at |
| IndexLanes.LiveEqualsRebuilt | firmware/ports/bus_replay/host/capture/capture.c:656-700 | With nothing dropped and the same heartbeats, the index made while recording is the one made from the file |
| SeekStreams.LiveIndexIsFiles | firmware/ports/bus_replay/host/capture/capture.c:656-700 | With nothing dropped the index made while recording, its heartbeats from a parser of the same stream in any cutting, is the one made by reading the file |
| SeekStreams.WholeFileSteps | firmware/ports/bus_replay/host/capture/capture.c:656-700 | Reading a file tells its index of all its chunks, and of the heartbeats of the stream, each once its first byte has come |
| Index.Builder.Chunk | firmware/ports/bus_replay/host/capture/index.c:72-104 | A chunk joins its lane, in the room there is |
| Index.Builder.Heartbeat | firmware/ports/bus_replay/host/capture/index.c:112-148 | Chunks that are over go, and a heartbeat that is due makes an entry |
| Index.LinesRead | firmware/ports/bus_replay/host/capture/index.c:193-243 | Entries read back, an incomplete last one left out |
| ThcFile.ReadsWithin | firmware/ports/bus_replay/host/capture/thcfile.c:364-417 | Of any prefix of a written file exactly the chunks wholly inside it are read, and the state says how it ends |
| ThcFile.FollowIsOneRead | firmware/ports/bus_replay/host/capture/thcfile.c:431-443 | Reading with resumes over any growing files, whatever their bytes, gives the chunks and offsets of one read of the last |
| ThcFile.ResumeIsOneRead | firmware/ports/bus_replay/host/capture/thcfile.c:431-443 | The same of one resume |
| ThcFile.WholeReads | firmware/ports/bus_replay/host/capture/thcfile.c:198-216 | A written chunk reads back, whatever follows it |
| ThcFile.PartReads | firmware/ports/bus_replay/host/capture/thcfile.c:364-417 | Part of a chunk reads as cut short, or as the end |
| Thc.Buffer.ChunkPut | firmware/ports/bus_replay/host/capture/thcfile.c:198-216 | Appends a chunk, or refuses one that is too long |
| Thc.FileReader.NextChunk | firmware/ports/bus_replay/host/capture/thcfile.c:364-417 | The next chunk as specified |
| Thc.FileReader.ResumeReading | firmware/ports/bus_replay/host/capture/thcfile.c:431-443 | Goes on only from the end of the file or inside a chunk |
| Thc.ComputeCrc32 | firmware/ports/bus_replay/host/capture/thcfile.c:41-52 | The check, bit by bit: what ThcCheck proves the remainder |
| ThcCheck.CheckIsRemainder | firmware/ports/bus_replay/host/capture/thcfile.c:41-52 | The check is the remainder, complemented, of the bytes with the complemented start, as a polynomial over GF(2) modulo the generator of CRC-32 |
| ThcCheck.DamageSeen | firmware/ports/bus_replay/host/capture/thcfile.c:41-52 | Two byte sequences of one length that differ, within 32 bits in a row, have different checks |
| ThcCheck.DamagedIsBad | firmware/ports/bus_replay/host/capture/thcfile.c:364-417 | A chunk whose body is so damaged reads as bad |
| Seek.SeekReportsSuffix | firmware/ports/bus_replay/host/capture/capture.c:579-611 | A parser started at a written heartbeat and fed the stream from its first byte reports what the full parse reports from it on, but for that heartbeat's flag |
| SeekStreams.SeekInRecording | firmware/ports/bus_replay/host/capture/capture.c:579-611 | Of a file that holds a written stream and its index, a session that seeks a tick either finds no indexed heartbeat at or before it, or reports exactly the end of the full parse from the last such one, but for that heartbeat's flag |
| Seek.SeekFeedsFromBeat | firmware/ports/bus_replay/host/capture/capture.c:1041-1063 | Seeking an entry feeds the parser the stream from its heartbeat's first byte, and nothing else |
| Seek.PickIsLast | firmware/ports/bus_replay/host/capture/capture.c:597-606 | The entry picked is the last at or before the tick; none only if there is none |
| Seek.Session.SeekTo | firmware/ports/bus_replay/host/capture/capture.c:579-611 | Picks for every channel |
| Seek.Session.HandleData | firmware/ports/bus_replay/host/capture/capture.c:1040-1070 | Skips, starts or feeds |

## Left out

- Widths: ticks, counts and offsets are unbounded numbers where the code has 64 bits; the 8-bit
  grid index, the 32-bit loss counters and positions and the columns' 32-bit change counts wrap
  as they do in the code.
- Out of memory: no allocation fails, so the paths that handle it are not there.
- The sampler `capture_loop.S` is not part of this model: samples, slice counts and the start
  and end of a loss are steps of the environment.
- Hardware, sockets, files, clocks and threads: only the bytes and items they deliver; each
  critical section is one step.
- Store.Store.Enforce: the bytes the store takes are not counted; how many rounds of dropping
  and trimming its limit asks for is a parameter, so every limit is covered.
- StoreMachine.ReadingsTrue: losses count from when they are reported; a reading made before a
  loss that comes late was not warned of it.
- Store: channel numbers are places among the enabled channels; a heartbeat's bitmask is given
  as one level per channel; a data channel's held heartbeats are a sequence, not a ring in a
  buffer.
- I2cTrip.DecodeUndoesEncode: for idle lines before the START, as the standard has it.
- I2C: an item's text, status and directory strings, and the children it emits, of which only
  the number counts for the ids.
- Codec: which decoder stands on which, and the loss flags it sets on items that wait in its
  queue; a decoder is its horizon and the items it emits.
- LossReports.NoLossEscapes: the SPI peripheral takes at most one transaction between being
  released and being looked at, as the device arranges.
- LossHost.EndToEnd: a recording begun during a capture takes over a report as its base
  (`LossHost.LossTracker.SetBase`); the theorem is of a tracker that begins with the capture.
- LossReports.NoLossEscapes: what the host sends with a report it reads in full does not begin
  with two bytes FF FF, which the device takes for no transfer; the host's SPI driver sees to it.
- Replay.Group.Step: what the store reports of losses is taken as it is, with its own merging of
  them; a loss whose range has changed since may be told again, as in the code.
- Replay.Group.Step: the hold in seconds times the rate is given in ticks.
- LinkJoin.ClientJoins: where each pull's heartbeats end is a premise there, and is derived from
  the parser in `LinkStreams.ClientGetsSuffix`, for heartbeats no longer than the tail kept.
- Link.Link.Pull: a message that is not data of one of the capture's channels counts as a
  control message, whatever it is.
- Link: a client that goes away, a second one that is turned away, and what replies say; a reply
  takes its room in the queue.
- Recorder.Recorder.Flush: when to flush and to sync is the caller's choice.
- IndexLanes.LiveEqualsRebuilt: for a recording with nothing dropped; with drops the two parse
  different streams.
- SeekStreams.SeekInRecording: for written streams with nothing dropped in them.
- Replay.Group.Step: that a store has grown, with no record at or before its watermark, is a
  premise; `ReplayFeeds.HeldGrows` derives it where records and heartbeats come in tick order, as
  the parsers give them. The code takes a late record too, and a group past it would not see it.
- ReplayOrder.CoreLater: likewise.
- Headers, hellos, registers, trailers and footers: written and read field by field, with easy
  round trips. Whether a file is complete is told by its footer, which payload can imitate.
- Recovery after corruption: which place in damaged bytes the parser takes for a heartbeat is a
  heuristic. Proved are that nothing is trusted before one checks, and, in
  `WireResume.TrustedAgain`, that a stream which goes on without a fault is trusted again.
- StoreLatest.LatestReads: losses are told while the channel still has the last record or
  heartbeat it was given.
- LossProgress.EveryLossCanBeSent: that the steps it names are taken in time, and that the host
  reads, is left to the device's loop and the host.
- Link.QueuedIsSuffix: room is counted before a pull as if every channel's tail were sent with
  it, though only channels that begin send theirs.
- Other decoders, outputs, the user interfaces, and statistics nobody acts on.
