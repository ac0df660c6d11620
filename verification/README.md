# libevent's core data structures and protocols, verified

This project models the hard parts of libevent 2.1.8, the event library under
`android/core/src/main/jni/libevent`, and proves what they promise. Everything is single-threaded:
a section the library runs under a lock is one step. Allocation succeeds unless a size limit refuses.

- **evbuffer** (`Chains`, `EvBuffers`, `BufferSearch`, `BufferRuns`): a byte queue kept as a list of
  partly filled chains with a cached link to the last chain that has data. Every operation is proved
  to do to the chains what it should do to a plain byte string, over whole runs on several buffers,
  reads from a wire included.
- **evmap, changelist and epoll** (`EpollTable`, `EvMaps`): per-fd counts, one coalesced change per fd,
  and the 512-entry table that turns a change into one `epoll_ctl`. The kernel is a map from fd to
  interest; after a dispatch it holds exactly what the registered events ask for, with the edge bit the
  calls since the last one give.
- **DNS names** (`DnsNames`): the label encoder with its compression table, writing in place, and the
  parser, proved inverse to each other on whole messages (section 4.1.4 of RFC 1035), and the encoder
  proved to spell out nothing it could point to.
- **Tagged data** (`TagCodec`, `Tagging`): the nibble and tag codecs, and records marshalled through
  an evbuffer, on top of the evbuffer contracts.
- **Rate limiting** (`Modular`, `TokenBucket`, `RateLimit`, `RateRuns`): the overflow-safe refill, the
  suspend flags with the refill timer, ticks derived from the clock, and the bandwidth bound over any
  window.
- **Random numbers** (`Arc4`): the permutation the generator keeps over whole runs and the unbiased
  range reduction.
- **The event loop's queues** (`TimeoutBits`, `BucketQueues`, `MinHeap`, `LoopState`, `RunOrder`,
  `Timers`, `EventLoop`): active, later and timeout structures with their flags and counters, the timer heap in
  its array, timevals that name their queue in spare bits, persistent events, the order in which due timeouts
  become active, and common-timeout queues as an index that agrees with a plain set of deadlines.
- **The resolver** (`DnsServers`, `DnsQueues`, `DnsMoves`, `DnsEffort`, `Resolver`): in-flight and waiting queues,
  servers up and down, retransmission and reissue, one callback per request.

State that the library updates in place is a class whose methods carry the invariant and the new
state; the facts about single changes are lemmas over the values those fields hold. `Basics` holds
machine words, `Option` and a few facts about sequences and sets. `dafny verify dfyconfig.toml`
checks the whole project.

## Results that are not what one would hope

Each of these is the code's behaviour, with the exact condition and an input.

- `dnsname_to_labels` writes its closing zero byte without looking at the buffer length, and so one
  byte past the buffer exactly under the condition of `DnsNames.RootOverruns`;
  `DnsNames.RootOverrunWitness` is an input. The model returns -3 there instead of writing.
- A DNS compression pointer names its target exactly below offset 0x4000 (`DnsNames.PointerExact`,
  `DnsNames.FarPointerFails`), while the source records later offsets in its table too. Every caller
  that passes a table has a buffer of 1500 bytes (evdns.c:1893), where such offsets do not occur
  (`DnsNames.SmallBufferReaches`).
- A name with an empty inner label is cut at that label on the wire (`DnsNames.TextSurvives`,
  `DnsNames.EmptyLabelCuts`).
- Edge triggering belongs to the fd, and every change that reaches the kernel sets it anew. Without the
  changelist, deleting an event ends it for the events that are left if and only if the delete changes
  the interest in the fd (`EvMaps.EventBase.IoDel`); with it, the fd ends up as the last calls that changed
  its reading or its writing before the dispatch say (`EvMaps.EventBase.Dispatch`, `EvMaps.HeardNext`). So the two backends do not always agree on edge
  triggering, even where they agree on the conditions watched (`EvMaps.EdgesDiffer`).
- An fd closed with events on it is not watched until something is told to the kernel for it, which an
  add or delete that changes the interest does without the changelist, and a dispatch with a record that
  asks for something does with it (`EvMaps.Run`). So the two backends may end up watching different
  conditions, exactly under the condition of `EvMaps.RunBoth`; `EvMaps.ClosedDiffers` is a run.
- `evtag_consume` does not drain what `evtag_peek_length` reports when the payload has 2^31 bytes or
  more and is not the last thing in the buffer (`Tagging.ConsumeIsPeek`, `Tagging.ConsumeTakesTooMuch`).
- `decode_tag_internal` makes five bytes contiguous and reads a sixth, only to reject the tag, exactly
  under the condition of `TagCodec.DecodeTagLoop` (`TagCodec.SixthByteRead`).
- A bucket pushed above its maximum by a negative `bufferevent_decrement_read_limit`, which the
  header allows, can be made negative by a refill, and then a direction runs with an exhausted
  bucket (`TokenBucket.RefillWraps`, `TokenBucket.RefillCanWrap`, `RateRuns.Apply`,
  `RateRuns.OverfullRun`).
- `evbuffer_prepend_buffer` keeps the plain contract of `last_with_datap` always, and the sharper one
  exactly when the source has no trailing empty chain in front of data
  (`EvBuffers.EvBuffer.PrependBuffer`, `EvBuffers.PrependUnsharp`).
- A change of configuration keeps the number of the last update, which counts ticks of the old length.
  Where the new ticks seem to lie behind it, an exhausted direction is not refilled for as many ticks
  (`RateRuns.RefillAfterChange`, `RateRuns.Retune`, `RateRuns.TickStall`).
- `ev_token_bucket_cfg_new` accepts a tick of less than a millisecond, and the tick count then divides by
  zero (`RateLimit.NewCfg`, `RateLimit.ZeroTick`).
- A refusal may end a request although another server is up. `request_reissue` sends nothing, so a second
  copy of the same packet meets an unsent request: marking its server down moves it, and the reissue may
  pick the server it was moved to. That happens exactly when the picks from one to the other go round the
  up servers (`DnsMoves.Reissues` in `Resolver.Base.HandleReply`); `Resolver.RefusedTwice` is a run.

## Model

| member | source | states |
|---|---|---|
| `Chains.SharpIsUnique` | android/core/src/main/jni/libevent/evbuffer-internal.h:86-99 | the sharpened contract of last_with_datap determines the slot: it is a function of the chain list |
| `Chains.AppendAtSlot` | android/core/src/main/jni/libevent/buffer.c:1745-1805 | growing the designated chain by some bytes appends exactly those bytes to the whole buffer and keeps the slot right |
| `Chains.FillNext` | android/core/src/main/jni/libevent/buffer.c:2366-2385 | data landing in the designated chain, or in the next when that one is full, is data appended to the buffer, and the slot moves there |
| `Chains.FlattenWindow` | android/core/src/main/jni/libevent/buffer.c:1185-1248 | a window inside one chain is the window at the chain's offset of the whole byte string |
| `Chains.PulledFlat` | android/core/src/main/jni/libevent/buffer.c:1387-1454 | replacing a front run of chains by one block holding their bytes leaves the byte string as it was |
| `Chains.PulledSharp` | android/core/src/main/jni/libevent/buffer.c:1387-1454 | after such a replacement the last-with-data slot is the old one shifted by the chains that went |
| `EvBuffers.ChainNew` | android/core/src/main/jni/libevent/buffer.c:155-190 | fails exactly for sizes above the chain limit; otherwise an empty aligned chain whose block is the least MIN_BUFFER_SIZE * 2^k that holds header and data, or exactly that much from half the limit up |
| `EvBuffers.Realign` | android/core/src/main/jni/libevent/buffer.c:1902-1912 | moving the data to the start of a block changes neither data nor block size |
| `EvBuffers.EvBuffer.FreeTrailingEmptyChains` | android/core/src/main/jni/libevent/buffer.c:289-304 | cuts exactly the empty chains behind the data and returns the link right after the last chain with data (or the first link) |
| `EvBuffers.EvBuffer.ChainInsert` | android/core/src/main/jni/libevent/buffer.c:307-326 | the view grows by the chain's data, trailing empties are replaced, and the slot designates the last chain with data again |
| `EvBuffers.EvBuffer.Add` | android/core/src/main/jni/libevent/buffer.c:1722-1816 | appends the bytes exactly, or fails exactly when the end is frozen or a size limit is exceeded, and then changes no byte; the callbacks are told of the bytes added |
| `EvBuffers.EvBuffer.AddOver` | android/core/src/main/jni/libevent/buffer.c:1784-1810 | what does not fit behind the data goes into a new chain, made for twice the size of the last one while that is at most 4096 bytes, for that size otherwise, and for no less than the data |
| `EvBuffers.EvBuffer.Prepend` | android/core/src/main/jni/libevent/buffer.c:1819-1899 | puts the bytes in front; refuses without a change when the start is frozen or the sum too large; when the last allocation is refused, exactly the tail of the data that fits in front of the first chain stays |
| `EvBuffers.EvBuffer.Drain` | android/core/src/main/jni/libevent/buffer.c:1095-1161 | drops exactly min(len, length) bytes from the front; a frozen start refuses unless the buffer is empty; the callbacks are told of the bytes dropped |
| `EvBuffers.EvBuffer.CopyoutFrom` | android/core/src/main/jni/libevent/buffer.c:1184-1252 | returns the window of the view that starts at the position and has the length asked for, cut to what is there |
| `EvBuffers.EvBuffer.Remove` | android/core/src/main/jni/libevent/buffer.c:1164-1176 | copy out and drain: front bytes returned and removed, or nothing changed |
| `EvBuffers.EvBuffer.Pullup` | android/core/src/main/jni/libevent/buffer.c:1344-1454 | the view is unchanged and, exactly when it succeeds, the first chain holds the requested prefix contiguously |
| `EvBuffers.PullChains` | android/core/src/main/jni/libevent/buffer.c:1403-1447 | the copying loop moves the prefix into the block and reports rightly whether the last-with-data chain or the owner of the link was freed |
| `EvBuffers.EvBuffer.AddBuffer` | android/core/src/main/jni/libevent/buffer.c:960-1004 | moves all bytes of the source behind those of the destination and leaves the source empty, both valid; or changes neither |
| `EvBuffers.EvBuffer.RemoveBuffer` | android/core/src/main/jni/libevent/buffer.c:1254-1341 | moves exactly the first min(datlen, length) bytes across, whole chains by relinking and the rest by copying; both buffers valid, and the callbacks of both told of all of them at once |
| `EvBuffers.WholeChains` | android/core/src/main/jni/libevent/buffer.c:1292-1311 | the counting loop stops inside a chain that holds data, and the link it keeps belongs to a chain that stays |
| `EvBuffers.EvBuffer.AdvanceLastWithData` | android/core/src/main/jni/libevent/buffer.c:702-716 | the slot ends at the last chain with data |
| `EvBuffers.EvBuffer.PrependBuffer` | android/core/src/main/jni/libevent/buffer.c:1049-1092 | source bytes come first and both buffers' callbacks are told; the sharp invariant survives if and only if the source had no trailing empty chain in front of data |
| `EvBuffers.PrependUnsharp` | android/core/src/main/jni/libevent/buffer.c:1049-1092 | a buffer with a byte and room for a read of which nothing came, prepended to one with a byte: it does not survive |
| `EvBuffers.EvBuffer.InvokeCallbacks` | android/core/src/main/jni/libevent/buffer.c:512-530 | without callbacks the counters are zeroed, with deferred ones they are kept and a run is due, otherwise the callbacks are told at once; no run is due otherwise |
| `EvBuffers.EvBuffer.RunCallbacks` | android/core/src/main/jni/libevent/buffer.c:476-509 | the original length reported, computed from the two counters, is the length at the time they were last zeroed; nothing is reported when nothing came or went |
| `EvBuffers.EvBuffer.RunDeferred` | android/core/src/main/jni/libevent/buffer.c:532-546 | a deferred run reports once all that came and went since the last, and zeroes the counters |
| `Chains.PrependedList` | android/core/src/main/jni/libevent/buffer.c:942-958 | joining two lists keeps the sharp invariant if and only if the first ends in its last chain with data |
| `EvBuffers.EvBuffer.ExpandSingleChain` | android/core/src/main/jni/libevent/buffer.c:1927-2035 | the view is unchanged and one chain right behind the data has the free bytes asked for, through realigning, replacing or inserting; no chain is made or replaced where none is needed; fails exactly when the chain it would have to allocate is over the limit |
| `EvBuffers.EvBuffer.ExpandFast` | android/core/src/main/jni/libevent/buffer.c:2039-2147 | the view is unchanged, the chains up to the last with data are not touched, and at most n chains from the first with space have the free bytes asked for |
| `EvBuffers.ScanSpace` | android/core/src/main/jni/libevent/buffer.c:2067-2086 | the scan counts the free bytes of exactly the chains it used and only resets the misalignment of empty chains |
| `EvBuffers.SetupVecs` | android/core/src/main/jni/libevent/buffer.c:2213-2247 | with the room of ExpandFast, at most n vectors that sum to exactly the amount asked for |
| `EvBuffers.CommitVecs` | android/core/src/main/jni/libevent/buffer.c:2366-2385 | committing k bytes that landed in the vectors equals appending those k bytes; the slot is where they end |
| `EvBuffers.ReadAmount` | android/core/src/main/jni/libevent/buffer.c:2279-2295 | what a read offers to the system: the largest number that is at most 4096, at most what is readable if that is known and not more than 4096, and at most what the caller asked for if that is not negative |
| `EvBuffers.EvBuffer.Read` | android/core/src/main/jni/libevent/buffer.c:2270-2397 | of what is on the wire a read takes as many bytes as it may offer room for, never more than the caller asked for, and appends exactly those in order; or it changes no byte |
| `BufferSearch.Walk` | android/core/src/main/jni/libevent/buffer.c:2622-2648 | walking chains from a position reaches the position asked for with chain and offset in agreement, or not-found exactly past the end |
| `BufferSearch.PtrSet` | android/core/src/main/jni/libevent/buffer.c:2609-2659 | a pointer set to any position up to the length agrees with it; beyond, not-found |
| `BufferSearch.PtrAdd` | android/core/src/main/jni/libevent/buffer.c:2609-2659 | adding to a pointer gives the pointer at the sum, refuses a lost pointer and an overflowing sum |
| `BufferSearch.PtrMemcmp` | android/core/src/main/jni/libevent/buffer.c:2665-2699 | equal exactly when the bytes occur at the position, across chains |
| `BufferSearch.Search` | android/core/src/main/jni/libevent/buffer.c:2707-2769 | the least position at or after the start where the pattern occurs and ends by the end, or not-found exactly when there is none |
| `BufferRuns.ExecOne` | android/core/src/main/jni/libevent/buffer.c:1095-1176 | each single-buffer operation does to the chains what its definition does to a plain byte queue, with the same result |
| `BufferRuns.ExecTwo` | android/core/src/main/jni/libevent/buffer.c:960-1341 | each two-buffer operation likewise, also when source and destination are the same buffer |
| `BufferRuns.Run` | android/core/src/main/jni/libevent/buffer.c:960-2397 | over every run on any number of buffers, contents, flags and results equal those of the run on plain byte queues, also of reads from a wire that holds any number of bytes |
| `EpollTable.IndexFields` | android/core/src/main/jni/libevent/epolltable-internal.h:123-131 | the table index packs the change fields and the old events without loss into nine bits |
| `EpollTable.TableMeaning` | android/core/src/main/jni/libevent/epolltable-internal.h:40-122 | for every change that is not contradictory the entry is ADD, MOD, DEL or nothing as needed to reach the target interest, never the xxx entry |
| `EpollTable.EntryIsRule` | android/core/src/main/jni/libevent/epolltable-internal.h:132-1164 | the entry selected for a change that is not contradictory is the one a short rule gives for what the change does to each condition and what was in force |
| `EpollTable.BadExactly` | android/core/src/main/jni/libevent/epolltable-internal.h:132-1164 | the xxx entries are exactly those of changes that add and delete the same condition |
| `EvMaps.AddMovesTarget` | android/core/src/main/jni/libevent/evmap.c:854-886 | recording an add moves the change's target by exactly the added conditions |
| `EvMaps.DelMovesTarget` | android/core/src/main/jni/libevent/evmap.c:889-939 | recording a delete, with its no-op rule for things not in force, moves the target by exactly the deleted conditions |
| `EvMaps.EventBase.ApplyOne` | android/core/src/main/jni/libevent/epoll.c:268-355 | one change brings the kernel's line of the fd to the change's target, whatever the kernel had, through the EEXIST and ENOENT retries; if it asks for anything and the target is not empty, the fd is edge-triggered exactly if the read or the write field of the change carries the flag; a change that asks for nothing, and any other fd, is left alone |
| `EvMaps.AppliedEdge` | android/core/src/main/jni/libevent/epoll.c:283-287 | the same of any change and kernel, not through the calls that make it: the edge bit is set exactly if one of the two fields carries the flag |
| `EvMaps.EventBase.GetOrConstruct` | android/core/src/main/jni/libevent/evmap.c:823-852 | finds or appends the one change of an fd and keeps the cross indices |
| `EvMaps.EventBase.ChangelistAdd` | android/core/src/main/jni/libevent/evmap.c:854-886 | what is pending for the fd, applied to what the kernel has, now also gives the added conditions |
| `EvMaps.EventBase.ChangelistDel` | android/core/src/main/jni/libevent/evmap.c:889-939 | what is pending for the fd, applied to what the kernel has, no longer gives the deleted conditions |
| `EvMaps.EventBase.NochangelistAdd` | android/core/src/main/jni/libevent/epoll.c:376-395 | the immediate backend: the kernel has the added conditions at once |
| `EvMaps.EventBase.NochangelistDel` | android/core/src/main/jni/libevent/epoll.c:397-413 | the immediate backend: the kernel drops the deleted conditions at once |
| `EvMaps.EventBase.IoAdd` | android/core/src/main/jni/libevent/evmap.c:265-341 | the list and the counts of the fd gain the event, 65535 of a kind is refused, the result says whether the interest changed; kernel or pending record take it up exactly then, and without the changelist the fd is then edge-triggered exactly if the event is and the add was for reading or writing |
| `EvMaps.EventBase.IoDel` | android/core/src/main/jni/libevent/evmap.c:346-409 | the list and the counts lose the event, and the result says whether the interest changed; without the changelist the fd is edge-triggered afterwards if and only if it was before and the interest did not change |
| `EvMaps.EventBase.ApplyChanges` | android/core/src/main/jni/libevent/epoll.c:357-374 | the changes reach the kernel in order; an fd closed behind the base's back is known again exactly if its record asks for anything |
| `EvMaps.EventBase.RemoveAll` | android/core/src/main/jni/libevent/evmap.c:767-787 | no change is left and no fd points at one |
| `EvMaps.EventBase.Dispatch` | android/core/src/main/jni/libevent/epoll.c:459-460 | the kernel ends up watching every fd for exactly what its events ask for, unless the fd was closed behind the base's back and nothing was pending for it; its line is the one its record leaves, or the old one if the record asks for nothing; where the record asks and leaves something to watch, the fd is edge-triggered exactly if its read or its write field carries the flag |
| `EvMaps.HeardNext` | android/core/src/main/jni/libevent/evmap.c:854-939 | over the calls since a dispatch: the read, write or close field of a record carries the edge flag exactly if the last call that changed that condition was an add of an edge-triggered event |
| `EvMaps.HeardFates` | android/core/src/main/jni/libevent/evmap.c:265-409 | over every sequence of calls and both backends: the edge bit of every fd is the one its story of adds and deletes, and of dispatches, tells |
| `EvMaps.EventBase.QuietServed` | android/core/src/main/jni/libevent/epoll.c:376-413 | with nothing pending the kernel watches every fd for what its events ask for, except those closed behind the base's back, which it does not watch; so the immediate backend always does |
| `EvMaps.EventBase.CloseBehind` | android/core/src/main/jni/libevent/epoll.c:304-336 | an fd closed without a delete is gone from the kernel, and the invariant that all else rests on still holds |
| `EvMaps.AgreesApplied` | android/core/src/main/jni/libevent/epoll.c:304-336 | any change that asks for anything brings the kernel and what the base believes of it together again for its fd |
| `EvMaps.EventBase.OneChangePerFd` | android/core/src/main/jni/libevent/evmap.c:740-759 | no fd has two pending changes and no pending change selects the xxx entry |
| `EvMaps.Exec` | android/core/src/main/jni/libevent/evmap.c:265-409 | for every fd, list, pending record, kernel line and whether it was closed and not told of since are what the call means for them, as a function of what they were |
| `EvMaps.Run` | android/core/src/main/jni/libevent/evmap.c:265-409 | after every sequence of adds, deletes, dispatches and closed fds, and a closing dispatch, each fd is what the calls mean for it: watched for exactly what its events ask for, or, if it was closed and nothing told to the kernel for it since, not at all; and it is edge-triggered exactly if the last calls that changed its reading or its writing, before the last dispatch with anything to tell for it, say so |
| `EvMaps.RunBoth` | android/core/src/main/jni/libevent/epoll.c:356-413 | after every sequence the changelist backend and the immediate backend watch an fd for the same conditions if and only if nothing asks for it, or it was closed and not told of since in both or in neither; so always when no fd is closed with events on it; and each has the edge bit its own story gives |
| `EvMaps.ClosedDiffers` | android/core/src/main/jni/libevent/evmap.c:918-935 | a read event, its fd closed, a write event added and deleted before the dispatch: with the changelist the fd is not watched, without it it is watched for reading |
| `EvMaps.FatesTogether` | android/core/src/main/jni/libevent/evmap.c:265-409 | both backends know the same events of every fd after every sequence |
| `EvMaps.TidyOpen` | android/core/src/main/jni/libevent/epoll.c:304-336 | without closed fds no fd is lost |
| `EvMaps.EdgesDiffer` | android/core/src/main/jni/libevent/evmap.c:888-939 | two edge-triggered events, one deleted before the dispatch: the one left is edge-triggered with the changelist and level-triggered without it |
| `EvMaps.EdgeOfAdd` | android/core/src/main/jni/libevent/epoll.c:283-287 | an add that reaches the kernel sets edge triggering of the whole fd to the event's own flag if it adds reading or writing, and clears it otherwise |
| `EvMaps.EdgeOfDel` | android/core/src/main/jni/libevent/evmap.c:379-396 | a delete that reaches the kernel clears edge triggering for whatever is left on the fd |
| `DnsNames.NameParse` | android/core/src/main/jni/libevent/evdns.c:959-1013 | succeeds exactly on a well-formed name that fits, gives its labels joined by dots, and strictly advances to its end; terminates on every packet |
| `DnsNames.NamesLabels` | android/core/src/main/jni/libevent/evdns.c:959-1013 | a name that reads has labels of 1 to 63 bytes and ends inside the packet behind its start |
| `DnsNames.PointerExact` | android/core/src/main/jni/libevent/evdns.c:1626-1629 | a compression pointer names its target if and only if the target is below 0x4000 |
| `DnsNames.EncodeDecodes` | android/core/src/main/jni/libevent/evdns.c:1599-1663 | what the encoder writes, against any table of good entries, reads back as the name's labels and leaves only good entries |
| `DnsNames.TextSurvives` | android/core/src/main/jni/libevent/evdns.c:1599-1663 | a name comes back as its text without the trailing dot if and only if it has no empty inner label (or is the single dot) |
| `DnsNames.EmptyLabelCuts` | android/core/src/main/jni/libevent/evdns.c:1599-1663 | "a..b" comes back as "a" |
| `DnsNames.RoundTrip` | android/core/src/main/jni/libevent/evdns.c:1559-1663 | names encoded in turn with a shared table are each read back from their own start to their own end, compression included, when every pointer written reaches |
| `DnsNames.DnsnameToLabels` | android/core/src/main/jni/libevent/evdns.c:1599-1663 | the in-place loop writes exactly the specified bytes at the place asked for, touches nothing else on success, and fails for the stated reasons only; -3 marks the unchecked write; of a name, exactly the labels in front of its longest suffix in the table are spelled out, with a pointer of two bytes behind them |
| `DnsNames.RememberNames` | android/core/src/main/jni/libevent/evdns.c:1582-1597 | while the table holds fewer than 128 entries a name that is remembered is found again; what was found before still is |
| `DnsNames.EncodeSize` | android/core/src/main/jni/libevent/evdns.c:1599-1663 | how long an encoded name is: a byte and the label for each label in front of the longest suffix the table knows, and two bytes for a pointer or one for the root |
| `DnsNames.EncodeKnows` | android/core/src/main/jni/libevent/evdns.c:1599-1663 | while the table has room, all label suffixes of a name that was encoded are known afterwards, and those known before still are |
| `DnsNames.RootOverruns` | android/core/src/main/jni/libevent/evdns.c:1655-1659 | the closing zero goes one past the buffer if and only if the labels are short, the name does not end in a dot, no suffix of it is in the table, and name and first length byte end where the buffer does |
| `DnsNames.RootOverrunWitness` | android/core/src/main/jni/libevent/evdns.c:1655-1659 | the name "a" in a buffer of two bytes |
| `DnsNames.EncodeFits` | android/core/src/main/jni/libevent/evdns.c:1599-1663 | two bytes more than the name are always room enough |
| `DnsNames.EncodeMessage` | android/core/src/main/jni/libevent/evdns.c:1599-1663 | encoding a list of names in place gives the specified message and start offsets; while fewer than 128 suffixes are remembered every name takes exactly the bytes it needs when all label suffixes of the names before it can be pointed to |
| `DnsNames.MessageTight` | android/core/src/main/jni/libevent/evdns.c:1559-1663 | compression of a whole message: as long as the table has room, of each name only the labels in front of its longest suffix among those of all earlier names are spelled out |
| `DnsNames.SuffixTwoBytes` | android/core/src/main/jni/libevent/evdns.c:1626-1629 | so a name that is a label suffix of an earlier one takes exactly two bytes |
| `DnsNames.MessageRoundTrip` | android/core/src/main/jni/libevent/evdns.c:959-1663 | any list of clean names whose pointers reach is encoded in place and parsed back to the same texts, each parse stopping where the next name starts |
| `DnsNames.SmallBufferReaches` | android/core/src/main/jni/libevent/evdns.c:1890-1955 | in a buffer of at most 0x4000 bytes, such as the 1500 bytes of every caller with a table, every pointer reaches |
| `DnsNames.FarPointerFails` | android/core/src/main/jni/libevent/evdns.c:1626-1629 | a message with a pointer to 0x4000 that does not read back |
| `TagCodec.EncodeIntInternal` | android/core/src/main/jni/libevent/event_tagging.c:117-138 | the nibble loop writes the wire form: digit count less one, then the digits least first, zero padded |
| `TagCodec.IntRoundTrip` | android/core/src/main/jni/libevent/event_tagging.c:315-350 | the wire form of an integer of up to sixteen digits, followed by anything, decodes to the integer and its own length |
| `TagCodec.EncodeTagLoop` | android/core/src/main/jni/libevent/event_tagging.c:174-194 | the loop writes seven bits a byte, least first, with the continuation bit on all but the last |
| `TagCodec.DecodeTagLoop` | android/core/src/main/jni/libevent/event_tagging.c:197-242 | the shifting loop computes the tag the byte string means, or rejects what does not fit 32 bits; it reads a sixth byte, behind the five made contiguous, if and only if the first five all have the continuation bit, the fifth is in range, and the buffer has more |
| `TagCodec.SixthByteRead` | android/core/src/main/jni/libevent/event_tagging.c:211-222 | six bytes for which it does, and they are no tag |
| `TagCodec.TagRoundTrip` | android/core/src/main/jni/libevent/event_tagging.c:174-242 | every 32-bit tag, followed by anything, decodes to itself and its own length |
| `Tagging.DecodeTagInternal` | android/core/src/main/jni/libevent/event_tagging.c:196-242 | decodes the tag at the front of a buffer spread over chains, draining it if asked and nothing else; says exactly when a byte behind the contiguous five is read |
| `Tagging.DecodeIntInternal` | android/core/src/main/jni/libevent/event_tagging.c:315-350 | decodes the integer at an offset of a buffer spread over chains and changes no byte |
| `Tagging.DecodeIntDrain` | android/core/src/main/jni/libevent/event_tagging.c:375-393 | decodes and drains an integer, or changes nothing |
| `Tagging.UnmarshalHeader` | android/core/src/main/jni/libevent/event_tagging.c:437-451 | result, tag and remaining bytes of a record header, including what a failed header has already drained |
| `Tagging.PeekLength` | android/core/src/main/jni/libevent/event_tagging.c:401-417 | reports the length of the record at the front, modulo 2^32, and changes no byte |
| `Tagging.Consume` | android/core/src/main/jni/libevent/event_tagging.c:453-462 | drains header and payload as the length comes back from its trip through int |
| `Tagging.ConsumeIsPeek` | android/core/src/main/jni/libevent/event_tagging.c:401-462 | when the sum fits 32 bits, consume drains exactly what peek reports if and only if the payload is below 2^31 bytes or ends the buffer |
| `Tagging.ConsumeTakesTooMuch` | android/core/src/main/jni/libevent/event_tagging.c:401-462 | a record of 2^31 bytes with one byte behind it, which consume takes as well |
| `Tagging.Unmarshal` | android/core/src/main/jni/libevent/event_tagging.c:466-480 | moves one payload to the destination and reports its tag, or fails and moves nothing |
| `Tagging.Marshal` | android/core/src/main/jni/libevent/event_tagging.c:257-264 | appends tag, length and payload, each as far as the buffer takes it |
| `Tagging.HeaderOfRecord` | android/core/src/main/jni/libevent/event_tagging.c:257-451 | the header of any marshalled record gives back its tag and length and leaves the payload next |
| `Tagging.MarshalAll` | android/core/src/main/jni/libevent/event_tagging.c:257-264 | marshalling a list appends the stream of its records |
| `Tagging.UnmarshalAll` | android/core/src/main/jni/libevent/event_tagging.c:466-480 | reading a stream back gives exactly the records marshalled and leaves what followed them |
| `Tagging.StreamRoundTrip` | android/core/src/main/jni/libevent/event_tagging.c:257-480 | every list of records with 32-bit tags and payloads under 2^31 bytes survives a buffer |
| `TokenBucket.RefillIsNaive` | android/core/src/main/jni/libevent/bufferevent_ratelim.c:74-111 | for a limit at most the maximum the division form equals min(limit + ticks * rate, maximum), and no 64-bit operation wraps |
| `TokenBucket.RefillAboveMax` | android/core/src/main/jni/libevent/bufferevent_ratelim.c:96-105 | above the maximum the two forms agree if and only if the gain reaches the wrapped difference |
| `TokenBucket.RefillWraps` | android/core/src/main/jni/libevent/bufferevent_ratelim.c:96-105 | above the maximum a refill ends at or below zero if and only if the sum lies past the signed range and not past 2^64 |
| `TokenBucket.RefillCanWrap` | android/core/src/main/jni/libevent/bufferevent_ratelim.c:96-105 | a concrete positive limit that a refill makes negative |
| `TokenBucket.RefillSplits` | android/core/src/main/jni/libevent/bufferevent_ratelim.c:74-111 | splitting an interval into any number of refills changes nothing |
| `TokenBucket.TicksAfterSettled` | android/core/src/main/jni/libevent/bufferevent_ratelim.c:79-86 | a later update never counts more ticks than have passed, across the wrap of the 32-bit counter |
| `RateLimit.NewCfg` | android/core/src/main/jni/libevent/bufferevent_ratelim.c:142-170 | accepts exactly rates between 1 and the burst, and bursts up to the signed maximum; each direction gets its own rate and burst, and the tick is the length given in whole milliseconds, cut to 32 bits, or a second; the result can be used exactly if that is at least one |
| `RateLimit.ZeroTick` | android/core/src/main/jni/libevent/bufferevent_ratelim.c:142-170 | a configuration it accepts with a tick of no milliseconds |
| `RateLimit.RateLimited.Update` | android/core/src/main/jni/libevent/bufferevent_ratelim.c:74-139 | the state stays sound if and only if no running direction overflows, which holds whenever limits are at most their maxima |
| `RateLimit.RateLimited.GetRlimMax` | android/core/src/main/jni/libevent/bufferevent_ratelim.c:198-258 | updates the bucket and returns the limit, never less than zero |
| `RateLimit.RateLimited.DecrementBuckets` | android/core/src/main/jni/libevent/bufferevent_ratelim.c:272-346 | after use a direction is suspended for bandwidth exactly when its limit is exhausted, and the timer is set again, no longer about to run |
| `RateLimit.RateLimited.DecrementLimit` | android/core/src/main/jni/libevent/bufferevent_ratelim.c:972-1025 | crossing zero suspends or resumes and sets or clears the timer; the invariant holds for any decrement that does not overflow |
| `RateLimit.RateLimited.RefillCallback` | android/core/src/main/jni/libevent/bufferevent_ratelim.c:393-439 | suspensions that are paid for end, and the timer is set again exactly when one is left |
| `RateLimit.RateLimited.SetRateLimit` | android/core/src/main/jni/libevent/bufferevent_ratelim.c:559-636 | removing, keeping, changing or first setting a configuration leaves limits, flags and timer in step |
| `RateLimit.RateLimited.InitBucket` | android/core/src/main/jni/libevent/bufferevent_ratelim.c:49-72 | a first configuration starts with one tick's allowance, a changed one only takes what is above the new maximum away |
| `RateLimit.RateLimited.ExhaustedStandsStill` | android/core/src/main/jni/libevent/bufferevent.c:66-112 | in every state of the invariant an exhausted direction is not running in the backend and a refill is on its way |
| `RateLimit.RateLimited.SetOther` | android/core/src/main/jni/libevent/bufferevent.c:66-112 | other suspensions and enabling or disabling change no limit and no bandwidth suspension |
| `RateRuns.Apply` | android/core/src/main/jni/libevent/bufferevent_ratelim.c:198-1025 | every call, manual refills above the maximum included, leaves the state a function of state, call and clock gives, sound if and only if it does not update a bucket so far above its maximum that the sum overflows |
| `RateRuns.Run` | android/core/src/main/jni/libevent/bufferevent_ratelim.c:198-1025 | over every run the state is what the calls mean, and an exhausted bucket is suspended with a refill on its way in every state before the first call that overflows, whose number is returned and where the invariant is lost; a run that starts within the maxima and has no manual refill never loses it |
| `RateRuns.OverfullRun` | android/core/src/main/jni/libevent/bufferevent_ratelim.c:972-1025 | a run of four calls after which a direction runs with a negative bucket |
| `RateRuns.Window` | android/core/src/main/jni/libevent/bufferevent_ratelim.c:198-293 | however turns are chosen, the bytes each direction moves are those the updated limit allows turn by turn, and in a window of k ticks of the clock they are at most maximum + k * rate in all |
| `RateRuns.Recover` | android/core/src/main/jni/libevent/bufferevent_ratelim.c:393-439 | refills at any times, whatever the clock does, end a suspension if and only if the gain for the ticks that count exceeds the debt; when each counts, after at most debt / rate + 1 of them |
| `RateRuns.RefillAfterChange` | android/core/src/main/jni/libevent/bufferevent_ratelim.c:55-86 | after a change of configuration a refill counts exactly if its tick seems between 1 and 2^31 - 1 ahead of the last update, which keeps its number; when the new ticks lie behind, not for as many ticks as they do |
| `RateRuns.Retune` | android/core/src/main/jni/libevent/bufferevent_ratelim.c:393-636 | an exhausted direction that is given another configuration is refilled for exactly the ticks that count |
| `RateRuns.TickStall` | android/core/src/main/jni/libevent/bufferevent_ratelim.c:55-86 | from ticks of 1 ms to ticks of 1 s: exhausted for nine million seconds |
| `Arc4.MixReversible` | android/core/src/main/jni/libevent/arc4random.c:426-437 | a step keeps the table a permutation and can be undone, so no two states are ever merged |
| `Arc4.HoldsAll` | android/core/src/main/jni/libevent/arc4random.c:97-107 | such a table holds every byte |
| `Arc4.Generator.Init` | android/core/src/main/jni/libevent/arc4random.c:97-107 | the table is the identity and both cursors are zero |
| `Arc4.Generator.AddRandom` | android/core/src/main/jni/libevent/arc4random.c:107-122 | mixes the key cyclically for 256 steps, keeps the permutation, and ends with both cursors one below the old i |
| `Arc4.KeyedCursor` | android/core/src/main/jni/libevent/arc4random.c:107-122 | through a key schedule of any length the table stays a permutation and the cursor advances by one a step |
| `Arc4.Generator.GetByte` | android/core/src/main/jni/libevent/arc4random.c:425-437 | one step, and the byte the two swapped entries select |
| `Arc4.Generator.GetWord` | android/core/src/main/jni/libevent/arc4random.c:439-450 | the next four bytes of the stream, the first of them on top |
| `Arc4.Generator.Stir` | android/core/src/main/jni/libevent/arc4random.c:372-410 | what every source gave is mixed in, in order, into the table there was or the identity, and the first 3072 bytes are dropped if there ever was a seed |
| `Arc4.Generator.AddAll` | android/core/src/main/jni/libevent/arc4random.c:465-481 | the input is mixed in once from every 256th byte on, into a table that was stirred first if there was none |
| `Arc4.ThresholdExact` | android/core/src/main/jni/libevent/arc4random.c:530-540 | the computation in 32-bit words gives 2^32 mod upper_bound |
| `Arc4.Unbiased` | android/core/src/main/jni/libevent/arc4random.c:512-522 | every result has exactly (2^32 - min) / upper_bound accepted words |
| `Arc4.MostAccepted` | android/core/src/main/jni/libevent/arc4random.c:545-549 | fewer than half of all words are rejected |
| `Arc4.Generator.Random` | android/core/src/main/jni/libevent/arc4random.c:484-495 | the word and the whole new generator: stirred first exactly when its allowance is used up, it never was, or the process is another, then the next four bytes of the stream |
| `Arc4.Generator.RandomBuf` | android/core/src/main/jni/libevent/arc4random.c:497-509 | the buffer holds the stream backwards, of the generator stirred before the first byte if needed and before any byte at which the allowance is used up |
| `Arc4.Generator.UniformDraw` | android/core/src/main/jni/libevent/arc4random.c:523-557 | the words drawn and the generator left are those of as many draws one after the other; the result is the first accepted word reduced, and no earlier word was accepted |
| `Arc4.Run` | android/core/src/main/jni/libevent/arc4random.c:97-557 | over every run of stirs, additions, draws and filled buffers, once there is a table it holds every byte |
| `MinHeap.ShiftUp` | android/core/src/main/jni/libevent/minheap-internal.h:161-171 | an order broken only towards the parent is repaired, keeping the entries |
| `MinHeap.ShiftDown` | android/core/src/main/jni/libevent/minheap-internal.h:173-186 | an order broken only towards the children is repaired, keeping the entries |
| `MinHeap.Erased` | android/core/src/main/jni/libevent/minheap-internal.h:96-115 | the last entry put in place of an erased one is too early or too late there, never both |
| `MinHeap.TopEarliest` | android/core/src/main/jni/libevent/minheap-internal.h:69-69 | the top of a heap is due first of all its members |
| `MinHeap.Top` | android/core/src/main/jni/libevent/minheap-internal.h:69-69 | an event due first, or none exactly when the heap is empty |
| `MinHeap.Push` | android/core/src/main/jni/libevent/minheap-internal.h:71-77 | adds exactly the event and keeps the order |
| `MinHeap.Erase` | android/core/src/main/jni/libevent/minheap-internal.h:96-115 | removes exactly the event and keeps the order |
| `MinHeap.Adjust` | android/core/src/main/jni/libevent/minheap-internal.h:117-131 | after any change of one deadline the order holds again; an event that is not in is pushed |
| `TimeoutBits.Unpack` | android/core/src/main/jni/libevent/event.c:1352-1373 | packing queue number and magic into the microseconds loses nothing and is recognised exactly while the queue exists |
| `TimeoutBits.PlainIsPlain` | android/core/src/main/jni/libevent/event.c:1364-1373 | a plain timeval is never taken for a common one |
| `TimeoutBits.SameOrder` | android/core/src/main/jni/libevent/event.c:3290-3304 | comparing two timevals of one queue, or two plain ones, word for word compares their deadlines |
| `TimeoutBits.Decoded` | android/core/src/main/jni/libevent/event.c:1358-1390 | a stored word is recognised as common exactly if it was made for a queue, and names that queue |
| `TimeoutBits.StampNames` | android/core/src/main/jni/libevent/event.c:2664-2678 | what event_add stores names the time asked for, counted from now unless absolute, in the queue the interval named |
| `TimeoutBits.AgainNames` | android/core/src/main/jni/libevent/event.c:1529-1567 | a persistent event's next deadline is a period after the last, or after now if it ran for another reason or missed a turn, and stays in its queue |
| `TimeoutBits.Normalised` | android/core/src/main/jni/libevent/event.c:1453-1460 | the duration looked for is as long as the one asked for, without the bits that name a queue, and has at most a million microseconds |
| `Timers.WordsCompare` | android/core/src/main/jni/libevent/minheap-internal.h:61-62 | of two events in the same structure the stored words compare as the deadlines do |
| `Timers.InsertTimed` | android/core/src/main/jni/libevent/event.c:3363-3385 | the event joins the structure its stored word names, the heap array with heap order kept or the queue in order |
| `Timers.EraseTimed` | android/core/src/main/jni/libevent/event.c:3215-3235 | the event leaves the structure its stored word names, and heap and words stay right |
| `Timers.StampedKeeps` | android/core/src/main/jni/libevent/event.c:2612-2678 | an event in no structure may take any word and a period for the same queue |
| `BucketQueues.InsertInorder` | android/core/src/main/jni/libevent/event.c:3280-3307 | the entry goes behind all that are due no later and in front of the others, so the queue stays sorted |
| `EventLoop.Loop.InsertInserted` | android/core/src/main/jni/libevent/event.c:3310-3323 | the flag is set and event_count follows unless the event is internal |
| `EventLoop.Loop.RemoveInserted` | android/core/src/main/jni/libevent/event.c:3172-3183 | the flag is cleared and event_count follows |
| `EventLoop.Loop.InsertActive` | android/core/src/main/jni/libevent/event.c:3326-3345 | the callback joins the end of its priority's queue once, flags and both counters in step |
| `EventLoop.Loop.RemoveActive` | android/core/src/main/jni/libevent/event.c:3184-3199 | the callback leaves its queue, in which the others keep their order, flags and both counters in step |
| `EventLoop.Loop.InsertActiveLater` | android/core/src/main/jni/libevent/event.c:3347-3361 | the callback joins the later queue once, unless it is already active or later |
| `EventLoop.Loop.RemoveActiveLater` | android/core/src/main/jni/libevent/event.c:3200-3214 | the callback leaves the later queue, in which the others keep their order |
| `EventLoop.Loop.InsertTimeout` | android/core/src/main/jni/libevent/event.c:3363-3385 | the event joins the heap or its common queue in order, as its stored word says, with flag and count in step |
| `EventLoop.Loop.RemoveTimeout` | android/core/src/main/jni/libevent/event.c:3215-3235 | the event leaves the structure its stored word names, with flag and count in step |
| `EventLoop.Loop.MakeLaterActive` | android/core/src/main/jni/libevent/event.c:3387-3400 | everything later becomes active, behind what already was and in order for each priority, and the count is unchanged |
| `EventLoop.Loop.Activate` | android/core/src/main/jni/libevent/event.c:2864-2912 | flags, queues in their order and reasons after an activation, for idle, active, later and finalizing callbacks |
| `EventLoop.Loop.ActivateCallback` | android/core/src/main/jni/libevent/event.c:2951-2978 | says whether the callback was idle, and moves it to the end of its queue unless it was active |
| `EventLoop.Loop.Del` | android/core/src/main/jni/libevent/event.c:2760-2844 | the event leaves every structure, and the queues are otherwise as they were; a finalizing one is left alone |
| `EventLoop.Loop.Add` | android/core/src/main/jni/libevent/event.c:2547-2719 | the whole new status of the event: deadline and queue as the timeval says, the period of a cyclic event, leaving the active queue for an earlier timeout; no other program event changes, and the order of the queues is kept |
| `EventLoop.Loop.Assign` | android/core/src/main/jni/libevent/event.c:2065-2109 | a new event is in no structure; it is cyclic exactly if it is persistent and not a signal; no other callback changes its kind |
| `EventLoop.Loop.Schedule` | android/core/src/main/jni/libevent/event.c:1406-1413 | the timer of a common queue is set for its head, and no other callback changes |
| `EventLoop.Loop.Delete` | android/core/src/main/jni/libevent/event.c:2760-2844 | every flag of the event is cleared, and no other callback changes |
| `EventLoop.Loop.TimeoutProcess` | android/core/src/main/jni/libevent/event.c:3125-3149 | exactly the heap's events due by now are activated for their timeout, and nothing else changes; each priority's queue is the old one without them, followed by those of that priority in the order of their deadlines |
| `EventLoop.Loop.ExpireEarliest` | android/core/src/main/jni/libevent/event.c:3138-3149 | the event activated is due no later than any in the heap |
| `RunOrder.BehindNext` | android/core/src/main/jni/libevent/event.c:3125-3149 | making one more callback active keeps every queue what it was, without those made active, and these behind it in order |
| `EventLoop.Loop.ExpireQueue` | android/core/src/main/jni/libevent/event.c:1426-1436 | exactly the due events of one common queue are activated, behind what was active and in the order of their deadlines |
| `EventLoop.Loop.RunTrigger` | android/core/src/main/jni/libevent/event.c:1418-1440 | a queue's timer callback activates its due events, in the order of their deadlines, and sets the timer again, so that every queue is armed |
| `EventLoop.Loop.ExpireAll` | android/core/src/main/jni/libevent/event.c:3125-3149 | with the time fixed, timeout processing and the queue timers activate exactly the program's events whose deadline is at most now |
| `EventLoop.Loop.InitCommon` | android/core/src/main/jni/libevent/event.c:1443-1515 | an existing duration gives its interval, a new one a new queue and an interval that names it, and 256 are the limit; overlong microseconds are normalised |
| `EventLoop.Loop.EventFinalize` | android/core/src/main/jni/libevent/event.c:2196-2208 | the event leaves every structure and runs once more as finalizing |
| `EventLoop.Loop.RunNext` | android/core/src/main/jni/libevent/event.c:1590-1625 | the first callback of a queue leaves it, and the queues are otherwise as they were; a non-persistent event leaves every structure; a cyclic one with a period is added again for its next deadline if the backend takes it; a queue's timer activates exactly the due events of its queue |
| `EventLoop.Loop.CyclicFacts` | android/core/src/main/jni/libevent/event.c:1529-1567 | when a persistent event runs its timeout and its period are for the same queue, as the source asserts, and the time computed is the one wanted |
| `EventLoop.Loop.RemoveTimer` | android/core/src/main/jni/libevent/event.c:2504-2521 | a waiting timeout and its period are gone, and nothing else changes |
| `EventLoop.Loop.FlagsTell` | android/core/src/main/jni/libevent/event.c:3884-3940 | each flag holds exactly for the callbacks in the matching structure, once; active and later exclude each other; both counters are what they count |
| `EventLoop.Run` | android/core/src/main/jni/libevent/event.c:2547-3400 | over every run of adds, deletes, activations, timeouts, common queues and callbacks, persistent ones set again, each call takes one state to the next as it should, for every program event, and flags, queues, counters, heap array and stored words agree in every state |
| `EventLoop.FinalizedStays` | android/core/src/main/jni/libevent/event.c:2196-2208 | in every run an event that was finalized is never again with the backend or waiting for a timeout |
| `DnsServers.Pick` | android/core/src/main/jni/libevent/evdns.c:1334-1367 | gives the next server that is up and turns the ring past it within one lap; with none up, the next whatever its state |
| `DnsServers.RoundRobin` | android/core/src/main/jni/libevent/evdns.c:1334-1367 | with the states fixed, as many picks as there are up servers give each of them exactly once |
| `DnsServers.AddedOk` | android/core/src/main/jni/libevent/evdns.c:2541-2552 | a new server joins the ring behind the head, up and counted as good |
| `DnsQueues.FlyingOk` | android/core/src/main/jni/libevent/evdns.c:2823-2842 | a request with a free id and a server joins the list its id hashes to, and all counters and ids stay right |
| `DnsQueues.WaitingOk` | android/core/src/main/jni/libevent/evdns.c:2823-2842 | a request without a server joins the waiting list |
| `DnsQueues.LandedOk` | android/core/src/main/jni/libevent/evdns.c:648-672 | a request leaves its in-flight list and is subtracted from the counters that counted it, which were positive |
| `DnsQueues.UnqueuedOk` | android/core/src/main/jni/libevent/evdns.c:648-672 | a request leaves the waiting list and its counter |
| `DnsQueues.SwappedOk` | android/core/src/main/jni/libevent/evdns.c:544-553 | swapping servers moves one from the old server's load to the new one's; the old load was positive |
| `DnsQueues.Rehash` | android/core/src/main/jni/libevent/evdns.c:3385-3414 | changing the number of lists puts every request in flight into the list its id hashes to among the new ones |
| `DnsQueues.Find` | android/core/src/main/jni/libevent/evdns.c:469-483 | finds the request in flight with an id exactly when there is one |
| `DnsQueues.FreeIdExists` | android/core/src/main/jni/libevent/evdns.c:1317-1329 | while fewer than 65535 requests are in flight there is an id to pick |
| `DnsEffort.CountedOk` | android/core/src/main/jni/libevent/evdns.c:2267-2285 | counting a transmission keeps the bound on all transmissions |
| `DnsEffort.AgainOk` | android/core/src/main/jni/libevent/evdns.c:715-735 | a reissue uses one of the reissues left and starts the tries over within the bound |
| `DnsEffort.TransmittedMore` | android/core/src/main/jni/libevent/evdns.c:2344-2366 | sending some of the marked requests and then some of those still marked sends each at most once |
| `DnsEffort.OneCallback` | android/core/src/main/jni/libevent/evdns.c:829-865 | a request that left the queues has had exactly one callback, a live one none |
| `DnsMoves.MoversAre` | android/core/src/main/jni/libevent/evdns.c:601-615 | the requests moved when a server fails are exactly its unsent ones, each once |
| `DnsMoves.RoundSame` | android/core/src/main/jni/libevent/evdns.c:1334-1367 | two picks of the round of up servers give the same server exactly when the picks from one to the other go round |
| `DnsMoves.DealtReissue` | android/core/src/main/jni/libevent/evdns.c:557-735 | for a moved request the pick of the reissue is another server than it was moved to exactly if the picks between do not go round |
| `DnsMoves.OpenReissue` | android/core/src/main/jni/libevent/evdns.c:714-735 | a request that has been sent, or whose server was down already, is reissued whenever another server is up |
| `DnsMoves.LoneReissue` | android/core/src/main/jni/libevent/evdns.c:714-735 | one not sent is not reissued when only one other server is up |
| `Resolver.Base.MoveAll` | android/core/src/main/jni/libevent/evdns.c:601-615 | the unsent requests of the failed server, in list order, get the up servers in ring order and round again; no other request is moved |
| `Resolver.Base.Fail` | android/core/src/main/jni/libevent/evdns.c:557-616 | the server is down and counted out once, and if another is up its unsent requests, in order, are dealt the up servers in ring order; sent ones are not moved |
| `Resolver.Base.MarkUp` | android/core/src/main/jni/libevent/evdns.c:618-636 | the server is up and counted in once, and no other changes its state unless a send broke; nothing but its own probe is cancelled, with one callback, and waiting requests take its place |
| `Resolver.Base.Transmit` | android/core/src/main/jni/libevent/evdns.c:2237-2286 | counted exactly when the send was tried and did not merely choke; otherwise marked for later; a choke marks the server choked, a broken send takes it down, anything else leaves servers and queues as they were |
| `Resolver.Base.TransmitAll` | android/core/src/main/jni/libevent/evdns.c:2344-2366 | requests marked for transmission are sent, each once and no others; all of them if no server chokes; no request is moved |
| `Resolver.Base.Pump` | android/core/src/main/jni/libevent/evdns.c:742-770 | waiting requests go out in order until the limit is reached, none waits, or there is no server; those let out are in flight and sent or due to be, and once one was, nothing is left to send unless a server is choked |
| `Resolver.Base.Finish` | android/core/src/main/jni/libevent/evdns.c:648-706 | the request leaves its list and every counter, exactly once, and waiting requests take its place: afterwards the limit is reached, none waits, or there is no server; those that wait are the last of those that did, in order, and the others are in flight and sent or due to be |
| `Resolver.Base.Reissue` | android/core/src/main/jni/libevent/evdns.c:714-735 | starts the request over with the next pick, tries at zero, one reissue counted and marked for transmission, if and only if that is another server than it has |
| `Resolver.Base.TimeoutRequest` | android/core/src/main/jni/libevent/evdns.c:2160-2196 | once the tries are used gives up with one callback, lets waiting requests out and marks the server down; else sends the request to the server picked next, counted unless that chokes, and counts the timeout against it, the one too many marking it down |
| `Resolver.Base.HandleReply` | android/core/src/main/jni/libevent/evdns.c:867-957 | a usable or final answer ends the request with one callback, and besides it at most the server's probe; the server is up unless a send broke, and waiting requests take their places; a refusal reissues the request if and only if a reissue is left and the exact condition on ring, up servers and unsent requests holds, and ends it otherwise; a server failure does what a timeout does |
| `Resolver.Base.Accept` | android/core/src/main/jni/libevent/evdns.c:911-956 | a good answer has its callback scheduled before that of the cancelled probe, a final error after it; the rest is the same |
| `Resolver.Base.HandleRefusal` | android/core/src/main/jni/libevent/evdns.c:896-908 | reissued exactly under that condition, with the server down, else ended with one callback |
| `Resolver.RefusedTwice` | android/core/src/main/jni/libevent/evdns.c:557-735 | three servers and the same refusal twice: the request ends although a server is up |
| `Resolver.Base.Receive` | android/core/src/main/jni/libevent/evdns.c:1016-1058 | a packet that is too short, answers nothing in flight or is no answer resets the server's count of timeouts and changes nothing else; any other has, on the one request in flight with its id, the effect its header and body call for, a refusal reissuing exactly under the condition of HandleReply |
| `Resolver.Judge` | android/core/src/main/jni/libevent/evdns.c:868-935 | a reply is a refusal, a server failure or good exactly by its truncation bit, its code and whether it holds an answer |
| `Resolver.HeaderFields` | android/core/src/main/jni/libevent/evdns.c:1041-1049 | of the eight fields of the header word (section 4.1.1 of RFC 1035) the tests for an answer, for truncation and for the code find theirs |
| `Resolver.Base.Resolve` | android/core/src/main/jni/libevent/evdns.c:2746-2842 | a new request is in flight exactly when the limit allows and there is a server, and then sent or due to be; otherwise it waits |
| `Resolver.Base.Cancel` | android/core/src/main/jni/libevent/evdns.c:2843-2877 | a live request without a callback ends with exactly one and waiting requests take its place; any other is left alone |
| `Resolver.Base.SendProbe` | android/core/src/main/jni/libevent/evdns.c:2314-2338 | a probe is in flight with the server it probes, whatever the limit, and sent or due to be |
| `Resolver.Base.ProbeDone` | android/core/src/main/jni/libevent/evdns.c:2288-2312 | the probe is forgotten; a server that is down comes up with its counts zeroed if the probe was good, and has one more failed time if not; nothing else changes |
| `Resolver.Base.SetMaxInflight` | android/core/src/main/jni/libevent/evdns.c:3385-3414 | limit and lists change, no request does, and every law still holds |
| `Resolver.Base.AddServer` | android/core/src/main/jni/libevent/evdns.c:2541-2552 | the server is in the ring, up, with no load, no probe and nothing counted against it |
| `Resolver.Base.Writable` | android/core/src/main/jni/libevent/evdns.c:1493-1509 | a server that can be written to again is choked no longer, and what is due is sent, all of it if no server is choked afterwards |
| `Resolver.Base.RequestLaws` | android/core/src/main/jni/libevent/evdns.c:649-735 | of every request ever made: at most (max_reissues + 1) * max(1, max_retransmits) transmissions; one callback exactly when it left; in flight, a real id of its own in the list it hashes to, once |
| `Resolver.Base.CounterLaws` | android/core/src/main/jni/libevent/evdns.c:288-318 | in every state the in-flight, waiting, per-server and good-server counters equal the sizes they stand for |
| `Resolver.Run` | android/core/src/main/jni/libevent/evdns.c:469-3414 | over every run, whatever the network does, these laws hold in every state; the servers, the limit and the requests are those the run named; a request that was submitted and cancelled later has ended with exactly one callback |

## Left out

- Pinned, reference, multicast, file-segment and sendfile chains of evbuffers, locks, and `evbuffer_reserve_space` with `evbuffer_commit_space`.
- Chains are values in a sequence: which chain a link belongs to is kept as a slot number, so freed memory and aliasing show only as a link whose owner must survive.
- The sizes of the platform are those of LP64, with a chain header of 48 bytes.
- Return values that the source narrows to `int` are returned in full by the evbuffer model.
- EvBuffers.EvBuffer.InvokeCallbacks: callbacks are all enabled and all deferred or none; one that changes its own buffer while it runs, and callbacks that opt out of deferral, are not modelled.
- EvBuffers.EvBuffer.PrependBuffer: requires the two lengths to fit `size_t` together, as AddBuffer does.
- EvBuffers.EvBuffer.AddBuffer: requires the two lengths to fit `size_t` together, which the source takes for granted.
- EvBuffers.EvBuffer.Read: takes what FIONREAD says and what is on the wire as arguments; the system gives all of it that the vectors have room for.
- BufferRuns.Run: leaves prepending a whole buffer out of the runs, because it can leave the sharp invariant; EvBuffers.EvBuffer.PrependBuffer says exactly when. A prepend, an expansion or a move that is too large for a chain or for `size_t` is not in the runs either, because what comes of it depends on the chains.
- Signals in evmap, errors of `epoll_ctl` other than EEXIST and ENOENT, and the debug check against mixing edge-triggered and level-triggered events.
- EvMaps.EventBase.IoDel: requires the event to be on the list of its fd, as event.c does by its flag.
- DnsNames.MessageRoundTrip: asks that every pointer written be to an offset below 0x4000, which DnsNames.SmallBufferReaches gives for every caller's buffer; a farther pointer may still read back by chance.
- DnsNames.DnsnameToLabels: returns -3 where the source writes its closing zero byte past the buffer.
- Messages of the DNS server side beyond names, search domains, clearing and suspending nameservers, hosts and resolv.conf files, getaddrinfo.
- Resolver.Base.Receive: whether the body parses, matches the question and holds an answer is an argument.
- Resolver.Base.Resolve: building the request packet and refusing over-long names are not part of it.
- Resolver.Base.SendProbe: requires a free transaction id, without which the source searches for ever.
- Resolver.Base.TimeoutRequest: may happen to any request in flight at any time; when timers are set is not modelled, nor the growing pause between probes.
- Transaction ids are picked as any free one: the distribution of the random source is not modelled.
- DnsEffort.CountedOk: the limits on retransmits and reissues stay the same during a run.
- Tagging.DecodeTagInternal: says when a sixth byte is read, and not what lies there; the result does not depend on it.
- Tagging.Unmarshal: requires two different buffers, because with one the source hands `evbuffer_add` a pointer into memory that the same call may move.
- `evtag_marshal_int`, `evtag_unmarshal_fixed` and the other record types, which are the same steps again.
- Rate-limit groups, and failures of `event_add`.
- RateLimit.RateLimited.Update: needs a configuration whose tick has at least a millisecond; with a shorter one the source divides by zero.
- RateRuns.Run: passes over a call whose own sum overflows `ssize_t`, which is undefined in the source.
- The entropy sources, process ids and locks of the random generator; Arc4.Generator.Stir takes what the sources produced as an argument.
- MinHeap.Erase: finds the event by searching instead of by the index the event carries; allocation of the array is not modelled.
- MinHeap.Push: compares deadlines where the source compares stored words; Timers.WordsCompare says that this is the same.
- MinHeap.Adjust: is called by the source only in a variant that is switched off (event.c:3237-3277).
- Event priorities changing while queued, threads waiting for a running callback, and wake-ups of the loop.
- EventLoop.Loop.RunNext: does what the loop does to the queues before the callback runs; what the callback then calls is a step of its own.
- EventLoop.Loop.Add: whether the backend takes the event is an argument; the fd lists are the subject of EvMaps. An interval must be plain or come from the base's own common timeouts, as the header asks, and have at most a million microseconds (TimeoutBits.Proper); the source adds a longer one as it is and may store an unnormalised deadline.
- EventLoop.Loop.ExpireAll: the timers of the common queues run one after the other with the cached time fixed, with no other callback in between.
- bufferevent filters, OpenSSL, HTTP, the Windows and Solaris backends, and the Android application around the library.
