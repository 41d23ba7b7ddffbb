# NI ADC sample-buffering pipeline

A Dafny model of the buffering core of `niadc_gui.py`. The GUI and the hardware
driver are left out. The model covers these parts:

- **The queues.** `Measurement.q_init` creates `k + 1` bounded deques of capacity
  `data_length`. Slot 0 holds timestamps. Header column `c + 1` names the channel
  configured at position `c`, for `k` configured channels. In the corrected loop
  queue slot `c + 1` holds that channel's samples. The loop as written does this
  only when the channels are configured in ascending order (see "## Findings").
- **One pass of the acquisition loop** (`Measurement.run`):
  - wrap a single-channel read into a list of lists;
  - keep the configured channels of the physical range `min..max`, using the
    `_channel_bool` flag list. As written this keeps them in ascending physical
    order (`Mask`). The corrected selection (`Select`) keeps them in configured order;
  - zip-concatenate the read onto the pending buffer `data`;
  - while the `lock` flag is clear, push the pending samples into the queues with
    `linspace` timestamps, then reset the pending buffer.
- **The drain** (`DataAcquisition._data_acquisition`): raise the flag, copy the
  queues, re-initialise them, lower the flag, and transpose the copy into rows
  when it holds any timestamp.
- **The column list** `['timestamp'] + ['ch_<i>' ...]`.

The files are:

- `bounded_queue.dfy`: deque semantics with `maxlen`.
- `channels.dfy`: the channel range, the flag-list mask, and the corrected selection.
- `timestamps.dfy`: the per-sample timestamps.
- `header.dfy`: the column names.
- `rows.dfy`: the transpose performed at export.
- `acquisition.dfy`: the loop step as a function over values. `NextState`
  takes a `Selection`: `AsWritten` applies the mask of line 59, and `Corrected`
  applies the selection in configured order. `Run` chains either one. The
  shape invariants (equal-length queues within capacity, the timestamps, the
  queues left alone while locked) are proved for both selections. The file
  also has the two thread objects as classes. `Measurement` owns an `array` of
  queues and the `lock` flag; its `Step` method is proved equal to the
  corrected `NextState`. `DataAcquisition` has `Drain`.

Samples and timestamps are exact reals. The pending buffer `data` is a local
variable of `run` in the source. Here it is a parameter of `Measurement.Step`,
and `Step` returns its next value.

## Model

| member | source | states |
|---|---|---|
| BoundedQueue.Append | niadc_gui.py:43 | one `append` to a deque with `maxlen=cap` that holds at most `cap` elements leaves it holding at most `cap` |
| BoundedQueue.AppendEach | niadc_gui.py:43 | appending the elements of a list one by one to a deque with `maxlen=cap` leaves it holding at most `cap` |
| BoundedQueue.Extend | niadc_gui.py:43 | a deque created with `maxlen=data_length` never holds more than `data_length` elements after an `extend` |
| BoundedQueue.AppendIsBounded | niadc_gui.py:43 | one `append` to a deque with `maxlen` leaves exactly the newest `cap` elements of the old contents followed by the new element |
| BoundedQueue.AppendEachIsExtend | niadc_gui.py:62-66 | `extend`, performed as one evicting `append` per element in order, equals keeping the newest `min(len(q) + len(xs), cap)` elements of `q + xs` |
| BoundedQueue.ExtendKeepsNewest | niadc_gui.py:62-66 | after `extend` the length is `min(len(q) + len(xs), cap)`, and element `i` is the matching element of the newest suffix of `q + xs` |
| BoundedQueue.ExtendByNothing | niadc_gui.py:62-66 | extending a deque by an empty read leaves it unchanged |
| BoundedQueue.Empties | niadc_gui.py:43 | `q_init` and the pending-buffer reset both produce `n` lists, all of them empty |
| Channels.Min | niadc_gui.py:48-49 | `min(self.channel)` is a configured channel and no configured channel is below it |
| Channels.Max | niadc_gui.py:48-49 | `max(self.channel)` is a configured channel and no configured channel is above it |
| Channels.Span | niadc_gui.py:48-49 | the physical range `min..max` the device is opened on holds at least one channel |
| Channels.Wrap | niadc_gui.py:58 | after wrapping, a read has one list per physical channel of the range, for one channel and for several |
| Channels.KeptFrom | niadc_gui.py:49 | each kept position lies in the scanned range, and its physical channel is configured |
| Channels.KeptFromSpec | niadc_gui.py:49 | the positions whose `_channel_bool` flag is true are exactly those whose physical channel is configured, each once, in ascending order |
| Channels.Mask | niadc_gui.py:59 | the mask as written keeps at most as many lists as the read has |
| Channels.MaskKeepsConfigured | niadc_gui.py:59 | the mask keeps read list `i` if and only if channel `min + i` is configured, and keeps the kept lists in ascending physical order |
| Channels.MaskCount | niadc_gui.py:59 | with distinct channels, the mask over the full range keeps exactly `k` lists, one per configured channel |
| Channels.SortedChannels | niadc_gui.py:48-49 | the physical channels whose `_channel_bool` flag is set are the configured channels in ascending order, each once |
| Channels.MaskFollowsAscendingOrder | niadc_gui.py:59 | with distinct channels, the mask as written keeps `k` lists, and list `j` is the read of the `j`-th smallest configured channel, whatever the configured order |
| Channels.Offsets | niadc_gui.py:49 | every configured channel lies inside the range, at offset `c - min` |
| Channels.Select | niadc_gui.py:59 | the corrected selection yields one list per configured channel |
| Channels.SelectFollowsConfiguredOrder | niadc_gui.py:59 | entry `j` of the corrected selection is the read of the channel configured at position `j`, which header column `j + 1` names |
| Channels.MaskIsSelectWhenAscending | niadc_gui.py:59 | for channels configured in ascending order, the mask as written equals the corrected selection |
| Channels.MaskMislabelsDescending | niadc_gui.py:59 | for channels `1,0` the mask puts channel 0's read in the slot that the header labels channel 1 |
| Timestamps.BlockDurationNs | niadc_gui.py:35 | `read_samples / sampling_rate * 1e9` is non-negative, and positive when a read asks for samples |
| Timestamps.Linspace | niadc_gui.py:63 | `linspace(t, t + T, n + 1)[:-1]` has `n` instants, and the first one is `t` |
| Timestamps.LinspaceEvenlySpaced | niadc_gui.py:62-64 | `linspace(t, t + T, n + 1)[:-1]` gives `n` instants: the first is `t`, consecutive ones are `T / n` apart, and all lie in `[t, t + T)` |
| Header.NatToDecimal | niadc_gui.py:221 | `str` of a natural number is a non-empty string of decimal digits, with no leading zero: it starts with `0` only for 0 |
| Header.IntToDecimal | niadc_gui.py:221 | `str` of a channel number is non-empty |
| Header.IntDecimalRoundTrip | niadc_gui.py:221 | `str(i)` reads back as `i`, so different channels print differently |
| Header.ChannelName | niadc_gui.py:221 | `f'ch_{i}'` is `ch_` followed by at least one character |
| Header.ChannelNamesDiffer | niadc_gui.py:221 | `f'ch_{a}' != f'ch_{b}'` whenever `a != b` |
| Header.TimestampIsNoChannelName | niadc_gui.py:221 | no channel column is called `timestamp` |
| Header.Columns | niadc_gui.py:221 | the column list has `k + 1` names |
| Header.ChannelNames | niadc_gui.py:221 | there is one channel column per configured channel |
| Header.ColumnsNameChannels | niadc_gui.py:221 | column 0 is `timestamp`, and column `j + 1` is `ch_<channel[j]>`, in configured order |
| Header.ChannelNamesDistinct | niadc_gui.py:221 | distinct channels get distinct column names |
| Header.ColumnsDistinct | niadc_gui.py:221 | for distinct channels no two header columns coincide |
| Rows.Transpose | niadc_gui.py:252 | `np.array(data).T` has one row per timestamp, and each row has one entry per queue |
| Rows.TransposeRowLayout | niadc_gui.py:252 | row `i` is `(ts[i], ch_0[i], ...)` |
| Rows.TransposeRoundTrip | niadc_gui.py:252 | reading the rows back by column gives the drained queues again, so the reshape loses and reorders nothing |
| Acquisition.Received | niadc_gui.py:57-59 | the corrected selection of one read has one list per configured channel |
| Acquisition.ReceivedAsWritten | niadc_gui.py:57-59 | with distinct channels, the read as masked at line 59 has one list per configured channel, so the push at line 66 does not run out of lists |
| Acquisition.Kept | niadc_gui.py:57-59 | under either selection the kept part of a read has one list per configured channel |
| Acquisition.KeptUniform | niadc_gui.py:57-59 | under either selection the kept lists of a well-formed read all have the read's length |
| Acquisition.Merge | niadc_gui.py:60 | the zip-concatenation has as many lists as the shorter of the pending buffer and the read |
| Acquisition.MergeUniform | niadc_gui.py:60 | zipping `k` equal-length pending lists with `k` equal-length kept lists gives `k` lists of the summed length |
| Acquisition.Push | niadc_gui.py:61-66 | a push extends every queue and keeps their number |
| Acquisition.Absorb | niadc_gui.py:60-67 | zip-concatenating a read's kept lists onto the pending buffer and, with `lock` clear, pushing and resetting, keeps the `k + 1` queues and leaves at least one pending list per channel |
| Acquisition.AbsorbLocked | niadc_gui.py:60-61 | with `lock` set the queues are unchanged and kept list `c` is appended to pending list `c` |
| Acquisition.AbsorbUnlocked | niadc_gui.py:60-67 | with `lock` clear, queue `c + 1` is extended by pending list `c` followed by kept list `c`, the timestamp queue by one `linspace` instant per sample of a channel, and the pending buffer becomes `k + 1` empty lists |
| Acquisition.AbsorbKeepsConsistent | niadc_gui.py:60-67 | merging `k` equal-length lists keeps `k + 1` equal-length queues within capacity and a well-shaped pending buffer; with `lock` clear every queue grows to `min(L + p + n, data_length)` |
| Acquisition.NextState | niadc_gui.py:55-67 | one pass of the loop, as written or corrected, keeps the `k + 1` queues and leaves at least one pending list per channel |
| Acquisition.AsWrittenIsCorrectedWhenAscending | niadc_gui.py:59 | when the channels are configured in ascending order, a pass of the loop as written equals a pass of the corrected loop, whatever the flag, read and buffers |
| Acquisition.AsWrittenMislabelsQueue | niadc_gui.py:59 | for channels `1,0`, one unlocked pass of the loop as written from the initial state puts physical channel 0's sample in queue slot 1, which column `ch_1` heads; the corrected loop puts channel 1's sample there |
| Acquisition.UnlockedStepEnqueuesAsWritten | niadc_gui.py:59-67 | in the loop as written, with `lock` clear, channel queue `c + 1` is extended by the pending and new samples of the `c`-th smallest configured channel, and the pending buffer becomes `k + 1` empty lists |
| Acquisition.LockedStepDefers | niadc_gui.py:55-61 | in the corrected loop, while `lock` is set the queues are unchanged, and each channel's read is appended to its pending list rather than dropped |
| Acquisition.UnlockedStepEnqueues | niadc_gui.py:61-67 | in the corrected loop, with `lock` clear, channel queue `c + 1` is extended by channel `c`'s pending and new samples, and the pending buffer becomes `k + 1` empty lists |
| Acquisition.UnlockedStepStamps | niadc_gui.py:61-64 | in either loop, with `lock` clear, the timestamp queue is extended by `linspace` instants, one per pending or newly read sample of a channel |
| Acquisition.StepKeepsConsistent | niadc_gui.py:53-67 | in either loop each pass keeps `k + 1` equal-length queues within capacity and a well-shaped pending buffer; an unlocked pass grows every queue to `min(L + p + n, data_length)` |
| Acquisition.LockedStepKeepsQueues | niadc_gui.py:55-61 | in either loop a locked pass keeps the state consistent, leaves the queues unchanged and appends kept list `c` of the read to pending list `c` |
| Acquisition.DeferredReadIsKept | niadc_gui.py:55-67 | in the corrected loop, a read taken while locked is enqueued by the next unlocked pass, before that pass's own read, on every channel |
| Acquisition.DeferredReadTimestamps | niadc_gui.py:55-64 | in either loop the deferred and the new samples get `n1 + n2` timestamps, all inside the second read's block interval |
| Acquisition.PushAfterDrain | niadc_gui.py:61-67 | in either loop, from empty queues with nothing pending, an unlocked pass leaves every queue with exactly `min(n, data_length)` samples |
| Acquisition.ExportedRowsMatchHeader | niadc_gui.py:221 | every exported row is as wide as the column list and starts with its timestamp |
| Acquisition.Initial | niadc_gui.py:53 | the loop's starting state (empty queues, `k + 1` empty pending lists) is consistent |
| Acquisition.Run | niadc_gui.py:55-67 | any sequence of passes of either loop, with the flag changing arbitrarily, reaches only consistent states |
| Acquisition.LockedRunKeepsQueues | niadc_gui.py:55-61 | in either loop, over any run of locked passes the queues do not change |
| Acquisition.LockedRunDefersReads | niadc_gui.py:55-61 | in either loop, over any run of locked passes pending list `c` gains kept list `c` of every read, in acquisition order |
| Acquisition.Measurement.constructor | niadc_gui.py:37-38 | a new measurement has `k + 1` empty queues and the flag clear |
| Acquisition.Measurement.QInit | niadc_gui.py:41-43 | `q_init` installs a fresh array of `k + 1` empty queues |
| Acquisition.Measurement.PushAll | niadc_gui.py:62-66 | extends the timestamp queue, then every channel queue in turn, and leaves the array equal to `Push` of its old contents |
| Acquisition.Measurement.Step | niadc_gui.py:55-67 | the in-place corrected pass leaves queues and pending buffer equal to the corrected `NextState` of the old ones under the current flag, and keeps them consistent |
| Acquisition.DataAcquisition.constructor | niadc_gui.py:221-241 | the export side starts with the column list for the configured channels and a measurement with empty queues |
| Acquisition.DataAcquisition.Drain | niadc_gui.py:245-253 | the snapshot is the queues as they were; the measurement gets fresh empty queues and the flag ends clear; rows are produced if and only if the snapshot holds a timestamp, and then they are its transpose |

## Left out

- The GUI, the plotting, the file dialogs and the configuration parsing are not part of this model.
- The `nidaqmx` task setup, `read` and close are left out. Each read becomes a `Block` parameter, whose shape is stated by `WellFormedRead`.
- `time.time_ns()` becomes a `start` parameter.
- The threads, the `while True` loops and `sleep` are left out. A run is a finite sequence of passes (`Acquisition.Run`) with the flag's value given at each pass, so interleavings inside a pass are not modelled. That includes a drain that starts after the flag was tested but before the push finished.
- `deepcopy` is a copy of the queue contents. Aliasing of the old deques after `q_init` is not modelled.
- The CSV writing in `_export_data`, the settings file and the save folder are left out. The model stops at `self.result`.
- `DataAcquisition.result` starts as an empty table. The source creates the attribute only at the first non-empty drain.
- Timestamps.Linspace: computes in exact reals. float64 rounding in `numpy.linspace` and in `read_samples / sampling_rate * 1e9` is not modelled.
- Samples are reals. The driver's float64 voltages and their range limits of ±5 V are not modelled.
- Configurations the source cannot run are excluded by `Config.Valid`:
  - An empty channel list: `min` raises.
  - A repeated channel: the loop fails. If the range `min..max` covers several physical channels, the mask keeps fewer than `k` lists and the push raises `IndexError` at line 66.
    If every entry is the same channel, the device is opened on that one channel and returns a flat list that line 58 does not wrap. Line 59 then raises `IndexError` when a read has two or more samples, and line 60 raises `TypeError` when it has one.
  - A zero sampling rate: the division at line 35 raises.
  - A negative `data_length`: `deque` rejects it. The capacity is a `nat`.
- Locked reads: a read taken while the flag is set is not dropped. The code keeps it in the pending buffer and enqueues it at the next unlocked pass (`LockedStepDefers`, `DeferredReadIsKept`).
- Acquisition.Measurement.Step: performs the corrected pass (`NextState` with `Corrected`). The loop as written (`NextState` with `AsWritten`) is modelled on values only. The two are equal when the channels ascend (`AsWrittenIsCorrectedWhenAscending`).
- Acquisition.LockedStepDefers: names each pending list by its configured channel, which is true of the corrected loop. For the loop as written, `LockedStepKeepsQueues` states the same step in terms of the kept lists.
- Acquisition.UnlockedStepEnqueues: states the corrected loop's per-channel contents. The loop as written fills queue `c + 1` from the `c`-th smallest channel instead (`UnlockedStepEnqueuesAsWritten`).
- Acquisition.DeferredReadIsKept: states the corrected loop's per-channel contents. The two-pass contents are not stated for the loop as written; its timestamps are (`DeferredReadTimestamps`).
- `StepKeepsConsistent`, `LockedStepKeepsQueues`, `UnlockedStepStamps`, `DeferredReadTimestamps`, `PushAfterDrain`, `Run`, `LockedRunKeepsQueues` and `LockedRunDefersReads` are proved for both the loop as written and the corrected loop.
- Acquisition.PushAfterDrain: starts from empty queues with nothing pending. A drain empties the queues but not the pending buffer of `run`, which still holds any reads taken while the flag was set.
- Acquisition.DataAcquisition.constructor: combines the column list built in `__init__` (line 221) with the creation of the `Measurement` in `_start_recording` (line 241). The settings file and the save folder that `__init__` also creates are left out.

## Findings

| source | as written | input that shows it | evidently intended | confidence | as-written member | corrected member |
|---|---|---|---|---|---|---|
| niadc_gui.py:59 | the mask keeps the configured channels' reads in ascending physical order, but queue slot `j + 1` and header column `j + 1` (line 221) follow the configured order | `channel = [1, 0]`: the read of physical channel 0 lands in the slot and column named `ch_1` | slot `j + 1` holds the read of `channel[j]` | medium, not executed | Acquisition.AsWrittenMislabelsQueue | Acquisition.UnlockedStepEnqueues |
