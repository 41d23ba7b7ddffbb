/** The sample-buffering pipeline with the threads taken out: the acquisition
    loop's body as one step over the pending buffer and the bounded queues,
    and the drain that the export side performs. */
module Acquisition {
  import opened BoundedQueue
  import opened Channels
  import opened Timestamps
  import opened Header
  import opened Rows

  /** The measurement settings the core uses. */
  datatype Config = Config(channel: seq<int>, dataLength: nat, samplingRate: nat, readSamples: nat)
  {
    /** At least one channel (the loop takes their minimum), no channel twice,
        and a non-zero rate (it divides the block length). A repeated channel
        makes the loop fail: over a range of several physical channels the
        mask keeps fewer than `k` lists and the unlocked push indexes past the
        pending buffer; when every entry is the same channel the flat read is
        not wrapped, and the mask or the merge fails on it first. */
    predicate Valid()
    {
      |channel| > 0 && Distinct(channel) && samplingRate > 0
    }

    /** `read_timeout * 1e9`: one block's duration in nanoseconds. */
    function ReadTimeoutNs(): real
      requires Valid()
    {
      BlockDurationNs(readSamples, samplingRate)
    }
  }

  /** The queues (slot 0 timestamps, slot `c + 1` channel `c`) and the
      per-channel samples read but not yet enqueued. */
  datatype Buffers = Buffers(queues: seq<seq<real>>, pending: seq<seq<real>>)

  /** Shapes the loop maintains: `k + 1` equal-length queues within capacity,
      and `k` or `k + 1` equal-length pending lists (`k + 1` right after a
      reset, `k` after a merge). */
  ghost predicate Consistent(cfg: Config, b: Buffers)
  {
    && cfg.Valid()
    && |b.queues| == |cfg.channel| + 1 && Uniform(b.queues)
    && (forall i :: 0 <= i < |b.queues| ==> |b.queues[i]| <= cfg.dataLength)
    && |cfg.channel| <= |b.pending| <= |cfg.channel| + 1 && Uniform(b.pending)
  }

  /** A read whose shape the driver guarantees: the right form for the channel
      count, one list per physical channel, all lists the same length. */
  ghost predicate WellFormedRead(cfg: Config, raw: Block)
    requires cfg.Valid()
  {
    Fits(cfg.channel, raw) && Uniform(Wrap(cfg.channel, raw))
  }

  /** The configured channels' samples of one read, in configured order
      (the corrected selection). */
  function Received(cfg: Config, raw: Block): (r: seq<seq<real>>)
    requires cfg.Valid() && Fits(cfg.channel, raw)
    ensures |r| == |cfg.channel|
  {
    Select(cfg.channel, Wrap(cfg.channel, raw))
  }

  /** The configured channels' samples of one read as line 59 keeps them:
      in ascending physical order. */
  function ReceivedAsWritten(cfg: Config, raw: Block): (r: seq<seq<real>>)
    requires cfg.Valid() && Fits(cfg.channel, raw)
    ensures |r| == |cfg.channel|
  {
    MaskCount(cfg.channel, Wrap(cfg.channel, raw));
    Mask(cfg.channel, Wrap(cfg.channel, raw))
  }

  /** Which selection a pass applies to the read: the line-59 mask, as the
      loop is written, or the selection in configured order. */
  datatype Selection = AsWritten | Corrected

  /** The kept lists of one read under selection `sel`. */
  function Kept(cfg: Config, sel: Selection, raw: Block): (r: seq<seq<real>>)
    requires cfg.Valid() && Fits(cfg.channel, raw)
    ensures |r| == |cfg.channel|
  {
    if sel == AsWritten then ReceivedAsWritten(cfg, raw) else Received(cfg, raw)
  }

  /** Whichever the selection, the kept lists of a well-formed read all have
      the read's length. */
  lemma KeptUniform(cfg: Config, sel: Selection, raw: Block)
    requires cfg.Valid() && WellFormedRead(cfg, raw)
    ensures var r := Kept(cfg, sel, raw);
      Uniform(r) && |r[0]| == |Wrap(cfg.channel, raw)[0]|
  {
    if sel == AsWritten {
      MaskKeepsConfigured(cfg.channel, Wrap(cfg.channel, raw));
    }
  }

  /** `[lst + _lst for lst, _lst in zip(data, _data)]`. */
  function Merge(pending: seq<seq<real>>, block: seq<seq<real>>): (r: seq<seq<real>>)
    ensures |r| == if |pending| <= |block| then |pending| else |block|
  {
    seq(if |pending| <= |block| then |pending| else |block|,
        i requires 0 <= i < |pending| && i < |block| => pending[i] + block[i])
  }

  /** Extending the timestamp queue and every channel queue. */
  function Push(queues: seq<seq<real>>, timestamps: seq<real>, data: seq<seq<real>>, cap: nat): (r: seq<seq<real>>)
    requires |queues| == |data| + 1
    ensures |r| == |queues|
  {
    [Extend(queues[0], timestamps, cap)] +
    seq(|data|, c requires 0 <= c < |data| => Extend(queues[c + 1], data[c], cap))
  }

  /** Queues extended one by one make up `Push`. */
  lemma PushByElements(queues: seq<seq<real>>, timestamps: seq<real>, data: seq<seq<real>>, cap: nat, r: seq<seq<real>>)
    requires |queues| == |data| + 1 && |r| == |queues|
    requires r[0] == Extend(queues[0], timestamps, cap)
    requires forall i :: 0 <= i < |data| ==> r[i + 1] == Extend(queues[i + 1], data[i], cap)
    ensures r == Push(queues, timestamps, data, cap)
  {
    var p := Push(queues, timestamps, data, cap);
    forall i | 0 <= i < |r| ensures r[i] == p[i] {
      if i > 0 { assert r[(i - 1) + 1] == p[(i - 1) + 1]; }
    }
  }

  /** The rest of one iteration once the kept lists `block` are known: merge
      them into the pending buffer and, unless `lock`, enqueue everything
      pending with timestamps from `start` (nanoseconds) on. */
  function Absorb(cfg: Config, b: Buffers, lock: bool, block: seq<seq<real>>, start: int): (r: Buffers)
    requires cfg.Valid() && |block| == |cfg.channel|
    requires |b.queues| == |cfg.channel| + 1 && |b.pending| >= |cfg.channel|
    ensures |r.queues| == |b.queues| && |r.pending| >= |cfg.channel|
  {
    var data := Merge(b.pending, block);
    if lock then Buffers(b.queues, data)
    else
      var timestamps := Linspace(start as real, cfg.ReadTimeoutNs(), |data[0]|);
      Buffers(Push(b.queues, timestamps, data, cfg.dataLength), Empties(|cfg.channel| + 1))
  }

  /** With the flag set the queues are left alone and list `c` of the block
      is appended to pending list `c`. */
  lemma AbsorbLocked(cfg: Config, b: Buffers, block: seq<seq<real>>, start: int)
    requires cfg.Valid() && |block| == |cfg.channel|
    requires |b.queues| == |cfg.channel| + 1 && |b.pending| >= |cfg.channel|
    ensures var r := Absorb(cfg, b, true, block, start);
      r.queues == b.queues && |r.pending| == |cfg.channel| &&
      forall c :: 0 <= c < |cfg.channel| ==> r.pending[c] == b.pending[c] + block[c]
  {
  }

  /** With the flag clear, channel queue `c + 1` is extended by pending list
      `c` followed by block list `c`, the timestamp queue by one instant per
      sample of the first list, and the pending buffer is reset. */
  lemma AbsorbUnlocked(cfg: Config, b: Buffers, block: seq<seq<real>>, start: int)
    requires cfg.Valid() && |block| == |cfg.channel|
    requires |b.queues| == |cfg.channel| + 1 && |b.pending| >= |cfg.channel|
    ensures var r := Absorb(cfg, b, false, block, start);
      r.pending == Empties(|cfg.channel| + 1) &&
      r.queues[0] == Extend(b.queues[0],
        Linspace(start as real, cfg.ReadTimeoutNs(), |b.pending[0]| + |block[0]|), cfg.dataLength) &&
      forall c :: 0 <= c < |cfg.channel| ==>
        r.queues[c + 1] == Extend(b.queues[c + 1], b.pending[c] + block[c], cfg.dataLength)
  {
  }

  /** Zipping equal-length pending lists with equal-length block lists gives
      lists of the summed length. */
  lemma MergeUniform(pending: seq<seq<real>>, block: seq<seq<real>>)
    requires |pending| >= |block| > 0 && Uniform(pending) && Uniform(block)
    ensures var d := Merge(pending, block);
      |d| == |block| && forall c :: 0 <= c < |d| ==> |d[c]| == |pending[0]| + |block[0]|
  {
    var d := Merge(pending, block);
    forall c | 0 <= c < |d| ensures |d[c]| == |pending[0]| + |block[0]| {
      assert d[c] == pending[c] + block[c];
    }
  }

  /** Absorbing `k` equal-length lists keeps the buffers consistent. When the
      flag is clear, every queue of length `L` grows to
      `min(L + p + n, dataLength)` where `p` samples per channel were pending
      and the block brought `n`: all `k + 1` queues stay the same length. */
  lemma AbsorbKeepsConsistent(cfg: Config, b: Buffers, lock: bool, block: seq<seq<real>>, start: int)
    requires Consistent(cfg, b) && |block| == |cfg.channel| && Uniform(block)
    ensures var r := Absorb(cfg, b, lock, block, start);
      var grown := |b.queues[0]| + |b.pending[0]| + |block[0]|;
      Consistent(cfg, r) &&
      (!lock ==> forall i :: 0 <= i < |r.queues| ==>
        |r.queues[i]| == if grown <= cfg.dataLength then grown else cfg.dataLength)
  {
    var r := Absorb(cfg, b, lock, block, start);
    MergeUniform(b.pending, block);
    if lock {
      AbsorbLocked(cfg, b, block, start);
      assert Uniform(r.pending);
    } else {
      AbsorbUnlocked(cfg, b, block, start);
      var grown := |b.queues[0]| + |b.pending[0]| + |block[0]|;
      forall i | 0 <= i < |r.queues|
        ensures |r.queues[i]| == if grown <= cfg.dataLength then grown else cfg.dataLength
      {
        if i > 0 {
          assert r.queues[(i - 1) + 1] == Extend(b.queues[(i - 1) + 1], b.pending[i - 1] + block[i - 1], cfg.dataLength);
        }
      }
    }
  }

  /** One iteration of the acquisition loop, for a read that started at
      `start` while the drain flag was `lock`. With `AsWritten` it is the
      loop of the program; with `Corrected` the kept lists follow the
      configured order. */
  function NextState(cfg: Config, sel: Selection, b: Buffers, lock: bool, raw: Block, start: int): (r: Buffers)
    requires cfg.Valid() && Fits(cfg.channel, raw)
    requires |b.queues| == |cfg.channel| + 1 && |b.pending| >= |cfg.channel|
    ensures |r.queues| == |b.queues| && |r.pending| >= |cfg.channel|
  {
    Absorb(cfg, b, lock, Kept(cfg, sel, raw), start)
  }

  /** For channels configured in ascending order the loop as written and the
      corrected loop take the same step. */
  lemma AsWrittenIsCorrectedWhenAscending(cfg: Config, b: Buffers, lock: bool, raw: Block, start: int)
    requires cfg.Valid() && Fits(cfg.channel, raw) && Ascending(cfg.channel)
    requires |b.queues| == |cfg.channel| + 1 && |b.pending| >= |cfg.channel|
    ensures NextState(cfg, AsWritten, b, lock, raw, start) == NextState(cfg, Corrected, b, lock, raw, start)
  {
    MaskIsSelectWhenAscending(cfg.channel, Wrap(cfg.channel, raw));
  }

  /** The loop as written, for channels `1,0`: after one unlocked pass from
      the initial state, queue slot 1, which the header names `ch_1`, holds
      physical channel 0's sample; the corrected loop puts channel 1's there. */
  lemma AsWrittenMislabelsQueue()
    ensures var cfg := Config([1, 0], 10, 1, 1);
      var raw := Multi([[0.0], [1.0]]);
      var b := Buffers(Empties(3), Empties(3));
      cfg.Valid() && Fits(cfg.channel, raw) &&
      NextState(cfg, AsWritten, b, false, raw, 0).queues[1] == [0.0] &&
      NextState(cfg, Corrected, b, false, raw, 0).queues[1] == [1.0] &&
      Columns(cfg.channel)[1] == "ch_1"
  {
    var cfg := Config([1, 0], 10, 1, 1);
    var raw := Multi([[0.0], [1.0]]);
    var b := Buffers(Empties(3), Empties(3));
    assert Min(cfg.channel) == 0 && Max(cfg.channel) == 1;
    var w := Wrap(cfg.channel, raw);
    MaskMislabelsDescending();
    assert ReceivedAsWritten(cfg, raw)[0] == [0.0];
    assert Received(cfg, raw)[0] == [1.0];
    assert Merge(b.pending, ReceivedAsWritten(cfg, raw))[0] == [0.0];
    assert Merge(b.pending, Received(cfg, raw))[0] == [1.0];
    assert b.queues[1] + [0.0] == [0.0] && b.queues[1] + [1.0] == [1.0];
    assert IntToDecimal(1) == "1";
  }

  /** The loop as written, with the flag clear: channel queue `c + 1` gets
      the pending and new samples of the `c`-th smallest configured channel,
      whatever the configured order, and the pending buffer is reset. */
  lemma UnlockedStepEnqueuesAsWritten(cfg: Config, b: Buffers, raw: Block, start: int)
    requires Consistent(cfg, b) && Fits(cfg.channel, raw)
    ensures var r := NextState(cfg, AsWritten, b, false, raw, start);
      var sorted := SortedChannels(cfg.channel);
      r.pending == Empties(|cfg.channel| + 1) &&
      |sorted| == |cfg.channel| && (forall c :: 0 <= c < |cfg.channel| ==> sorted[c] in cfg.channel) &&
      forall c :: 0 <= c < |cfg.channel| ==>
        r.queues[c + 1] == Extend(b.queues[c + 1],
          b.pending[c] + ReadOf(cfg.channel, Wrap(cfg.channel, raw), sorted[c]), cfg.dataLength)
  {
    MaskFollowsAscendingOrder(cfg.channel, Wrap(cfg.channel, raw));
    AbsorbUnlocked(cfg, b, Kept(cfg, AsWritten, raw), start);
  }

  /** While the drain flag is set the queues are left alone and the read is
      not dropped: it stays pending, appended to what was pending already. */
  lemma LockedStepDefers(cfg: Config, b: Buffers, raw: Block, start: int)
    requires Consistent(cfg, b) && Fits(cfg.channel, raw)
    ensures var r := NextState(cfg, Corrected, b, true, raw, start);
      r.queues == b.queues && |r.pending| == |cfg.channel| &&
      forall c :: 0 <= c < |cfg.channel| ==>
        r.pending[c] == b.pending[c] + ReadOf(cfg.channel, Wrap(cfg.channel, raw), cfg.channel[c])
  {
    AbsorbLocked(cfg, b, Kept(cfg, Corrected, raw), start);
    SelectFollowsConfiguredOrder(cfg.channel, Wrap(cfg.channel, raw));
  }

  /** With the flag clear every pending sample and the new read go into the
      queues: channel queue `c + 1` gets channel `c`'s pending samples and
      then its new ones, and the pending buffer is reset to `k + 1` empty
      lists. */
  lemma UnlockedStepEnqueues(cfg: Config, b: Buffers, raw: Block, start: int)
    requires Consistent(cfg, b) && Fits(cfg.channel, raw)
    ensures var r := NextState(cfg, Corrected, b, false, raw, start);
      r.pending == Empties(|cfg.channel| + 1) &&
      |r.queues| == |cfg.channel| + 1 &&
      forall c :: 0 <= c < |cfg.channel| ==>
        r.queues[c + 1] == Extend(b.queues[c + 1],
          b.pending[c] + ReadOf(cfg.channel, Wrap(cfg.channel, raw), cfg.channel[c]), cfg.dataLength)
  {
    AbsorbUnlocked(cfg, b, Kept(cfg, Corrected, raw), start);
    SelectFollowsConfiguredOrder(cfg.channel, Wrap(cfg.channel, raw));
  }

  /** With the flag clear the timestamp queue gets one instant per pending
      and newly read sample of a channel, spread over the read's block, in
      either loop. */
  lemma UnlockedStepStamps(cfg: Config, sel: Selection, b: Buffers, raw: Block, start: int, r: Buffers)
    requires Consistent(cfg, b) && WellFormedRead(cfg, raw)
    requires r == NextState(cfg, sel, b, false, raw, start)
    ensures r.queues[0] == Extend(b.queues[0], Linspace(start as real, cfg.ReadTimeoutNs(), |b.pending[0]| + |Wrap(cfg.channel, raw)[0]|), cfg.dataLength)
  {
    KeptUniform(cfg, sel, raw);
    AbsorbUnlocked(cfg, b, Kept(cfg, sel, raw), start);
  }

  /** In either loop a step keeps the buffers consistent. When the flag is
      clear, every queue of length `L` grows to `min(L + p + n, dataLength)`
      where `p` samples per channel were pending and the read brought `n`:
      all `k + 1` queues stay the same length. */
  lemma StepKeepsConsistent(cfg: Config, sel: Selection, b: Buffers, lock: bool, raw: Block, start: int)
    requires Consistent(cfg, b) && WellFormedRead(cfg, raw)
    ensures var r := NextState(cfg, sel, b, lock, raw, start);
      var grown := |b.queues[0]| + |b.pending[0]| + |Wrap(cfg.channel, raw)[0]|;
      Consistent(cfg, r) &&
      (!lock ==> forall i :: 0 <= i < |r.queues| ==>
        |r.queues[i]| == if grown <= cfg.dataLength then grown else cfg.dataLength)
  {
    KeptUniform(cfg, sel, raw);
    AbsorbKeepsConsistent(cfg, b, lock, Kept(cfg, sel, raw), start);
  }

  /** In either loop a locked step leaves the queues alone and appends kept
      list `c` of the read to pending list `c`. */
  lemma LockedStepKeepsQueues(cfg: Config, sel: Selection, b: Buffers, raw: Block, start: int)
    requires Consistent(cfg, b) && WellFormedRead(cfg, raw)
    ensures var r := NextState(cfg, sel, b, true, raw, start);
      Consistent(cfg, r) && r.queues == b.queues &&
      |r.pending[0]| == |b.pending[0]| + |Wrap(cfg.channel, raw)[0]| &&
      forall c :: 0 <= c < |cfg.channel| ==> r.pending[c] == b.pending[c] + Kept(cfg, sel, raw)[c]
  {
    StepKeepsConsistent(cfg, sel, b, true, raw, start);
    AbsorbLocked(cfg, b, Kept(cfg, sel, raw), start);
  }

  /** A read that arrives while the flag is set is enqueued by the next
      unlocked step together with that step's read, in acquisition order,
      and the pending buffer is reset. */
  lemma DeferredReadIsKept(cfg: Config, b: Buffers, raw1: Block, start1: int, raw2: Block, start2: int,
                           mid: Buffers, r: Buffers)
    requires Consistent(cfg, b) && WellFormedRead(cfg, raw1) && WellFormedRead(cfg, raw2)
    requires mid == NextState(cfg, Corrected, b, true, raw1, start1)
    requires r == NextState(cfg, Corrected, mid, false, raw2, start2)
    ensures r.pending == Empties(|cfg.channel| + 1)
    ensures forall c :: 0 <= c < |cfg.channel| ==>
      r.queues[c + 1] == Extend(b.queues[c + 1],
        b.pending[c] + ReadOf(cfg.channel, Wrap(cfg.channel, raw1), cfg.channel[c])
          + ReadOf(cfg.channel, Wrap(cfg.channel, raw2), cfg.channel[c]),
        cfg.dataLength)
  {
    var w1 := Wrap(cfg.channel, raw1);
    assert Consistent(cfg, mid) by {
      StepKeepsConsistent(cfg, Corrected, b, true, raw1, start1);
    }
    assert mid.queues == b.queues &&
      forall c :: 0 <= c < |cfg.channel| ==> mid.pending[c] == b.pending[c] + ReadOf(cfg.channel, w1, cfg.channel[c]) by {
      LockedStepDefers(cfg, b, raw1, start1);
    }
    UnlockedStepEnqueues(cfg, mid, raw2, start2);
  }

  /** In either loop the samples of a deferred read are stamped by the next
      unlocked step together with that step's own: `n1 + n2` instants, all
      inside the second read's single block interval. */
  lemma DeferredReadTimestamps(cfg: Config, sel: Selection, b: Buffers, raw1: Block, start1: int,
                               raw2: Block, start2: int, mid: Buffers, r: Buffers)
    requires Consistent(cfg, b) && WellFormedRead(cfg, raw1) && WellFormedRead(cfg, raw2)
    requires cfg.readSamples > 0
    requires mid == NextState(cfg, sel, b, true, raw1, start1)
    requires r == NextState(cfg, sel, mid, false, raw2, start2)
    ensures var n := |b.pending[0]| + |Wrap(cfg.channel, raw1)[0]| + |Wrap(cfg.channel, raw2)[0]|;
      var ts := Linspace(start2 as real, cfg.ReadTimeoutNs(), n);
      r.queues[0] == Extend(b.queues[0], ts, cfg.dataLength) &&
      |ts| == n && WithinInterval(ts, start2 as real, cfg.ReadTimeoutNs())
  {
    LockedStepKeepsQueues(cfg, sel, b, raw1, start1);
    var n := |b.pending[0]| + |Wrap(cfg.channel, raw1)[0]| + |Wrap(cfg.channel, raw2)[0]|;
    UnlockedStepStamps(cfg, sel, mid, raw2, start2, r);
    LinspaceEvenlySpaced(start2 as real, cfg.ReadTimeoutNs(), n);
  }

  /** In either loop, right after a drain (empty queues, nothing pending) an
      unlocked step leaves every queue holding exactly the newly read
      samples, up to the capacity. */
  lemma PushAfterDrain(cfg: Config, sel: Selection, raw: Block, start: int)
    requires cfg.Valid() && WellFormedRead(cfg, raw)
    ensures var k := |cfg.channel|;
      var n := |Wrap(cfg.channel, raw)[0]|;
      var r := NextState(cfg, sel, Buffers(Empties(k + 1), Empties(k + 1)), false, raw, start);
      forall i :: 0 <= i < k + 1 ==> |r.queues[i]| == if n <= cfg.dataLength then n else cfg.dataLength
  {
    var k := |cfg.channel|;
    var b := Buffers(Empties(k + 1), Empties(k + 1));
    assert Consistent(cfg, b);
    StepKeepsConsistent(cfg, sel, b, false, raw, start);
  }

  /** The exported rows fit the header: one row per timestamp, each as wide as
      the column list, starting with its timestamp. */
  lemma ExportedRowsMatchHeader(cfg: Config, snapshot: seq<seq<real>>)
    requires cfg.Valid() && |snapshot| == |cfg.channel| + 1 && Uniform(snapshot)
    ensures var rows := Transpose(snapshot);
      |rows| == |snapshot[0]| &&
      forall i :: 0 <= i < |rows| ==> |rows[i]| == |Columns(cfg.channel)| && rows[i][0] == snapshot[0][i]
  {
  }

  /** One pass of the loop as seen from outside: the flag's value when the
      loop tested it, the read, and the time the read started. */
  datatype Pass = Pass(lock: bool, raw: Block, start: int)

  ghost predicate WellFormedPasses(cfg: Config, passes: seq<Pass>)
    requires cfg.Valid()
  {
    forall i :: 0 <= i < |passes| ==> WellFormedRead(cfg, passes[i].raw)
  }

  /** The state the loop starts from: `k + 1` empty queues and the pending
      buffer `[list()] * (k + 1)`. */
  function Initial(cfg: Config): (b: Buffers)
    requires cfg.Valid()
    ensures Consistent(cfg, b)
  {
    Buffers(Empties(|cfg.channel| + 1), Empties(|cfg.channel| + 1))
  }

  /** Several passes of either loop in a row. Whatever the flag does between
      them, every state reached is consistent: in particular all `k + 1`
      queues have the same length whenever the loop is between passes. */
  function Run(cfg: Config, sel: Selection, b: Buffers, passes: seq<Pass>): (r: Buffers)
    requires Consistent(cfg, b) && WellFormedPasses(cfg, passes)
    ensures Consistent(cfg, r)
    decreases |passes|
  {
    if passes == [] then b
    else
      var next := NextState(cfg, sel, b, passes[0].lock, passes[0].raw, passes[0].start);
      StepKeepsConsistent(cfg, sel, b, passes[0].lock, passes[0].raw, passes[0].start);
      Run(cfg, sel, next, passes[1..])
  }

  /** Kept list `c` of every read of `passes`, in acquisition order. With the
      corrected selection this is channel `channel[c]`'s samples. */
  function Deferred(cfg: Config, sel: Selection, passes: seq<Pass>, c: nat): seq<real>
    requires cfg.Valid() && WellFormedPasses(cfg, passes) && c < |cfg.channel|
    decreases |passes|
  {
    if passes == [] then []
    else Kept(cfg, sel, passes[0].raw)[c] + Deferred(cfg, sel, passes[1..], c)
  }

  /** Unfolding `Run` by one locked pass. */
  lemma LockedRunUnfold(cfg: Config, sel: Selection, b: Buffers, passes: seq<Pass>) returns (mid: Buffers)
    requires Consistent(cfg, b) && WellFormedPasses(cfg, passes) && passes != []
    requires forall i :: 0 <= i < |passes| ==> passes[i].lock
    ensures && Consistent(cfg, mid)
      && WellFormedPasses(cfg, passes[1..])
      && (forall i :: 0 <= i < |passes[1..]| ==> passes[1..][i].lock)
      && Run(cfg, sel, b, passes) == Run(cfg, sel, mid, passes[1..])
      && mid.queues == b.queues
      && forall c :: 0 <= c < |cfg.channel| ==> mid.pending[c] == b.pending[c] + Kept(cfg, sel, passes[0].raw)[c]
  {
    var r0, rest := passes[0], passes[1..];
    assert r0.lock;
    mid := NextState(cfg, sel, b, true, r0.raw, r0.start);
    LockedStepKeepsQueues(cfg, sel, b, r0.raw, r0.start);
    assert forall i :: 0 <= i < |rest| ==> rest[i] == passes[i + 1];
  }

  /** Unfolding `Deferred` by one pass. */
  lemma DeferredUnfold(cfg: Config, sel: Selection, passes: seq<Pass>)
    requires cfg.Valid() && WellFormedPasses(cfg, passes)
    ensures passes == [] ==> forall c :: 0 <= c < |cfg.channel| ==> Deferred(cfg, sel, passes, c) == []
    ensures passes != [] ==> WellFormedPasses(cfg, passes[1..])
    ensures passes != [] ==> forall c :: 0 <= c < |cfg.channel| ==>
      Deferred(cfg, sel, passes, c) == Kept(cfg, sel, passes[0].raw)[c] + Deferred(cfg, sel, passes[1..], c)
  {
    if passes != [] {
      assert forall i :: 0 <= i < |passes[1..]| ==> passes[1..][i] == passes[i + 1];
    }
  }

  /** In either loop, reads taken while the flag stays set never touch the
      queues. */
  lemma {:induction false} LockedRunKeepsQueues(cfg: Config, sel: Selection, b: Buffers, passes: seq<Pass>)
    requires Consistent(cfg, b) && WellFormedPasses(cfg, passes)
    requires forall i :: 0 <= i < |passes| ==> passes[i].lock
    ensures Run(cfg, sel, b, passes).queues == b.queues
    decreases |passes|
  {
    if passes != [] {
      var mid := LockedRunUnfold(cfg, sel, b, passes);
      LockedRunKeepsQueues(cfg, sel, mid, passes[1..]);
    }
  }

  /** `(p + x) + d == p + (x + d)`, one pending list at a time. */
  lemma PendingGrows(p: seq<real>, x: seq<real>, d: seq<real>, mp: seq<real>, xd: seq<real>)
    requires mp == p + x && xd == x + d
    ensures mp + d == p + xd
  {
  }

  /** In either loop, reads taken while the flag stays set all pile up, in
      acquisition order, in the pending buffer: pending list `c` gains kept
      list `c` of every read. */
  lemma {:induction false} LockedRunDefersReads(cfg: Config, sel: Selection, b: Buffers, passes: seq<Pass>)
    requires Consistent(cfg, b) && WellFormedPasses(cfg, passes)
    requires forall i :: 0 <= i < |passes| ==> passes[i].lock
    ensures forall c :: 0 <= c < |cfg.channel| ==>
      Run(cfg, sel, b, passes).pending[c] == b.pending[c] + Deferred(cfg, sel, passes, c)
    decreases |passes|
  {
    DeferredUnfold(cfg, sel, passes);
    if passes != [] {
      var mid := LockedRunUnfold(cfg, sel, b, passes);
      LockedRunDefersReads(cfg, sel, mid, passes[1..]);
      var r := Run(cfg, sel, mid, passes[1..]);
      forall c | 0 <= c < |cfg.channel|
        ensures r.pending[c] == b.pending[c] + Deferred(cfg, sel, passes, c)
      {
        PendingGrows(b.pending[c], Kept(cfg, sel, passes[0].raw)[c], Deferred(cfg, sel, passes[1..], c),
          mid.pending[c], Deferred(cfg, sel, passes, c));
      }
    } else {
      forall c | 0 <= c < |cfg.channel| ensures b.pending[c] + [] == b.pending[c] { }
    }
  }

  /** The measurement thread's state: the queues it fills and the flag the
      export side raises while it drains them. */
  class Measurement {
    const cfg: Config
    var dataQueue: array<seq<real>>
    var lock: bool

    ghost predicate Valid()
      reads this, dataQueue
    {
      Consistent(cfg, Buffers(dataQueue[..], Empties(|cfg.channel| + 1)))
    }

    /** The contents of every queue, timestamps first. */
    function Queues(): seq<seq<real>>
      reads this, dataQueue
    {
      dataQueue[..]
    }

    constructor (cfg: Config)
      requires cfg.Valid()
      ensures Valid() && this.cfg == cfg && fresh(dataQueue)
      ensures Queues() == Empties(|cfg.channel| + 1) && !lock
    {
      this.cfg := cfg;
      dataQueue := new seq<real>[|cfg.channel| + 1](_ => []);
      lock := false;
    }

    /** `q_init`: a fresh set of `k + 1` empty queues of capacity `dataLength`. */
    method QInit()
      requires cfg.Valid()
      modifies this`dataQueue
      ensures Valid() && fresh(dataQueue)
      ensures Queues() == Empties(|cfg.channel| + 1)
    {
      dataQueue := new seq<real>[|cfg.channel| + 1](_ => []);
    }

    /** Extend the timestamp queue, then channel queue `c + 1` by `data[c]`
        for every channel, in channel order. */
    method PushAll(timestamps: seq<real>, data: seq<seq<real>>)
      requires dataQueue.Length == |data| + 1
      modifies dataQueue
      ensures Queues() == Push(old(Queues()), timestamps, data, cfg.dataLength)
    {
      ghost var before := dataQueue[..];
      dataQueue[0] := Extend(dataQueue[0], timestamps, cfg.dataLength);
      var c := 0;
      while c < |data|
        invariant 0 <= c <= |data|
        invariant dataQueue[0] == Extend(before[0], timestamps, cfg.dataLength)
        invariant forall i :: 0 <= i < c ==> dataQueue[i + 1] == Extend(before[i + 1], data[i], cfg.dataLength)
        invariant forall i :: c < i < dataQueue.Length ==> dataQueue[i] == before[i]
      {
        dataQueue[c + 1] := Extend(dataQueue[c + 1], data[c], cfg.dataLength);
        c := c + 1;
      }
      PushByElements(before, timestamps, data, cfg.dataLength, dataQueue[..]);
    }

    /** One pass of the loop in `run`: merge the read into the pending
        buffer and, unless the flag is set, enqueue everything pending. */
    method Step(data: seq<seq<real>>, raw: Block, starttime: int) returns (next: seq<seq<real>>)
      requires Valid() && WellFormedRead(cfg, raw)
      requires |cfg.channel| <= |data| <= |cfg.channel| + 1 && Uniform(data)
      modifies dataQueue
      ensures Valid()
      ensures Buffers(Queues(), next) == NextState(cfg, Corrected, Buffers(old(Queues()), data), lock, raw, starttime)
      ensures Consistent(cfg, Buffers(Queues(), next))
    {
      ghost var before := dataQueue[..];
      var block := Select(cfg.channel, Wrap(cfg.channel, raw));
      next := Merge(data, block);
      if !lock {
        var timestamps := Linspace(starttime as real, cfg.ReadTimeoutNs(), |next[0]|);
        PushAll(timestamps, next);
        next := Empties(|cfg.channel| + 1);
      }
      StepKeepsConsistent(cfg, Corrected, Buffers(before, data), lock, raw, starttime);
    }
  }

  /** The export side: the column list and the last exported rows. */
  class DataAcquisition {
    const cfg: Config
    const columns: seq<string>
    const measure: Measurement
    var result: seq<seq<real>>

    ghost predicate Valid()
      reads this, measure, measure.dataQueue
    {
      measure.Valid() && measure.cfg == cfg && columns == Columns(cfg.channel)
    }

    constructor (cfg: Config)
      requires cfg.Valid()
      ensures Valid() && this.cfg == cfg && fresh(measure) && fresh(measure.dataQueue)
      ensures measure.Queues() == Empties(|cfg.channel| + 1) && !measure.lock
      ensures result == []
    {
      this.cfg := cfg;
      columns := Columns(cfg.channel);
      measure := new Measurement(cfg);
      result := [];
    }

    /** `_data_acquisition`: raise the flag, copy the queues, give the
        measurement fresh empty queues, lower the flag, and reshape the copy
        into rows when it holds any timestamp. */
    method Drain() returns (snapshot: seq<seq<real>>, exported: bool)
      requires Valid()
      modifies this`result, measure`lock, measure`dataQueue
      ensures Valid()
      ensures snapshot == old(measure.Queues())
      ensures fresh(measure.dataQueue) && measure.Queues() == Empties(|cfg.channel| + 1)
      ensures !measure.lock
      ensures exported <==> |snapshot[0]| > 0
      ensures result == if exported then Transpose(snapshot) else old(result)
    {
      measure.lock := true;
      snapshot := measure.dataQueue[..];
      measure.QInit();
      measure.lock := false;
      exported := |snapshot[0]| > 0;
      if exported {
        result := Transpose(snapshot);
      }
    }
  }
}
