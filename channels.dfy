/** Channel bookkeeping of the acquisition loop: the physical channel range the
    device is opened on (`ai<min>:<max>`), the shape of one read, and the
    selection of the configured channels out of that range. */
module Channels {

  /** One hardware read. With one configured channel the driver returns a flat
      list of samples; with several it returns one list per physical channel
      of the range `min..max`, in ascending channel order. */
  datatype Block = Single(samples: seq<real>) | Multi(rows: seq<seq<real>>)

  /** No channel is configured twice. */
  predicate Distinct<T(==)>(s: seq<T>)
  {
    forall i, j :: 0 <= i < j < |s| ==> s[i] != s[j]
  }

  /** Strictly ascending order. */
  predicate Ascending(s: seq<int>)
  {
    forall i, j :: 0 <= i < j < |s| ==> s[i] < s[j]
  }

  /** The smallest configured channel (`min(self.channel)`). */
  function Min(s: seq<int>): (m: int)
    requires |s| > 0
    ensures m in s && forall x :: x in s ==> m <= x
  {
    if |s| == 1 then s[0]
    else
      var t := Min(s[1..]);
      assert forall x :: x in s ==> x == s[0] || x in s[1..];
      if s[0] <= t then s[0] else t
  }

  /** The largest configured channel (`max(self.channel)`). */
  function Max(s: seq<int>): (m: int)
    requires |s| > 0
    ensures m in s && forall x :: x in s ==> x <= m
  {
    if |s| == 1 then s[0]
    else
      var t := Max(s[1..]);
      assert forall x :: x in s ==> x == s[0] || x in s[1..];
      if s[0] >= t then s[0] else t
  }

  /** Number of physical channels in the range `min..max` the device is opened on. */
  function Span(s: seq<int>): (n: nat)
    requires |s| > 0
    ensures n >= 1
  {
    Max(s) - Min(s) + 1
  }

  /** The read has the shape the driver gives for this configuration. */
  predicate Fits(channel: seq<int>, b: Block)
    requires |channel| > 0
  {
    if |channel| == 1 then b.Single? else b.Multi? && |b.rows| == Span(channel)
  }

  /** A single-channel read wrapped into a one-element list, so that both
      shapes are a list of per-channel sample lists. */
  function Wrap(channel: seq<int>, b: Block): (r: seq<seq<real>>)
    requires |channel| > 0 && Fits(channel, b)
    ensures |r| == Span(channel)
  {
    if |channel| == 1 then [b.samples] else b.rows
  }

  /** The read list at position `i` is physical channel `lo + i`; it is kept
      when that channel is configured (the `_channel_bool` flag list). */
  function MaskFrom(channel: seq<int>, lo: int, blocks: seq<seq<real>>): (r: seq<seq<real>>)
    ensures |r| <= |blocks|
    decreases |blocks|
  {
    if blocks == [] then []
    else (if lo in channel then [blocks[0]] else []) + MaskFrom(channel, lo + 1, blocks[1..])
  }

  /** The channel mask as the loop applies it: keep the read lists whose
      physical channel is configured, in ascending physical order. Reading
      past the flag list raises, so the read may not be longer than the range. */
  function Mask(channel: seq<int>, blocks: seq<seq<real>>): (r: seq<seq<real>>)
    requires |channel| > 0 && |blocks| <= Span(channel)
    ensures |r| <= |blocks|
  {
    MaskFrom(channel, Min(channel), blocks)
  }

  /** Positions `i` in `from..n` whose physical channel `lo + i` is configured, ascending. */
  function KeptFrom(channel: seq<int>, lo: int, from: nat, n: nat): (r: seq<int>)
    ensures forall x :: x in r ==> from <= x < n && lo + x in channel
    decreases n - from
  {
    if from >= n then []
    else (if lo + from in channel then [from] else []) + KeptFrom(channel, lo, from + 1, n)
  }

  /** The kept positions are exactly the configured ones, each once, ascending. */
  lemma KeptFromSpec(channel: seq<int>, lo: int, from: nat, n: nat)
    ensures Ascending(KeptFrom(channel, lo, from, n))
    ensures forall x :: x in KeptFrom(channel, lo, from, n) <==> from <= x < n && lo + x in channel
  {
    KeptFromAscending(channel, lo, from, n);
    KeptFromMembers(channel, lo, from, n);
  }

  /** The kept positions come out in ascending order. */
  lemma {:induction false} KeptFromAscending(channel: seq<int>, lo: int, from: nat, n: nat)
    ensures Ascending(KeptFrom(channel, lo, from, n))
    decreases n - from
  {
    if from < n {
      KeptFromAscending(channel, lo, from + 1, n);
      var rest := KeptFrom(channel, lo, from + 1, n);
      var k := KeptFrom(channel, lo, from, n);
      if lo + from in channel {
        assert k == [from] + rest;
        forall i, j | 0 <= i < j < |k| ensures k[i] < k[j] {
          assert k[j] == rest[j - 1] && rest[j - 1] in rest;
        }
      } else {
        assert k == rest;
      }
    }
  }

  /** Every configured position of `from..n` is kept. */
  lemma {:induction false} KeptFromMembers(channel: seq<int>, lo: int, from: nat, n: nat)
    ensures forall x :: from <= x < n && lo + x in channel ==> x in KeptFrom(channel, lo, from, n)
    decreases n - from
  {
    if from < n {
      KeptFromMembers(channel, lo, from + 1, n);
      var rest := KeptFrom(channel, lo, from + 1, n);
      var k := KeptFrom(channel, lo, from, n);
      if lo + from in channel {
        assert k == [from] + rest;
      } else {
        assert k == rest;
      }
    }
  }

  /** The masked read, position by position: entry `j` is the read list at the
      `j`-th kept position. */
  lemma {:induction false} MaskFromPicksKept(channel: seq<int>, lo: int, blocks: seq<seq<real>>, from: nat)
    requires from <= |blocks|
    ensures var k := KeptFrom(channel, lo, from, |blocks|);
      var m := MaskFrom(channel, lo + from, blocks[from..]);
      |m| == |k| && forall j :: 0 <= j < |k| ==> 0 <= k[j] < |blocks| && m[j] == blocks[k[j]]
    decreases |blocks| - from
  {
    if from < |blocks| {
      MaskFromPicksKept(channel, lo, blocks, from + 1);
      assert blocks[from..][1..] == blocks[from + 1..];
      var k := KeptFrom(channel, lo, from, |blocks|);
      var rest := KeptFrom(channel, lo, from + 1, |blocks|);
      var m := MaskFrom(channel, lo + from, blocks[from..]);
      var m' := MaskFrom(channel, lo + from + 1, blocks[from + 1..]);
      if lo + from in channel {
        assert k == [from] + rest && m == [blocks[from]] + m';
      } else {
        assert k == rest && m == m';
      }
    }
  }

  /** The channel mask keeps read list `i` exactly when physical channel
      `min + i` is configured, and keeps the kept ones in ascending order. */
  lemma MaskKeepsConfigured(channel: seq<int>, blocks: seq<seq<real>>)
    requires |channel| > 0 && |blocks| <= Span(channel)
    ensures var k := KeptFrom(channel, Min(channel), 0, |blocks|);
      (forall i, j :: 0 <= i < j < |k| ==> k[i] < k[j]) &&
      (forall i :: i in k <==> 0 <= i < |blocks| && Min(channel) + i in channel) &&
      (forall j :: 0 <= j < |k| ==> 0 <= k[j] < |blocks|) &&
      |Mask(channel, blocks)| == |k| &&
      forall j :: 0 <= j < |k| ==> Mask(channel, blocks)[j] == blocks[k[j]]
  {
    KeptFromSpec(channel, Min(channel), 0, |blocks|);
    MaskFromPicksKept(channel, Min(channel), blocks, 0);
    assert blocks[0..] == blocks;
  }

  /** A sequence with no repetition has as many elements as its set. */
  lemma {:induction false} DistinctCard<T>(s: seq<T>)
    requires Distinct(s)
    ensures |set x | x in s| == |s|
  {
    if s != [] {
      var init := s[..|s| - 1];
      DistinctCard(init);
      assert (set x | x in s) == (set x | x in init) + {s[|s| - 1]};
      assert s[|s| - 1] !in init;
    }
  }

  /** The head of an ascending sequence is its least element. */
  lemma AscendingHeadIsLeast(s: seq<int>)
    requires Ascending(s) && |s| > 0
    ensures forall x :: x in s ==> s[0] <= x
  {
    forall x | x in s ensures s[0] <= x {
      var i :| 0 <= i < |s| && s[i] == x;
      if i > 0 { assert s[0] < s[i]; }
    }
  }

  /** Two strictly ascending sequences with the same elements are equal. */
  lemma {:induction false} AscendingUnique(a: seq<int>, b: seq<int>)
    requires Ascending(a) && Ascending(b)
    requires forall x :: x in a <==> x in b
    ensures a == b
  {
    assert |a| > 0 ==> a[0] in a;
    assert |b| > 0 ==> b[0] in b;
    if a != [] && b != [] {
      AscendingHeadIsLeast(a);
      AscendingHeadIsLeast(b);
      assert a[0] == b[0];
      forall x ensures x in a[1..] <==> x in b[1..] {
        assert x in a[1..] <==> x in a && x != a[0] by {
          if x in a[1..] {
            var i :| 0 <= i < |a[1..]| && a[1..][i] == x;
            assert a[0] < a[i + 1];
          }
          if x in a && x != a[0] {
            var i :| 0 <= i < |a| && a[i] == x;
            assert a[1..][i - 1] == x;
          }
        }
        assert x in b[1..] <==> x in b && x != b[0] by {
          if x in b[1..] {
            var i :| 0 <= i < |b[1..]| && b[1..][i] == x;
            assert b[0] < b[i + 1];
          }
          if x in b && x != b[0] {
            var i :| 0 <= i < |b| && b[i] == x;
            assert b[1..][i - 1] == x;
          }
        }
      }
      AscendingUnique(a[1..], b[1..]);
      assert a == [a[0]] + a[1..] && b == [b[0]] + b[1..];
    }
  }

  /** The positions of the configured channels in the range `min..max`, in configured order. */
  function Offsets(channel: seq<int>): (r: seq<int>)
    requires |channel| > 0
    ensures |r| == |channel| && forall j :: 0 <= j < |r| ==> 0 <= r[j] < Span(channel)
  {
    assert forall j :: 0 <= j < |channel| ==> channel[j] in channel;
    assert Span(channel) == Max(channel) - Min(channel) + 1;
    seq(|channel|, j requires 0 <= j < |channel| => channel[j] - Min(channel))
  }

  /** Over the full range, the kept positions are the offsets of the
      configured channels from the smallest one. */
  lemma KeptAreOffsets(channel: seq<int>, n: nat)
    requires |channel| > 0 && n == Span(channel)
    ensures forall x :: x in KeptFrom(channel, Min(channel), 0, n) <==> x in Offsets(channel)
  {
    var lo := Min(channel);
    var k := KeptFrom(channel, lo, 0, n);
    var d := Offsets(channel);
    KeptFromSpec(channel, lo, 0, n);
    forall x ensures x in k <==> x in d {
      if x in d {
        var j :| 0 <= j < |d| && d[j] == x;
        assert channel[j] in channel;
      }
      if x in k {
        var j :| 0 <= j < |channel| && channel[j] == lo + x;
        assert d[j] == x;
      }
    }
  }

  /** Over the full range, the mask keeps one read list per distinct configured channel. */
  lemma MaskCount(channel: seq<int>, blocks: seq<seq<real>>)
    requires |channel| > 0 && Distinct(channel) && |blocks| == Span(channel)
    ensures |Mask(channel, blocks)| == |channel|
  {
    var k := KeptFrom(channel, Min(channel), 0, |blocks|);
    var d := Offsets(channel);
    MaskKeepsConfigured(channel, blocks);
    KeptAreOffsets(channel, |blocks|);
    assert Distinct(k) by {
      KeptFromSpec(channel, Min(channel), 0, |blocks|);
    }
    assert Distinct(d);
    DistinctCard(k);
    DistinctCard(d);
    assert (set x | x in k) == (set x | x in d);
  }

  /** Corrected selection: entry `j` is the read list of the channel configured
      at position `j`, so that it lines up with header column `j + 1`. */
  function Select(channel: seq<int>, blocks: seq<seq<real>>): (r: seq<seq<real>>)
    requires |channel| > 0 && |blocks| == Span(channel)
    ensures |r| == |channel|
  {
    var d := Offsets(channel);
    seq(|channel|, j requires 0 <= j < |channel| => blocks[d[j]])
  }

  /** The read list that belongs to physical channel `c` of the range. */
  function ReadOf(channel: seq<int>, blocks: seq<seq<real>>, c: int): seq<real>
    requires |channel| > 0 && |blocks| == Span(channel) && c in channel
  {
    blocks[c - Min(channel)]
  }

  /** Every selected list is the read of the channel configured at that position. */
  lemma SelectFollowsConfiguredOrder(channel: seq<int>, blocks: seq<seq<real>>)
    requires |channel| > 0 && |blocks| == Span(channel)
    ensures forall j :: 0 <= j < |channel| ==>
      Select(channel, blocks)[j] == ReadOf(channel, blocks, channel[j])
  {
  }

  /** When the channels are configured in ascending order, the mask the loop
      applies and the corrected selection agree. */
  lemma MaskIsSelectWhenAscending(channel: seq<int>, blocks: seq<seq<real>>)
    requires |channel| > 0 && Ascending(channel) && |blocks| == Span(channel)
    ensures Mask(channel, blocks) == Select(channel, blocks)
  {
    var k := KeptFrom(channel, Min(channel), 0, |blocks|);
    MaskKeepsConfigured(channel, blocks);
    KeptAreOffsets(channel, |blocks|);
    AscendingUnique(k, Offsets(channel));
  }

  /** The configured channels in ascending order: the physical channels of
      the range whose `_channel_bool` flag is set. */
  function SortedChannels(channel: seq<int>): (r: seq<int>)
    requires |channel| > 0
    ensures Ascending(r) && forall x :: x in r <==> x in channel
    ensures Distinct(channel) ==> |r| == |channel|
  {
    var k := KeptFrom(channel, Min(channel), 0, Span(channel));
    var r := seq(|k|, j requires 0 <= j < |k| => Min(channel) + k[j]);
    KeptFromSpec(channel, Min(channel), 0, Span(channel));
    ShiftedKeptAreChannels(channel, Min(channel), Span(channel), k, r);
    if Distinct(channel) then
      SameElementsSameLength(r, channel);
      r
    else r
  }

  /** Positions kept out of a range `lo..lo + n` that holds every configured
      channel, shifted by `lo`, are the configured channels in ascending order. */
  lemma ShiftedKeptAreChannels(channel: seq<int>, lo: int, n: nat, k: seq<int>, r: seq<int>)
    requires forall x :: x in channel ==> lo <= x < lo + n
    requires Ascending(k) && forall x :: x in k <==> 0 <= x < n && lo + x in channel
    requires |r| == |k| && forall j :: 0 <= j < |k| ==> r[j] == lo + k[j]
    ensures Ascending(r) && forall x :: x in r <==> x in channel
  {
    forall i, j | 0 <= i < j < |r| ensures r[i] < r[j] {
      assert k[i] < k[j];
    }
    forall x | x in channel ensures x in r {
      var d := x - lo;
      assert lo + d == x;
      assert d in k;
      var j :| 0 <= j < |k| && k[j] == d;
      assert r[j] == x;
    }
    forall x | x in r ensures x in channel {
      var j :| 0 <= j < |r| && r[j] == x;
      assert k[j] in k;
    }
  }

  /** Two sequences without repetition and with the same elements have the
      same length. */
  lemma SameElementsSameLength(a: seq<int>, b: seq<int>)
    requires Distinct(a) && Distinct(b) && forall x :: x in a <==> x in b
    ensures |a| == |b|
  {
    DistinctCard(a);
    DistinctCard(b);
    assert (set x | x in a) == (set x | x in b);
  }

  /** The mask as written keeps, at position `j`, the read of the `j`-th
      smallest configured channel, whatever the configured order. */
  lemma MaskFollowsAscendingOrder(channel: seq<int>, blocks: seq<seq<real>>)
    requires |channel| > 0 && Distinct(channel) && |blocks| == Span(channel)
    ensures |SortedChannels(channel)| == |channel| == |Mask(channel, blocks)|
    ensures forall j :: 0 <= j < |channel| ==> SortedChannels(channel)[j] in channel
    ensures forall j :: 0 <= j < |channel| ==>
      Mask(channel, blocks)[j] == ReadOf(channel, blocks, SortedChannels(channel)[j])
  {
    var s := SortedChannels(channel);
    MaskKeepsConfigured(channel, blocks);
    MaskCount(channel, blocks);
    forall j | 0 <= j < |channel| ensures s[j] in channel {
      assert s[j] in s;
    }
  }

  /** A configuration the loop mislabels: channels `1,0` (not ascending). The
      mask puts physical channel 0 first, where the header names channel 1. */
  lemma MaskMislabelsDescending()
    ensures var channel := [1, 0];
      var blocks := [[0.0], [1.0]];
      Span(channel) == 2 &&
      Mask(channel, blocks)[0] == ReadOf(channel, blocks, 0) &&
      Select(channel, blocks)[0] == ReadOf(channel, blocks, 1) &&
      ReadOf(channel, blocks, 0) != ReadOf(channel, blocks, 1)
  {
    var channel := [1, 0];
    var blocks := [[0.0], [1.0]];
    assert Min(channel) == 0 && Max(channel) == 1;
    assert MaskFrom(channel, 2, []) == [];
    assert MaskFrom(channel, 1, blocks[1..]) == [blocks[1]];
    assert Mask(channel, blocks) == [blocks[0], blocks[1]];
  }
}
