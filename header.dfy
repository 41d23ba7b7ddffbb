/** The column list of the output table: `timestamp` followed by `ch_<i>` for
    every configured channel, in configured order. */
module Header {
  import opened Channels

  /** The decimal digit character for `d`. */
  function DigitChar(d: nat): (c: char)
    requires d < 10
    ensures '0' <= c <= '9'
  {
    ('0' as int + d) as char
  }

  /** Decimal representation of a natural number, without leading zeros. */
  function NatToDecimal(n: nat): (s: string)
    ensures |s| > 0 && forall i :: 0 <= i < |s| ==> '0' <= s[i] <= '9'
    ensures s[0] == '0' <==> n == 0
    decreases n
  {
    if n < 10 then [DigitChar(n)] else NatToDecimal(n / 10) + [DigitChar(n % 10)]
  }

  /** Value of a string of decimal digits. */
  function DecimalToNat(s: string): nat
    requires forall i :: 0 <= i < |s| ==> '0' <= s[i] <= '9'
    decreases |s|
  {
    if s == [] then 0
    else DecimalToNat(s[..|s| - 1]) * 10 + (s[|s| - 1] as int - '0' as int)
  }

  /** Reading back the decimal representation gives the number. */
  lemma {:induction false} DecimalRoundTrip(n: nat)
    ensures DecimalToNat(NatToDecimal(n)) == n
    decreases n
  {
    var s := NatToDecimal(n);
    if n >= 10 {
      DecimalRoundTrip(n / 10);
      assert s[..|s| - 1] == NatToDecimal(n / 10);
    }
  }

  /** `str(i)` for an integer: a minus sign before the digits of a negative one. */
  function IntToDecimal(i: int): (s: string)
    ensures |s| > 0
  {
    if i < 0 then "-" + NatToDecimal(-i) else NatToDecimal(i)
  }

  /** Value of an optionally signed string of decimal digits. */
  function DecimalToInt(s: string): int
    requires |s| > 0
    requires forall i :: (if s[0] == '-' then 1 else 0) <= i < |s| ==> '0' <= s[i] <= '9'
  {
    if s[0] == '-' then 0 - DecimalToNat(s[1..]) else DecimalToNat(s)
  }

  /** Reading back `str(i)` gives `i`, so different integers print differently. */
  lemma IntDecimalRoundTrip(i: int)
    ensures var s := IntToDecimal(i);
      (forall k :: (if s[0] == '-' then 1 else 0) <= k < |s| ==> '0' <= s[k] <= '9') &&
      DecimalToInt(s) == i
  {
    var s := IntToDecimal(i);
    if i < 0 {
      var d := NatToDecimal(-i);
      assert s == "-" + d && s[1..] == d;
      DecimalRoundTrip(-i);
    } else {
      DecimalRoundTrip(i);
    }
  }

  /** Column name of channel `c`. */
  function ChannelName(c: int): (r: string)
    ensures |r| > 3 && r[..3] == "ch_"
  {
    "ch_" + IntToDecimal(c)
  }

  /** The column list `['timestamp'] + [f'ch_{i}' for i in channel]`. */
  function Columns(channel: seq<int>): (r: seq<string>)
    ensures |r| == |channel| + 1
  {
    ["timestamp"] + ChannelNames(channel)
  }

  /** `[f'ch_{i}' for i in channel]`. */
  function ChannelNames(channel: seq<int>): (r: seq<string>)
    ensures |r| == |channel|
  {
    seq(|channel|, j requires 0 <= j < |channel| => ChannelName(channel[j]))
  }

  /** Different channels get different column names. */
  lemma ChannelNamesDiffer(a: int, b: int)
    requires a != b
    ensures ChannelName(a) != ChannelName(b)
  {
    var x, y := IntToDecimal(a), IntToDecimal(b);
    assert ChannelName(a)[3..] == x && ChannelName(b)[3..] == y;
    IntDecimalRoundTrip(a);
    IntDecimalRoundTrip(b);
  }

  /** No channel column is called `timestamp`. */
  lemma TimestampIsNoChannelName(c: int)
    ensures "timestamp" != ChannelName(c)
  {
    assert ChannelName(c)[0] == 'c';
  }

  /** One column per channel after the leading `timestamp`, named after the
      channel configured at that position. */
  lemma ColumnsNameChannels(channel: seq<int>)
    ensures Columns(channel)[0] == "timestamp"
    ensures forall j :: 0 <= j < |channel| ==> Columns(channel)[j + 1] == ChannelName(channel[j])
  {
  }

  /** Distinct channels get distinct column names. */
  lemma ChannelNamesDistinct(channel: seq<int>)
    requires Distinct(channel)
    ensures Distinct(ChannelNames(channel))
  {
    var names := ChannelNames(channel);
    forall i, j | 0 <= i < j < |names| ensures names[i] != names[j] {
      ChannelNamesDiffer(channel[i], channel[j]);
    }
  }

  /** For distinct channels no two header columns coincide. */
  lemma ColumnsDistinct(channel: seq<int>)
    requires Distinct(channel)
    ensures Distinct(Columns(channel))
  {
    var names := ChannelNames(channel);
    ChannelNamesDistinct(channel);
    forall j | 0 <= j < |names| ensures "timestamp" != names[j] {
      TimestampIsNoChannelName(channel[j]);
    }
    DistinctCons("timestamp", names);
  }

  /** Prepending an element absent from a repetition-free sequence keeps it free of repetitions. */
  lemma DistinctCons(x: string, s: seq<string>)
    requires Distinct(s) && forall j :: 0 <= j < |s| ==> x != s[j]
    ensures Distinct([x] + s)
  {
    var t := [x] + s;
    forall i, j | 0 <= i < j < |t| ensures t[i] != t[j] {
      if i > 0 { assert t[i] == s[i - 1]; }
      assert t[j] == s[j - 1];
    }
  }
}
