/**
 * `test/server_simpleRead.py`: a WebSocket server that inspects the
 * twelve-channel text format `[v0,...,v11],[v0,...,v11],...` without
 * plotting it. Each message is scanned for `[...]` groups; the first group
 * must hold 12 comma-separated decimal values, and the values of the first
 * five groups are summarised by their minimum and maximum. A message without
 * groups is only counted. Every message is acknowledged: "ERROR" when a value
 * failed to parse or the values' average is beyond float range, "OK" otherwise.
 */
module BracketInspector {
  import opened Wrappers
  import opened Text
  import opened Numerals
  import opened Messages
  import opened WindowView
  import opened Seqs
  import HexDecoder

  /** The number of channels a sample set is expected to carry. */
  const Channels: nat := 12

  /** The number of leading sample sets the statistics are taken over. */
  const StatsSets: nat := 5

  /** The acknowledgement sent when parsing a value raised. */
  const ErrorAck: string := "ERROR"

  /** The index of the first `]` in `s`, if any. */
  function CloseIndex(s: string): (k: Option<nat>)
    ensures k.Some? ==> k.value < |s| && s[k.value] == ']' && ']' !in s[..k.value]
    ensures k.None? ==> ']' !in s
  {
    if s == [] then None
    else if s[0] == ']' then Some(0)
    else match CloseIndex(s[1..])
      case None => None
      case Some(k) =>
        assert s[..k + 1] == [s[0]] + s[1..][..k];
        Some(k + 1)
  }

  /**
   * `re.findall(r'\[([^\]]+)\]', s)`: scanning left to right, a `[` opens a
   * group when at least one character other than `]` follows it before the
   * next `]`; the group's text is returned and the scan resumes after its
   * `]`. Anywhere else the scan moves on by one character.
   */
  function Groups(s: string): (gs: seq<string>)
    ensures forall i :: 0 <= i < |gs| ==> gs[i] != [] && ']' !in gs[i]
    decreases |s|
  {
    if s == [] then []
    else if s[0] == '[' then
      match CloseIndex(s[1..])
      case None => Groups(s[1..])
      case Some(k) => if k > 0 then [s[1..k + 1]] + Groups(s[k + 2..]) else Groups(s[1..])
    else Groups(s[1..])
  }

  /** The text of sample sets written as the device does: each in brackets, separated by commas. */
  function Render(gs: seq<string>): string
  {
    if gs == [] then []
    else if |gs| == 1 then "[" + gs[0] + "]"
    else "[" + gs[0] + "]," + Render(gs[1..])
  }

  /** Scanning text for groups skips a prefix that opens none. */
  lemma {:induction false} GroupsSkipNoise(noise: string, s: string)
    requires '[' !in noise
    ensures Groups(noise + s) == Groups(s)
  {
    if noise != [] {
      assert noise[0] in noise;
      assert (noise + s)[1..] == noise[1..] + s;
      GroupsSkipNoise(noise[1..], s);
    } else {
      assert noise + s == s;
    }
  }

  /** An empty pair of brackets opens no group. */
  lemma EmptyBracketsIgnored(s: string)
    ensures Groups("[]" + s) == Groups(s)
  {
    var t := "[]" + s;
    assert t[1..] == "]" + s && t[1..][1..] == s;
    assert CloseIndex(t[1..]) == Some(0);
  }

  /** One group written in brackets and followed by more text is found first. */
  lemma GroupThenRest(g: string, rest: string)
    requires g != [] && ']' !in g
    ensures Groups("[" + g + "]" + rest) == [g] + Groups(rest)
  {
    var s := "[" + g + "]" + rest;
    var k := |g|;
    assert s[1..] == g + "]" + rest;
    assert s[1..][..k] == g && s[1..][k] == ']';
    CloseIndexAfter(g, "]" + rest);
    assert s[1..k + 1] == g;
    assert s[k + 2..] == rest;
  }

  /** The first `]` of a text is found after a prefix without one. */
  lemma {:induction false} CloseIndexAfter(p: string, t: string)
    requires ']' !in p && t != [] && t[0] == ']'
    ensures CloseIndex(p + t) == Some(|p|)
  {
    if p != [] {
      assert p[0] in p;
      assert (p + t)[1..] == p[1..] + t;
      CloseIndexAfter(p[1..], t);
    } else {
      assert p + t == t;
    }
  }

  /** A text without `]` closes no group, so a `[` that is never closed opens none. */
  lemma {:induction false} GroupsUnclosed(t: string)
    requires ']' !in t
    ensures Groups(t) == []
  {
    if t != [] {
      assert ']' !in t[1..] by {
        assert forall k :: 0 <= k < |t| - 1 ==> t[1..][k] == t[k + 1];
      }
      GroupsUnclosed(t[1..]);
    }
  }

  /** Every sequence of non-empty, `]`-free sample sets is found again, in order, in its rendering. */
  lemma {:induction false} GroupsRender(gs: seq<string>)
    requires forall i :: 0 <= i < |gs| ==> gs[i] != [] && ']' !in gs[i]
    ensures Groups(Render(gs)) == gs
  {
    if |gs| == 1 {
      GroupThenRest(gs[0], []);
      assert "[" + gs[0] + "]" + [] == Render(gs);
    } else if |gs| > 1 {
      var tail := Render(gs[1..]);
      GroupsRender(gs[1..]);
      GroupThenRest(gs[0], "," + tail);
      assert "[" + gs[0] + "]" + ("," + tail) == Render(gs);
      GroupsSkipNoise(",", tail);
      assert gs == [gs[0]] + gs[1..];
    }
  }

  /** `int(val)`: one token read as a decimal integer, or None where it raises. */
  function Decimal(token: string): (v: Option<int>)
  {
    ParseInt(token, 10)
  }

  /** The values of one sample set, `[int(val) for val in match.split(',')]`, or None where a token raises. */
  function SetValues(g: string): (vs: Option<seq<int>>)
  {
    MapAll(Split(g, ','), Decimal)
  }

  /** Every token reads as a decimal. */
  predicate AllDecimal(tokens: seq<string>) {
    forall i :: 0 <= i < |tokens| ==> Decimal(tokens[i]).Some?
  }

  /** A set's values are read when every token of it is a decimal, and then they are those decimals. */
  lemma SetValuesSpec(g: string)
    ensures SetValues(g).Some? <==> AllDecimal(Split(g, ','))
    ensures SetValues(g).Some? ==>
      forall i :: 0 <= i < |Split(g, ',')| ==> Decimal(Split(g, ',')[i]) == Some(SetValues(g).value[i])
  {
    var tokens := Split(g, ',');
    var decimal: string -> Option<int> := Decimal;
    MapAllSpec(tokens, decimal);
    if AllDecimal(tokens) {
      forall i | 0 <= i < |tokens| ensures decimal(tokens[i]).Some? {
        assert Decimal(tokens[i]).Some?;
      }
    }
  }

  /** The values of consecutive sets, one set after the other. */
  function StatsValues(gs: seq<string>): (all: Option<seq<int>>)
  {
    ConcatAll(gs, SetValues)
  }

  /**
   * The values of several sets are collected when every set is read, and
   * then the first set's values come first.
   */
  lemma StatsValuesSpec(gs: seq<string>)
    ensures StatsValues(gs).Some? <==> forall i :: 0 <= i < |gs| ==> SetValues(gs[i]).Some?
    ensures StatsValues(gs).Some? && gs != [] ==>
      var first := SetValues(gs[0]).value;
      |first| <= |StatsValues(gs).value| && StatsValues(gs).value[..|first|] == first
  {
    ConcatAllSpec(gs, SetValues);
    if StatsValues(gs).Some? && gs != [] {
      ConcatAllFirst(gs, SetValues);
    }
  }

  /** `matches[:5]`: the sets the statistics are taken over. */
  function Leading<T>(xs: seq<T>): (lead: seq<T>)
    ensures |lead| <= StatsSets && |lead| <= |xs|
    ensures xs != [] ==> lead != [] && lead[0] == xs[0]
  {
    if |xs| <= StatsSets then xs else xs[..StatsSets]
  }

  /** `groups[:5]` is the first five sets, or all of them when there are fewer. */
  lemma LeadingPrefix<T>(xs: seq<T>)
    ensures Leading(xs) == xs[..if |xs| < StatsSets then |xs| else StatsSets]
  {
    if |xs| <= StatsSets {
      assert xs[..|xs|] == xs;
    }
  }

  /** `sum(values)`. */
  function Sum(vs: seq<int>): int
  {
    if vs == [] then 0 else Sum(vs[..|vs| - 1]) + vs[|vs| - 1]
  }

  /**
   * 2^1024 - 2^970: the least magnitude an IEEE 754 double rounds to
   * infinity. Python's `int / int` rounds the exact quotient correctly and
   * raises `OverflowError` when that rounding would give infinity.
   */
  const FloatOverflowAt: int := 0xFFFF_FFFF_FFFF_FC_0000000000000000000000_0000000000000000000000_0000000000000000000000_0000000000000000000000_0000000000000000000000_0000000000000000000000_0000000000000000000000_0000000000000000000000_0000000000000000000000_0000000000000000000000_0000000000000000000000

  /** `sum(values) / len(values)` raises `OverflowError`: the exact mean is at least `FloatOverflowAt` in magnitude. */
  predicate AverageOverflows(vs: seq<int>)
  {
    vs != [] && (Sum(vs) >= FloatOverflowAt * |vs| || -Sum(vs) >= FloatOverflowAt * |vs|)
  }

  /** The boundary is exact: a mean of `FloatOverflowAt` overflows, one below it does not. */
  lemma AverageOverflowBoundary()
    ensures AverageOverflows([FloatOverflowAt]) && AverageOverflows([-FloatOverflowAt])
    ensures !AverageOverflows([FloatOverflowAt - 1]) && !AverageOverflows([FloatOverflowAt, FloatOverflowAt - 1])
  {
    var pair := [FloatOverflowAt, FloatOverflowAt - 1];
    assert pair[..1] == [FloatOverflowAt] && [FloatOverflowAt][..0] == [];
    assert Sum([FloatOverflowAt - 1]) == FloatOverflowAt - 1 && Sum([-FloatOverflowAt]) == -FloatOverflowAt;
    assert Sum(pair) == 2 * FloatOverflowAt - 1;
  }

  /** Readings of at most 12 bits sum to at most 4095 per reading. */
  lemma {:induction false} SumBounded(vs: seq<int>)
    requires forall i :: 0 <= i < |vs| ==> 0 <= vs[i] <= HexDecoder.AdcMax
    ensures 0 <= Sum(vs) <= HexDecoder.AdcMax * |vs|
  {
    if vs != [] {
      SumBounded(vs[..|vs| - 1]);
    }
  }

  /** The average of 12-bit readings never overflows. */
  lemma AdcAverageFits(vs: seq<int>)
    requires forall i :: 0 <= i < |vs| ==> 0 <= vs[i] <= HexDecoder.AdcMax
    ensures !AverageOverflows(vs)
  {
    SumBounded(vs);
  }

  /** What the server makes of one message. */
  datatype Report =
    | EmptyOrInvalid                                            // not text, or only whitespace
    | RawPoints(count: nat)                                     // no groups: the comma-separated points counted
    | ChannelMismatch(totalSets: nat, channels: nat)            // the first group has another count than 12
    | Stats(totalSets: nat, firstSet: seq<int>, minValue: int, maxValue: int)
    | ParseError                                                // a value of the first five groups is no decimal
    | AverageOverflow                                           // the values' average is beyond float range

  /** The report on a message and the acknowledgement sent back. */
  datatype Outcome = Outcome(report: Report, ack: string)

  /** The body of `handle`'s loop for one message. */
  function Inspect(message: Message): (o: Outcome)
    ensures o.ack == if o.report.ParseError? || o.report.AverageOverflow? then ErrorAck else Ok
    ensures o.report.EmptyOrInvalid? <==> !(message.Text? && Strip(message.text) != [])
    ensures o.report.RawPoints? <==> message.Text? && Strip(message.text) != [] && Groups(message.text) == []
    ensures o.report.RawPoints? ==> o.report.count == Count(message.text, ',') + 1
    ensures o.report.ChannelMismatch? <==>
      && message.Text? && Strip(message.text) != [] && Groups(message.text) != []
      && |Split(Groups(message.text)[0], ',')| != Channels
    ensures o.report.ChannelMismatch? ==>
      o.report.totalSets == |Groups(message.text)| && o.report.channels == |Split(Groups(message.text)[0], ',')|
    ensures o.report.ParseError? <==>
      && message.Text? && Strip(message.text) != [] && Groups(message.text) != []
      && |Split(Groups(message.text)[0], ',')| == Channels
      && (SetValues(Groups(message.text)[0]).None? || StatsValues(Leading(Groups(message.text))).None?)
    ensures o.report.AverageOverflow? <==>
      && message.Text? && Strip(message.text) != [] && Groups(message.text) != []
      && |Split(Groups(message.text)[0], ',')| == Channels
      && SetValues(Groups(message.text)[0]).Some? && StatsValues(Leading(Groups(message.text))).Some?
      && AverageOverflows(StatsValues(Leading(Groups(message.text))).value)
    ensures o.report.Stats? ==>
      && o.report.totalSets == |Groups(message.text)| >= 1 && |o.report.firstSet| == Channels
      && SetValues(Groups(message.text)[0]) == Some(o.report.firstSet)
      && StatsValues(Leading(Groups(message.text))).Some?
      && !AverageOverflows(StatsValues(Leading(Groups(message.text))).value)
  {
    if !(message.Text? && Strip(message.text) != []) then Outcome(EmptyOrInvalid, Ok)
    else
      var text := message.text;
      var gs := Groups(text);
      if gs == [] then
        SplitCount(text, ',');
        Outcome(RawPoints(|Split(text, ',')|), Ok)
      else
        var first := Split(gs[0], ',');
        if |first| != Channels then Outcome(ChannelMismatch(|gs|, |first|), Ok)
        else
          var firstSet := SetValues(gs[0]);
          var all := StatsValues(Leading(gs));
          if firstSet.None? || all.None? then Outcome(ParseError, ErrorAck)
          else if AverageOverflows(all.value) then Outcome(AverageOverflow, ErrorAck)
          else Outcome(Stats(|gs|, firstSet.value, Min(all.value), Max(all.value)), Ok)
  }

  /** The statistics loop: extend `all_values` by each of the first five sets' values; stop at the first that raises. */
  method CollectStats(gs: seq<string>) returns (all: Option<seq<int>>)
    ensures all == StatsValues(Leading(gs))
  {
    var lead := Leading(gs);
    var setValues: string -> Option<seq<int>> := SetValues;
    var values: seq<int> := [];
    var i := 0;
    while i < |lead|
      invariant 0 <= i <= |lead|
      invariant ConcatAll(lead[..i], setValues) == Some(values)
    {
      var next := setValues(lead[i]);
      ConcatAllStep(lead, setValues, i);
      if next.None? {
        ConcatAllFailStays(lead, setValues, i + 1, |lead|);
        assert lead[..|lead|] == lead;
        assert ConcatAll(lead, setValues).None?;
        return None;
      }
      assert ConcatAll(lead[..i + 1], setValues) == Some(values + next.value);
      values := values + next.value;
      i := i + 1;
    }
    assert lead[..i] == lead;
    return Some(values);
  }

  /** `handle`'s work on one message: classify it, validate and summarise its sets, and choose the acknowledgement. */
  method Handle(message: Message) returns (o: Outcome)
    ensures o == Inspect(message)
  {
    if !(message.Text? && Strip(message.text) != []) {
      return Outcome(EmptyOrInvalid, Ok);
    }
    var gs := Groups(message.text);
    if gs == [] {
      return Outcome(RawPoints(|Split(message.text, ',')|), Ok);
    }
    var first := Split(gs[0], ',');
    if |first| != Channels {
      return Outcome(ChannelMismatch(|gs|, |first|), Ok);
    }
    var sampleValues := SetValues(gs[0]);
    if sampleValues.None? {
      return Outcome(ParseError, ErrorAck);
    }
    var all := CollectStats(gs);
    if all.None? {
      return Outcome(ParseError, ErrorAck);
    }
    if AverageOverflows(all.value) {
      return Outcome(AverageOverflow, ErrorAck);
    }
    return Outcome(Stats(|gs|, sampleValues.value, Min(all.value), Max(all.value)), Ok);
  }

  /**
   * The statistics cover exactly the values of the first five sets: the
   * first set's twelve values come first, and the reported minimum and
   * maximum are values among them that bound all of them.
   */
  lemma StatsBounds(message: Message)
    requires Inspect(message).report.Stats?
    ensures message.Text? && StatsValues(Leading(Groups(message.text))).Some?
    ensures var r := Inspect(message).report;
      var vs := StatsValues(Leading(Groups(message.text))).value;
      && |vs| >= Channels && vs[..Channels] == r.firstSet
      && (forall i :: 0 <= i < |vs| ==> r.minValue <= vs[i] <= r.maxValue)
      && r.minValue in vs && r.maxValue in vs
  {
    var gs := Groups(message.text);
    ConcatAllFirst(Leading(gs), SetValues);
  }

  /** A message without `[` is counted as comma-separated raw points. */
  lemma FallbackCount(text: string)
    requires Strip(text) != [] && '[' !in text
    ensures Inspect(Text(text)) == Outcome(RawPoints(Count(text, ',') + 1), Ok)
  {
    GroupsSkipNoise(text, []);
    assert text + [] == text;
  }

  /** A message with no `]`, even one with an unclosed `[`, is counted as comma-separated raw points. */
  lemma UnclosedCount(text: string)
    requires Strip(text) != [] && ']' !in text
    ensures Inspect(Text(text)) == Outcome(RawPoints(Count(text, ',') + 1), Ok)
  {
    GroupsUnclosed(text);
  }

  /** For instance an unclosed set is not one: `"[1,2"` is two raw points. */
  lemma UnclosedSetIsRaw()
    ensures Inspect(Text("[1,2")) == Outcome(RawPoints(2), Ok)
  {
    var text := "[1,2";
    StripUnchanged(text);
    UnclosedCount(text);
    assert Count(text, ',') == 1;
  }

  /** Values are read as decimals: a hex digit that `int(val, 16)` accepts raises here. */
  lemma DecimalNotHex()
    ensures Decimal("A") == None && ParseInt("A", 16) == Some(10)
  {
    StripUnchanged("A");
    assert DigitValue('A') == 10;
  }

  /** A first set of twelve tokens with one that is no decimal makes the message answered with "ERROR". */
  lemma FirstSetRejects(text: string, i: nat)
    requires Strip(text) != [] && Groups(text) != []
    requires |Split(Groups(text)[0], ',')| == Channels
    requires i < Channels && Decimal(Split(Groups(text)[0], ',')[i]).None?
    ensures Inspect(Text(text)) == Outcome(ParseError, ErrorAck)
  {
    MapAllSpec(Split(Groups(text)[0], ','), Decimal);
  }

  /** The readings of one set as decimal numerals. */
  function DecimalTokens(row: seq<nat>): (tokens: seq<string>)
    ensures |tokens| == |row|
  {
    seq(|row|, i requires 0 <= i < |row| => Numeral(row[i], 10))
  }

  /** One sample set as the device writes it: its readings as decimal numerals joined by commas. */
  function DecimalSet(row: seq<nat>): string
    requires |row| >= 1
  {
    Join(DecimalTokens(row), ',')
  }

  /** The readings of several sets, one set after the other; the first set's come first. */
  function Flatten(rows: seq<seq<nat>>): (r: seq<int>)
    ensures rows != [] ==> |rows[0]| <= |r| && r[..|rows[0]|] == rows[0]
  {
    if rows == [] then []
    else
      var front := Flatten(rows[..|rows| - 1]);
      if |rows| > 1 then
        assert rows[..|rows| - 1][0] == rows[0];
        assert (front + rows[|rows| - 1])[..|rows[0]|] == front[..|rows[0]|];
        front + rows[|rows| - 1]
      else
        assert front + rows[0] == rows[0];
        front + rows[0]
  }

  /** Flattening keeps every reading: 12-bit readings flatten to 12-bit values. */
  lemma {:induction false} FlattenBounded(rows: seq<seq<nat>>)
    requires forall i, j :: 0 <= i < |rows| && 0 <= j < |rows[i]| ==> rows[i][j] <= HexDecoder.AdcMax
    ensures forall k :: 0 <= k < |Flatten(rows)| ==> 0 <= Flatten(rows)[k] <= HexDecoder.AdcMax
  {
    if rows != [] {
      var front := rows[..|rows| - 1];
      assert forall i, j :: 0 <= i < |front| && 0 <= j < |front[i]| ==> front[i][j] == rows[i][j];
      FlattenBounded(front);
      assert Flatten(rows) == Flatten(front) + rows[|rows| - 1];
    }
  }

  /** The average of the first five sets of 12-bit readings fits a float. */
  lemma LeadingAverageFits(rows: seq<seq<nat>>)
    requires forall i, j :: 0 <= i < |rows| && 0 <= j < |rows[i]| ==> rows[i][j] <= HexDecoder.AdcMax
    ensures !AverageOverflows(Flatten(Leading(rows)))
  {
    LeadingPrefix(rows);
    FlattenBounded(Leading(rows));
    AdcAverageFits(Flatten(Leading(rows)));
  }

  /** Each written reading is a non-empty token without `,` or `]` that reads back as the reading. */
  lemma DecimalTokensReadBack(row: seq<nat>)
    ensures forall i :: 0 <= i < |row| ==>
      && DecimalTokens(row)[i] != [] && ',' !in DecimalTokens(row)[i] && ']' !in DecimalTokens(row)[i]
      && Decimal(DecimalTokens(row)[i]) == Some(row[i])
  {
    var tokens := DecimalTokens(row);
    forall i | 0 <= i < |tokens|
      ensures tokens[i] != [] && ',' !in tokens[i] && ']' !in tokens[i]
      ensures Decimal(tokens[i]) == Some(row[i])
    {
      forall k | 0 <= k < |tokens[i]| ensures tokens[i][k] != ',' && tokens[i][k] != ']' {
        NumeralCharIsPlain(tokens[i][k]);
      }
      ParseIntNumeral(row[i], 10);
    }
  }

  /** A written set is a non-empty group without `]` whose values read back as the readings. */
  lemma DecimalSetReadsBack(row: seq<nat>)
    requires |row| >= 1
    ensures DecimalSet(row) != [] && ']' !in DecimalSet(row)
    ensures Split(DecimalSet(row), ',') == DecimalTokens(row)
    ensures SetValues(DecimalSet(row)) == Some(row)
  {
    var tokens := DecimalTokens(row);
    DecimalTokensReadBack(row);
    JoinEnds(tokens, ',');
    JoinAvoids(tokens, ',', ']');
    SplitJoin(tokens, ',');
    DecimalTokensValues(row);
  }

  /** The written tokens of a set read back, all of them, as the readings. */
  lemma DecimalTokensValues(row: seq<nat>)
    ensures MapAll(DecimalTokens(row), Decimal) == Some(row)
  {
    var tokens := DecimalTokens(row);
    DecimalTokensReadBack(row);
    var decimal: string -> Option<int> := Decimal;
    MapAllSpec(tokens, decimal);
    forall i | 0 <= i < |tokens| ensures decimal(tokens[i]) == Some(row[i]) {
      assert Decimal(tokens[i]) == Some(row[i]);
    }
    assert MapAll(tokens, decimal).value == row;
  }

  /** Several sample sets as the device writes them. */
  function DecimalSets(rows: seq<seq<nat>>): (sets: seq<string>)
    requires forall i :: 0 <= i < |rows| ==> |rows[i]| >= 1
    ensures |sets| == |rows|
  {
    seq(|rows|, i requires 0 <= i < |rows| => DecimalSet(rows[i]))
  }

  /** Collecting the values of written sets gives back all their readings, in order. */
  lemma {:induction false} StatsValuesOfSets(rows: seq<seq<nat>>)
    requires forall i :: 0 <= i < |rows| ==> |rows[i]| >= 1
    ensures StatsValues(DecimalSets(rows)) == Some(Flatten(rows))
  {
    if rows != [] {
      var n := |rows| - 1;
      var sets := DecimalSets(rows);
      StatsValuesOfSets(rows[..n]);
      assert sets[..n] == DecimalSets(rows[..n]);
      DecimalSetReadsBack(rows[n]);
      ConcatAllStep(sets, SetValues, n);
      assert sets[..n + 1] == sets;
    }
  }

  /** A rendering of at least one set starts with `[` and ends with `]`. */
  lemma {:induction false} RenderEnds(gs: seq<string>)
    requires gs != []
    ensures Render(gs) != [] && Render(gs)[0] == '[' && Render(gs)[|Render(gs)| - 1] == ']'
  {
    if |gs| > 1 {
      RenderEnds(gs[1..]);
    }
  }

  /**
   * A message whose first five sets all read, the first with twelve values,
   * is reported with their statistics and "OK", unless their average is
   * beyond float range, which is answered with "ERROR".
   */
  lemma InspectStats(text: string, firstSet: seq<int>, all: seq<int>)
    requires Strip(text) != [] && Groups(text) != []
    requires Split(Groups(text)[0], ',') != [] && |Split(Groups(text)[0], ',')| == Channels
    requires SetValues(Groups(text)[0]) == Some(firstSet)
    requires StatsValues(Leading(Groups(text))) == Some(all) && all != []
    ensures Inspect(Text(text)) ==
      if AverageOverflows(all) then Outcome(AverageOverflow, ErrorAck)
      else Outcome(Stats(|Groups(text)|, firstSet, Min(all), Max(all)), Ok)
  {
  }

  /** The written sets are found again as the groups of their rendering, which needs no stripping. */
  lemma RenderedSetsFound(rows: seq<seq<nat>>)
    requires |rows| >= 1 && forall i :: 0 <= i < |rows| ==> |rows[i]| >= 1
    ensures var text := Render(DecimalSets(rows));
      Strip(text) == text != [] && Groups(text) == DecimalSets(rows)
  {
    var sets := DecimalSets(rows);
    forall i | 0 <= i < |sets|
      ensures sets[i] != [] && ']' !in sets[i]
    {
      DecimalSetReadsBack(rows[i]);
    }
    GroupsRender(sets);
    RenderEnds(sets);
    StripUnchanged(Render(sets));
  }

  /** Taking the first five sets commutes with writing them. */
  lemma LeadingSets(rows: seq<seq<nat>>)
    requires forall i :: 0 <= i < |rows| ==> |rows[i]| >= 1
    ensures Leading(DecimalSets(rows)) == DecimalSets(Leading(rows))
  {
  }

  /**
   * Sets of twelve 12-bit readings written by the device are reported as
   * such: their number, the first set's readings, and the extremes of the
   * first five sets' readings, with an "OK". The readings' average always
   * fits a float.
   */
  lemma InspectRoundTrip(rows: seq<seq<nat>>)
    requires |rows| >= 1 && forall i :: 0 <= i < |rows| ==> |rows[i]| == Channels
    requires forall i, j :: 0 <= i < |rows| && 0 <= j < |rows[i]| ==> rows[i][j] <= HexDecoder.AdcMax
    ensures var lead := Flatten(Leading(rows));
      Inspect(Text(Render(DecimalSets(rows)))) == Outcome(Stats(|rows|, rows[0], Min(lead), Max(lead)), Ok)
  {
    var sets := DecimalSets(rows);
    var text := Render(sets);
    RenderedSetsFound(rows);
    DecimalSetReadsBack(rows[0]);
    var lead := Leading(rows);
    LeadingSets(rows);
    StatsValuesOfSets(lead);
    LeadingAverageFits(rows);
    InspectStats(text, rows[0], Flatten(lead));
  }
}
