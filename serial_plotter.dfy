/**
 * `main.py`: the dual-channel serial plotter. The device writes one line
 * per sample, `[A0,A1]` as a JSON array; a reader loop keeps the two
 * channels and the sample times in three deques of equal capacity, and an
 * animation callback computes the scrolling view and, about once a second,
 * the sample rate shown in the titles.
 */
module SerialPlotter {
  import opened Wrappers
  import opened Text
  import opened Numerals
  import opened RollingBuffer
  import opened WindowView
  import opened Seqs

  /** One comma-separated element of a JSON array, read as a JSON integer; None where `json.loads` would not give one. */
  function JsonElement(token: string): Option<int>
  {
    ParseJsonInt(TrimJson(token))
  }

  /** `json.loads` of a bracketed line, for arrays of integers: None where it raises a decode error. */
  function ParseJsonIntArray(line: string): (r: Option<seq<int>>)
    requires |line| >= 2 && line[0] == '[' && line[|line| - 1] == ']'
    ensures r == Some([]) <==> TrimJson(line[1..|line| - 1]) == []
    ensures r.Some? && r.value != [] ==> |r.value| == |Split(line[1..|line| - 1], ',')|
  {
    var inner := line[1..|line| - 1];
    if TrimJson(inner) == [] then Some([]) else MapAll(Split(inner, ','), JsonElement)
  }

  /** Every comma-separated element reads as a JSON integer. */
  predicate AllJsonInts(elements: seq<string>) {
    forall i :: 0 <= i < |elements| ==> JsonElement(elements[i]).Some?
  }

  /**
   * A non-empty array decodes exactly when each of its elements is a JSON
   * integer, and then to those integers in order.
   */
  lemma ParseJsonIntArraySpec(line: string)
    requires |line| >= 2 && line[0] == '[' && line[|line| - 1] == ']'
    requires TrimJson(line[1..|line| - 1]) != []
    ensures var elements := Split(line[1..|line| - 1], ',');
      && (ParseJsonIntArray(line).Some? <==> AllJsonInts(elements))
      && (ParseJsonIntArray(line).Some? ==>
            forall i :: 0 <= i < |elements| ==> JsonElement(elements[i]) == Some(ParseJsonIntArray(line).value[i]))
  {
    var elements := Split(line[1..|line| - 1], ',');
    var element: string -> Option<int> := JsonElement;
    MapAllSpec(elements, element);
    if AllJsonInts(elements) {
      forall i | 0 <= i < |elements| ensures element(elements[i]).Some? {
        assert JsonElement(elements[i]).Some?;
      }
    }
  }

  /** The JSON text of an array of integers, as the device prints it. */
  function JsonArray(values: seq<int>): string
    requires |values| >= 1
  {
    "[" + Join(seq(|values|, i requires 0 <= i < |values| => JsonNumeral(values[i])), ',') + "]"
  }

  /** Text without JSON whitespace at its ends is its own trim. */
  lemma TrimJsonUnchanged(s: string)
    requires s != [] && !IsJsonSpace(s[0]) && !IsJsonSpace(s[|s| - 1])
    ensures TrimJson(s) == s
  {
  }

  /** The elements written by `JsonArray` read back as the same integers. */
  lemma ElementsRoundTrip(tokens: seq<string>, values: seq<int>)
    requires |tokens| == |values|
    requires forall i :: 0 <= i < |tokens| ==> tokens[i] == JsonNumeral(values[i])
    ensures MapAll(tokens, JsonElement) == Some(values)
  {
    forall i | 0 <= i < |tokens|
      ensures JsonElement(tokens[i]) == Some(values[i])
    {
      TrimJsonUnchanged(tokens[i]);
      JsonIntRoundTrip(values[i]);
    }
    MapAllSpec(tokens, JsonElement);
    assert MapAll(tokens, JsonElement).value == values;
  }

  /** Every non-empty array of integers survives being printed as JSON and decoded. */
  lemma JsonArrayRoundTrip(values: seq<int>)
    requires |values| >= 1
    ensures ParseJsonIntArray(JsonArray(values)) == Some(values)
  {
    var tokens := seq(|values|, i requires 0 <= i < |values| => JsonNumeral(values[i]));
    var inner := Join(tokens, ',');
    var line := JsonArray(values);
    assert line[1..|line| - 1] == inner;
    forall i | 0 <= i < |tokens|
      ensures tokens[i] != [] && ',' !in tokens[i]
    {
      forall k | 0 <= k < |tokens[i]| ensures tokens[i][k] != ',' {
        if tokens[i][k] != '-' {
          NumeralCharIsPlain(tokens[i][k]);
        }
      }
    }
    JoinEnds(tokens, ',');
    var first, last := tokens[0], tokens[|tokens| - 1];
    assert first[0] == '-' || IsNumeralChar(first[0]);
    assert IsNumeralChar(last[|last| - 1]);
    if first[0] != '-' {
      NumeralCharIsPlain(first[0]);
    }
    NumeralCharIsPlain(last[|last| - 1]);
    TrimJsonUnchanged(inner);
    SplitJoin(tokens, ',');
    ElementsRoundTrip(tokens, values);
  }

  /** What `read_serial_data` makes of one stripped line. */
  datatype LineKind =
    | Skipped                  // empty, or a `#` monitoring message
    | NotCandidate             // not of the form `[...]`
    | BadJson                  // bracketed, but not a JSON array of integers
    | WrongLength(length: nat) // a JSON array of another length than 2
    | Sample(a0: int, a1: int) // `[A0,A1]`

  function Classify(line: string): (k: LineKind)
    ensures k.Skipped? <==> line == [] || line[0] == '#'
    ensures k.NotCandidate? <==> line != [] && line[0] != '#' && !(line[0] == '[' && line[|line| - 1] == ']')
    ensures k.WrongLength? ==> k.length != 2
    ensures line != [] && line[0] == '[' && line[|line| - 1] == ']' ==>
      (k.BadJson? <==> ParseJsonIntArray(line).None?)
    ensures line != [] && line[0] == '[' && line[|line| - 1] == ']' && ParseJsonIntArray(line).Some? ==>
      var d := ParseJsonIntArray(line).value;
      k == if |d| == 2 then Sample(d[0], d[1]) else WrongLength(|d|)
  {
    if line == [] || line[0] == '#' then Skipped
    else if !(line[0] == '[' && line[|line| - 1] == ']') then NotCandidate
    else match ParseJsonIntArray(line)
      case None => BadJson
      case Some(data) =>
        if |data| == 2 then Sample(data[0], data[1])
        else WrongLength(|data|)
  }

  /** A line classified as a sample is a bracketed JSON array of exactly its two readings. */
  lemma SampleIsPair(line: string)
    requires Classify(line).Sample?
    ensures |line| >= 2 && line[0] == '[' && line[|line| - 1] == ']'
    ensures ParseJsonIntArray(line) == Some([Classify(line).a0, Classify(line).a1])
  {
    var data := ParseJsonIntArray(line).value;
    assert data == [data[0], data[1]];
  }

  /** The device's sample line `[A0,A1]` is accepted with both readings, unclamped. */
  lemma SampleLineAccepted(a0: int, a1: int)
    ensures Classify(JsonArray([a0, a1])) == Sample(a0, a1)
  {
    JsonArrayRoundTrip([a0, a1]);
  }

  /** A JSON array of any other length is recognised and skipped. */
  lemma OtherLengthSkipped(values: seq<int>)
    requires |values| >= 1 && |values| != 2
    ensures Classify(JsonArray(values)) == WrongLength(|values|)
  {
    JsonArrayRoundTrip(values);
  }

  /** One `readline` as the reader loop sees it: the decoded text and the time it was read, or a read that raised. */
  datatype SerialRead = Line(text: string, at: real) | ReadFailure

  /** One accepted sample: both channels and its time since start-up. */
  datatype Reading = Reading(a0: int, a1: int, time: real)

  /** The reads the loop handles: those before the first failing read. */
  function UntilFailure(received: seq<SerialRead>): (r: seq<SerialRead>)
    ensures |r| <= |received| && r == received[..|r|]
    ensures ReadFailure !in r
    ensures |r| < |received| ==> received[|r|].ReadFailure?
  {
    if received == [] || received[0].ReadFailure? then [] else [received[0]] + UntilFailure(received[1..])
  }

  /** The sample a classified line yields at `time`: one for `[A0,A1]`, none otherwise. */
  function SampleOf(kind: LineKind, time: real): (rs: seq<Reading>)
    ensures kind.Sample? ==> rs == [Reading(kind.a0, kind.a1, time)]
    ensures !kind.Sample? ==> rs == []
  {
    if kind.Sample? then [Reading(kind.a0, kind.a1, time)] else []
  }

  /** The sample one read yields: its stripped line's, timed since start-up; none for a failed read. */
  function ReadingOf(read: SerialRead, startTime: real): (rs: seq<Reading>)
    ensures |rs| <= 1
    ensures |rs| == 1 <==> read.Line? && Classify(Strip(read.text)).Sample?
    ensures |rs| == 1 ==>
      var k := Classify(Strip(read.text));
      rs[0] == Reading(k.a0, k.a1, read.at - startTime)
  {
    if read.ReadFailure? then [] else SampleOf(Classify(Strip(read.text)), read.at - startTime)
  }

  /** The samples some reads yield, in order, timed relative to `startTime`. */
  function Readings(received: seq<SerialRead>, startTime: real): (rs: seq<Reading>)
    ensures |rs| <= |received|
  {
    if received == [] then []
    else Readings(received[..|received| - 1], startTime) + ReadingOf(received[|received| - 1], startTime)
  }

  /** The samples of some reads are what each read yields, one after the other. */
  lemma {:induction false} ReadingsConcat(received: seq<SerialRead>, startTime: real, each: SerialRead -> seq<Reading>)
    requires forall read :: each(read) == ReadingOf(read, startTime)
    ensures Readings(received, startTime) == ConcatMap(received, each)
  {
    if received != [] {
      ReadingsConcat(received[..|received| - 1], startTime, each);
    }
  }

  /** Reads yield no sample at all exactly when none of them yields one. */
  lemma ReadingsNone(received: seq<SerialRead>, startTime: real)
    ensures Readings(received, startTime) == [] <==>
      forall i :: 0 <= i < |received| ==> ReadingOf(received[i], startTime) == []
  {
    var each := (read: SerialRead) => ReadingOf(read, startTime);
    ReadingsConcat(received, startTime, each);
    ConcatMapEmpty(received, each);
  }

  /** Lines yield samples independently of each other. */
  lemma {:induction false} ReadingsAppend(a: seq<SerialRead>, b: seq<SerialRead>, startTime: real)
    ensures Readings(a + b, startTime) == Readings(a, startTime) + Readings(b, startTime)
  {
    if b == [] {
      assert a + b == a;
    } else {
      var n := |b| - 1;
      ReadingsAppend(a, b[..n], startTime);
      assert (a + b)[..|a + b| - 1] == a + b[..n];
      assert Readings(a + b, startTime) == Readings(a + b[..n], startTime) + ReadingOf(b[n], startTime);
      AppendAssoc(Readings(a, startTime), Readings(b[..n], startTime), ReadingOf(b[n], startTime));
    }
  }

  /** A line that is not a sample leaves every buffer and the counter as they were, wherever it appears. */
  lemma SkippedLineIgnored(a: seq<SerialRead>, text: string, at: real, b: seq<SerialRead>, startTime: real)
    requires !Classify(Strip(text)).Sample?
    ensures Readings(a + [Line(text, at)] + b, startTime) == Readings(a + b, startTime)
  {
    var read := Line(text, at);
    assert Readings([read], startTime) == [] by {
      assert [read][..0] == [];
      assert ReadingOf(read, startTime) == [];
    }
    ReadingsAppend(a, [read], startTime);
    assert Readings(a + [read], startTime) == Readings(a, startTime) + [];
    assert Readings(a, startTime) + [] == Readings(a, startTime);
    ReadingsAppend(a + [read], b, startTime);
    ReadingsAppend(a, b, startTime);
  }

  /** The received before the first failure are exactly a prefix free of failures that stops at one (or at the end). */
  lemma {:induction false} UntilFailureIsPrefix(received: seq<SerialRead>, i: nat)
    requires i <= |received|
    requires ReadFailure !in received[..i]
    requires i == |received| || received[i].ReadFailure?
    ensures UntilFailure(received) == received[..i]
  {
    if i > 0 {
      assert received[0] in received[..i];
      assert received[1..][..i - 1] == received[..i][1..];
      UntilFailureIsPrefix(received[1..], i - 1);
      assert [received[0]] + received[1..][..i - 1] == received[..i];
    }
  }

  function Channel0(rs: seq<Reading>): (c: seq<int>)
    ensures |c| == |rs| && forall i :: 0 <= i < |rs| ==> c[i] == rs[i].a0
  {
    seq(|rs|, i requires 0 <= i < |rs| => rs[i].a0)
  }

  function Channel1(rs: seq<Reading>): (c: seq<int>)
    ensures |c| == |rs| && forall i :: 0 <= i < |rs| ==> c[i] == rs[i].a1
  {
    seq(|rs|, i requires 0 <= i < |rs| => rs[i].a1)
  }

  function Times(rs: seq<Reading>): (c: seq<real>)
    ensures |c| == |rs| && forall i :: 0 <= i < |rs| ==> c[i] == rs[i].time
  {
    seq(|rs|, i requires 0 <= i < |rs| => rs[i].time)
  }

  /** The columns of a sample sequence grow by the new sample's fields. */
  lemma ColumnsSnoc(rs: seq<Reading>, r: Reading)
    ensures Channel0(rs + [r]) == Channel0(rs) + [r.a0]
    ensures Channel1(rs + [r]) == Channel1(rs) + [r.a1]
    ensures Times(rs + [r]) == Times(rs) + [r.time]
  {
  }

  /** One more read adds what that read each. */
  lemma ReadingsStep(received: seq<SerialRead>, i: nat, startTime: real)
    requires i < |received|
    ensures Readings(received[..i + 1], startTime) == Readings(received[..i], startTime) + ReadingOf(received[i], startTime)
  {
    assert received[..i + 1][..i] == received[..i];
  }

  /** Feeding what one read yields to windows over the columns extends each column by it. */
  lemma ColumnsExtend(c0: seq<int>, c1: seq<int>, t0: seq<real>, rs: seq<Reading>, got: seq<Reading>, n: nat)
    requires |got| <= 1
    ensures Recent(Recent(c0 + Channel0(rs), n) + Channel0(got), n) == Recent(c0 + Channel0(rs + got), n)
    ensures Recent(Recent(c1 + Channel1(rs), n) + Channel1(got), n) == Recent(c1 + Channel1(rs + got), n)
    ensures Recent(Recent(t0 + Times(rs), n) + Times(got), n) == Recent(t0 + Times(rs + got), n)
  {
    if got == [] {
      assert rs + got == rs;
      assert Channel0(got) == [] && Channel1(got) == [] && Times(got) == [];
      assert Recent(c0 + Channel0(rs), n) + [] == Recent(c0 + Channel0(rs), n);
      assert Recent(c1 + Channel1(rs), n) + [] == Recent(c1 + Channel1(rs), n);
      assert Recent(t0 + Times(rs), n) + [] == Recent(t0 + Times(rs), n);
    } else {
      var r := got[0];
      assert got == [r];
      ColumnsSnoc(rs, r);
      assert Channel0(got) == [r.a0] && Channel1(got) == [r.a1] && Times(got) == [r.time];
      RecentSnoc(c0 + Channel0(rs), r.a0, n);
      RecentSnoc(c1 + Channel1(rs), r.a1, n);
      RecentSnoc(t0 + Times(rs), r.time, n);
      AppendAssoc(c0, Channel0(rs), [r.a0]);
      AppendAssoc(c1, Channel1(rs), [r.a1]);
      AppendAssoc(t0, Times(rs), [r.time]);
    }
  }

  /** What the titles' rate bookkeeping does on one animation frame. */
  datatype Refresh = Refresh(lastUpdate: Option<real>, title: Option<real>)

  /**
   * The rate refresh of `update_plot`: the first frame only records the
   * time; later, once more than a second has passed since the last record,
   * the rate is recomputed (when time has elapsed since start-up) and the
   * time recorded again.
   */
  function RateRefresh(last: Option<real>, now: real, startTime: real, count: nat): (r: Refresh)
    ensures r.title.Some? <==> last.Some? && now - last.value > 1.0 && now - startTime > 0.0
    ensures r.title.Some? ==> r.title.value == Rate(count, now - startTime)
    ensures last.Some? && now - last.value <= 1.0 ==> r.lastUpdate == last
    ensures !(last.Some? && now - last.value <= 1.0) ==> r.lastUpdate == Some(now)
  {
    match last
      case None => Refresh(Some(now), None)
      case Some(t) =>
        if now - t > 1.0 then
          var elapsed := now - startTime;
          Refresh(Some(now), if elapsed > 0.0 then Some(Rate(count, elapsed)) else None)
        else Refresh(last, None)
  }

  /**
   * The recorded time after a run of animation frames that reach the rate
   * bookkeeping, each given by its time and the sample count then.
   */
  function RecordAfter(last: Option<real>, frames: seq<(real, nat)>, startTime: real): Option<real>
    decreases frames
  {
    if frames == [] then last
    else RecordAfter(RateRefresh(last, frames[0].0, startTime, frames[0].1).lastUpdate, frames[1..], startTime)
  }

  /** One frame never moves the recorded time backwards, nor forgets it. */
  lemma RecordMovesForward(u: real, now: real, startTime: real, count: nat)
    ensures var next := RateRefresh(Some(u), now, startTime, count).lastUpdate;
      next.Some? && next.value >= u
  {
  }

  /** Over any run of frames the recorded time stays recorded and only moves forward. */
  lemma {:induction false} RecordAdvances(u: real, frames: seq<(real, nat)>, startTime: real)
    ensures RecordAfter(Some(u), frames, startTime).Some?
    ensures RecordAfter(Some(u), frames, startTime).value >= u
    decreases frames
  {
    if frames != [] {
      var next := RateRefresh(Some(u), frames[0].0, startTime, frames[0].1).lastUpdate;
      RecordMovesForward(u, frames[0].0, startTime, frames[0].1);
      RecordAdvances(next.value, frames[1..], startTime);
    }
  }

  /**
   * Any two title updates are more than a second apart, whatever frames
   * come between them.
   */
  lemma TitlesSpacedAcross(last: Option<real>, t1: real, c1: nat, frames: seq<(real, nat)>, t2: real, c2: nat, startTime: real)
    requires RateRefresh(last, t1, startTime, c1).title.Some?
    requires
      var between := RecordAfter(RateRefresh(last, t1, startTime, c1).lastUpdate, frames, startTime);
      RateRefresh(between, t2, startTime, c2).title.Some?
    ensures t2 - t1 > 1.0
  {
    RecordAdvances(t1, frames, startTime);
  }

  /** Two consecutive title updates are more than a second apart. */
  lemma TitlesSpaced(last: Option<real>, t1: real, t2: real, startTime: real, c1: nat, c2: nat)
    requires RateRefresh(last, t1, startTime, c1).title.Some?
    requires RateRefresh(RateRefresh(last, t1, startTime, c1).lastUpdate, t2, startTime, c2).title.Some?
    ensures t2 - t1 > 1.0
  {
  }

  class RealTimeEkgPlotter {
    const bufferSize: nat
    const ch0Data: Deque<int>
    const ch1Data: Deque<int>
    const timeData: Deque<real>
    var sampleCount: nat
    var startTime: real
    var lastRateUpdate: Option<real>
    /** The rate last written into the titles, if any. */
    var titleRate: Option<real>

    /** The three buffers are distinct, share the capacity and always have equal length. */
    ghost predicate Valid()
      reads this, ch0Data, ch1Data, timeData
    {
      && ch0Data != ch1Data
      && ch0Data.maxLen == bufferSize && ch1Data.maxLen == bufferSize && timeData.maxLen == bufferSize
      && ch0Data.Valid() && ch1Data.Valid() && timeData.Valid()
      && |ch0Data.items| == |ch1Data.items| == |timeData.items|
    }

    constructor (bufferSize: nat, startTime: real)
      ensures Valid() && fresh(ch0Data) && fresh(ch1Data) && fresh(timeData)
      ensures this.bufferSize == bufferSize && this.startTime == startTime
      ensures ch0Data.items == [] && ch1Data.items == [] && timeData.items == []
      ensures sampleCount == 0 && lastRateUpdate == None && titleRate == None
    {
      this.bufferSize := bufferSize;
      ch0Data := new Deque<int>(bufferSize);
      ch1Data := new Deque<int>(bufferSize);
      timeData := new Deque<real>(bufferSize);
      sampleCount := 0;
      this.startTime := startTime;
      lastRateUpdate := None;
      titleRate := None;
    }

    /**
     * `read_serial_data`: strip each line, skip blank and `#` lines, append
     * each `[A0,A1]` sample to the three buffers and count it; the first
     * failing read ends the loop.
     */
    method ReadSerialData(received: seq<SerialRead>)
      requires Valid()
      modifies this, ch0Data, ch1Data, timeData
      ensures Valid()
      ensures var rs := Readings(UntilFailure(received), startTime);
        && ch0Data.items == Recent(old(ch0Data.items) + Channel0(rs), bufferSize)
        && ch1Data.items == Recent(old(ch1Data.items) + Channel1(rs), bufferSize)
        && timeData.items == Recent(old(timeData.items) + Times(rs), bufferSize)
        && sampleCount == old(sampleCount) + |rs|
      ensures startTime == old(startTime) && lastRateUpdate == old(lastRateUpdate) && titleRate == old(titleRate)
    {
      ghost var c0, c1, t0 := ch0Data.items, ch1Data.items, timeData.items;
      ghost var count0 := sampleCount;
      var i := 0;
      while i < |received|
        invariant 0 <= i <= |received|
        invariant ReadFailure !in received[..i]
        invariant Valid()
        invariant var rs := Readings(received[..i], startTime);
          && ch0Data.items == Recent(c0 + Channel0(rs), bufferSize)
          && ch1Data.items == Recent(c1 + Channel1(rs), bufferSize)
          && timeData.items == Recent(t0 + Times(rs), bufferSize)
          && sampleCount == count0 + |rs|
        invariant startTime == old(startTime) && lastRateUpdate == old(lastRateUpdate) && titleRate == old(titleRate)
      {
        if received[i].ReadFailure? {
          break;
        }
        ghost var before := Readings(received[..i], startTime);
        ReadingsStep(received, i, startTime);
        ColumnsExtend(c0, c1, t0, before, ReadingOf(received[i], startTime), bufferSize);
        HandleLine(received[i]);
        PrefixSnoc(received, i);
        i := i + 1;
      }
      UntilFailureIsPrefix(received, i);
    }

    /** The body of `read_serial_data`'s loop for one line read: strip it, classify it, and keep it if it is a sample. */
    method HandleLine(read: SerialRead)
      requires Valid() && read.Line?
      modifies this, ch0Data, ch1Data, timeData
      ensures Valid()
      ensures var got := ReadingOf(read, startTime);
        && ch0Data.items == Recent(old(ch0Data.items) + Channel0(got), bufferSize)
        && ch1Data.items == Recent(old(ch1Data.items) + Channel1(got), bufferSize)
        && timeData.items == Recent(old(timeData.items) + Times(got), bufferSize)
        && sampleCount == old(sampleCount) + |got|
      ensures startTime == old(startTime) && lastRateUpdate == old(lastRateUpdate) && titleRate == old(titleRate)
    {
      var got := ReadingOf(read, startTime);
      if got != [] {
        var r := got[0];
        assert got == [r];
        assert Channel0(got) == [r.a0] && Channel1(got) == [r.a1] && Times(got) == [r.time];
        ch0Data.Append(r.a0);
        ch1Data.Append(r.a1);
        timeData.Append(r.time);
        sampleCount := sampleCount + 1;
      } else {
        assert Channel0(got) == [] && Channel1(got) == [] && Times(got) == [];
        assert ch0Data.items + [] == ch0Data.items && ch1Data.items + [] == ch1Data.items;
        assert timeData.items + [] == timeData.items;
      }
    }

    /**
     * `update_plot`: nothing with fewer than two samples; otherwise the
     * scrolling view, with the rate bookkeeping of one animation frame.
     */
    method UpdatePlot(now: real) returns (view: DualView)
      requires Valid()
      modifies this
      ensures Valid()
      ensures view == ScrollingView(timeData.items, ch0Data.items, ch1Data.items)
      ensures |timeData.items| < 2 ==> lastRateUpdate == old(lastRateUpdate) && titleRate == old(titleRate)
      ensures |timeData.items| >= 2 ==>
        var r := RateRefresh(old(lastRateUpdate), now, startTime, sampleCount);
        && lastRateUpdate == r.lastUpdate
        && titleRate == (if r.title.Some? then r.title else old(titleRate))
      ensures sampleCount == old(sampleCount) && startTime == old(startTime)
    {
      if |timeData.items| < 2 {
        return SkipBoth;
      }
      view := ScrollingView(timeData.items, ch0Data.items, ch1Data.items);
      var refresh := RateRefresh(lastRateUpdate, now, startTime, sampleCount);
      lastRateUpdate := refresh.lastUpdate;
      if refresh.title.Some? {
        titleRate := refresh.title;
      }
    }
  }
}
