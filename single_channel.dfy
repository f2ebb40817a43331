/**
 * `mainSingle.py`: the single-channel visualiser. Each text message is one
 * 100 ms batch of comma-separated hex readings; the batch is spread evenly
 * over 100 ms of timestamps and kept, with its times, in two deques of
 * 8600 entries (10 s at 860 samples per second) drawn on fixed axes.
 */
module SingleChannel {
  import opened Wrappers
  import opened Text
  import opened Numerals
  import opened HexDecoder
  import opened RollingBuffer
  import opened WindowView
  import opened Messages

  const MaxSamples: nat := 8600

  /** The time, in seconds, one batch covers. */
  const BatchSpan: real := 0.1

  /** A batch handed to the window, with the length of the message it came in. */
  datatype Emission = Emission(values: seq<int>, dataLength: nat)

  /** What `handle_client` does with one message. */
  datatype BatchReply = BatchReply(emitted: Option<Emission>, ack: Option<string>)

  /** The reply `handle_client` gives one message: every non-blank text message is acknowledged, only a non-empty batch is emitted. */
  function HandleBatchMessage(message: Message): (r: BatchReply)
    ensures r.ack.Some? <==> message.Text? && Strip(message.text) != []
    ensures r.ack.Some? ==> r.ack.value == Ok
    ensures r.emitted.Some? <==> r.ack.Some? && DecodeHexData(message.text) != []
    ensures r.emitted.Some? ==>
      r.emitted.value == Emission(DecodeHexData(message.text), |message.text|) && AllInAdcRange(r.emitted.value.values)
  {
    if message.Text? && Strip(message.text) != [] then
      var processed := DecodeHexData(message.text);
      var emitted := if processed != [] then Some(Emission(processed, |message.text|)) else None;
      BatchReply(emitted, Some(Ok))
    else BatchReply(None, None)
  }

  /** A non-empty batch of readings in range, sent as the device writes it, is emitted unchanged and acknowledged. */
  lemma BatchMessageRoundTrip(values: seq<int>)
    requires |values| >= 1
    requires AllInAdcRange(values)
    ensures var text := EncodeHex(values);
      HandleBatchMessage(Text(text)) == BatchReply(Some(Emission(values, |text|)), Some(Ok))
  {
    var text := EncodeHex(values);
    EncodeHexShape(values);
    NumeralCharIsPlain(text[0]);
    NumeralCharIsPlain(text[|text| - 1]);
    StripUnchanged(text);
    BatchRoundTrip(values);
  }

  /** The text of a batch whose second token is no hex numeral: it is its own strip, and splits into a numeral and a non-numeral. */
  lemma BadSecondToken(text: string)
    requires text == "800,zz"
    ensures Strip(text) == text && Tokens(text) == ["800", "zz"]
    ensures Strip("zz") != [] && ParseInt("zz", 16).None?
  {
    StripUnchanged(text);
    assert Split(text, ',') == ["800", "zz"] by {
      SplitJoin(["800", "zz"], ',');
      assert Join(["800", "zz"], ',') == text;
    }
    StripUnchanged("zz");
    assert ParseUnsigned("zz", 16).None? by {
      assert DigitValue('z') == 35;
    }
  }

  /** A message with a token that is no hex numeral is acknowledged but emits nothing. */
  lemma UnparseableBatchAcknowledged()
    ensures HandleBatchMessage(Text("800,zz")) == BatchReply(None, Some(Ok))
  {
    BadSecondToken("800,zz");
    DecodeHexDataAllOrNothing("800,zz", 1);
  }

  /** Timestamps for a batch of `n` readings received at `t`: reading `i` gets `t + i * 0.1 / n`. */
  function BatchTimes(t: real, n: nat): (ts: seq<real>)
    ensures |ts| == n
  {
    seq(n, i requires 0 <= i < n => t + (i as real) * BatchSpan / (n as real))
  }

  /** A batch's timestamps start at its arrival time, strictly increase and stay within the next 100 ms. */
  lemma BatchTimesSpread(t: real, n: nat)
    ensures var ts := BatchTimes(t, n);
      && (n > 0 ==> ts[0] == t)
      && (forall i :: 0 <= i < n ==> t <= ts[i] < t + BatchSpan)
      && (forall i, j :: 0 <= i < j < n ==> ts[i] < ts[j])
      && (forall i :: 0 <= i < n - 1 ==> ts[i + 1] - ts[i] == BatchSpan / (n as real))
  {
    var ts := BatchTimes(t, n);
    var m := n as real;
    forall i | 0 <= i < n
      ensures t <= ts[i] < t + BatchSpan
    {
      Offset(i as real, m);
    }
    forall i, j | 0 <= i < j < n
      ensures ts[i] < ts[j]
    {
      OffsetMonotone(i as real, j as real, m);
    }
    forall i | 0 <= i < n - 1
      ensures ts[i + 1] - ts[i] == BatchSpan / m
    {
      OffsetStep(i as real, m);
    }
  }

  /** The offset of reading `i` of `m` lies in [0, 100 ms). */
  lemma Offset(i: real, m: real)
    requires 0.0 <= i < m
    ensures 0.0 <= i * BatchSpan / m < BatchSpan
  {
    assert i * BatchSpan < m * BatchSpan;
  }

  /** Consecutive readings of a batch are one m-th of the span apart. */
  lemma OffsetStep(i: real, m: real)
    requires m > 0.0
    ensures (i + 1.0) * BatchSpan / m - i * BatchSpan / m == BatchSpan / m
  {
    assert (i + 1.0) * BatchSpan == i * BatchSpan + BatchSpan;
  }

  /** Later readings of a batch get later offsets. */
  lemma OffsetMonotone(i: real, j: real, m: real)
    requires i < j && m > 0.0
    ensures i * BatchSpan / m < j * BatchSpan / m
  {
    assert i * BatchSpan < j * BatchSpan;
  }

  /** The plot widget: recent readings and their interpolated times, kept in step. */
  class SingleChannelPlotWidget {
    const timeData: Deque<real>
    const ekgData: Deque<int>

    ghost predicate Valid()
      reads this, timeData, ekgData
    {
      && timeData.maxLen == MaxSamples && ekgData.maxLen == MaxSamples
      && timeData.Valid() && ekgData.Valid()
      && |timeData.items| == |ekgData.items|
    }

    constructor ()
      ensures Valid() && fresh(timeData) && fresh(ekgData)
      ensures timeData.items == [] && ekgData.items == []
    {
      timeData := new Deque<real>(MaxSamples);
      ekgData := new Deque<int>(MaxSamples);
    }

    /**
     * `add_data_batch`: append every reading with its interpolated time,
     * oldest evicted first, and return the redrawn view.
     */
    method AddDataBatch(values: seq<int>, now: real) returns (view: View)
      requires Valid()
      modifies timeData, ekgData
      ensures Valid()
      ensures timeData.items == Recent(old(timeData.items) + BatchTimes(now, |values|), MaxSamples)
      ensures ekgData.items == Recent(old(ekgData.items) + values, MaxSamples)
      ensures view == FixedAxisView(timeData.items, ekgData.items)
    {
      ghost var times := BatchTimes(now, |values|);
      ghost var time0, ekg0 := timeData.items, ekgData.items;
      var i := 0;
      while i < |values|
        invariant 0 <= i <= |values|
        invariant Valid()
        invariant timeData.items == Recent(time0 + times[..i], MaxSamples)
        invariant ekgData.items == Recent(ekg0 + values[..i], MaxSamples)
      {
        var timestamp := now + (i as real) * BatchSpan / (|values| as real);
        assert timestamp == times[i];
        timeData.Append(timestamp);
        ekgData.Append(values[i]);
        RecentStep(time0, times, i, MaxSamples);
        RecentStep(ekg0, values, i, MaxSamples);
        i := i + 1;
      }
      assert times[..i] == times && values[..i] == values;
      view := UpdatePlot();
    }

    /** `update_plot`: the fixed-axis view of the buffers, or nothing with fewer than two points. */
    method UpdatePlot() returns (view: View)
      requires Valid()
      ensures view == FixedAxisView(timeData.items, ekgData.items)
    {
      if |timeData.items| < 2 {
        return Skip;
      }
      view := FixedAxisView(timeData.items, ekgData.items);
    }
  }

  /** The main window: the plot widget and the counters behind the status line. */
  class MainWindow {
    const plotWidget: SingleChannelPlotWidget
    const startTime: real
    var totalBatches: nat
    var totalSamples: nat

    ghost predicate Valid()
      reads this, plotWidget, plotWidget.timeData, plotWidget.ekgData
    {
      plotWidget.Valid()
    }

    constructor (startTime: real)
      ensures Valid() && fresh(plotWidget) && fresh(plotWidget.timeData) && fresh(plotWidget.ekgData)
      ensures this.startTime == startTime && totalBatches == 0 && totalSamples == 0
      ensures plotWidget.timeData.items == [] && plotWidget.ekgData.items == []
    {
      plotWidget := new SingleChannelPlotWidget();
      this.startTime := startTime;
      totalBatches := 0;
      totalSamples := 0;
    }

    /** `on_data_received`: plot the batch and count it and its readings. */
    method OnDataReceived(values: seq<int>, now: real) returns (view: View)
      requires Valid()
      modifies this, plotWidget.timeData, plotWidget.ekgData
      ensures Valid()
      ensures totalBatches == old(totalBatches) + 1
      ensures totalSamples == old(totalSamples) + |values|
      ensures plotWidget.timeData.items ==
        Recent(old(plotWidget.timeData.items) + BatchTimes(now, |values|), MaxSamples)
      ensures plotWidget.ekgData.items == Recent(old(plotWidget.ekgData.items) + values, MaxSamples)
      ensures view == FixedAxisView(plotWidget.timeData.items, plotWidget.ekgData.items)
    {
      view := plotWidget.AddDataBatch(values, now);
      totalBatches := totalBatches + 1;
      totalSamples := totalSamples + |values|;
    }

    /** `update_statistics`: batch and sample rates since start-up, both 0 when no time has passed. */
    method UpdateStatistics(now: real) returns (batchRate: real, sampleRate: real)
      ensures now - startTime <= 0.0 ==> batchRate == 0.0 && sampleRate == 0.0
      ensures now - startTime > 0.0 ==>
        batchRate * (now - startTime) == totalBatches as real && sampleRate * (now - startTime) == totalSamples as real
    {
      var elapsed := now - startTime;
      if elapsed > 0.0 {
        batchRate := Rate(totalBatches, elapsed);
        sampleRate := Rate(totalSamples, elapsed);
      } else {
        batchRate, sampleRate := 0.0, 0.0;
      }
    }
  }
}
