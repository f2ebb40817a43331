/**
 * `main1.py`: the twelve-channel visualiser. A WebSocket peer sends text
 * messages of newline-separated hex frames; every frame that decodes to 12
 * readings is handed to the plot widget, which keeps the selected channel's
 * last 400 readings with their arrival times.
 */
module TwelveChannel {
  import opened Wrappers
  import opened Text
  import opened Numerals
  import opened HexDecoder
  import opened RollingBuffer
  import opened WindowView
  import opened Messages
  import opened Seqs

  /** About 10 seconds at 40 Hz. */
  const MaxSamples: nat := 400

  /** What `handle_client` does with one message: the frames it emits, in order, and the acknowledgement, if any. */
  datatype Reply = Reply(emitted: seq<seq<int>>, ack: Option<string>)

  /** A frame of the 12-channel protocol: 12 readings in the ADC range. */
  predicate IsFrame(frame: seq<int>)
  {
    |frame| == ChannelCount && AllInAdcRange(frame)
  }

  /** The frame one message line yields: none for a blank line or one that does not decode to 12 readings. */
  function LineFrame(line: string): (r: Option<seq<int>>)
    ensures r.Some? ==> IsFrame(r.value)
  {
    if Strip(line) == [] then None else DecodeHexLine(line)
  }

  /** The frames some message lines yield, in line order: non-blank lines that decode to 12 readings. */
  function FramesOf(lines: seq<string>): (frames: seq<seq<int>>)
    ensures |frames| <= |lines|
    ensures forall k :: 0 <= k < |frames| ==> IsFrame(frames[k])
  {
    KeepSomeAll(lines, LineFrame, IsFrame);
    KeepSome(lines, LineFrame)
  }

  /** Filtering lines distributes over concatenation: a line's frame does not depend on its neighbours. */
  lemma FramesOfAppend(a: seq<string>, b: seq<string>)
    ensures FramesOf(a + b) == FramesOf(a) + FramesOf(b)
  {
    KeepSomeAppend(a, b, LineFrame);
  }

  /** A blank line or a line that does not decode adds no frame wherever it appears. */
  lemma RejectedLineIgnored(a: seq<string>, line: string, b: seq<string>)
    requires Strip(line) == [] || DecodeHexLine(line).None?
    ensures FramesOf(a + [line] + b) == FramesOf(a + b)
  {
    FramesOfAppend(a + [line], b);
    FramesOfAppend(a, [line]);
    FramesOfAppend(a, b);
    assert [line][..0] == [];
  }

  /** The reply `handle_client` gives one message. */
  function FrameReply(message: Message): (r: Reply)
    ensures r.ack.Some? <==> message.Text? && Strip(message.text) != []
    ensures r.ack.Some? ==> r.ack.value == Ok
    ensures r.ack.None? ==> r.emitted == []
    ensures forall k :: 0 <= k < |r.emitted| ==> |r.emitted[k]| == ChannelCount && AllInAdcRange(r.emitted[k])
  {
    if message.Text? && Strip(message.text) != [] then
      Reply(FramesOf(Split(Strip(message.text), '\n')), Some(Ok))
    else Reply([], None)
  }

  /** `handle_client`'s per-message step: split a non-blank text message into lines and emit each good frame. */
  method HandleFrameMessage(message: Message) returns (reply: Reply)
    ensures reply == FrameReply(message)
  {
    if !(message.Text? && Strip(message.text) != []) {
      return Reply([], None);
    }
    var lines := Split(Strip(message.text), '\n');
    var emitted: seq<seq<int>> := [];
    var i := 0;
    while i < |lines|
      invariant 0 <= i <= |lines|
      invariant emitted == FramesOf(lines[..i])
    {
      var line := lines[i];
      KeepSomeStep(lines, LineFrame, i);
      if Strip(line) != [] {
        var processed := ParseHexLine(line);
        if processed.Some? && |processed.value| == ChannelCount {
          emitted := emitted + [processed.value];
        }
      }
      i := i + 1;
    }
    assert lines[..|lines|] == lines;
    reply := Reply(emitted, Some(Ok));
  }

  /** The wire text of some frames: one encoded frame per line. */
  function EncodeFrames(frames: seq<seq<int>>): string
    requires |frames| >= 1
    requires forall k :: 0 <= k < |frames| ==> |frames[k]| == ChannelCount && AllInAdcRange(frames[k])
  {
    Join(seq(|frames|, k requires 0 <= k < |frames| => EncodeHex(frames[k])), '\n')
  }

  /** An encoded frame is a non-blank line that decodes to the frame. */
  lemma EncodedLineAccepted(frame: seq<int>)
    requires |frame| == ChannelCount && AllInAdcRange(frame)
    ensures Strip(EncodeHex(frame)) != []
    ensures DecodeHexLine(EncodeHex(frame)) == Some(frame)
  {
    var line := EncodeHex(frame);
    EncodeHexShape(frame);
    NumeralCharIsPlain(line[0]);
    NumeralCharIsPlain(line[|line| - 1]);
    StripUnchanged(line);
    FrameRoundTrip(frame);
  }

  /** A last line that decodes adds its frame at the end. */
  lemma FramesOfAccepted(lines: seq<string>, frame: seq<int>)
    requires lines != []
    requires Strip(lines[|lines| - 1]) != [] && DecodeHexLine(lines[|lines| - 1]) == Some(frame)
    ensures FramesOf(lines) == FramesOf(lines[..|lines| - 1]) + [frame]
  {
  }

  /** Encoded frames, one per line, decode back to the same frames. */
  lemma {:induction false} FramesOfEncoded(lines: seq<string>, frames: seq<seq<int>>)
    requires |lines| == |frames|
    requires forall k :: 0 <= k < |frames| ==> |frames[k]| == ChannelCount && AllInAdcRange(frames[k])
    requires forall k :: 0 <= k < |lines| ==> lines[k] == EncodeHex(frames[k])
    ensures FramesOf(lines) == frames
  {
    if lines != [] {
      var n := |lines| - 1;
      FramesOfEncoded(lines[..n], frames[..n]);
      EncodedLineAccepted(frames[n]);
      FramesOfAccepted(lines, frames[n]);
      SnocLast(frames);
    }
  }

  /** A message holding frames in range, one per line, makes `handle_client` emit exactly those frames and acknowledge. */
  lemma MessageRoundTrip(frames: seq<seq<int>>)
    requires |frames| >= 1
    requires forall k :: 0 <= k < |frames| ==> |frames[k]| == ChannelCount && AllInAdcRange(frames[k])
    ensures FrameReply(Text(EncodeFrames(frames))) == Reply(frames, Some(Ok))
  {
    var lines := seq(|frames|, k requires 0 <= k < |frames| => EncodeHex(frames[k]));
    var text := EncodeFrames(frames);
    forall k | 0 <= k < |lines|
      ensures lines[k] != [] && '\n' !in lines[k]
      ensures IsNumeralChar(lines[k][0]) && IsNumeralChar(lines[k][|lines[k]| - 1])
    {
      EncodeHexShape(frames[k]);
      forall m | 0 <= m < |lines[k]| ensures lines[k][m] != '\n' {
        if lines[k][m] != ',' {
          NumeralCharIsPlain(lines[k][m]);
        }
      }
    }
    JoinEnds(lines, '\n');
    NumeralCharIsPlain(text[0]);
    NumeralCharIsPlain(text[|text| - 1]);
    StripUnchanged(text);
    SplitJoin(lines, '\n');
    FramesOfEncoded(lines, frames);
  }

  /** The plot widget: the selected channel's recent readings and their arrival times, kept in step. */
  class EkgPlotWidget {
    const timeData: Deque<real>
    const ekgData: Deque<int>
    var selectedChannel: nat

    ghost predicate Valid()
      reads this, timeData, ekgData
    {
      && timeData.maxLen == MaxSamples && ekgData.maxLen == MaxSamples
      && timeData.Valid() && ekgData.Valid()
      && |timeData.items| == |ekgData.items|
      && selectedChannel < ChannelCount
    }

    constructor ()
      ensures Valid() && fresh(timeData) && fresh(ekgData)
      ensures timeData.items == [] && ekgData.items == [] && selectedChannel == 0
    {
      timeData := new Deque<real>(MaxSamples);
      ekgData := new Deque<int>(MaxSamples);
      selectedChannel := 0;
    }

    /**
     * `add_data_point`: ignore anything but a 12-reading frame; otherwise
     * record the arrival time and the selected channel's reading and return
     * the redrawn view.
     */
    method AddDataPoint(channelData: seq<int>, now: real) returns (view: View)
      requires Valid()
      modifies timeData, ekgData
      ensures Valid()
      ensures |channelData| != ChannelCount ==>
        view == Skip && timeData.items == old(timeData.items) && ekgData.items == old(ekgData.items)
      ensures |channelData| == ChannelCount ==>
        && timeData.items == Recent(old(timeData.items) + [now], MaxSamples)
        && ekgData.items == Recent(old(ekgData.items) + [channelData[selectedChannel]], MaxSamples)
        && view == AutoScaledView(timeData.items, ekgData.items)
    {
      if |channelData| != ChannelCount {
        return Skip;
      }
      var channelValue := channelData[selectedChannel];
      timeData.Append(now);
      ekgData.Append(channelValue);
      view := UpdatePlot();
    }

    /** `update_plot`: the auto-scaled view of the buffers, or nothing with fewer than two points. */
    method UpdatePlot() returns (view: View)
      requires Valid()
      ensures view == AutoScaledView(timeData.items, ekgData.items)
    {
      if |timeData.items| < 2 {
        return Skip;
      }
      view := AutoScaledView(timeData.items, ekgData.items);
    }

    /** `change_channel`: select another channel and start its trace afresh. */
    method ChangeChannel(newChannel: nat)
      requires Valid()
      requires newChannel < ChannelCount
      modifies this, timeData, ekgData
      ensures Valid()
      ensures selectedChannel == newChannel && timeData.items == [] && ekgData.items == []
    {
      selectedChannel := newChannel;
      timeData.Clear();
      ekgData.Clear();
    }
  }

  /** The main window: the plot widget and the sample counter behind the status line. */
  class MainWindow {
    const plotWidget: EkgPlotWidget
    const startTime: real
    var totalSamples: nat

    ghost predicate Valid()
      reads this, plotWidget, plotWidget.timeData, plotWidget.ekgData
    {
      plotWidget.Valid()
    }

    constructor (startTime: real)
      ensures Valid() && fresh(plotWidget) && fresh(plotWidget.timeData) && fresh(plotWidget.ekgData)
      ensures this.startTime == startTime && totalSamples == 0
      ensures plotWidget.timeData.items == [] && plotWidget.ekgData.items == []
    {
      plotWidget := new EkgPlotWidget();
      this.startTime := startTime;
      totalSamples := 0;
    }

    /** `on_channel_changed`. */
    method OnChannelChanged(index: nat)
      requires Valid()
      requires index < ChannelCount
      modifies plotWidget, plotWidget.timeData, plotWidget.ekgData
      ensures Valid()
      ensures plotWidget.selectedChannel == index
      ensures plotWidget.timeData.items == [] && plotWidget.ekgData.items == []
    {
      plotWidget.ChangeChannel(index);
    }

    /** `on_data_received`: every emitted frame is counted, even one the widget ignores. */
    method OnDataReceived(channelData: seq<int>, now: real) returns (view: View)
      requires Valid()
      modifies this, plotWidget.timeData, plotWidget.ekgData
      ensures Valid()
      ensures totalSamples == old(totalSamples) + 1
      ensures |channelData| != ChannelCount ==>
        view == Skip
        && plotWidget.timeData.items == old(plotWidget.timeData.items)
        && plotWidget.ekgData.items == old(plotWidget.ekgData.items)
      ensures |channelData| == ChannelCount ==>
        && plotWidget.timeData.items == Recent(old(plotWidget.timeData.items) + [now], MaxSamples)
        && plotWidget.ekgData.items ==
             Recent(old(plotWidget.ekgData.items) + [channelData[plotWidget.selectedChannel]], MaxSamples)
        && view == AutoScaledView(plotWidget.timeData.items, plotWidget.ekgData.items)
    {
      view := plotWidget.AddDataPoint(channelData, now);
      totalSamples := totalSamples + 1;
    }

    /** `update_status`: the sample rate since start-up, 0 when no time has passed. */
    method UpdateStatus(now: real) returns (sampleRate: real)
      ensures now - startTime <= 0.0 ==> sampleRate == 0.0
      ensures now - startTime > 0.0 ==> sampleRate * (now - startTime) == totalSamples as real
    {
      var elapsed := now - startTime;
      sampleRate := Rate(totalSamples, elapsed);
    }
  }
}
