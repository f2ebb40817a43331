# EKG stream decode-and-buffer core, in Dafny

This project models the part of the EKG visualisers that has real invariants.
That part turns a stream of text coming from an acquisition device into
validated readings, keeps the most recent readings in bounded rolling buffers,
and computes what the plot shows. The model covers four programs:

- `main1.py` is the twelve-channel WebSocket visualiser. A message holds
  newline-separated lines of 12 hexadecimal readings. Each reading is clamped
  to the 12-bit ADC range [0, 4095]. The selected channel's last 400 readings
  are kept with their arrival times and drawn on an auto-scaled y-axis.
- `mainSingle.py` is the single-channel WebSocket visualiser. A message is one
  100 ms batch of hexadecimal readings. The batch's timestamps are spread evenly
  over 100 ms. The last 8600 readings are drawn on the fixed axis [0, 4095].
- `main.py` is the dual-channel serial plotter. Each serial line `[A0,A1]` is a
  JSON array. Blank lines and `#` lines are skipped. Both channels and the
  sample time go into three deques of equal capacity. An animation callback
  computes a scrolling view and, about once a second, the sample rate.
- `test/server_simpleRead.py` is an inspection server for the bracketed
  twelve-channel format `[v0,...,v11],[v0,...,v11],...`. It finds the
  bracket groups, checks the first group's channel count, and summarises the
  first five groups by their minimum and maximum. It answers "OK", or "ERROR"
  when a value does not parse.

Modules, one per file:

- `Wrappers` holds `Option`.
- `Seqs` holds generic sequence facts and all-or-nothing traversals:
  - `MapAll` maps every element, or fails;
  - `ConcatAll` concatenates results, or fails;
  - `Filter` keeps the elements that pass;
  - `KeepSome` keeps the results that exist.
- `Text` holds Python's `str.strip()`, `str.split(sep)` and `sep.join`.
- `Numerals` holds `int(token, base)` for bases 10 and 16, JSON integers
  (section 6 of RFC 8259) and the numerals a device writes.
- `HexDecoder` holds the shared `DataProcessor`: `process_value`,
  `parse_hex_line` and `parse_hex_data`.
- `RollingBuffer` holds `deque(maxlen=N)`, as a class over a sequence, and the
  function `Recent` that specifies it.
- `WindowView` holds what each `update_plot` computes before drawing: the
  series, the x-range, the y-range and the rate.
- `TwelveChannel`, `SingleChannel`, `SerialPlotter` and `BracketInspector` each
  model one program: its message handling, widget and window.

How the source is modelled:

- Code that updates objects is modelled as classes:
  - the deques;
  - the plot widgets and main windows;
  - the serial plotter.
- Their methods state their new state through `Recent` and the view functions.
- Every loop of the source is modelled as a method with a loop, proved equal to
  a specification function:
  - `parse_hex_line` and `parse_hex_data`;
  - the per-message loop of `handle_client`;
  - the serial reader loop;
  - the batch append loop;
  - the statistics loop.

How the environment is modelled:

- The clock (`time.time()`) is a `now` parameter.
- The serial port is the sequence of its `readline` results, each with the time
  it was read.
- A WebSocket message is a `Message` value: text or binary.
- Floating-point arithmetic is modelled as exact real arithmetic.

The model keeps these choices of the code, including those that are easy to
expect otherwise:

- `main.py` stores the two JSON values as they are. It does not clamp them to
  [0, 4095], so `SampleLineAccepted` holds for any integers.
- Only `test/server_simpleRead.py` answers "ERROR". It does so when a value does
  not parse, and also when the values' average is beyond float range, because
  `sum(all_values) / len(all_values)` then raises `OverflowError`:
  - `main1.py` answers "OK" to every non-blank text message, even when no
    frame in it decodes;
  - `mainSingle.py` answers "OK" to a batch that does not parse (see
    `UnparseableBatchAcknowledged`).
- The single-channel decoder is all-or-nothing per message. One bad non-blank
  token empties the whole batch.

## Model

| member | source | states |
|---|---|---|
| Text.Strip | main1.py:55 | the stripped text has no whitespace at either end and is no longer than the input |
| Text.StripDropsOnlySpace | main1.py:55 | the stripped text is a contiguous middle part of the input with only whitespace around it |
| Text.StripIdempotent | main1.py:122-127 | stripping a line that was already stripped changes nothing |
| Text.StripBlank | main1.py:127 | a line of whitespace only strips to the empty string, so it is skipped |
| Text.Split | main1.py:55 | split gives at least one part, and no part contains the separator |
| Text.SplitCount | test/server_simpleRead.py:72-73 | split gives exactly one more part than the text has separators |
| Text.JoinSplit | mainSingle.py:53 | joining the split parts with the separator restores the text |
| Text.SplitJoin | mainSingle.py:53 | splitting a join of separator-free parts gives the parts back |
| Numerals.ValueOfNumeral | main1.py:62 | the value of a written numeral is the number it was written from |
| Numerals.ParseInt | main1.py:62 | `int(token, base)` gives a value only for a token that is not blank, and a negative value only when the token's first non-space character is `-` |
| Numerals.ParseIntNumeral | main1.py:62 | `int(numeral, base)` reads back the number for base 10 and 16 |
| Numerals.ParseIntNegativeNumeral | mainSingle.py:59 | a numeral after a minus sign is read as the negated number |
| Numerals.JsonIntRoundTrip | main.py:90 | every integer, written as a JSON numeral, is read back by the JSON decoder |
| Numerals.JsonRejectsLeadingZero | main.py:90 | `07` is no JSON integer, although `int("07")` reads it as 7 |
| HexDecoder.Clamp | main1.py:34-45 | the result is in [0, 4095], equals the input when that is in range, and is the in-range value nearest to the input |
| HexDecoder.ClampIdempotent | main1.py:34-45 | clamping a clamped value changes nothing |
| HexDecoder.ClampMonotone | main1.py:34-45 | clamping preserves the order of readings |
| HexDecoder.HexValue | main1.py:62-63 | a token gives a reading exactly when `int(token, 16)` succeeds, and that reading is in range |
| HexDecoder.DecodeTokens | main1.py:60-66 | a decoded token list has one in-range reading per token |
| HexDecoder.DecodeTokensSpec | main1.py:59-69 | decoding succeeds exactly when every token is hexadecimal, and then holds each token's clamped value in token order |
| HexDecoder.Tokens | main1.py:55 | a stripped line splits into one more token than it has commas; no token contains a comma, and joining them with commas gives back the stripped line |
| HexDecoder.DecodeHexLine | main1.py:48-69 | a line whose token count is not 12 gives no frame; a frame has 12 readings, all in range |
| HexDecoder.ParseHexLine | main1.py:48-69 | the loop that stops at the first bad token computes exactly `DecodeHexLine` |
| HexDecoder.DecodeHexLineValues | main1.py:61-64 | reading `i` of a frame is the clamped value of token `i` |
| HexDecoder.DecodeHexLineAccepts | main1.py:56-66 | twelve tokens that all parse always give a frame |
| HexDecoder.DecodeHexLineAllOrNothing | main1.py:68-69 | one non-hexadecimal token rejects the whole line, so no partial frame is produced |
| HexDecoder.DecodeHexData | mainSingle.py:46-66 | a batch has every reading in range and at most one reading per token |
| HexDecoder.DecodeNonBlankSkips | mainSingle.py:58 | a blank token leaves the batch decoded so far unchanged |
| HexDecoder.DecodeNonBlankExtends | mainSingle.py:58-61 | a non-blank token extends the batch by its clamped value, or fails the batch |
| HexDecoder.ParseHexData | mainSingle.py:46-66 | the loop that skips blank tokens and gives up on a bad one computes exactly `DecodeHexData` |
| HexDecoder.DecodeHexDataAllOrNothing | mainSingle.py:65-66 | one non-blank, non-hexadecimal token empties the whole batch |
| HexDecoder.DecodeHexDataValues | mainSingle.py:57-61 | when every non-blank token parses, the batch holds one clamped value per non-blank token, in order |
| HexDecoder.DecodeOwnNumerals | main1.py:61-64 | readings in range, written as hex numerals, decode to themselves |
| HexDecoder.EncodedTokens | main1.py:55 | a device-written frame is its own strip and splits into its numerals |
| HexDecoder.FrameRoundTrip | main1.py:48-69 | every 12 readings in range survive encoding and `parse_hex_line` |
| HexDecoder.NumeralsNonBlank | mainSingle.py:58 | no numeral is skipped as blank |
| HexDecoder.BatchRoundTrip | mainSingle.py:46-66 | every non-empty batch of readings in range survives encoding and `parse_hex_data` |
| RollingBuffer.Recent | main1.py:160-162 | the window holds at most `maxlen` entries, at most the stream's, and the whole stream while it fits |
| RollingBuffer.RecentIsSuffix | main1.py:161-162 | the window is a suffix of the stream: the newest entries, in arrival order |
| RollingBuffer.RecentSnoc | main1.py:210-211 | trimming before or after an append gives the same window |
| RollingBuffer.Deque.constructor | main1.py:161 | a new deque is empty, with the given `maxlen` |
| RollingBuffer.Deque.Append | main1.py:210 | after `append` the deque is the window of the old contents plus the new entry, and ends with that entry |
| RollingBuffer.Deque.Clear | main1.py:253-254 | after `clear` the deque is empty |
| WindowView.Min | main1.py:235 | the minimum bounds every value from below and is one of them |
| WindowView.Max | main1.py:235 | the maximum bounds every value from above and is one of them |
| WindowView.RightAligned | main1.py:226-228 | shifted times put the newest sample at 10 s and keep every difference between samples |
| WindowView.Padding | main1.py:236 | the y-padding is positive: a tenth of the spread, or 200 for flat data |
| WindowView.AutoScaledView | main1.py:217-243 | fewer than two samples draw nothing; otherwise the view has right-aligned times, x-range [0, 10], and a y-range that extends exactly `Padding` beyond the data |
| WindowView.AutoScaledFits | main1.py:233-237 | every value is strictly inside the y-range, whose width is 1.2 times the spread (400 for flat data) |
| WindowView.FixedAxisView | mainSingle.py:216-237 | fewer than two samples draw nothing; otherwise the view has right-aligned times, x-range [0, 10], y-range [0, 4095], and every in-range reading inside it |
| WindowView.ScrollingView | main.py:108-134 | fewer than two samples draw nothing; otherwise the view keeps the raw times, and the x-range runs from the newest sample time minus 10 s (or 0 if that is negative) to 1 s after the newest sample, so it is at most 11 s wide and holds every non-negative sample of the last 10 s; each channel's y-range extends exactly 200 beyond its data |
| WindowView.Rate | main1.py:373-376 | the rate times the elapsed time is the count, and the rate is 0 before time has passed |
| TwelveChannel.LineFrame | main1.py:127-131 | a line yields at most one frame, and a yielded frame has 12 in-range readings |
| TwelveChannel.FramesOf | main1.py:124-133 | a message yields at most one frame per line, each with 12 in-range readings |
| TwelveChannel.FramesOfAppend | main1.py:126-133 | the frames of concatenated lines are the concatenated frames, so a line's frame does not depend on its neighbours |
| TwelveChannel.RejectedLineIgnored | main1.py:127-131 | a blank or undecodable line adds no frame wherever it appears |
| TwelveChannel.FrameReply | main1.py:121-137 | exactly non-blank text messages are acknowledged with "OK"; others emit nothing; every emitted frame has 12 in-range readings |
| TwelveChannel.HandleFrameMessage | main1.py:121-137 | the per-message loop over the lines computes exactly `FrameReply` |
| TwelveChannel.EncodedLineAccepted | main1.py:127-131 | a device-written frame is a non-blank line that decodes to that frame |
| TwelveChannel.FramesOfAccepted | main1.py:129-133 | a last line that decodes appends its frame |
| TwelveChannel.FramesOfEncoded | main1.py:124-133 | encoded frames, one per line, decode back to the same frames in order |
| TwelveChannel.MessageRoundTrip | main1.py:121-137 | a message of device-written frames makes the handler emit exactly those frames and answer "OK" |
| TwelveChannel.EkgPlotWidget.constructor | main1.py:156-165 | both buffers start empty with capacity 400, and channel 0 is selected |
| TwelveChannel.EkgPlotWidget.AddDataPoint | main1.py:198-215 | input that is not 12 readings changes nothing; otherwise the time and the selected channel's reading are appended, and the view is redrawn |
| TwelveChannel.EkgPlotWidget.UpdatePlot | main1.py:217-243 | the view is the auto-scaled view of the buffers |
| TwelveChannel.EkgPlotWidget.ChangeChannel | main1.py:245-254 | the new channel is selected and both buffers are emptied |
| TwelveChannel.MainWindow.constructor | main1.py:270-278 | the counter starts at 0 and the widget's buffers start empty |
| TwelveChannel.MainWindow.OnChannelChanged | main1.py:346-351 | the widget shows the chosen channel with empty buffers |
| TwelveChannel.MainWindow.OnDataReceived | main1.py:353-363 | every emitted frame is counted, even one the widget ignores, and the widget's buffers change as in `AddDataPoint` |
| TwelveChannel.MainWindow.UpdateStatus | main1.py:373-380 | the rate times the elapsed time is the sample count, or the rate is 0 |
| SingleChannel.HandleBatchMessage | mainSingle.py:124-138 | exactly non-blank text messages are acknowledged with "OK"; exactly those with a non-empty decoded batch emit it with the message length |
| SingleChannel.BatchMessageRoundTrip | mainSingle.py:124-138 | a device-written batch in range is emitted unchanged and acknowledged |
| SingleChannel.UnparseableBatchAcknowledged | mainSingle.py:125-136 | a batch with a non-hexadecimal token is acknowledged with "OK" but emits nothing |
| SingleChannel.BatchTimesSpread | mainSingle.py:202-207 | a batch's timestamps start at its arrival, strictly increase, stay within the next 100 ms, and are evenly spaced: consecutive timestamps are 100 ms divided by the batch size apart |
| SingleChannel.SingleChannelPlotWidget.constructor | mainSingle.py:155-161 | both buffers start empty with capacity 8600 |
| SingleChannel.SingleChannelPlotWidget.AddDataBatch | mainSingle.py:197-214 | every reading is appended with its interpolated time, the buffers stay in step, and the view is redrawn |
| SingleChannel.SingleChannelPlotWidget.UpdatePlot | mainSingle.py:216-237 | the view is the fixed-axis view of the buffers |
| SingleChannel.MainWindow.constructor | mainSingle.py:245-251 | both counters start at 0 and the widget's buffers start empty |
| SingleChannel.MainWindow.OnDataReceived | mainSingle.py:325-332 | the batch is plotted and counted once, and its readings are counted |
| SingleChannel.MainWindow.UpdateStatistics | mainSingle.py:342-350 | both rates are 0 before time has passed; otherwise each rate times the elapsed time is its count |
| SerialPlotter.ParseJsonIntArray | main.py:90 | the decoded array is empty exactly when the text between the brackets is JSON whitespace only; otherwise it has one integer per comma-separated element |
| SerialPlotter.ParseJsonIntArraySpec | main.py:90 | a non-empty array decodes exactly when every element is a JSON integer, and then element `i` decodes to integer `i` |
| SerialPlotter.JsonArrayRoundTrip | main.py:88-90 | every non-empty array of integers, printed as JSON, decodes back to the same array |
| SerialPlotter.Classify | main.py:81-91 | a line is skipped exactly when it is empty or starts with `#`; it is not a candidate exactly when it is not bracketed; a bracketed line is bad JSON exactly when `json.loads` fails on it, and otherwise is a sample of the decoded pair when the array has length 2 and a wrong-length array of the decoded length otherwise |
| SerialPlotter.SampleIsPair | main.py:88-96 | a sample line is a bracketed JSON array of exactly its two readings |
| SerialPlotter.SampleLineAccepted | main.py:88-97 | the device line `[A0,A1]` is accepted with both readings, unclamped |
| SerialPlotter.OtherLengthSkipped | main.py:91 | a JSON array of any other length is recognised and skipped |
| SerialPlotter.ReadingOf | main.py:81-97 | a read yields at most one sample; it yields one exactly when it is a line whose stripped text classifies as a sample, and that sample holds the line's two readings timed at the read time minus the start time |
| SerialPlotter.UntilFailure | main.py:79-106 | the reads handled are a prefix of those received, contain no failed read, and stop only at a failed read or at the end |
| SerialPlotter.ReadingsNone | main.py:79-99 | reads add no sample at all exactly when no single read yields one |
| SerialPlotter.ReadingsAppend | main.py:79-99 | the samples of consecutive reads are the concatenated samples of each |
| SerialPlotter.SkippedLineIgnored | main.py:84-102 | a line that is no sample changes nothing, wherever it appears |
| SerialPlotter.UntilFailureIsPrefix | main.py:104-106 | the reads handled are exactly the reads before the first failing read |
| SerialPlotter.RateRefresh | main.py:136-146 | the title is updated exactly when more than a second has passed since the last record and time has passed since start-up, with the rate; the record time is updated on the first frame and with every refresh |
| SerialPlotter.TitlesSpaced | main.py:137-144 | two consecutive title updates are more than a second apart |
| SerialPlotter.RecordMovesForward | main.py:137-146 | once a time is recorded, a frame keeps a recorded time, and that time never moves backwards |
| SerialPlotter.RecordAdvances | main.py:137-146 | over any run of frames the recorded time stays recorded and never moves backwards |
| SerialPlotter.TitlesSpacedAcross | main.py:137-144 | any two title updates are more than a second apart, whatever frames come between them |
| SerialPlotter.RealTimeEkgPlotter.constructor | main.py:11-35 | the three buffers start empty with the given capacity, and the counter starts at 0 |
| SerialPlotter.RealTimeEkgPlotter.ReadSerialData | main.py:77-106 | each buffer is the window of its old contents plus that column of the samples read before the first failure, and the counter grows by their number |
| SerialPlotter.RealTimeEkgPlotter.HandleLine | main.py:81-99 | one line read appends its sample, if any, to the three buffers and counts it |
| SerialPlotter.RealTimeEkgPlotter.UpdatePlot | main.py:108-148 | the view is the scrolling view of the buffers, and the rate bookkeeping follows `RateRefresh` once two samples exist |
| BracketInspector.Groups | test/server_simpleRead.py:31-32 | every group found is non-empty and contains no `]` |
| BracketInspector.GroupsSkipNoise | test/server_simpleRead.py:31-32 | text without `[` opens no group |
| BracketInspector.EmptyBracketsIgnored | test/server_simpleRead.py:31 | `[]` opens no group |
| BracketInspector.GroupThenRest | test/server_simpleRead.py:31-32 | a bracketed group is found first, and the scan resumes after its `]` |
| BracketInspector.GroupsRender | test/server_simpleRead.py:31-32 | groups written in brackets and separated by commas are all found again, in order |
| BracketInspector.Leading | test/server_simpleRead.py:56 | at most five sets are taken, starting with the first |
| BracketInspector.LeadingPrefix | test/server_simpleRead.py:56 | the sets taken are exactly the first five, or all of them when there are fewer |
| BracketInspector.GroupsUnclosed | test/server_simpleRead.py:31-32 | text without `]` has no group, even with an unclosed `[` |
| BracketInspector.SetValuesSpec | test/server_simpleRead.py:51-57 | a set's values are read exactly when every token of it is a decimal, and then value `i` is token `i`'s decimal |
| BracketInspector.StatsValuesSpec | test/server_simpleRead.py:55-58 | the values of several sets are collected exactly when every set is read, and then the first set's values come first |
| BracketInspector.Inspect | test/server_simpleRead.py:22-106 | "ERROR" is answered exactly on a parse error or an average beyond float range. Each outcome holds exactly under its condition: blank or non-text messages; group-less non-blank text, with the point count; a first group without 12 tokens, with both counts; a first group of 12 tokens where the first set or one of the first five sets does not read, as a parse error; all of them read but the average of their values overflows a float, as an overflow. Statistics carry the set count and the first group's twelve values, and their average fits a float |
| BracketInspector.AverageOverflowBoundary | test/server_simpleRead.py:61 | the average overflows exactly from a mean of 2^1024 - 2^970 in magnitude: that mean overflows, one less does not |
| BracketInspector.AdcAverageFits | test/server_simpleRead.py:61 | the average of 12-bit readings never overflows |
| BracketInspector.FlattenBounded | test/server_simpleRead.py:55-58 | joining sets keeps every value: 12-bit readings stay 12-bit |
| BracketInspector.LeadingAverageFits | test/server_simpleRead.py:55-61 | the average of the first five sets of 12-bit readings fits a float |
| BracketInspector.CollectStats | test/server_simpleRead.py:55-58 | the statistics loop computes the values of the first five sets, or fails on the first set that does not parse |
| BracketInspector.Handle | test/server_simpleRead.py:21-106 | the handler computes exactly `Inspect`, including "ERROR" for a parse error and for an average beyond float range |
| BracketInspector.StatsBounds | test/server_simpleRead.py:55-64 | the statistics start with the first set's twelve values, and the reported minimum and maximum occur among the values and bound all of them |
| BracketInspector.FallbackCount | test/server_simpleRead.py:70-73 | a message without `[` is counted as comma-separated raw points |
| BracketInspector.UnclosedCount | test/server_simpleRead.py:31-73 | a non-blank message without `]`, even one with `[`, is counted as comma-separated raw points |
| BracketInspector.UnclosedSetIsRaw | test/server_simpleRead.py:31-73 | the unclosed set `[1,2` is reported as two raw points |
| BracketInspector.DecimalNotHex | test/server_simpleRead.py:51 | values are read as decimal, so `A` fails although it is a hex digit |
| BracketInspector.InspectStats | test/server_simpleRead.py:47-64 | a message whose first group has twelve tokens and whose first five sets all read is reported with the set count, the first set and the extremes of all the values read, with "OK"; if the average of those values is beyond float range, it is answered with "ERROR" instead |
| BracketInspector.FirstSetRejects | test/server_simpleRead.py:96-103 | a first set of twelve tokens with one non-decimal token is answered with "ERROR" |
| BracketInspector.InspectRoundTrip | test/server_simpleRead.py:27-64 | device-written sets of twelve 12-bit readings are reported with their number, the first set and the extremes of the first five sets, and answered "OK"; their average never overflows |

## Left out

- Drawing is not modelled. Matplotlib and Qt receive a view value (series and axis ranges) instead of drawing it, and titles, labels and fonts are not modelled.
- Threads, asyncio, websockets and the Qt signal/slot dispatch are not modelled. Each handler is a function of one message, and each signal is a direct call.
- A failed `send` of the acknowledgement, which ends the connection, is not modelled.
- Opening and closing the serial port and WebSocket server start-up and shutdown are not modelled.
- `time.time()` is not modelled as a clock. Each reading of the clock is a parameter. Where the source reads the clock twice within one step, the model uses one value.
- Floating-point arithmetic is not modelled; times and rates are exact reals. In particular, `0.1` is exact.
- `start_plotting` in `main.py`, which resets `start_time` and starts the reader thread and the animation, is not modelled. `ReadSerialData` takes the start time as given.
- `save_data_to_file` in `main.py` (CSV export through pandas) is not modelled.
- `server_simpleRead.py`'s printed diagnostics are not modelled, because they are only logged. This includes the average's value and the batch timestamp `int(time.time())`. Whether the average overflows is modelled, because it decides the acknowledgement.
- BracketInspector.Inspect, BracketInspector.Handle, BracketInspector.InspectStats, BracketInspector.InspectRoundTrip: read values of any length. Since Python 3.11, `int()` raises `ValueError` on a decimal string of more than 4300 digits, and the server then answers "ERROR". The model reads such a value and answers as for any other.
- `mainSingle.py`'s `sample_stats` label is not modelled; only the emitted `(count, length)` pair is.
- `int()` is modelled only for surrounding whitespace, a sign, `0x` for base 16 and ASCII digits. Digit-group underscores and non-ASCII digits, which Python also accepts, are treated as errors.
- Numerals.ParseInt: accepts numerals of any length. Since Python 3.11, `int()` on a decimal string of more than 4300 digits raises `ValueError`. The model does not have that limit.
- SerialPlotter.ParseJsonIntArray: accepts integers of any length. For an integer of more than 4300 digits, `json.loads` raises a plain `ValueError`, not a `JSONDecodeError`. In `main.py` (lines 101-106) that ends the read loop instead of skipping the line. In `test/server_simpleRead.py` (lines 96-103) the same limit on `int()` makes the message answered with "ERROR".
- SerialPlotter.ParseJsonIntArray: models `json.loads` for arrays of JSON integers only. An array with floats, strings or nested values is treated as undecodable, although Python would decode it and `main.py` would store those elements. An array nested deeper than Python's recursion limit (about 1000 levels of `[`) makes `json.loads` raise `RecursionError`, not `JSONDecodeError`. `main.py` (lines 104-106) then ends the read loop, while the model classifies the line as undecodable and skips it.
- TwelveChannel.EkgPlotWidget.ChangeChannel: requires a channel below 12, which the source's channel box guarantees. The source itself does not check the channel.
- TwelveChannel.MainWindow.OnChannelChanged: requires a channel below 12, for the same reason.
- `terminal.py` and `test/server_readMock.py` are not part of this model.
