/**
 * `DataProcessor` of the two WebSocket visualizers: the 12-bit clamp, the
 * fixed 12-channel frame decoder and the variable-length single-channel
 * batch decoder, all over comma-separated hexadecimal tokens.
 */
module HexDecoder {
  import opened Wrappers
  import opened Text
  import opened Numerals
  import opened Seqs

  /** Largest value of the 12-bit ADC. */
  const AdcMax: int := 4095
  /** Channels in one frame of the 12-channel protocol (3 devices, 4 channels each). */
  const ChannelCount: nat := 12

  predicate InAdcRange(v: int)
  {
    0 <= v <= AdcMax
  }

  /** Every reading of a sequence is in the ADC range. */
  predicate AllInAdcRange(values: seq<int>)
  {
    forall i :: 0 <= i < |values| ==> 0 <= values[i] <= AdcMax
  }

  function Distance(a: int, b: int): nat
  {
    if a <= b then b - a else a - b
  }

  /** `process_value`: saturates a raw reading to the ADC range. */
  function Clamp(raw: int): (v: int)
    ensures InAdcRange(v)
    ensures InAdcRange(raw) ==> v == raw
    ensures forall w :: InAdcRange(w) ==> Distance(raw, v) <= Distance(raw, w)
  {
    if raw < 0 then 0 else if raw > AdcMax then AdcMax else raw
  }

  /** Clamping an already clamped value changes nothing. */
  lemma ClampIdempotent(raw: int)
    ensures Clamp(Clamp(raw)) == Clamp(raw)
  {
  }

  /** Clamping preserves the order of readings. */
  lemma ClampMonotone(a: int, b: int)
    requires a <= b
    ensures Clamp(a) <= Clamp(b)
  {
  }

  /** `process_value(int(token, 16))`: the clamped reading of one token, or `None` when it is not hexadecimal. */
  function HexValue(token: string): (v: Option<int>)
    ensures v.Some? <==> ParseInt(token, 16).Some?
    ensures v.Some? ==> InAdcRange(v.value)
  {
    var raw := ParseInt(token, 16);
    if raw.Some? then Some(Clamp(raw.value)) else None
  }

  /**
   * The clamped readings of the tokens, in order, when every token parsed;
   * `None` as soon as one did not, so that no partial frame is ever produced.
   */
  function DecodeTokens(tokens: seq<string>): (r: Option<seq<int>>)
    ensures r.Some? ==> |r.value| == |tokens| && AllInAdcRange(r.value)
  {
    MapAllSpec(tokens, HexValue);
    MapAll(tokens, HexValue)
  }

  /** Decoding succeeds exactly when every token is hexadecimal, and then holds each token's clamped value, in order. */
  lemma DecodeTokensSpec(tokens: seq<string>)
    ensures DecodeTokens(tokens).Some? <==> forall i :: 0 <= i < |tokens| ==> ParseInt(tokens[i], 16).Some?
    ensures DecodeTokens(tokens).Some? ==>
      forall i :: 0 <= i < |tokens| ==> DecodeTokens(tokens).value[i] == Clamp(ParseInt(tokens[i], 16).value)
  {
    MapAllSpec(tokens, HexValue);
  }

  /** The comma-separated tokens of a stripped line. */
  function Tokens(line: string): (tokens: seq<string>)
    ensures |tokens| == Count(Strip(line), ',') + 1
    ensures forall i :: 0 <= i < |tokens| ==> ',' !in tokens[i]
    ensures Join(tokens, ',') == Strip(line)
  {
    SplitCount(Strip(line), ',');
    JoinSplit(Strip(line), ',');
    Split(Strip(line), ',')
  }

  /**
   * `parse_hex_line`: a frame of exactly 12 clamped values, one per token in
   * token order, or `None` when the token count is not 12 or a token is not
   * hexadecimal.
   */
  function DecodeHexLine(line: string): (r: Option<seq<int>>)
    ensures |Tokens(line)| != ChannelCount ==> r == None
    ensures r.Some? ==> |r.value| == ChannelCount && AllInAdcRange(r.value)
  {
    var tokens := Tokens(line);
    if |tokens| != ChannelCount then None else DecodeTokens(tokens)
  }

  /** `parse_hex_line` as the source runs it: a loop that stops at the first bad token. */
  method ParseHexLine(hexLine: string) returns (r: Option<seq<int>>)
    ensures r == DecodeHexLine(hexLine)
  {
    var hexValues := Split(Strip(hexLine), ',');
    if |hexValues| != ChannelCount {
      return None;
    }
    var processed: seq<int> := [];
    var i := 0;
    while i < |hexValues|
      invariant 0 <= i <= |hexValues|
      invariant DecodeTokens(hexValues[..i]) == Some(processed)
    {
      PrefixSnoc(hexValues, i);
      MapAllSnoc(hexValues[..i], hexValues[i], HexValue);
      var decimal := ParseInt(hexValues[i], 16);
      if decimal.None? {
        DecodeHexLineAllOrNothing(hexLine, i);
        return None;
      }
      processed := processed + [Clamp(decimal.value)];
      i := i + 1;
    }
    assert hexValues[..i] == hexValues;
    return Some(processed);
  }

  /** A successful frame holds, in token order, the clamped value of each token. */
  lemma DecodeHexLineValues(line: string, i: nat)
    requires DecodeHexLine(line).Some? && i < ChannelCount
    ensures ParseInt(Tokens(line)[i], 16).Some?
    ensures DecodeHexLine(line).value[i] == Clamp(ParseInt(Tokens(line)[i], 16).value)
  {
    DecodeTokensSpec(Tokens(line));
  }

  /** Twelve tokens that all parse always give a frame. */
  lemma DecodeHexLineAccepts(line: string)
    requires |Tokens(line)| == ChannelCount
    requires forall i :: 0 <= i < ChannelCount ==> ParseInt(Tokens(line)[i], 16).Some?
    ensures DecodeHexLine(line).Some?
  {
    DecodeTokensSpec(Tokens(line));
  }

  /** A single token that is not hexadecimal rejects the whole frame: no partial frame. */
  lemma DecodeHexLineAllOrNothing(line: string, i: nat)
    requires i < |Tokens(line)| && ParseInt(Tokens(line)[i], 16).None?
    ensures DecodeHexLine(line) == None
  {
    DecodeTokensSpec(Tokens(line));
  }

  /** A token that is not empty after stripping. */
  predicate IsNonBlank(token: string)
  {
    Strip(token) != []
  }

  /** The tokens, without those that are empty after stripping, in order. */
  function NonBlank(tokens: seq<string>): (r: seq<string>)
    ensures |r| <= |tokens|
  {
    Filter(tokens, IsNonBlank)
  }

  /**
   * `parse_hex_data`: one clamped value per non-blank token, in order, or the
   * empty list as soon as one non-blank token is not hexadecimal.
   */
  function DecodeHexData(data: string): (r: seq<int>)
    ensures AllInAdcRange(r)
    ensures |r| <= |Tokens(data)|
  {
    match DecodeNonBlank(Tokens(data))
    case None => []
    case Some(values) => values
  }

  /** The batch decoded from the non-blank tokens among `tokens`. */
  function DecodeNonBlank(tokens: seq<string>): Option<seq<int>>
  {
    DecodeTokens(NonBlank(tokens))
  }

  /** A blank token leaves the batch decoded so far as it is. */
  lemma DecodeNonBlankSkips(tokens: seq<string>, t: string)
    requires Strip(t) == []
    ensures DecodeNonBlank(tokens + [t]) == DecodeNonBlank(tokens)
  {
    FilterAppend(tokens, [t], IsNonBlank);
    assert NonBlank([t]) == [];
    assert NonBlank(tokens) + [] == NonBlank(tokens);
  }

  /** A non-blank token extends the batch decoded so far by its clamped value, or fails it. */
  lemma DecodeNonBlankExtends(tokens: seq<string>, t: string)
    requires Strip(t) != []
    ensures var front, last := DecodeNonBlank(tokens), HexValue(t);
      DecodeNonBlank(tokens + [t]) == if front.Some? && last.Some? then Some(front.value + [last.value]) else None
  {
    FilterAppend(tokens, [t], IsNonBlank);
    assert NonBlank([t]) == [t];
    MapAllSnoc(NonBlank(tokens), t, HexValue);
  }

  /** `parse_hex_data` as the source runs it: a loop that skips blank tokens and gives up on a bad one. */
  method ParseHexData(hexData: string) returns (r: seq<int>)
    ensures r == DecodeHexData(hexData)
  {
    var hexValues := Split(Strip(hexData), ',');
    var processed: seq<int> := [];
    var i := 0;
    while i < |hexValues|
      invariant 0 <= i <= |hexValues|
      invariant DecodeNonBlank(hexValues[..i]) == Some(processed)
    {
      PrefixSnoc(hexValues, i);
      if Strip(hexValues[i]) != [] {
        DecodeNonBlankExtends(hexValues[..i], hexValues[i]);
        var decimal := ParseInt(hexValues[i], 16);
        if decimal.None? {
          DecodeHexDataAllOrNothing(hexData, i);
          return [];
        }
        processed := processed + [Clamp(decimal.value)];
      } else {
        DecodeNonBlankSkips(hexValues[..i], hexValues[i]);
      }
      i := i + 1;
    }
    assert hexValues[..i] == hexValues;
    return processed;
  }

  /** A non-blank token that is not hexadecimal empties the whole batch. */
  lemma DecodeHexDataAllOrNothing(data: string, i: nat)
    requires i < |Tokens(data)| && Strip(Tokens(data)[i]) != [] && ParseInt(Tokens(data)[i], 16).None?
    ensures DecodeHexData(data) == []
  {
    var tokens := Tokens(data);
    var before := NonBlank(tokens[..i]);
    FilterAppend(tokens[..i], tokens[i..], IsNonBlank);
    assert tokens == tokens[..i] + tokens[i..];
    assert NonBlank(tokens[i..]) == [tokens[i]] + NonBlank(tokens[i + 1..]);
    assert NonBlank(tokens)[|before|] == tokens[i];
    DecodeTokensSpec(NonBlank(tokens));
  }

  /** When every non-blank token parses, the batch holds one clamped value per non-blank token, in order. */
  lemma DecodeHexDataValues(data: string, i: nat)
    requires forall k :: 0 <= k < |NonBlank(Tokens(data))| ==> ParseInt(NonBlank(Tokens(data))[k], 16).Some?
    requires i < |NonBlank(Tokens(data))|
    ensures |DecodeHexData(data)| == |NonBlank(Tokens(data))|
    ensures DecodeHexData(data)[i] == Clamp(ParseInt(NonBlank(Tokens(data))[i], 16).value)
  {
    DecodeTokensSpec(NonBlank(Tokens(data)));
  }

  /** The hexadecimal numerals of some readings, one per reading. */
  function HexNumerals(values: seq<int>): (ns: seq<string>)
    requires AllInAdcRange(values)
    ensures |ns| == |values|
    ensures forall i :: 0 <= i < |ns| ==> ns[i] == Numeral(values[i], 16)
  {
    seq(|values|, i requires 0 <= i < |values| => Numeral(values[i], 16))
  }

  /** The wire form of some readings as the devices send it: hexadecimal numerals joined by commas. */
  function EncodeHex(values: seq<int>): string
    requires |values| >= 1
    requires AllInAdcRange(values)
  {
    Join(HexNumerals(values), ',')
  }

  /** Readings parsed back from their own numerals are collected unchanged. */
  lemma DecodeOwnNumerals(values: seq<int>)
    requires AllInAdcRange(values)
    ensures DecodeTokens(HexNumerals(values)) == Some(values)
  {
    var ns := HexNumerals(values);
    forall i | 0 <= i < |ns|
      ensures HexValue(ns[i]) == Some(values[i])
    {
      ParseIntNumeral(values[i], 16);
    }
    MapAllSpec(ns, HexValue);
    assert DecodeTokens(ns).value == values;
  }

  /** The encoded text is its own strip and splits back into the numerals. */
  lemma EncodedTokens(values: seq<int>)
    requires |values| >= 1
    requires AllInAdcRange(values)
    ensures Tokens(EncodeHex(values)) == HexNumerals(values)
  {
    var ns := HexNumerals(values);
    var last := ns[|ns| - 1];
    JoinEnds(ns, ',');
    NumeralCharIsPlain(ns[0][0]);
    NumeralCharIsPlain(last[|last| - 1]);
    StripUnchanged(EncodeHex(values));
    forall i | 0 <= i < |ns|
      ensures ',' !in ns[i]
    {
      forall k | 0 <= k < |ns[i]| ensures ns[i][k] != ',' {
        NumeralCharIsPlain(ns[i][k]);
      }
    }
    SplitJoin(ns, ',');
  }

  /** Every frame of 12 readings in range survives encoding and `parse_hex_line`. */
  lemma FrameRoundTrip(values: seq<int>)
    requires |values| == ChannelCount
    requires AllInAdcRange(values)
    ensures DecodeHexLine(EncodeHex(values)) == Some(values)
  {
    EncodedTokens(values);
    DecodeOwnNumerals(values);
  }

  /** Numerals are never blank. */
  lemma NumeralsNonBlank(values: seq<int>)
    requires AllInAdcRange(values)
    ensures NonBlank(HexNumerals(values)) == HexNumerals(values)
  {
    var ns := HexNumerals(values);
    forall i | 0 <= i < |ns|
      ensures IsNonBlank(ns[i])
    {
      var n := ns[i];
      NumeralCharIsPlain(n[0]);
      NumeralCharIsPlain(n[|n| - 1]);
      StripUnchanged(n);
    }
    FilterKeepsAll(ns, IsNonBlank);
  }

  /** Every non-empty batch of readings in range survives encoding and `parse_hex_data`. */
  lemma BatchRoundTrip(values: seq<int>)
    requires |values| >= 1
    requires AllInAdcRange(values)
    ensures DecodeHexData(EncodeHex(values)) == values
  {
    EncodedTokens(values);
    NumeralsNonBlank(values);
    DecodeOwnNumerals(values);
  }

  /** Text made only of numeral characters and commas, as `EncodeHex` writes it. */
  predicate IsHexText(s: string)
  {
    forall k :: 0 <= k < |s| ==> s[k] == ',' || IsNumeralChar(s[k])
  }

  /** The encoded text is non-empty, starts and ends with a numeral character and holds nothing but numerals and commas. */
  lemma {:induction false} EncodeHexShape(values: seq<int>)
    requires |values| >= 1
    requires AllInAdcRange(values)
    ensures var s := EncodeHex(values);
      s != [] && IsNumeralChar(s[0]) && IsNumeralChar(s[|s| - 1]) && IsHexText(s)
  {
    var ns := HexNumerals(values);
    var s := EncodeHex(values);
    if |values| > 1 {
      EncodeHexShape(values[1..]);
      assert HexNumerals(values[1..]) == ns[1..];
      var tail := EncodeHex(values[1..]);
      assert s == ns[0] + [','] + tail;
      forall k | 0 <= k < |s|
        ensures s[k] == ',' || IsNumeralChar(s[k])
      {
        if k < |ns[0]| {
          assert s[k] == ns[0][k];
        } else if k > |ns[0]| {
          assert s[k] == tail[k - |ns[0]| - 1];
        }
      }
    }
  }
}
