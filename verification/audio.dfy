/**
 * The audio format filter (`aformat`) parameters
 * (rs_mcai_worker_sdk/src/message/media/audio/mod.rs).
 */
module Audio {
  import opened Wrappers
  import opened Strings

  datatype AudioFormat = AudioFormat(
    sampleRates: seq<nat>,
    channelLayouts: seq<string>,
    sampleFormats: seq<string>)

  /** The separator ffmpeg expects between alternatives of one option. */
  const Alternatives: string := "|"

  function RateTexts(rates: seq<nat>): (texts: seq<string>)
    ensures |texts| == |rates|
    ensures forall k :: 0 <= k < |rates| ==> texts[k] == NatToString(rates[k])
  {
    if |rates| == 0 then [] else [NatToString(rates[0])] + RateTexts(rates[1..])
  }

  /** Adds `key := Join(items)` when `items` is non-empty. */
  function WithList(params: map<string, string>, key: string, items: seq<string>): (r: map<string, string>)
    ensures key in r <==> key in params || |items| > 0
    ensures |items| > 0 ==> r[key] == Join(items, Alternatives)
    ensures forall k :: k != key ==> (k in r <==> k in params)
    ensures forall k :: k != key && k in params ==> r[k] == params[k]
  {
    if |items| == 0 then params else params[key := Join(items, Alternatives)]
  }

  /**
   * `AudioFormat::get_filter_parameters`: one key per non-empty list, the
   * alternatives separated by `|`; an all-empty format gives no parameter.
   */
  function AudioFormatParameters(f: AudioFormat): (params: map<string, string>)
    ensures params.Keys <= {"sample_rates", "channel_layouts", "sample_fmts"}
    ensures "sample_rates" in params <==> |f.sampleRates| > 0
    ensures "channel_layouts" in params <==> |f.channelLayouts| > 0
    ensures "sample_fmts" in params <==> |f.sampleFormats| > 0
    ensures "sample_rates" in params ==> params["sample_rates"] == Join(RateTexts(f.sampleRates), "|")
    ensures "channel_layouts" in params ==> params["channel_layouts"] == Join(f.channelLayouts, "|")
    ensures "sample_fmts" in params ==> params["sample_fmts"] == Join(f.sampleFormats, "|")
  {
    var rates := WithList(map[], "sample_rates", RateTexts(f.sampleRates));
    var layouts := WithList(rates, "channel_layouts", f.channelLayouts);
    WithList(layouts, "sample_fmts", f.sampleFormats)
  }

  /** The alternatives stored under `key`, none when the key is absent. */
  function ReadList(params: map<string, string>, key: string): seq<string> {
    if key in params then Split(params[key], Alternatives) else []
  }

  /** Numerals read back as sample rates; `None` if any is not a numeral. */
  function ReadRates(texts: seq<string>): (r: Option<seq<nat>>)
    ensures r.Some? ==> |r.value| == |texts|
  {
    if |texts| == 0 then Some([])
    else if !Canonical(texts[0]) then None
    else
      match ReadRates(texts[1..])
      case None => None
      case Some(rest) => Some([ParseNat(texts[0])] + rest)
  }

  /** The aformat parameters read back as an audio format. */
  function ReadAudioFormat(params: map<string, string>): Option<AudioFormat> {
    match ReadRates(ReadList(params, "sample_rates"))
    case None => None
    case Some(rates) =>
      Some(AudioFormat(rates, ReadList(params, "channel_layouts"), ReadList(params, "sample_fmts")))
  }

  lemma {:induction false} ReadRateTexts(rates: seq<nat>)
    ensures ReadRates(RateTexts(rates)) == Some(rates)
    decreases |rates|
  {
    if |rates| > 0 {
      var t := NatToString(rates[0]);
      ReadRateTexts(rates[1..]);
      ParseNatToString(rates[0]);
      assert RateTexts(rates) == [t] + RateTexts(rates[1..]);
      ReadRatesCons(t, RateTexts(rates[1..]), rates[1..]);
      assert rates == [rates[0]] + rates[1..];
    }
  }

  lemma ReadRatesCons(t: string, ts: seq<string>, rest: seq<nat>)
    requires Canonical(t) && ReadRates(ts) == Some(rest)
    ensures ReadRates([t] + ts) == Some([ParseNat(t)] + rest)
  {
    assert ([t] + ts)[1..] == ts;
  }

  lemma RateTextsFree(rates: seq<nat>)
    ensures FreeOf(RateTexts(rates), Alternatives)
  {
    var texts := RateTexts(rates);
    forall k | 0 <= k < |texts| ensures !Contains(texts[k], Alternatives) {
      DigitsFree(texts[k], Alternatives);
    }
  }

  /** A non-empty list of `|`-free alternatives survives joining and splitting. */
  lemma ListRoundTrip(params: map<string, string>, key: string, items: seq<string>)
    requires FreeOf(items, Alternatives)
    requires key in params <==> |items| > 0
    requires |items| > 0 ==> params[key] == Join(items, Alternatives)
    ensures ReadList(params, key) == items
  {
    if |items| > 0 {
      SplitJoin(items, Alternatives);
    }
  }

  /**
   * The aformat parameters lose nothing, provided no channel layout or
   * sample format name itself contains `|`.
   */
  lemma AudioFormatRoundTrip(f: AudioFormat)
    requires FreeOf(f.channelLayouts, Alternatives) && FreeOf(f.sampleFormats, Alternatives)
    ensures ReadAudioFormat(AudioFormatParameters(f)) == Some(f)
  {
    var params := AudioFormatParameters(f);
    RateTextsFree(f.sampleRates);
    ListRoundTrip(params, "sample_rates", RateTexts(f.sampleRates));
    ListRoundTrip(params, "channel_layouts", f.channelLayouts);
    ListRoundTrip(params, "sample_fmts", f.sampleFormats);
    ReadRateTexts(f.sampleRates);
  }

  /** An audio format with no list gives no parameter at all. */
  lemma EmptyFormatNoParameters()
    ensures AudioFormatParameters(AudioFormat([], [], [])) == map[]
  {
  }
}
