/**
 * Reassembly of EBU-TT Live documents that arrive in pieces
 * (rs_mcai_worker_sdk/src/message/media/ebu_ttml_live/decoder.rs,
 * `decode_content`). The XML reader (`yaserde::de::from_str`) is the
 * parameter `parse`.
 */
module TtmlBuffering {
  import opened Wrappers
  import opened Strings

  /** A document opens with the XML declaration and closes with `</tt>`. */
  const Opening: string := "<?xml version"
  const Closing: string := "tt>"

  datatype Decoded<D> = Decoded(buffer: seq<string>, result: Result<Option<D>, string>)

  /** Every queued piece is the start of a document. */
  predicate AllOpening(buffer: seq<string>) {
    forall i :: 0 <= i < |buffer| ==> StartsWith(buffer[i], Opening)
  }

  /**
   * `decode_content`. A closing piece is prefixed with the front of the
   * queue and decoded again; without a queued piece it is an error.
   */
  function DecodeContent<D>(buffer: seq<string>, content: string, parse: string -> Result<D, string>): (d: Decoded<D>)
    ensures StartsWith(content, Opening) && EndsWith(content, Closing) ==>
      && d.buffer == buffer
      && (parse(content).Ok? ==> d.result == Ok(Some(parse(content).value)))
      && (parse(content).Err? ==> d.result == Err(parse(content).error))
    ensures StartsWith(content, Opening) && !EndsWith(content, Closing) ==>
      d == Decoded(buffer + [content], Ok(None))
    ensures !StartsWith(content, Opening) && EndsWith(content, Closing) && |buffer| == 0 ==>
      d == Decoded(buffer, Err("Incomplete TTML content: " + content))
    ensures !StartsWith(content, Opening) && !EndsWith(content, Closing) ==>
      d == Decoded(buffer, Ok(None))
    ensures |d.buffer| <= |buffer| + 1
    ensures AllOpening(buffer) && StartsWith(content, Opening) ==> AllOpening(d.buffer)
    decreases |buffer|
  {
    if StartsWith(content, Opening) && EndsWith(content, Closing) then
      match parse(content)
      case Ok(document) => Decoded(buffer, Ok(Some(document)))
      case Err(e) => Decoded(buffer, Err(e))
    else if StartsWith(content, Opening) then
      Decoded(buffer + [content], Ok(None))
    else if EndsWith(content, Closing) then
      if |buffer| > 0 then DecodeContent(buffer[1..], buffer[0] + content, parse)
      else Decoded(buffer, Err("Incomplete TTML content: " + content))
    else Decoded(buffer, Ok(None))
  }

  /** A text ending with the closing marker still ends with it behind any prefix. */
  lemma EndsBehind(prefix: string, content: string)
    requires EndsWith(content, Closing)
    ensures EndsWith(prefix + content, Closing)
  {
    var s := prefix + content;
    assert s[|s| - |Closing|..] == content[|content| - |Closing|..];
  }

  /** A text starting with the opening marker still starts with it before any suffix. */
  lemma StartsBefore(piece: string, content: string)
    requires StartsWith(piece, Opening)
    ensures StartsWith(piece + content, Opening)
  {
    assert (piece + content)[..|Opening|] == piece[..|Opening|];
  }

  /**
   * Whenever the queue holds only document starts, a closing piece completes
   * the front of the queue in one step: the concatenation is parsed and the
   * front leaves the queue.
   */
  lemma ClosingCompletesFront<D>(buffer: seq<string>, content: string, parse: string -> Result<D, string>)
    requires AllOpening(buffer) && |buffer| > 0
    requires !StartsWith(content, Opening) && EndsWith(content, Closing)
    ensures var d := DecodeContent(buffer, content, parse);
            && d.buffer == buffer[1..]
            && (parse(buffer[0] + content).Ok? ==> d.result == Ok(Some(parse(buffer[0] + content).value)))
            && (parse(buffer[0] + content).Err? ==> d.result == Err(parse(buffer[0] + content).error))
  {
    StartsBefore(buffer[0], content);
    EndsBehind(buffer[0], content);
  }

  /** A document sent in two pieces is parsed whole on the second piece, leaving the queue empty. */
  lemma TwoPieces<D>(first: string, second: string, parse: string -> Result<D, string>)
    requires StartsWith(first, Opening) && !EndsWith(first, Closing)
    requires !StartsWith(second, Opening) && EndsWith(second, Closing)
    requires parse(first + second).Ok?
    ensures DecodeContent([], first, parse) == Decoded([first], Ok(None))
    ensures DecodeContent([first], second, parse) == Decoded([], Ok(Some(parse(first + second).value)))
  {
    ClosingCompletesFront([first], second, parse);
    assert [first][1..] == [];
  }
}
