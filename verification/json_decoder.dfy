/**
 * Reassembly of JSON documents that arrive in pieces
 * (rs_mcai_worker_sdk/src/message/media/json/decoder.rs, `decode_content`).
 * `serde_json::from_str` is the parameter `parse`.
 */
module JsonBuffering {
  import opened Wrappers
  import opened Strings
  import opened Json

  /** Where one object ends and the next begins inside a single packet. */
  const Boundary: string := "}{"

  /** The decoder's queue of pending text, and the outcome of one call. */
  datatype Decoded = Decoded(buffer: seq<string>, result: Result<Option<JsonValue>, string>)

  /** A packet cut into the part decoded now and the part queued for the next call. */
  datatype Cut = Cut(principal: string, kept: Option<string>)

  /** All the pending text, front first. */
  function Concat(items: seq<string>): string
    decreases |items|
  {
    if |items| == 0 then "" else items[0] + Concat(items[1..])
  }

  lemma {:induction false} ConcatAppend(a: seq<string>, b: seq<string>)
    ensures Concat(a + b) == Concat(a) + Concat(b)
    decreases |a|
  {
    if |a| == 0 {
      assert a + b == b;
    } else {
      assert (a + b)[1..] == a[1..] + b;
      ConcatAppend(a[1..], b);
    }
  }

  /**
   * The cut as the source writes it: the packet is split on every boundary
   * and only the first two pieces are used, so a third object is dropped.
   */
  function CutAsWritten(content: string): (c: Cut)
    ensures c.kept.None? <==> !Contains(content, Boundary)
  {
    if Contains(content, Boundary) then
      var pieces := Split(content, Boundary);
      Cut(pieces[0] + "}", Some("{" + pieces[1]))
    else Cut(content, None)
  }

  /** The cut at the first boundary, keeping everything after it. */
  function CutFirst(content: string): (c: Cut)
    ensures c.principal + c.kept.GetOr("") == content
    ensures c.kept.None? <==> !Contains(content, Boundary)
    ensures c.kept.Some? ==> !Contains(c.principal, Boundary) && StartsWith(c.kept.value, "{")
  {
    match IndexOf(content, Boundary)
    case None => Cut(content, None)
    case Some(i) =>
      var head := content[..i];
      PrefixBeforeMatchFree(content, Boundary, i);
      ClosingFree(head);
      MatchSplice(content, Boundary, i);
      assert Boundary == "}" + "{";
      assert content == head + "}" + "{" + content[i + 2..];
      Cut(head + "}", Some("{" + content[i + 2..]))
  }

  /** Closing a text free of the boundary with a brace creates no boundary. */
  lemma ClosingFree(head: string)
    requires !Contains(head, Boundary)
    ensures !Contains(head + "}", Boundary)
  {
    var s := head + "}";
    forall j ensures !MatchesAt(s, Boundary, j) {
      if 0 <= j && j + 2 <= |head| {
        assert s[j..j + 2] == head[j..j + 2];
        assert !MatchesAt(head, Boundary, j);
      } else if 0 <= j && j + 2 == |s| {
        assert s[j..j + 2][1] == s[j + 1] == '}' != Boundary[1];
      }
    }
  }

  /**
   * The body of `decode_content` after the cut: the kept part is queued; a
   * non-empty queue gives its front to complete the principal part; text
   * that does not parse is queued again; a parsed value must be an object.
   */
  function DecodeWith(buffer: seq<string>, cut: Cut, parse: string -> Option<JsonValue>): (d: Decoded)
    ensures var attempted := Attempted(buffer, cut);
            && (parse(attempted).None? ==> d.result == Ok(None) && d.buffer == Remaining(buffer, cut) + [attempted])
            && (parse(attempted).Some? && parse(attempted).value.JObject? ==> d == Decoded(Remaining(buffer, cut), Ok(Some(parse(attempted).value))))
            && (parse(attempted).Some? && !parse(attempted).value.JObject? ==>
                 d == Decoded(Remaining(buffer, cut), Err("Incorrect JSON content: " + attempted)))
  {
    var attempted := Attempted(buffer, cut);
    var rest := Remaining(buffer, cut);
    match parse(attempted)
    case None => Decoded(rest + [attempted], Ok(None))
    case Some(v) =>
      if v.JObject? then Decoded(rest, Ok(Some(v)))
      else Decoded(rest, Err("Incorrect JSON content: " + attempted))
  }

  /** The queue once the kept part is pushed at its back. */
  function Pushed(buffer: seq<string>, cut: Cut): seq<string> {
    buffer + (if cut.kept.Some? then [cut.kept.value] else [])
  }

  /** The text handed to the parser: the front of a non-empty queue, then the principal part. */
  function Attempted(buffer: seq<string>, cut: Cut): (t: string)
    ensures |buffer| == 0 ==> t == cut.principal
    ensures |buffer| > 0 ==> t == buffer[0] + cut.principal
  {
    if |buffer| > 0 then Pushed(buffer, cut)[0] + cut.principal else cut.principal
  }

  /** The queue without the front the parser was given. */
  function Remaining(buffer: seq<string>, cut: Cut): (r: seq<string>)
    ensures |buffer| == 0 ==> r == Pushed(buffer, cut)
    ensures |buffer| > 0 ==> [buffer[0]] + r == Pushed(buffer, cut)
  {
    var pushed := Pushed(buffer, cut);
    if |buffer| > 0 then pushed[1..] else pushed
  }

  /** `decode_content` as written. */
  function DecodeContentAsWritten(buffer: seq<string>, content: string, parse: string -> Option<JsonValue>): (d: Decoded)
    ensures !Contains(content, Boundary) ==> d == DecodeContent(buffer, content, parse)
  {
    DecodeWith(buffer, CutAsWritten(content), parse)
  }

  /** `decode_content` with the cut at the first boundary keeping the whole rest. */
  function DecodeContent(buffer: seq<string>, content: string, parse: string -> Option<JsonValue>): (d: Decoded)
    ensures |buffer| == 0 && !Contains(content, Boundary) && parse(content).None? ==>
      d == Decoded([content], Ok(None))
    ensures |buffer| == 0 && !Contains(content, Boundary) && parse(content).Some? && parse(content).value.JObject? ==>
      d == Decoded([], Ok(Some(parse(content).value)))
    ensures |buffer| > 0 && !Contains(content, Boundary) ==>
      Attempted(buffer, CutFirst(content)) == buffer[0] + content && Remaining(buffer, CutFirst(content)) == buffer[1..]
  {
    DecodeWith(buffer, CutFirst(content), parse)
  }

  /** The text a call takes out of the decoder: what it decoded or rejected; nothing when it queued. */
  function Taken(buffer: seq<string>, cut: Cut, d: Decoded): string {
    if d.result == Ok(None) then "" else Attempted(buffer, cut)
  }

  /**
   * No character is lost or invented: what the call takes out and what it
   * leaves queued hold exactly the queued text and the new packet.
   */
  lemma NothingLost(buffer: seq<string>, content: string, parse: string -> Option<JsonValue>)
    ensures var d := DecodeContent(buffer, content, parse);
            multiset(Taken(buffer, CutFirst(content), d) + Concat(d.buffer)) == multiset(Concat(buffer) + content)
  {
    var cut := CutFirst(content);
    AttemptedAndRest(buffer, cut);
    TakenAndQueued(buffer, cut, parse);
  }

  /** Queuing the parser's text again, or taking it out, keeps the same characters. */
  lemma TakenAndQueued(buffer: seq<string>, cut: Cut, parse: string -> Option<JsonValue>)
    ensures var d := DecodeWith(buffer, cut, parse);
            multiset(Taken(buffer, cut, d) + Concat(d.buffer)) ==
            multiset(Attempted(buffer, cut) + Concat(Remaining(buffer, cut)))
  {
    var d := DecodeWith(buffer, cut, parse);
    var attempted, rest := Attempted(buffer, cut), Remaining(buffer, cut);
    if parse(attempted).None? {
      assert d.buffer == rest + [attempted];
      ConcatAppend(rest, [attempted]);
      assert Concat([attempted]) == attempted + Concat([]);
      assert Concat(d.buffer) == Concat(rest) + attempted;
    } else {
      assert d.buffer == rest;
    }
  }

  /** The parser's text and the queue left behind hold the old queue and both parts of the cut. */
  lemma AttemptedAndRest(buffer: seq<string>, cut: Cut)
    ensures multiset(Attempted(buffer, cut) + Concat(Remaining(buffer, cut)))
         == multiset(Concat(buffer) + (cut.principal + cut.kept.GetOr("")))
  {
    var kept := if cut.kept.Some? then [cut.kept.value] else [];
    assert Concat(kept) == cut.kept.GetOr("") by {
      if cut.kept.Some? {
        assert Concat(kept) == cut.kept.value + Concat([]);
      }
    }
    var pushed := buffer + kept;
    assert Pushed(buffer, cut) == pushed;
    ConcatAppend(buffer, kept);
    if |buffer| > 0 {
      var rest := pushed[1..];
      assert pushed == [buffer[0]] + rest;
      ConcatAppend([buffer[0]], rest);
      assert Concat([buffer[0]]) == buffer[0] + Concat([]);
      assert Concat(pushed) == buffer[0] + Concat(rest);
      assert Remaining(buffer, cut) == rest;
      var b, p, k := Concat(buffer), cut.principal, cut.kept.GetOr("");
      assert b + k == buffer[0] + Concat(rest);
      assert multiset(b + (p + k)) == multiset(b + k) + multiset(p);
      assert multiset(buffer[0] + p + Concat(rest)) == multiset(buffer[0] + Concat(rest)) + multiset(p);
    }
  }

  /** A complete object arriving while nothing is queued is returned and nothing is queued. */
  lemma CompleteObject(content: string, parse: string -> Option<JsonValue>)
    requires !Contains(content, Boundary) && parse(content).Some? && parse(content).value.JObject?
    ensures DecodeContent([], content, parse) == Decoded([], Ok(Some(parse(content).value)))
  {
  }

  /** An object in two packets is decoded from their concatenation on the second call. */
  lemma TwoFragments(a: string, b: string, parse: string -> Option<JsonValue>)
    requires !Contains(a, Boundary) && !Contains(b, Boundary)
    requires parse(a).None? && parse(a + b).Some? && parse(a + b).value.JObject?
    ensures DecodeContent([], a, parse).buffer == [a]
    ensures DecodeContent([a], b, parse) == Decoded([], Ok(Some(parse(a + b).value)))
  {
  }

  /** With a single boundary in the packet the source's cut is the first-boundary cut. */
  lemma CutsAgree(content: string)
    requires |Split(content, Boundary)| == 2
    ensures CutAsWritten(content) == CutFirst(content)
  {
    var pieces := Split(content, Boundary);
    JoinSplit(content, Boundary);
    match IndexOf(content, Boundary)
    case None =>
    case Some(i) =>
      var rest := content[i + 2..];
      assert pieces == [content[..i]] + Split(rest, Boundary);
      assert Split(rest, Boundary) == [pieces[1]];
      JoinSplit(rest, Boundary);
  }

  /** A packet holding three objects loses the third when the source cuts it. */
  lemma ThirdObjectDropped()
    ensures CutAsWritten("{}{}{}") == Cut("{}", Some("{"))
    ensures CutFirst("{}{}{}") == Cut("{}", Some("{}{}"))
  {
    var s := "{}{}{}";
    FirstBoundaryOfThree();
    SplitOfThree();
    assert s[..1] == "{" && s[1 + 2..] == "}{}";
    assert "{" + "}" == "{}" && "{" + "" == "{" && "{" + "}{}" == "{}{}";
  }

  lemma FirstBoundaryOfThree()
    ensures IndexOf("{}{}{}", Boundary) == Some(1)
  {
    var s := "{}{}{}";
    assert s[0..2] == "{}" && s[1..3] == Boundary;
    assert !MatchesAt(s, Boundary, 0) && MatchesAt(s, Boundary, 1);
  }

  lemma SplitOfThree()
    ensures Split("{}{}{}", Boundary) == ["{", "", "}"]
  {
    var s := "{}{}{}";
    FirstBoundaryOfThree();
    assert s[..1] == "{" && s[1 + 2..] == "}{}";
    var r1 := "}{}";
    assert r1[0..2] == Boundary;
    assert IndexOf(r1, Boundary) == Some(0);
    assert r1[..0] == "" && r1[2..] == "}";
    assert IndexOf("}", Boundary) == None;
    assert Split("}", Boundary) == ["}"];
    assert Split(r1, Boundary) == [""] + ["}"];
  }

  /** As written, a three-object packet decoded from an empty queue loses characters. */
  lemma AsWrittenLosesText(parse: string -> Option<JsonValue>)
    requires parse("{}") == Some(JObject(map[]))
    ensures var d := DecodeContentAsWritten([], "{}{}{}", parse);
            && d == Decoded(["{"], Ok(Some(JObject(map[]))))
            && multiset(Taken([], CutAsWritten("{}{}{}"), d) + Concat(d.buffer)) != multiset("{}{}{}")
  {
    ThirdObjectDropped();
    var c := CutAsWritten("{}{}{}");
    DecodeDroppedCut(c, parse);
    DroppedLosesText(c, DecodeWith([], c, parse));
  }

  /** What that call takes out and leaves queued is three characters short of the packet. */
  lemma DroppedLosesText(c: Cut, d: Decoded)
    requires c == Cut("{}", Some("{")) && d == Decoded(["{"], Ok(Some(JObject(map[]))))
    ensures multiset(Taken([], c, d) + Concat(d.buffer)) != multiset("{}{}{}")
  {
    assert Taken([], c, d) == "{}";
    ThreeOfSix();
  }

  /** Decoding the as-written cut of "{}{}{}" from an empty queue. */
  lemma DecodeDroppedCut(c: Cut, parse: string -> Option<JsonValue>)
    requires c == Cut("{}", Some("{")) && parse("{}") == Some(JObject(map[]))
    ensures DecodeWith([], c, parse) == Decoded(["{"], Ok(Some(JObject(map[]))))
  {
    assert Pushed([], c) == ["{"];
    assert Attempted([], c) == "{}";
  }

  /** Three characters taken and queued are not the six of the packet. */
  lemma ThreeOfSix()
    ensures multiset("{}" + Concat(["{"])) != multiset("{}{}{}")
  {
    assert Concat(["{"]) == "{" + Concat([]);
    assert |multiset("{}" + "{")| == 3;
    assert |multiset("{}{}{}")| == 6;
  }
}
