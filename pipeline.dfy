/** `get_nutritional_info`: the API-key check, the image check, the error
    gate on the raw reply, parsing, and the loops that build the markdown
    document. */
module App {
  import opened PyText
  import opened PyJson
  import opened Interpreter
  import opened Inference
  import opened Renderer

  type Bytes = seq<bv8>

  const MissingKey := "Error: Gemini API Key is not configured. " + "Please set it as a Hugging Face Space Secret."
  const ImageFailed := "Failed to process image. " + "Please try another image."
  const ErrorMarker := "Error:"

  /** What `if not raw or "Error:" in raw` decides. */
  datatype Gate = PassOn | Proceed | GateRaises

  /** The error gate. `in` on a string is a substring test, on a list an
      element test, on a dict a key test; on a truthy number or boolean it
      raises `TypeError`. */
  function ReplyGate(raw: Json): (g: Gate)
    ensures raw.Str? ==> g != GateRaises && (g == PassOn <==> raw.s == [] || Contains(raw.s, ErrorMarker))
    ensures g == GateRaises <==> (raw.Bool? && raw.b) || (raw.Num? && raw.x != 0.0)
    ensures !Truthy(raw) ==> g == PassOn
  {
    if !Truthy(raw) then PassOn
    else match raw
      case Str(s) => if Contains(s, ErrorMarker) then PassOn else Proceed
      case Arr(items) => if Str(ErrorMarker) in items then PassOn else Proceed
      case Obj(fields) => if HasKey(fields, ErrorMarker) then PassOn else Proceed
      case _ => GateRaises
  }

  /** What `get_nutritional_info` does: return a value (the document, an
      error string, or the raw reply), or let an exception escape. */
  datatype Outcome = Returned(value: Json) | Uncaught

  /** `get_nutritional_info(image, goal)`. `apiKey` is the configured key,
      `processed` what `process_image_for_analysis(image)` gave, `network`
      how the HTTP exchange ends for given image bytes and goal (which
      the prompt quotes), `decode` what
      `json.loads` does and `show` what `str()` prints. */
  function Pipeline(apiKey: Option<string>, processed: Option<Bytes>, network: (Bytes, string) -> Transport,
                    decode: string -> Decoding, show: Json -> string, goal: string): Outcome
  {
    if apiKey.None? then Returned(Str(MissingKey))
    else if processed.None? then Returned(Str(ImageFailed))
    else
      var raw := InferenceReply(network(processed.value, goal), show);
      match ReplyGate(raw)
      case GateRaises => Uncaught
      case PassOn => Returned(raw)
      case Proceed =>
        match Render(ParseNutritionResponse(raw, decode), goal, show)
        case Document(text) => Returned(Str(text))
        case Crash => Uncaught
  }

  // ---------------------------------------------------------------------------
  // The formatting loops, each proved against the function it implements

  /** Extending a sequence by one element adds that element's line at the end. */
  lemma LinesSnoc<T>(xs: seq<T>, i: nat, line: T -> string)
    requires i < |xs|
    ensures Lines(xs[..i + 1], line) == Lines(xs[..i], line) + line(xs[i])
  {
    assert xs[..i + 1][..i] == xs[..i];
  }

  /** The `for` loops of the formatter: `output += <line>` for each element,
      in order. */
  method AppendLines<T>(output: string, xs: seq<T>, line: T -> string) returns (out: string)
    ensures out == output + Lines(xs, line)
  {
    out := output;
    var i := 0;
    while i < |xs|
      invariant 0 <= i <= |xs|
      invariant out == output + Lines(xs[..i], line)
    {
      out := out + line(xs[i]);
      LinesSnoc(xs, i, line);
      i := i + 1;
    }
    assert xs[..i] == xs;
  }

  lemma ConcatAssoc(a: string, b: string, c: string)
    ensures a + b + c == a + (b + c)
  {
  }

  // Each section method appends its section to `output`, or gives `None`
  // where formatting the section raises.

  /** The identified foods, one bullet each, or the placeholder line. */
  method AppendFoods(output: string, foods: Json, show: Json -> string) returns (r: Option<string>)
    ensures r.Some? <==> FoodsBlock(foods, show).Some?
    ensures r.Some? ==> r.value == output + FoodsBlock(foods, show).value
  {
    if !Truthy(foods) {
      return Some(output + NoFoods);
    }
    var items := Elements(foods);
    if items.None? {
      return None;
    }
    var out := AppendLines(output, items.value, x => Bullet(x, show));
    return Some(out);
  }

  /** The macronutrients or micronutrients, one entry each, or the placeholder line. */
  method AppendTable(output: string, v: Json, table: Table, placeholder: string, show: Json -> string)
    returns (r: Option<string>)
    ensures r.Some? <==> TableBlock(v, table, placeholder, show).Some?
    ensures r.Some? ==> r.value == output + TableBlock(v, table, placeholder, show).value
  {
    if !Truthy(v) {
      return Some(output + placeholder);
    }
    if !v.Obj? {
      return None;
    }
    var out := AppendLines(output, v.fields, m => Entry(table, m, show));
    return Some(out);
  }

  /** The additional information, shown only when there is some. */
  method AppendInfo(output: string, v: Json, show: Json -> string) returns (r: Option<string>)
    ensures r.Some? <==> InfoBlock(v, show).Some?
    ensures r.Some? ==> r.value == output + InfoBlock(v, show).value
  {
    if !Truthy(v) {
      assert output + "" == output;
      return Some(output);
    }
    if !v.Obj? {
      return None;
    }
    var out := output + InfoTitle;
    out := AppendLines(out, v.fields, m => Entry(Info, m, show));
    return Some(out);
  }

  /** The suggestions, one bullet each, and the context line when there is
      one; or the placeholder line. */
  method AppendImprovements(output: string, v: Json, show: Json -> string) returns (r: Option<string>)
    ensures r.Some? <==> ImprovementsBlock(v, show).Some?
    ensures r.Some? ==> r.value == output + ImprovementsBlock(v, show).value
  {
    if !Truthy(v) {
      return Some(output + NoSuggestions);
    }
    if !v.Obj? {
      return None;
    }
    var suggestions := GetOr(v.fields, "suggestions", Null);
    if !Truthy(suggestions) {
      return Some(output + NoSuggestions);
    }
    var items := Elements(suggestions);
    if items.None? {
      return None;
    }
    var out := AppendLines(output, items.value, x => Bullet(x, show));
    ghost var bullets := Bullets(items.value, show);
    assert out == output + bullets;
    var context := GetOr(v.fields, "context", Null);
    if Truthy(context) {
      var line := ContextLine(context, show);
      out := out + line;
      ConcatAssoc(output, bullets, line);
      assert ImprovementsBlock(v, show) == Some(bullets + ContextLine(context, show));
    } else {
      assert ImprovementsBlock(v, show) == Some(bullets + "");
      assert bullets + "" == bullets;
    }
    return Some(out);
  }

  /** The formatting half of `get_nutritional_info`: the document grown
      section by section, or `Crash` where a section cannot be formatted. */
  method RenderReport(parsed: Report, goal: string, show: Json -> string) returns (result: Rendered)
    ensures result == Render(parsed, goal, show)
  {
    var output := Heading;
    output := output + FoodsTitle;
    var foods := AppendFoods(output, parsed.foodItems, show);
    if foods.None? {
      return Crash;
    }
    output := foods.value + MacrosTitle;
    var macros := AppendTable(output, parsed.macronutrients, Macros, NoMacros, show);
    if macros.None? {
      return Crash;
    }
    output := macros.value + MicrosTitle;
    var micros := AppendTable(output, parsed.micronutrients, Micros, NoMicros, show);
    if micros.None? {
      return Crash;
    }
    output := micros.value;
    var info := AppendInfo(output, parsed.additionalInfo, show);
    if info.None? {
      return Crash;
    }
    output := info.value + ImprovementsTitle;
    output := output + GoalLine(goal);
    var improvements := AppendImprovements(output, parsed.improvements, show);
    if improvements.None? {
      return Crash;
    }
    RenderFromBlocks(parsed, goal, show, FoodsBlock(parsed.foodItems, show).value,
      TableBlock(parsed.macronutrients, Macros, NoMacros, show).value,
      TableBlock(parsed.micronutrients, Micros, NoMicros, show).value,
      InfoBlock(parsed.additionalInfo, show).value, ImprovementsBlock(parsed.improvements, show).value);
    return Document(improvements.value);
  }

  /** `get_nutritional_info(image, goal)` step by step. */
  method GetNutritionalInfo(apiKey: Option<string>, processed: Option<Bytes>, network: (Bytes, string) -> Transport,
                            decode: string -> Decoding, show: Json -> string, goal: string)
    returns (result: Outcome)
    ensures result == Pipeline(apiKey, processed, network, decode, show, goal)
  {
    if apiKey.None? {
      return Returned(Str(MissingKey));
    }
    if processed.None? {
      return Returned(Str(ImageFailed));
    }
    var raw := InferenceReply(network(processed.value, goal), show);
    var gate := ReplyGate(raw);
    if gate == GateRaises {
      return Uncaught;
    }
    if gate == PassOn {
      return Returned(raw);
    }
    var parsed := ParseNutritionResponse(raw, decode);
    var rendered := RenderReport(parsed, goal, show);
    if rendered.Crash? {
      return Uncaught;
    }
    return Returned(Str(rendered.text));
  }

  // ---------------------------------------------------------------------------
  // Properties of the pipeline

  /** Without an API key, nothing else is consulted. */
  lemma MissingKeyShortCircuits(processed: Option<Bytes>, network: (Bytes, string) -> Transport,
                                decode: string -> Decoding, show: Json -> string, goal: string)
    ensures Pipeline(None, processed, network, decode, show, goal) == Returned(Str(MissingKey))
  {
  }

  /** An image that could not be processed is never sent. */
  lemma ImageFailureShortCircuits(key: string, network: (Bytes, string) -> Transport,
                                  decode: string -> Decoding, show: Json -> string, goal: string)
    ensures Pipeline(Some(key), None, network, decode, show, goal) == Returned(Str(ImageFailed))
  {
  }

  /** A string reply that is empty or contains "Error:" is returned as it is,
      whatever the decoder would have made of it. */
  lemma MarkedRepliesPassThrough(key: string, image: Bytes, network: (Bytes, string) -> Transport,
                                 decode: string -> Decoding, show: Json -> string, goal: string)
    requires InferenceReply(network(image, goal), show).Str?
    requires var s := InferenceReply(network(image, goal), show).s; s == [] || Contains(s, ErrorMarker)
    ensures Pipeline(Some(key), Some(image), network, decode, show, goal) == Returned(InferenceReply(network(image, goal), show))
  {
  }

  /** A string reply without the marker is parsed and rendered: the result
      is the rendered analysis, or an escaping exception. */
  lemma UnmarkedRepliesRendered(key: string, image: Bytes, network: (Bytes, string) -> Transport,
                                decode: string -> Decoding, show: Json -> string, goal: string)
    requires var raw := InferenceReply(network(image, goal), show); raw.Str? && raw.s != [] && !Contains(raw.s, ErrorMarker)
    ensures var raw := InferenceReply(network(image, goal), show);
      Pipeline(Some(key), Some(image), network, decode, show, goal) ==
        match Render(ParseNutritionResponse(raw, decode), goal, show)
        case Document(text) => Returned(Str(text))
        case Crash => Uncaught
  {
  }

  /** An error reported in the API's response is propagated verbatim. */
  lemma ApiErrorsPropagated(key: string, image: Bytes, network: (Bytes, string) -> Transport,
                            decode: string -> Decoding, show: Json -> string, goal: string)
    requires network(image, goal).Received? && ExtractReply(network(image, goal).body).ApiError?
    ensures Pipeline(Some(key), Some(image), network, decode, show, goal) ==
      Returned(Str(ApiErrorPrefix + Format(ExtractReply(network(image, goal).body).message, show)))
  {
    var message := Format(ExtractReply(network(image, goal).body).message, show);
    ApiErrorCarriesMarker(message);
    MarkedRepliesPassThrough(key, image, network, decode, show, goal);
  }

  /** The gate keys on a substring: a failure message without "Error:" (a
      network, decoding, inference or structure failure whose exception
      text has none) is handed to the parser as if it were the model's
      answer, so the message itself is never returned. */
  lemma UnmarkedFailuresNotPropagated(key: string, image: Bytes, network: (Bytes, string) -> Transport,
                                      decode: string -> Decoding, show: Json -> string, goal: string)
    requires StructuredReply(network(image, goal), show).Failure?
    requires !Contains(StructuredReply(network(image, goal), show).message, ErrorMarker)
    ensures var m := StructuredReply(network(image, goal), show).message;
      Pipeline(Some(key), Some(image), network, decode, show, goal) != Returned(Str(m))
    ensures var m := StructuredReply(network(image, goal), show).message;
      Pipeline(Some(key), Some(image), network, decode, show, goal) ==
        match Render(ParseNutritionResponse(Str(m), decode), goal, show)
        case Document(text) => Returned(Str(text))
        case Crash => Uncaught
  {
    var t := network(image, goal);
    var m := StructuredReply(t, show).message;
    FailureHead(t, show);
    UnmarkedRepliesRendered(key, image, network, decode, show, goal);
    DocumentHead(ParseNutritionResponse(Str(m), decode), goal, show);
  }

  /** With a decoder that rejects such a message, as `json.loads` does, the
      user sees an empty analysis that asks them to try again. */
  lemma UnmarkedFailuresShownAsUnparsable(key: string, image: Bytes, network: (Bytes, string) -> Transport,
                                          decode: string -> Decoding, show: Json -> string, goal: string)
    requires StructuredReply(network(image, goal), show).Failure?
    requires !Contains(StructuredReply(network(image, goal), show).message, ErrorMarker)
    requires decode(CleanFences(StructuredReply(network(image, goal), show).message)) == DecodeError
    ensures Pipeline(Some(key), Some(image), network, decode, show, goal) == Returned(Str(
      Heading + FoodsTitle + NoFoods + MacrosTitle + NoMacros + MicrosTitle + NoMicros
        + ImprovementsTitle + GoalLine(goal) + ("- " + CouldNotParse + "\n")))
  {
    var t := network(image, goal);
    var m := StructuredReply(t, show).message;
    FailureHead(t, show);
    UnmarkedRepliesRendered(key, image, network, decode, show, goal);
    assert ParseNutritionResponse(Str(m), decode) == FallbackReport(CouldNotParse);
    RenderFallback(CouldNotParse, goal, show);
  }

  /** Every failure message starts with a letter, never with "#". */
  lemma FailureHead(t: Transport, show: Json -> string)
    requires StructuredReply(t, show).Failure?
    ensures var m := StructuredReply(t, show).message; m != [] && m[0] != '#'
  {
    FailurePrefixHeads();
  }

  /** Every rendered document starts with "#". */
  lemma DocumentHead(r: Report, goal: string, show: Json -> string)
    ensures Render(r, goal, show).Document? ==> Render(r, goal, show).text[0] == '#'
  {
    if Render(r, goal, show).Document? {
      RenderStartsWithTitle(r, goal, show);
    }
  }

  /** The text of the `ConnectionError` that `requests.post` raises when the
      API host refuses the connection, in urllib3's wording, with the request
      URL and the connection object's repr inside `NewConnectionError(...)`
      shortened. Its capital E's open "NewConnectionError(" and "[Errno",
      neither of them followed by "rror:". The text is written in pieces of
      at most 40 characters, which the verifier reads character by
      character, and each capital E starts a piece of its own so that the
      proofs below can step over it. */
  const ConnectionRefused :=
    "HTTPSConnectionPool(host='generativelan" + ("guage.googleapis.com', port=443): Max " + RefusedUrl)
  const RefusedUrl := "retries exceeded with url: /v1beta/mod" + ("els/gemini:generateContent (Caused by " + RefusedCause)
  const RefusedCause := "NewConnection" + ("E" + "rror('Failed to establish a new connec" + ("tion: [" + Errno))
  const Errno := "E" + "rrno 111] Connection refused'))"

  lemma ErrnoUnmarked()
    ensures !Contains(Errno, ErrorMarker)
  {
    var r := "rrno 111] Connection refused'))";
    assert Errno == "E" + r + [];
    assert Errno[3] == 'n';
    FalseStart(r, []);
  }

  lemma RefusedCauseUnmarked()
    ensures !Contains(RefusedCause, ErrorMarker)
  {
    var q1, q2 := "rror('Failed to establish a new connec", "tion: [";
    var d2 := "E" + q1 + (q2 + Errno);
    assert d2[5] == '(';
    ErrnoUnmarked();
    ContainsAfterPrefix(q2, Errno, ErrorMarker);
    FalseStart(q1, q2 + Errno);
    ContainsAfterPrefix("NewConnection", d2, ErrorMarker);
  }

  lemma RefusedUrlUnmarked()
    ensures !Contains(RefusedUrl, ErrorMarker)
  {
    var p3, p4 := "retries exceeded with url: /v1beta/mod", "els/gemini:generateContent (Caused by ";
    RefusedCauseUnmarked();
    ContainsAfterPrefix(p4, RefusedCause, ErrorMarker);
    ContainsAfterPrefix(p3, p4 + RefusedCause, ErrorMarker);
  }

  lemma ConnectionRefusedUnmarked()
    ensures !Contains(ConnectionRefused, ErrorMarker)
  {
    var p1, p2 := "HTTPSConnectionPool(host='generativelan", "guage.googleapis.com', port=443): Max ";
    RefusedUrlUnmarked();
    ContainsAfterPrefix(p2, RefusedUrl, ErrorMarker);
    ContainsAfterPrefix(p1, p2 + RefusedUrl, ErrorMarker);
  }

  /** A concrete instance: the API host refuses the connection. The
      request-error message is never shown; a decoder that rejects it
      yields the "could not parse" analysis. */
  lemma ConnectionRefusedNotPropagated(key: string, image: Bytes, decode: string -> Decoding, show: Json -> string, goal: string)
    ensures var network := (b: Bytes, g: string) => RequestFailed(ConnectionRefused);
      Pipeline(Some(key), Some(image), network, decode, show, goal) != Returned(Str(NetworkPrefix + ConnectionRefused))
  {
    var network := (b: Bytes, g: string) => RequestFailed(ConnectionRefused);
    ConnectionRefusedUnmarked();
    NetworkErrorMarker(ConnectionRefused);
    UnmarkedFailuresNotPropagated(key, image, network, decode, show, goal);
  }

  // ---------------------------------------------------------------------------
  // The evidently intended behaviour: every failure propagated

  /** `get_nutritional_info` as its comment describes it: every failure of
      the inference call reaches the user as the inference call worded it,
      and only the model's reply text is parsed and rendered. */
  function CorrectedPipeline(apiKey: Option<string>, processed: Option<Bytes>, network: (Bytes, string) -> Transport,
                             decode: string -> Decoding, show: Json -> string, goal: string): (r: Outcome)
    ensures apiKey.Some? && processed.Some? && StructuredReply(network(processed.value, goal), show).Failure? ==>
      r == Returned(InferenceReply(network(processed.value, goal), show))
    ensures apiKey.Some? && processed.Some? && StructuredReply(network(processed.value, goal), show).Text? ==>
      r == match Render(ParseNutritionResponse(InferenceReply(network(processed.value, goal), show), decode), goal, show)
           case Document(text) => Returned(Str(text))
           case Crash => Uncaught
  {
    if apiKey.None? then Returned(Str(MissingKey))
    else if processed.None? then Returned(Str(ImageFailed))
    else
      match StructuredReply(network(processed.value, goal), show)
      case Failure(message) => Returned(Str(message))
      case Text(text) =>
        match Render(ParseNutritionResponse(text, decode), goal, show)
        case Document(document) => Returned(Str(document))
        case Crash => Uncaught
  }

  /** The corrected pipeline agrees with the code as written except where
      the substring gate misjudges: a failure without the marker, or a
      reply text that is a non-string or contains the marker. */
  lemma CorrectedAgreesWhereGateIsRight(key: string, image: Bytes, network: (Bytes, string) -> Transport,
                                        decode: string -> Decoding, show: Json -> string, goal: string)
    requires var r := StructuredReply(network(image, goal), show);
      || (r.Failure? && Contains(r.message, ErrorMarker))
      || (r.Text? && r.value.Str? && !Contains(r.value.s, ErrorMarker))
    ensures CorrectedPipeline(Some(key), Some(image), network, decode, show, goal)
         == Pipeline(Some(key), Some(image), network, decode, show, goal)
  {
  }
}
