/** What `analyze_image_with_gemini_api` does with the outcome of its HTTP
    call: take the reply text out of the decoded response, or turn the
    failure into a message string. The request itself (prompt, payload,
    base64 encoding, `requests.post`) is not modelled; its outcome is an
    input. */
module Inference {
  import opened PyText
  import opened PyJson

  /** How the HTTP exchange ended. Each `detail` is the text of the caught
      exception as `{e}` prints it.
      - `RequestFailed`: `requests.exceptions.RequestException`, which
        includes the `HTTPError` of `raise_for_status`;
      - `BodyNotJson`: `response.json()` raised `json.JSONDecodeError`;
      - `CallFailed`: any other exception before a body was decoded;
      - `Received`: the decoded body, with `faultDetail` the text of the
        exception, if any, that extracting from it raises. */
  datatype Transport =
    | RequestFailed(detail: string)
    | BodyNotJson(detail: string)
    | CallFailed(detail: string)
    | Received(body: Json, faultDetail: string)

  /** The three-way classification of a decoded response, plus the case
      where evaluating it raises (the `except Exception` handler). */
  datatype Extracted =
    | ReplyText(text: Json)
    | ApiError(message: Json)
    | UnexpectedShape
    | Faulted

  // The longer messages are written in pieces of at most 40 characters,
  // which the verifier reads character by character.
  const NetworkPrefix := "Network or request error " + "during Gemini API call: "
  const DecodingPrefix := "Error" + " decoding JSON " + "response from Gemini API: "
  const InferencePrefix := "An unexpected error occurred " + "during Gemini API inference: "
  const ApiErrorPrefix := "Gemini API Error: "
  const ShapePrefix := "Unexpected Gemini API " + "response structure: "
  const UnknownApiError := "Unknown API error"

  /** The `elif result.get('error')` branch and the final `else`. */
  function ErrorOrUnexpected(fields: seq<(string, Json)>): Extracted {
    var error := GetOr(fields, "error", Null);
    if !Truthy(error) then UnexpectedShape
    else if !error.Obj? then Faulted  // `.get` on a non-dict raises AttributeError
    else ApiError(GetOr(error.fields, "message", Str(UnknownApiError)))
  }

  /** The condition chain of the `if` that looks for
      `result['candidates'][0]['content']['parts'][0]['text']`: each `.get`
      must give a truthy value, and each `.get` or `[0]` on a value that has
      none raises. */
  function ExtractReply(result: Json): Extracted {
    if !result.Obj? then Faulted
    else
      var candidates := GetOr(result.fields, "candidates", Null);
      if !Truthy(candidates) then ErrorOrUnexpected(result.fields)
      else match First(candidates)
        case None => Faulted
        case Some(candidate) =>
          if !candidate.Obj? then Faulted
          else
            var content := GetOr(candidate.fields, "content", Null);
            if !Truthy(content) then ErrorOrUnexpected(result.fields)
            else if !content.Obj? then Faulted
            else
              var parts := GetOr(content.fields, "parts", Null);
              if !Truthy(parts) then ErrorOrUnexpected(result.fields)
              else match First(parts)
                case None => Faulted
                case Some(part) =>
                  if !part.Obj? then Faulted
                  else
                    var text := GetOr(part.fields, "text", Null);
                    if !Truthy(text) then ErrorOrUnexpected(result.fields)
                    else ReplyText(text)
  }

  /** What `analyze_image_with_gemini_api` returns for a given outcome of the
      HTTP call. `show` stands for Python's `str()` on non-strings. */
  function InferenceReply(t: Transport, show: Json -> string): Json {
    match t
    case RequestFailed(d) => Str(NetworkPrefix + d)
    case BodyNotJson(d) => Str(DecodingPrefix + d)
    case CallFailed(d) => Str(InferencePrefix + d)
    case Received(body, d) =>
      match ExtractReply(body)
      case ReplyText(text) => text
      case ApiError(message) => Str(ApiErrorPrefix + Format(message, show))
      case UnexpectedShape => Str(ShapePrefix + show(body))
      case Faulted => Str(InferencePrefix + d)
  }

  // ---------------------------------------------------------------------------
  // An independent reading of the lookup path

  /** One step of a lookup: `.get(key)`, whose result must be truthy, or `[0]`. */
  datatype Step = Key(key: string) | Index0

  /** Where a walk along a path ends: at a value, at a falsy `.get`, or at an
      operation that raises. */
  datatype Walked = Reached(value: Json) | FellShort | Raised

  function Walk(v: Json, path: seq<Step>): Walked
    decreases |path|
  {
    if path == [] then Reached(v)
    else match path[0]
      case Key(k) =>
        if !v.Obj? then Raised
        else
          var next := GetOr(v.fields, k, Null);
          if !Truthy(next) then FellShort else Walk(next, path[1..])
      case Index0 =>
        match First(v)
        case None => Raised
        case Some(next) => Walk(next, path[1..])
  }

  const TextPath := [Key("candidates"), Index0, Key("content"), Key("parts"), Index0, Key("text")]

  /** The extraction follows the text path exactly: it yields the reply text
      precisely when every step of the path is present and truthy, it raises
      precisely when a step raises, and a path that falls short leads to the
      error check. */
  lemma ExtractFollowsTextPath(result: Json)
    ensures ExtractReply(result).ReplyText? <==> Walk(result, TextPath).Reached?
    ensures Walk(result, TextPath).Reached? ==> ExtractReply(result).text == Walk(result, TextPath).value
    ensures Walk(result, TextPath).Raised? ==> ExtractReply(result) == Faulted
    ensures Walk(result, TextPath).FellShort? ==> ExtractReply(result) == ErrorOrUnexpected(result.fields)
  {
    var p := TextPath;
    assert p[1..] == [Index0, Key("content"), Key("parts"), Index0, Key("text")];
    assert p[2..] == [Key("content"), Key("parts"), Index0, Key("text")];
    assert p[3..] == [Key("parts"), Index0, Key("text")];
    assert p[4..] == [Index0, Key("text")];
    assert p[5..] == [Key("text")];
    assert p[1..][1..] == p[2..] && p[2..][1..] == p[3..] && p[3..][1..] == p[4..];
    assert p[4..][1..] == p[5..] && p[5..][1..] == [];
  }

  /** A response carrying an `error` member (and no reply text) gives
      "Gemini API Error: " followed by its message, or by
      'Unknown API error' when the message is missing. */
  lemma ApiErrorReply(body: Json, d: string, show: Json -> string)
    requires body.Obj? && Walk(body, TextPath).FellShort?
    requires var e := GetOr(body.fields, "error", Null); Truthy(e) && e.Obj?
    ensures var e := GetOr(body.fields, "error", Null);
      InferenceReply(Received(body, d), show) ==
        Str(ApiErrorPrefix + (if HasKey(e.fields, "message") then Format(GetOr(e.fields, "message", Null), show)
                              else UnknownApiError))
  {
    ExtractFollowsTextPath(body);
  }

  /** A response with neither reply text nor a truthy `error` member gives
      the "Unexpected ... structure" string. */
  lemma UnexpectedShapeReply(body: Json, d: string, show: Json -> string)
    requires body.Obj? && Walk(body, TextPath).FellShort? && !Truthy(GetOr(body.fields, "error", Null))
    ensures InferenceReply(Received(body, d), show) == Str(ShapePrefix + show(body))
  {
    ExtractFollowsTextPath(body);
  }

  /** Reply text at the end of the path is passed on as it is. */
  lemma TextReply(body: Json, d: string, show: Json -> string)
    requires Walk(body, TextPath).Reached?
    ensures InferenceReply(Received(body, d), show) == Walk(body, TextPath).value
  {
    ExtractFollowsTextPath(body);
  }

  // ---------------------------------------------------------------------------
  // Which error strings carry the "Error:" marker

  /** The API error string always contains "Error:". */
  lemma ApiErrorCarriesMarker(message: string)
    ensures Contains(ApiErrorPrefix + message, "Error:")
  {
    var s := ApiErrorPrefix + message;
    assert s[11..] == "Error: " + message;
    assert "Error:" <= s[11..];
  }

  /** A capital E that does not open "Error:", followed by text with no
      other capital E, neither adds nor hides an occurrence of "Error:". */
  lemma FalseStart(rest: string, t: string)
    requires 'E' !in rest && !("Error:" <= "E" + rest + t)
    ensures Contains("E" + rest + t, "Error:") <==> Contains(t, "Error:")
  {
    assert "E" + rest + t == ['E'] + (rest + t);
    ContainsCons('E', rest + t, "Error:");
    ContainsAfterPrefix(rest, t, "Error:");
  }

  /** The string built for a failed request carries "Error:" exactly when
      the exception text does: its fixed part has no capital E. The same
      holds for the decoding, inference and structure strings below. */
  lemma NetworkErrorMarker(detail: string)
    ensures Contains(NetworkPrefix + detail, "Error:") <==> Contains(detail, "Error:")
  {
    ContainsAfterPrefix(NetworkPrefix, detail, "Error:");
  }

  lemma InferenceErrorMarker(detail: string)
    ensures Contains(InferencePrefix + detail, "Error:") <==> Contains(detail, "Error:")
  {
    ContainsAfterPrefix(InferencePrefix, detail, "Error:");
  }

  lemma ShapeErrorMarker(detail: string)
    ensures Contains(ShapePrefix + detail, "Error:") <==> Contains(detail, "Error:")
  {
    ContainsAfterPrefix(ShapePrefix, detail, "Error:");
  }

  /** The decoding error string starts with "Error" but not "Error:": its
      only capital E is followed by a space, so it too carries "Error:"
      exactly when the exception text does. */
  lemma DecodingErrorMarker(detail: string)
    ensures Contains(DecodingPrefix + detail, "Error:") <==> Contains(detail, "Error:")
  {
    var rest := "rror" + " decoding JSON ";
    var tail := "response from Gemini API: ";
    assert DecodingPrefix + detail == "E" + rest + (tail + detail);
    assert ("E" + rest + (tail + detail))[5] == ' ';
    FalseStart(rest, tail + detail);
    ContainsAfterPrefix(tail, detail, "Error:");
  }

  /** Every failure message starts with a letter. */
  lemma FailurePrefixHeads()
    ensures NetworkPrefix[0] == 'N' && DecodingPrefix[0] == 'E' && InferencePrefix[0] == 'A'
    ensures ApiErrorPrefix[0] == 'G' && ShapePrefix[0] == 'U'
  {
  }

  // ---------------------------------------------------------------------------
  // The reply kept apart from the failure messages

  /** The outcome of the inference call with the model's reply text kept
      apart from the failure messages, which the returned string alone does
      not. */
  datatype Reply = Text(value: Json) | Failure(message: string)

  function StructuredReply(t: Transport, show: Json -> string): (r: Reply)
    ensures r.Text? <==> t.Received? && ExtractReply(t.body).ReplyText?
    ensures InferenceReply(t, show) == match r case Text(v) => v case Failure(m) => Str(m)
    ensures r.Text? ==> Truthy(r.value)
  {
    match t
    case RequestFailed(d) => Failure(NetworkPrefix + d)
    case BodyNotJson(d) => Failure(DecodingPrefix + d)
    case CallFailed(d) => Failure(InferencePrefix + d)
    case Received(body, d) =>
      match ExtractReply(body)
      case ReplyText(text) => Text(text)
      case ApiError(message) => Failure(ApiErrorPrefix + Format(message, show))
      case UnexpectedShape => Failure(ShapePrefix + show(body))
      case Faulted => Failure(InferencePrefix + d)
  }
}
