/** The response interpreter, `parse_nutrition_response`: strip markdown
    code fences from the model's reply, decode it as JSON and pull out the
    five report sections, each with its own default, or fall back to an
    empty report carrying one advisory suggestion. */
module Interpreter {
  import opened PyText
  import opened PyJson

  /** The outcome of `json.loads` on the cleaned text. The decoder itself is
      not modelled: callers pass it in as a function. `DecodeError` is a
      `json.JSONDecodeError`; `OtherError` is any other exception it raises,
      such as a `RecursionError` on deeply nested input. */
  datatype Decoding = Decoded(value: Json) | DecodeError | OtherError

  /** The dict `parse_nutrition_response` returns. Each section holds the
      value found in the reply, which need not have the documented type. */
  datatype Report = Report(
    foodItems: Json,
    macronutrients: Json,
    micronutrients: Json,
    improvements: Json,
    additionalInfo: Json)

  const CouldNotParse := "Could not parse response. " + "Please try again or refine input."
  const ParsingFailed := "An unexpected error occurred " + "during parsing."
  const LanguageFence := "```json"

  /** The default `improvements` section of a reply that has none. */
  const NoImprovements := Obj([("suggestions", Arr([])), ("context", Str(""))])

  /** The report returned when parsing fails, carrying `message` as its only
      suggestion. */
  function FallbackReport(message: string): Report {
    Report(Arr([]), Obj([]), Obj([]),
      Obj([("suggestions", Arr([Str(message)])), ("context", Str(""))]),
      Obj([]))
  }

  /** `text.replace("```json", "").replace("```", "").strip()`. */
  function CleanFences(text: string): (r: string)
    ensures !Contains(r, Fence)
    ensures Stripped(r)
  {
    var noLanguage := ReplaceAll(text, LanguageFence, "");
    var noFence := ReplaceAll(noLanguage, Fence, "");
    RemovalLeavesNoFence(noLanguage);
    StripLacks(noFence, Fence);
    Strip(noFence)
  }

  /** The report built from what the decoder gave back. */
  function FromDecoding(d: Decoding): Report {
    match d
    case Decoded(Obj(fields)) =>
      Report(
        GetOr(fields, "identified_foods", Arr([])),
        GetOr(fields, "macronutrients", Obj([])),
        GetOr(fields, "micronutrients", Obj([])),
        GetOr(fields, "improvements", NoImprovements),
        GetOr(fields, "additional_info", Obj([])))
    // `data.get` on a decoded list, string, number or None raises AttributeError
    case Decoded(_) => FallbackReport(ParsingFailed)
    case DecodeError => FallbackReport(CouldNotParse)
    case OtherError => FallbackReport(ParsingFailed)
  }

  /** `parse_nutrition_response(raw)`: `raw` is whatever the inference call
      returned, normally a string. */
  function ParseNutritionResponse(raw: Json, decode: string -> Decoding): Report {
    match raw
    case Str(text) => FromDecoding(decode(CleanFences(text)))
    // `raw.replace` on anything but a string raises AttributeError
    case _ => FallbackReport(ParsingFailed)
  }

  // ---------------------------------------------------------------------------
  // Fence cleaning

  lemma ContainsLength(s: string, pat: string)
    ensures Contains(s, pat) ==> |pat| <= |s|
  {
  }

  /** A text with no backtick has nothing for either replacement to remove. */
  lemma {:induction false} CleanWithoutBackticks(body: string)
    requires '`' !in body
    ensures ReplaceAll(ReplaceAll(body, LanguageFence, ""), Fence, "") == body
  {
    ReplaceSkipsPrefix(body, [], LanguageFence, "");
    ReplaceSkipsPrefix(body, [], Fence, "");
    assert body + [] == body;
  }

  /** Without backticks or surrounding whitespace there is nothing to clean. */
  lemma CleanBare(body: string)
    requires '`' !in body && Stripped(body)
    ensures CleanFences(body) == body
  {
    CleanWithoutBackticks(body);
    StripStripped(body);
  }

  /** A code block "```json" + body + "```" cleans to its body with the
      surrounding whitespace stripped, as the bare body does, whenever the
      body holds no backtick. The usual reply "```json\n{...}\n```" is of
      this form. */
  lemma {:induction false} CleanFencedBlock(body: string)
    requires '`' !in body
    ensures CleanFences(LanguageFence + body + Fence) == Strip(body)
    ensures CleanFences(body) == Strip(body)
    ensures Stripped(body) ==> CleanFences(LanguageFence + body + Fence) == body
  {
    var text := LanguageFence + body + Fence;
    assert LanguageFence <= text;
    assert text[|LanguageFence|..] == body + Fence;
    ReplaceSkipsPrefix(body, Fence, LanguageFence, "");
    ContainsLength(Fence, LanguageFence);
    ReplaceAbsent(Fence, LanguageFence, "");
    assert ReplaceAll(text, LanguageFence, "") == body + Fence;
    ReplaceSkipsPrefix(body, Fence, Fence, "");
    assert ReplaceAll(Fence, Fence, "") == "";
    assert body + "" == body;
    CleanWithoutBackticks(body);
    if Stripped(body) {
      StripStripped(body);
    }
  }

  /** A closing fence survives the removal of "```json" untouched: no
      "```json" can start inside the text and run on into the fence, since
      the fence has backticks where "```json" has letters. */
  lemma {:induction false} LanguageRemovalKeepsClosingFence(x: string)
    ensures ReplaceAll(x + Fence, LanguageFence, "") == ReplaceAll(x, LanguageFence, "") + Fence
    decreases |x|
  {
    if x == [] {
      assert x + Fence == Fence;
      ContainsLength(Fence, LanguageFence);
      ReplaceAbsent(Fence, LanguageFence, "");
    } else {
      var t := x + Fence;
      assert t[0] == x[0] && t[1..] == x[1..] + Fence;
      if |x| < 7 {
        var k := if |x| < 3 then 3 else |x|;
        assert t[k] == '`' && LanguageFence[k] != '`';
      }
      if LanguageFence <= t {
        assert t[..7] == x[..7];
        assert LanguageFence <= x;
        assert t[7..] == x[7..] + Fence;
        LanguageRemovalKeepsClosingFence(x[7..]);
      } else {
        assert !(LanguageFence <= x);
        LanguageRemovalKeepsClosingFence(x[1..]);
        assert [x[0]] + (ReplaceAll(x[1..], LanguageFence, "") + Fence)
            == [x[0]] + ReplaceAll(x[1..], LanguageFence, "") + Fence;
      }
    }
  }

  /** Removing "```" from a text followed by a closing fence gives what
      removing it from the text alone gives: the closing fence goes, and
      any backticks it joins up with at the end of the text go as they
      would have. */
  lemma {:induction false} FenceRemovalDropsClosingFence(x: string)
    ensures ReplaceAll(x + Fence, Fence, "") == ReplaceAll(x, Fence, "")
    decreases |x|
  {
    var t := x + Fence;
    if x == [] {
      assert t == Fence && Fence <= t && t[3..] == [];
    } else if x == "`" {
      assert t == "````" && Fence <= t && t[3..] == "`";
      assert ReplaceAll("`", Fence, "") == "`";
    } else if x == "``" {
      assert t == "`````" && Fence <= t && t[3..] == "``";
      assert "``"[1..] == "`";
      assert ReplaceAll("`", Fence, "") == "`";
      assert ReplaceAll("``", Fence, "") == "``";
    } else {
      assert t[0] == x[0] && t[1..] == x[1..] + Fence;
      if Fence <= t {
        assert t[..3] == x[..3];
        assert Fence <= x;
        assert t[3..] == x[3..] + Fence;
        FenceRemovalDropsClosingFence(x[3..]);
      } else {
        assert !(Fence <= x);
        FenceRemovalDropsClosingFence(x[1..]);
      }
    }
  }

  /** A text wrapped in a ```json block, whatever it holds, backticks
      included, cleans exactly as the bare text does. */
  lemma CleanFencedLikeBare(body: string)
    ensures CleanFences(LanguageFence + body + Fence) == CleanFences(body)
  {
    var text := LanguageFence + body + Fence;
    assert LanguageFence <= text;
    assert text[|LanguageFence|..] == body + Fence;
    LanguageRemovalKeepsClosingFence(body);
    assert ReplaceAll(text, LanguageFence, "") == ReplaceAll(body, LanguageFence, "") + Fence;
    FenceRemovalDropsClosingFence(ReplaceAll(body, LanguageFence, ""));
  }

  lemma LanguageFenceStartsWithFence(s: string)
    ensures LanguageFence <= s ==> Fence <= s
  {
  }

  /** Cleaning is idempotent: a cleaned text has no fence left to remove. */
  lemma CleanIdempotent(text: string)
    ensures CleanFences(CleanFences(text)) == CleanFences(text)
  {
    var r := CleanFences(text);
    assert !Contains(r, LanguageFence) by {
      forall i | 0 <= i <= |r|
        ensures !(LanguageFence <= r[i..])
      {
        LanguageFenceStartsWithFence(r[i..]);
      }
    }
    ReplaceAbsent(r, LanguageFence, "");
    ReplaceAbsent(r, Fence, "");
    StripStripped(r);
  }

  // ---------------------------------------------------------------------------
  // Parsing

  /** Decoding sees the cleaned text, so a reply parses exactly as its
      cleaned form does. */
  lemma ParseSeesCleanedText(text: string, decode: string -> Decoding)
    ensures ParseNutritionResponse(Str(text), decode) == ParseNutritionResponse(Str(CleanFences(text)), decode)
  {
    CleanIdempotent(text);
  }

  /** JSON wrapped in a ```json code block parses exactly as the bare JSON,
      whatever it holds and whatever whitespace surrounds it inside the
      block. */
  lemma FencedParsesLikeBare(body: string, decode: string -> Decoding)
    ensures ParseNutritionResponse(Str(LanguageFence + body + Fence), decode)
         == ParseNutritionResponse(Str(body), decode)
  {
    CleanFencedLikeBare(body);
  }

  /** When the reply decodes to an object, every section is that object's
      member under the section's key, and a missing key gives the section's
      default. */
  lemma ParseDecodedObject(text: string, decode: string -> Decoding, fields: seq<(string, Json)>)
    requires decode(CleanFences(text)) == Decoded(Obj(fields))
    ensures var r := ParseNutritionResponse(Str(text), decode);
      && (HasKey(fields, "identified_foods") ==> ("identified_foods", r.foodItems) in fields)
      && (HasKey(fields, "macronutrients") ==> ("macronutrients", r.macronutrients) in fields)
      && (HasKey(fields, "micronutrients") ==> ("micronutrients", r.micronutrients) in fields)
      && (HasKey(fields, "improvements") ==> ("improvements", r.improvements) in fields)
      && (HasKey(fields, "additional_info") ==> ("additional_info", r.additionalInfo) in fields)
      && (!HasKey(fields, "identified_foods") ==> r.foodItems == Arr([]))
      && (!HasKey(fields, "macronutrients") ==> r.macronutrients == Obj([]))
      && (!HasKey(fields, "micronutrients") ==> r.micronutrients == Obj([]))
      && (!HasKey(fields, "improvements") ==> r.improvements == NoImprovements)
      && (!HasKey(fields, "additional_info") ==> r.additionalInfo == Obj([]))
  {
  }

  /** In a dict, whose keys are unique, a present member passes through
      unchanged. */
  lemma ParsePassesMembersThrough(text: string, decode: string -> Decoding, fields: seq<(string, Json)>, v: Json)
    requires decode(CleanFences(text)) == Decoded(Obj(fields)) && UniqueKeys(fields)
    ensures var r := ParseNutritionResponse(Str(text), decode);
      && (("identified_foods", v) in fields ==> r.foodItems == v)
      && (("macronutrients", v) in fields ==> r.macronutrients == v)
      && (("micronutrients", v) in fields ==> r.micronutrients == v)
      && (("improvements", v) in fields ==> r.improvements == v)
      && (("additional_info", v) in fields ==> r.additionalInfo == v)
  {
  }

  /** Text that is not valid JSON gives empty sections and the single
      suggestion to try again. */
  lemma ParseMalformed(text: string, decode: string -> Decoding)
    requires decode(CleanFences(text)) == DecodeError
    ensures var r := ParseNutritionResponse(Str(text), decode);
      && r.foodItems == Arr([]) && r.macronutrients == Obj([]) && r.micronutrients == Obj([])
      && r.additionalInfo == Obj([])
      && r.improvements == Obj([("suggestions", Arr([Str(CouldNotParse)])), ("context", Str(""))])
  {
  }

  /** Every other failure (a reply that is not a string, a decoder that
      raises something else, decoded JSON that is not an object) gives the
      same empty sections with the "unexpected error" suggestion. */
  lemma ParseOtherFailure(raw: Json, decode: string -> Decoding)
    requires !raw.Str? || decode(CleanFences(raw.s)) == OtherError
          || (decode(CleanFences(raw.s)).Decoded? && !decode(CleanFences(raw.s)).value.Obj?)
    ensures var r := ParseNutritionResponse(raw, decode);
      && r.foodItems == Arr([]) && r.macronutrients == Obj([]) && r.micronutrients == Obj([])
      && r.additionalInfo == Obj([])
      && r.improvements == Obj([("suggestions", Arr([Str(ParsingFailed)])), ("context", Str(""))])
  {
  }

  // ---------------------------------------------------------------------------
  // Fully shaped reports

  /** The documented report shape: a list of foods, three dicts, and an
      improvements dict whose suggestions, when present, are a list. */
  predicate Shaped(r: Report) {
    && r.foodItems.Arr? && r.macronutrients.Obj? && r.micronutrients.Obj?
    && r.additionalInfo.Obj? && r.improvements.Obj?
    && (HasKey(r.improvements.fields, "suggestions") ==> GetOr(r.improvements.fields, "suggestions", Null).Arr?)
  }

  /** Both fallback reports have the documented shape. */
  lemma FallbackShaped(message: string)
    ensures Shaped(FallbackReport(message))
  {
    assert FallbackReport(message).improvements.fields[0].0 == "suggestions";
  }

  /** A decoded object whose members have the documented types (or are
      absent) yields a fully shaped report: the defaults fill every gap. */
  lemma ParseShaped(text: string, decode: string -> Decoding, fields: seq<(string, Json)>)
    requires decode(CleanFences(text)) == Decoded(Obj(fields))
    requires HasKey(fields, "identified_foods") ==> GetOr(fields, "identified_foods", Null).Arr?
    requires HasKey(fields, "macronutrients") ==> GetOr(fields, "macronutrients", Null).Obj?
    requires HasKey(fields, "micronutrients") ==> GetOr(fields, "micronutrients", Null).Obj?
    requires HasKey(fields, "additional_info") ==> GetOr(fields, "additional_info", Null).Obj?
    requires HasKey(fields, "improvements") ==>
      var imp := GetOr(fields, "improvements", Null);
      imp.Obj? && (HasKey(imp.fields, "suggestions") ==> GetOr(imp.fields, "suggestions", Null).Arr?)
    ensures Shaped(ParseNutritionResponse(Str(text), decode))
  {
    assert NoImprovements.fields[0].0 == "suggestions";
  }
}
