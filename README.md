# Calorie tracker: the text pipeline of `get_nutritional_info`

This project models the part of the calorie-tracker app (`app_gradio.py`)
that turns the Gemini API's answer into the markdown the user sees, and
proves properties of that model. Four pieces are modelled:

- **Response interpreter** (`parse_nutrition_response`, module
  `Interpreter`):
  - it removes the markdown code fences "```json" and "```" and strips
    surrounding whitespace;
  - it decodes the text as JSON, with the decoder passed in as a function;
  - it pulls out the five report sections, each with its own default;
  - if anything fails, it falls back to an empty report. There are two
    fallbacks, with different advisory messages.
- **Reply extraction** (the tail of `analyze_image_with_gemini_api`, module
  `Inference`):
  - it follows `candidates[0].content.parts[0].text`;
  - otherwise it reports the API's `error` member, or "unexpected
    structure".
  - For the failures of the HTTP call, it builds the message string that
    the function returns in place of a reply.
- **Error gate** (`get_nutritional_info`, module `App`, function `Pipeline`):
  - it checks the API key;
  - it checks the processed image;
  - it applies the `"Error:" in raw` test, which decides whether the raw
    reply is returned as it is or is parsed.
- **Renderer** (module `Renderer` for the specification, module `App` for
  the code):
  - it writes the markdown document section by section, in a fixed order;
  - each value gets a per-key unit, and each key a title-cased display
    name;
  - an empty section gets a placeholder line.
  - The code is imperative. The methods `App.AppendLines`, `App.AppendFoods`,
    `App.AppendTable`, `App.AppendInfo`, `App.AppendImprovements`,
    `App.RenderReport` and `App.GetNutritionalInfo` grow the output string
    with loops. They are proved equal to the functions `Renderer.Render` and
    `App.Pipeline`.

The Python semantics the code relies on are modelled explicitly in two
modules:

- `PyJson` covers the decoded values, truthiness, `dict.get`, `[0]`,
  iteration in a `for` loop, and f-string formatting.
- `PyText` covers `str.replace`, `str.strip` with Python's whitespace set,
  and `str.title`.

Parameters stand in for what the code does not compute itself:

- `decode: string -> Decoding` for `json.loads`;
- `show: Json -> string` for `str()` of non-strings;
- `network: (Bytes, string) -> Transport` for how the HTTP exchange ends, for
  given image bytes and goal;
- `apiKey: Option<string>` for the environment variable;
- `processed: Option<Bytes>` for what `process_image_for_analysis` returned.

An exception that escapes while the document is formatted, or while the
gate's condition is evaluated, is `Rendered.Crash` and `Outcome.Uncaught`. Examples are a
`macronutrients` value that is a list, or a number as the foods (`for food in 5`).

Two behaviours of the code differ from what one would expect of it, and
the model follows the code:

- The formatter (`app_gradio.py:231-285`) has no exception handler, so a
  section of well-formed JSON with an unexpected type raises out of
  `get_nutritional_info` instead of being shown with a default
  (`Renderer.RenderCrashes` states exactly when).
- The check at `app_gradio.py:225` is commented "Propagate API errors",
  but it returns a failure message unchanged only when the message
  contains "Error:" (see Findings).

## Model

| member | source | states |
|---|---|---|
| PyJson.Get | app_gradio.py:65-71 | `d.get(key)` finds a member exactly when the key is present; what it finds is bound to that key; with unique keys it is the key's value |
| PyJson.First | app_gradio.py:198-199 | `v[0]` succeeds exactly on a non-empty list or string |
| PyJson.Elements | app_gradio.py:235 | a `for` loop runs exactly over a list (its items, in order), a string (its characters, position by position, as one-character strings) or a dict (its keys, in insertion order); on anything else it raises |
| PyText.RemovalLeavesNoFence | app_gradio.py:60 | after `.replace("```", "")` no "```" is left, even where removing one fence brings backticks together |
| PyText.ReplaceAbsent | app_gradio.py:60 | replacing a pattern that does not occur changes nothing |
| PyText.ReplaceSkipsPrefix | app_gradio.py:60 | text before the pattern's first character is kept as it is |
| PyText.ReplaceCharAt | app_gradio.py:244 | `.replace('_', ' ')` keeps the length and changes exactly the underscores |
| PyText.LeadingSpace | app_gradio.py:60 | counts the whitespace run at the front: all whitespace and maximal |
| PyText.TrailingSpace | app_gradio.py:60 | counts the whitespace run at the back: all whitespace and maximal |
| PyText.Strip | app_gradio.py:60 | `.strip()` gives a slice of the input with only whitespace cut at either end, starting and ending in non-whitespace |
| PyText.StripLacks | app_gradio.py:60 | stripping cannot create a substring |
| PyText.StripStripped | app_gradio.py:60 | stripping a stripped string changes nothing |
| PyText.TitleAt | app_gradio.py:244 | `.title()` keeps the length and upper-cases exactly the letters that follow a non-letter, lower-casing the other letters |
| PyText.DisplayName | app_gradio.py:244 | `key.replace('_', ' ').title()`: same length, each underscore a space, each letter cased after the letter before it |
| Interpreter.CleanFences | app_gradio.py:60 | the cleaned text holds no "```" and has no surrounding whitespace |
| Interpreter.CleanFencedBlock | app_gradio.py:60 | for a backtick-free s, "```json" + s + "```" cleans to s with its surrounding whitespace stripped, as s itself does; to exactly s when s is already stripped |
| Interpreter.CleanBare | app_gradio.py:60 | a backtick-free, stripped text is left unchanged |
| Interpreter.CleanWithoutBackticks | app_gradio.py:60 | with no backtick, neither replacement changes the text |
| Interpreter.CleanIdempotent | app_gradio.py:60 | cleaning a cleaned text changes nothing |
| Interpreter.ParseSeesCleanedText | app_gradio.py:60-62 | a reply parses exactly as its cleaned form does |
| Interpreter.LanguageRemovalKeepsClosingFence | app_gradio.py:60 | removing "```json" from a text followed by "```" leaves that closing fence in place after the text's own result |
| Interpreter.FenceRemovalDropsClosingFence | app_gradio.py:60 | removing "```" from a text followed by "```" gives exactly what removing it from the text alone gives |
| Interpreter.CleanFencedLikeBare | app_gradio.py:60 | any text in a ```json block, backticks included, cleans exactly as the bare text does |
| Interpreter.FencedParsesLikeBare | app_gradio.py:60-62 | any JSON in a ```json block, backticks and surrounding whitespace included (the usual "```json\n{...}\n```"), parses identically to the bare JSON |
| Interpreter.ParseDecodedObject | app_gradio.py:65-76 | a decoded object gives each section from its own key, and each absent key gives `[]`, `{}`, `{}`, `{'suggestions': [], 'context': ''}` or `{}` |
| Interpreter.ParsePassesMembersThrough | app_gradio.py:65-76 | a present member reaches its section unchanged |
| Interpreter.ParseMalformed | app_gradio.py:77-86 | a decode error gives empty sections, context `''` and the one suggestion "Could not parse response. Please try again or refine input." |
| Interpreter.ParseOtherFailure | app_gradio.py:87-95 | a non-string reply, any other decoder exception, or decoded JSON that is not an object gives the same empty shape with "An unexpected error occurred during parsing." |
| Interpreter.FallbackShaped | app_gradio.py:80-95 | both fallback reports have the documented shape |
| Interpreter.ParseShaped | app_gradio.py:65-76 | an object whose members have their documented types, or are absent, always gives a fully shaped report |
| Inference.ExtractFollowsTextPath | app_gradio.py:198-204 | the reply text is returned exactly when every step of `candidates[0].content.parts[0].text` is present and truthy, and it is the value at the end of that path; a step that raises leads to the inference-error string; a missing or falsy step leads to the `error` check |
| Inference.ApiErrorReply | app_gradio.py:201-202 | an `error` member gives "Gemini API Error: " + its message, or + 'Unknown API error' when it has none |
| Inference.UnexpectedShapeReply | app_gradio.py:203-204 | neither text nor an `error` member gives "Unexpected Gemini API response structure: " + the printed response |
| Inference.TextReply | app_gradio.py:198-200 | reply text is passed on unchanged |
| Inference.ApiErrorCarriesMarker | app_gradio.py:202 | the API error string always contains "Error:" |
| PyText.ContainsAfterPrefix | app_gradio.py:225 | a prefix lacking the pattern's first character neither adds nor hides an occurrence of the pattern (`pat in s + t` exactly when `pat in t`) |
| Inference.NetworkErrorMarker | app_gradio.py:206-207 | the request-error string contains "Error:" exactly when the exception text does |
| Inference.DecodingErrorMarker | app_gradio.py:208-209 | the decoding-error string ("Error decoding ...") contains "Error:" exactly when the exception text does |
| Inference.InferenceErrorMarker | app_gradio.py:210-211 | the inference-error string contains "Error:" exactly when the exception text does |
| Inference.ShapeErrorMarker | app_gradio.py:204 | the structure string contains "Error:" exactly when the printed response does |
| Inference.FalseStart | app_gradio.py:209 | a capital E that does not open "Error:", followed by text with no other capital E, neither adds nor hides an occurrence of "Error:" |
| Inference.FailurePrefixHeads | app_gradio.py:202-211 | every failure string starts with a letter |
| Inference.StructuredReply | app_gradio.py:198-211 | classifies the outcome as reply text or failure message: text exactly when the response holds the text path; the string returned is the text or the message; reply text is always truthy |
| Renderer.Unit | app_gradio.py:245-264 | macronutrients: " kcal" exactly for calories, " mg" exactly for sodium and cholesterol, "g" otherwise; micronutrients: " IU" exactly for vitamin_a, "g" exactly for fiber, " mg" otherwise; additional information: no unit |
| Renderer.InfoBlock | app_gradio.py:268-272 | for a dict, the additional-information section (title included) is empty exactly when the dict is |
| Renderer.LinesConcat | app_gradio.py:235-236 | the loop's lines for a concatenation are the lines of each part, in order: one line per element, in input order |
| Renderer.LinesSingle | app_gradio.py:235-236 | one element gives exactly its own line |
| Renderer.BulletsConcat | app_gradio.py:235-236 | bullets of a concatenation are the bullets of each part, in order |
| Renderer.EntriesConcat | app_gradio.py:243-250 | entry lines of a concatenation are the entry lines of each part, in order |
| Renderer.BulletsCons | app_gradio.py:278-279 | the first element's bullet comes first, then the bullets of the rest |
| Renderer.EntryShape | app_gradio.py:244-250 | each entry line splits, after "- " + display name + ": " (the key's length plus four characters), into the formatted value followed by the key's unit and a newline |
| Renderer.ShapedRenders | app_gradio.py:231-285 | a report of the documented shape always renders |
| Renderer.RenderCrashes | app_gradio.py:234-283 | formatting raises exactly when a truthy section has a type its loop cannot handle |
| Renderer.RenderStartsWithTitle | app_gradio.py:231-233 | every document starts with "### Nutritional Analysis" and the foods heading |
| Renderer.ContextNeedsSuggestions | app_gradio.py:277-283 | for any improvements dict, `{}` included, falsy suggestions give only the placeholder; a non-empty list gives its bullets, and the context line only when the context is truthy |
| Renderer.RenderFromBlocks | app_gradio.py:231-285 | the document is the five sections in the fixed order foods, macronutrients, micronutrients, additional information, suggested improvements, with the goal line before the suggestions |
| Renderer.RenderFallback | app_gradio.py:231-283 | a fallback report renders every placeholder and the advisory message as the only suggestion, with no context line |
| App.ReplyGate | app_gradio.py:225-226 | a string reply passes on unchanged exactly when it is empty or contains "Error:"; the test raises exactly on a truthy number or boolean |
| App.LinesSnoc | app_gradio.py:235-236 | one more element adds its line at the end |
| App.AppendLines | app_gradio.py:235-236 | the `for`/`+=` loops append exactly one line per element, in order |
| App.AppendFoods | app_gradio.py:233-238 | appends the foods section, or raises exactly when the foods cannot be iterated |
| App.AppendTable | app_gradio.py:240-266 | appends the macronutrient or micronutrient section, or raises exactly when a truthy section is not a dict |
| App.AppendInfo | app_gradio.py:268-272 | appends the additional information, or raises exactly when a truthy section is not a dict |
| App.AppendImprovements | app_gradio.py:274-283 | appends the suggestions and context, or the placeholder, or raises exactly when the formatting does |
| App.RenderReport | app_gradio.py:231-285 | the imperative formatter produces exactly `Render`'s document, and raises exactly when `Render` does |
| App.GetNutritionalInfo | app_gradio.py:215-285 | the imperative `get_nutritional_info` returns exactly what `Pipeline` specifies |
| App.MissingKeyShortCircuits | app_gradio.py:216-217 | without a key the configuration error is returned, whatever the image, network and decoder |
| App.ImageFailureShortCircuits | app_gradio.py:219-221 | a failed image gives "Failed to process image...", whatever the network and decoder |
| App.MarkedRepliesPassThrough | app_gradio.py:225-226 | an empty reply, or one containing "Error:", is returned unchanged whatever the decoder does |
| App.UnmarkedRepliesRendered | app_gradio.py:225-285 | any other string reply is parsed and rendered |
| App.ApiErrorsPropagated | app_gradio.py:201-226 | an API error reported in the response reaches the user verbatim |
| App.UnmarkedFailuresNotPropagated | app_gradio.py:225-228 | a failure message without "Error:" is never returned; it is parsed as if it were the model's answer, and the user gets the document rendered from that parse, or an uncaught exception |
| App.UnmarkedFailuresShownAsUnparsable | app_gradio.py:225-228 | with a decoder that rejects such a message, the user gets the empty "could not parse" analysis |
| App.FailureHead | app_gradio.py:202-211 | every failure message is non-empty and does not start with "#" |
| App.DocumentHead | app_gradio.py:231 | every rendered document starts with "#" |
| App.ConnectionRefusedUnmarked | app_gradio.py:206-207 | the text of a refused connection ("... NewConnectionError('... [Errno 111] Connection refused'))") holds no "Error:" |
| App.ConnectionRefusedNotPropagated | app_gradio.py:206-207 | a request whose connection is refused never shows its message |
| App.CorrectedPipeline | app_gradio.py:215-228 | the intended gate: every failure of the inference call is returned exactly as the inference call worded it, and reply text is always parsed and rendered |
| App.CorrectedAgreesWhereGateIsRight | app_gradio.py:225-226 | the intended gate and the code agree whenever the substring test judges right: a failure carrying "Error:", or a string reply without it |

## Left out

- Image processing (`process_image_for_analysis`, app_gradio.py:31-49) is not modelled. PIL resizing and JPEG encoding are foreign library calls; `processed` is an input.
- The HTTP request (app_gradio.py:192-196) and the prompt, payload and base64 construction (app_gradio.py:99-190) are not modelled. They are I/O and a constant template; how the exchange ends is the `network` input. Since version 2.27 `requests` signals a non-JSON body with an exception that is also a `RequestException`, which the code catches first. The model keeps the two `except` clauses apart; `network` decides which one fires.
- `json.loads` is the `decode` parameter. `Json` numbers are `real`: `NaN`, `Infinity` and Python's split between `int` and `float` (which `str()` prints differently) are not represented.
- `str()` of non-strings, including the response dict printed into the structure message, is the `show` parameter.
- The exception texts in the messages at app_gradio.py:207-211 are inputs (`detail`, `faultDetail`); which text a given exception carries is not modelled.
- PyText.Title: models `.title()` on ASCII letters only; Unicode case mapping and other cased characters are not modelled.
- PyText.IsSpace: a fixed table of the characters Python's `str.isspace` accepts; it does not follow changes in later Unicode versions.
- The `print` logging of the failure branches (app_gradio.py:78-79, 88), the module-level `os.getenv` and its warning (app_gradio.py:12-19), the model name and URL (app_gradio.py:22-26), and the Gradio interface with its goal list (app_gradio.py:287-313) are not modelled: they are output or configuration with no logic.
- A dict's keys are unique in Python. `Json.Obj` does not require it; lemmas that need it, such as `Interpreter.ParsePassesMembersThrough`, assume `UniqueKeys`.
- App.ConnectionRefused: the connection-refused text follows urllib3's wording with two parts shortened: the request URL, which carries the API key, whose characters are not known, and the repr of the connection object (`<urllib3.connection.HTTPSConnection object at 0x...>`) that opens the `NewConnectionError` message. A key has no colon (Google API keys are letters, digits, `-` and `_`), and the repr has none before its closing `>`, so neither can add an "Error:".
- App.GetNutritionalInfo: models the code as written. The corrected behaviour exists only as the function `App.CorrectedPipeline`, with no imperative counterpart.

## Findings

| source | as written | input that shows it | evidently intended | confidence | as-written member | corrected member |
|---|---|---|---|---|---|---|
| app_gradio.py:225-226 | the gate returns the inference result unchanged only if it contains "Error:"; the request, decoding, inference and structure messages (:204, :207, :209, :211) contain it only when the exception text happens to | `requests.post` raising `ConnectionError` because the host refuses the connection: its text names `NewConnectionError('...` and `[Errno 111]` but holds no "Error:", so "Network or request error during Gemini API call: HTTPSConnectionPool(...) ... Connection refused'))" goes to `json.loads`, fails to decode, and the user gets an empty analysis that says "Could not parse response" | every failure of the inference call is returned to the user as it is (the comment at :226, "Propagate API errors") | medium, not executed | App.ConnectionRefusedNotPropagated | App.CorrectedPipeline |

`App.UnmarkedFailuresNotPropagated` and `App.UnmarkedFailuresShownAsUnparsable` state the general case, and `Inference.NetworkErrorMarker` and its three siblings show that each failure message carries "Error:" exactly when its exception text does or, for the structure message, the printed response does. There is a second, mirror-image effect of the same substring test: a genuine model reply that contains "Error:" is returned raw instead of being rendered (`App.MarkedRepliesPassThrough`). `App.CorrectedPipeline` removes both.
