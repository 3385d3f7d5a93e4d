/** The markdown document `get_nutritional_info` builds from a parsed
    report, given as functions: the specification its loops are proved
    against. */
module Renderer {
  import opened PyText
  import opened PyJson
  import opened Interpreter

  /** The three key/value sections, which differ only in their units. */
  datatype Table = Macros | Micros | Info

  /** The unit written after a value: for macronutrients " kcal" for
      calories, " mg" for sodium and cholesterol, "g" (no space) otherwise;
      for micronutrients " IU" for vitamin A, "g" for fiber, " mg"
      otherwise; none for additional information. */
  function Unit(table: Table, key: string): (u: string)
    ensures table == Macros ==> (u == " kcal" <==> key == "calories")
    ensures table == Macros ==> (u == " mg" <==> key == "sodium" || key == "cholesterol")
    ensures table == Macros ==> (u == "g" <==> key != "calories" && key != "sodium" && key != "cholesterol")
    ensures table == Micros ==> (u == " IU" <==> key == "vitamin_a")
    ensures table == Micros ==> (u == "g" <==> key == "fiber")
    ensures table == Micros ==> (u == " mg" <==> key != "vitamin_a" && key != "fiber")
    ensures table == Info ==> u == ""
  {
    match table
    case Macros =>
      if key == "calories" then " kcal"
      else if key == "sodium" || key == "cholesterol" then " mg"
      else "g"
    case Micros =>
      if key == "vitamin_a" then " IU"
      else if key == "fiber" then "g"
      else " mg"
    case Info => ""
  }

  const Heading := "### Nutritional Analysis\n\n"
  const FoodsTitle := "**Identified Foods:**\n"
  const MacrosTitle := "\n**Macronutrients:**\n"
  const MicrosTitle := "\n**Micronutrients:**\n"
  const InfoTitle := "\n**Additional Information:**\n"
  const ImprovementsTitle := "\n**Suggested Improvements:**\n"
  const NoFoods := "No specific food items identified.\n"
  const NoMacros := "No macronutrient data available.\n"
  const NoMicros := "No micronutrient data available.\n"
  const NoSuggestions := "No specific suggestions provided.\n"

  function GoalLine(goal: string): string {
    "Based on your goal: " + goal + "\n"
  }

  function ContextLine(context: Json, show: Json -> string): string {
    "\nContext: " + Format(context, show) + "\n"
  }

  /** One bullet line, `f"- {x}\n"`. */
  function Bullet(x: Json, show: Json -> string): string {
    "- " + Format(x, show) + "\n"
  }

  /** The lines of `xs`, one per element, in order. */
  function Lines<T>(xs: seq<T>, line: T -> string): string
    decreases |xs|
  {
    if xs == [] then "" else Lines(xs[..|xs| - 1], line) + line(xs[|xs| - 1])
  }

  /** One bullet per element, in order. */
  function Bullets(xs: seq<Json>, show: Json -> string): string {
    Lines(xs, x => Bullet(x, show))
  }

  /** One key/value line, `f"- {name}: {value}{unit}\n"`. */
  function Entry(table: Table, member: (string, Json), show: Json -> string): string {
    "- " + DisplayName(member.0) + ": " + Format(member.1, show) + Unit(table, member.0) + "\n"
  }

  /** One entry line per member, in insertion order. */
  function Entries(table: Table, fields: seq<(string, Json)>, show: Json -> string): string {
    Lines(fields, m => Entry(table, m, show))
  }

  // Each block is `None` when rendering it raises: iterating a value that is
  // not iterable, or calling `.items()` / `.get` on a value that is not a dict.

  function FoodsBlock(foods: Json, show: Json -> string): Option<string> {
    if !Truthy(foods) then Some(NoFoods)
    else match Elements(foods)
      case None => None
      case Some(xs) => Some(Bullets(xs, show))
  }

  function TableBlock(v: Json, table: Table, placeholder: string, show: Json -> string): Option<string> {
    if !Truthy(v) then Some(placeholder)
    else if !v.Obj? then None
    else Some(Entries(table, v.fields, show))
  }

  /** The additional-information section, which is left out altogether when
      there is nothing to show. */
  function InfoBlock(v: Json, show: Json -> string): (r: Option<string>)
    ensures v.Obj? ==> r.Some? && (r.value == "" <==> v.fields == [])
  {
    if !Truthy(v) then Some("")
    else if !v.Obj? then None
    else Some(InfoTitle + Entries(Info, v.fields, show))
  }

  function ImprovementsBlock(v: Json, show: Json -> string): Option<string> {
    if !Truthy(v) then Some(NoSuggestions)
    else if !v.Obj? then None
    else
      var suggestions := GetOr(v.fields, "suggestions", Null);
      if !Truthy(suggestions) then Some(NoSuggestions)
      else match Elements(suggestions)
        case None => None
        case Some(xs) =>
          var context := GetOr(v.fields, "context", Null);
          Some(Bullets(xs, show) + (if Truthy(context) then ContextLine(context, show) else ""))
  }

  /** The formatted result, or `Crash` when formatting raises. */
  datatype Rendered = Document(text: string) | Crash

  /** The document in its fixed section order: foods, macronutrients,
      micronutrients, additional information, suggested improvements. */
  function Render(r: Report, goal: string, show: Json -> string): Rendered {
    match (FoodsBlock(r.foodItems, show), TableBlock(r.macronutrients, Macros, NoMacros, show),
           TableBlock(r.micronutrients, Micros, NoMicros, show), InfoBlock(r.additionalInfo, show),
           ImprovementsBlock(r.improvements, show))
    case (Some(foods), Some(macros), Some(micros), Some(info), Some(improvements)) =>
      Document(Heading + FoodsTitle + foods + MacrosTitle + macros + MicrosTitle + micros + info
        + ImprovementsTitle + GoalLine(goal) + improvements)
    case _ => Crash
  }

  // ---------------------------------------------------------------------------
  // Properties

  /** The lines of a concatenation are the concatenation of the lines: one
      line per element, in input order. */
  lemma {:induction false} LinesConcat<T>(a: seq<T>, b: seq<T>, line: T -> string)
    ensures Lines(a + b, line) == Lines(a, line) + Lines(b, line)
    decreases |b|
  {
    if b == [] {
      assert a + b == a;
    } else {
      var init := b[..|b| - 1];
      assert (a + b)[..|a + b| - 1] == a + init;
      assert (a + b)[|a + b| - 1] == b[|b| - 1];
      LinesConcat(a, init, line);
    }
  }

  lemma LinesSingle<T>(x: T, line: T -> string)
    ensures Lines([x], line) == line(x)
  {
    assert [x][..0] == [];
  }

  lemma BulletsConcat(a: seq<Json>, b: seq<Json>, show: Json -> string)
    ensures Bullets(a + b, show) == Bullets(a, show) + Bullets(b, show)
  {
    LinesConcat(a, b, x => Bullet(x, show));
  }

  lemma EntriesConcat(table: Table, a: seq<(string, Json)>, b: seq<(string, Json)>, show: Json -> string)
    ensures Entries(table, a + b, show) == Entries(table, a, show) + Entries(table, b, show)
  {
    LinesConcat(a, b, m => Entry(table, m, show));
  }

  /** Bullets of a list of strings, from the front: each element's line
      comes before the lines of the elements after it. */
  lemma BulletsCons(x: Json, xs: seq<Json>, show: Json -> string)
    ensures Bullets([x] + xs, show) == "- " + Format(x, show) + "\n" + Bullets(xs, show)
  {
    BulletsConcat([x], xs, show);
    LinesSingle(x, y => Bullet(y, show));
  }

  /** Every entry line splits after the first ": " into the key's display
      name and then the value followed by the key's unit. */
  lemma EntryShape(table: Table, key: string, value: Json, show: Json -> string)
    ensures var line := Entry(table, (key, value), show);
      var k := 2 + |key| + 2;
      && k <= |line|
      && line[..k] == "- " + DisplayName(key) + ": "
      && line[k..] == Format(value, show) + Unit(table, key) + "\n"
      && |line| == k + |Format(value, show)| + |Unit(table, key)| + 1
      && line[|line| - 1] == '\n'
  {
    var head := "- " + DisplayName(key) + ": ";
    var tail := Format(value, show) + Unit(table, key) + "\n";
    assert Entry(table, (key, value), show) == head + tail;
  }

  /** A report of the documented shape always renders. */
  lemma ShapedRenders(r: Report, goal: string, show: Json -> string)
    requires Shaped(r)
    ensures Render(r, goal, show).Document?
  {
  }

  /** Rendering raises exactly when some non-empty section has a type the
      formatting code cannot handle. */
  lemma RenderCrashes(r: Report, goal: string, show: Json -> string)
    ensures Render(r, goal, show).Crash? <==>
      || (Truthy(r.foodItems) && !(r.foodItems.Arr? || r.foodItems.Str? || r.foodItems.Obj?))
      || (Truthy(r.macronutrients) && !r.macronutrients.Obj?)
      || (Truthy(r.micronutrients) && !r.micronutrients.Obj?)
      || (Truthy(r.additionalInfo) && !r.additionalInfo.Obj?)
      || (Truthy(r.improvements) && !r.improvements.Obj?)
      || (Truthy(r.improvements) && r.improvements.Obj? &&
          var s := GetOr(r.improvements.fields, "suggestions", Null);
          Truthy(s) && !(s.Arr? || s.Str? || s.Obj?))
  {
  }

  /** A rendered document starts with the title and the foods heading. */
  lemma RenderStartsWithTitle(r: Report, goal: string, show: Json -> string)
    requires Render(r, goal, show).Document?
    ensures Heading + FoodsTitle <= Render(r, goal, show).text
  {
    var foods := FoodsBlock(r.foodItems, show).value;
    var macros := TableBlock(r.macronutrients, Macros, NoMacros, show).value;
    var micros := TableBlock(r.micronutrients, Micros, NoMicros, show).value;
    var info := InfoBlock(r.additionalInfo, show).value;
    var improvements := ImprovementsBlock(r.improvements, show).value;
    RenderFromBlocks(r, goal, show, foods, macros, micros, info, improvements);
    StartsWith(Heading + FoodsTitle, foods, MacrosTitle, macros, MicrosTitle, micros, info,
      ImprovementsTitle, GoalLine(goal), improvements);
  }

  lemma StartsWith(a: string, b1: string, b2: string, b3: string, b4: string, b5: string, b6: string,
                   b7: string, b8: string, b9: string)
    ensures a <= a + b1 + b2 + b3 + b4 + b5 + b6 + b7 + b8 + b9
  {
  }

  /** The context line is shown only after at least one suggestion, and
      only when the context is truthy. */
  lemma ContextNeedsSuggestions(fields: seq<(string, Json)>, show: Json -> string)
    ensures var s := GetOr(fields, "suggestions", Null);
      var c := GetOr(fields, "context", Null);
      && (!Truthy(s) ==> ImprovementsBlock(Obj(fields), show) == Some(NoSuggestions))
      && (s.Arr? && Truthy(s) ==>
            ImprovementsBlock(Obj(fields), show) ==
              Some(Bullets(s.items, show) + if Truthy(c) then ContextLine(c, show) else ""))
  {
  }

  /** The document assembled from its five sections. */
  lemma RenderFromBlocks(r: Report, goal: string, show: Json -> string,
                         foods: string, macros: string, micros: string, info: string, improvements: string)
    requires FoodsBlock(r.foodItems, show) == Some(foods)
    requires TableBlock(r.macronutrients, Macros, NoMacros, show) == Some(macros)
    requires TableBlock(r.micronutrients, Micros, NoMicros, show) == Some(micros)
    requires InfoBlock(r.additionalInfo, show) == Some(info)
    requires ImprovementsBlock(r.improvements, show) == Some(improvements)
    ensures Render(r, goal, show) == Document(Heading + FoodsTitle + foods + MacrosTitle + macros + MicrosTitle
      + micros + info + ImprovementsTitle + GoalLine(goal) + improvements)
  {
  }

  lemma DropEmpty(a: string, t: string, g: string, b: string)
    ensures a + "" + t + g + (b + "") == a + t + g + b
  {
  }

  /** What a failed parse displays: every placeholder line, the goal, and the
      advisory message as the only suggestion, with no context line. */
  lemma RenderFallback(message: string, goal: string, show: Json -> string)
    ensures Render(FallbackReport(message), goal, show) ==
      Document(Heading + FoodsTitle + NoFoods + MacrosTitle + NoMacros + MicrosTitle + NoMicros
        + ImprovementsTitle + GoalLine(goal) + ("- " + message + "\n"))
  {
    var r := FallbackReport(message);
    var imp := r.improvements;
    var line := "- " + message + "\n";
    assert GetOr(imp.fields, "suggestions", Null) == Arr([Str(message)]);
    assert GetOr(imp.fields, "context", Null) == Str("");
    LinesSingle(Str(message), y => Bullet(y, show));
    assert ImprovementsBlock(imp, show) == Some(line + "");
    RenderFromBlocks(r, goal, show, NoFoods, NoMacros, NoMicros, "", line + "");
    DropEmpty(Heading + FoodsTitle + NoFoods + MacrosTitle + NoMacros + MicrosTitle + NoMicros,
      ImprovementsTitle, GoalLine(goal), line);
  }
}
