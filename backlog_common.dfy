/** backlog/common.ts: the token-weighted boundary loop, the ranges around the
    cursor and around a selection, and the language table. The tokenizer is
    the parameter `countTokens`, a total function from text to a count. */
module BacklogCommon {
  import opened Window
  import opened Editor

  /** The loop's iteration cap (`maxLines`). */
  const MAX_LINES: nat := 8192

  /** The limit `getCodeAroundCursor` passes to the token loop; the source
      names it `maxWords` but it is compared with token counts. */
  const CURSOR_LIMIT: int := 2500

  /** `calculateLineBoundariesWithMaxTokensLimmit`: expand from
      (lineAbove0, lineBelow0) one line above, then one below, per round, until
      the token total exceeds `maxTokens`, both sides are out of lines, or
      MAX_LINES rounds have run; then clamp both boundaries to the document. */
  method CalculateLineBoundariesWithMaxTokensLimit(doc: seq<string>, countTokens: string -> nat,
                                                   lineAbove0: int, lineBelow0: int, maxTokens: int)
    returns (lineAbove: int, lineBelow: int, totalTokens: nat)
    requires lineAbove0 < |doc| && 0 <= lineBelow0
    ensures Bounds(lineAbove, lineBelow, totalTokens)
         == Boundaries(doc, countTokens, maxTokens, MAX_LINES, lineAbove0, lineBelow0)
  {
    lineAbove, lineBelow, totalTokens := lineAbove0, lineBelow0, 0;
    ghost var stop := Expand(doc, countTokens, maxTokens, MAX_LINES, lineAbove0, lineBelow0, 0);
    var iterationCounter := 0;
    while iterationCounter < MAX_LINES
      invariant 0 <= iterationCounter <= MAX_LINES
      invariant lineAbove < |doc| && 0 <= lineBelow
      invariant Expand(doc, countTokens, maxTokens, MAX_LINES - iterationCounter, lineAbove, lineBelow, totalTokens) == stop
    {
      var outOfAboveLines := lineAbove < 0;
      var outOfBelowLines := lineBelow >= |doc|;
      if outOfAboveLines && outOfBelowLines {
        break;
      }
      if !outOfAboveLines {
        totalTokens := totalTokens + countTokens(doc[lineAbove]);
        if totalTokens > maxTokens {
          assert stop == Stop(lineAbove, lineBelow, totalTokens, Overflow);
          break;
        }
      }
      if !outOfBelowLines {
        totalTokens := totalTokens + countTokens(doc[lineBelow]);
        if totalTokens > maxTokens {
          assert stop == Stop(lineAbove, lineBelow, totalTokens, Overflow);
          break;
        }
      }
      lineAbove := lineAbove - 1;
      lineBelow := lineBelow + 1;
      iterationCounter := iterationCounter + 1;
    }
    assert stop.lineAbove == lineAbove && stop.lineBelow == lineBelow && stop.total == totalTokens;
    if lineAbove < 0 {
      lineAbove := 0;
    }
    if lineBelow >= |doc| {
      lineBelow := |doc| - 1;
    }
  }

  /** `getCodeAroundCursor`: the range above runs from the upper boundary up to
      and including the cursor line; the range below starts on the line after
      the cursor and ends before the lower boundary. */
  method GetCodeAroundCursor(doc: seq<string>, countTokens: string -> nat, cursorLine: nat)
    returns (around: Around)
    requires cursorLine < |doc|
    ensures var b := Boundaries(doc, countTokens, CURSOR_LIMIT, MAX_LINES, cursorLine - 1, cursorLine + 1);
      around == Around(LineRange(b.lineAbove, cursorLine + 1), LineRange(cursorLine + 1, b.lineBelow))
    ensures 0 <= around.above.startLine <= cursorLine && cursorLine <= around.below.endLine <= |doc| - 1
  {
    var lineAbove, lineBelow, _ :=
      CalculateLineBoundariesWithMaxTokensLimit(doc, countTokens, cursorLine - 1, cursorLine + 1, CURSOR_LIMIT);
    around := Around(LineRange(lineAbove, cursorLine + 1), LineRange(cursorLine + 1, lineBelow));
  }

  /** `getTextAroundSelection`: the range above ends where the selection
      starts; the range below starts on the selection's last line when the
      selection is empty and on the line after it otherwise. The limit is
      `maxTokensInRequest`. */
  method GetTextAroundSelection(doc: seq<string>, countTokens: string -> nat, sel: Selection,
                                maxTokensInRequest: int)
    returns (around: Around)
    requires ValidSelection(doc, sel)
    ensures var b := Boundaries(doc, countTokens, maxTokensInRequest, MAX_LINES, sel.startLine - 1, sel.endLine + 1);
      around == Around(LineRange(b.lineAbove, sel.startLine),
                       LineRange(sel.endLine + (if sel.isEmpty then 0 else 1), b.lineBelow))
    ensures 0 <= around.above.startLine <= sel.startLine && sel.endLine <= around.below.endLine <= |doc| - 1
  {
    var lineAbove, lineBelow, totalTokens :=
      CalculateLineBoundariesWithMaxTokensLimit(doc, countTokens, sel.startLine - 1, sel.endLine + 1, maxTokensInRequest);
    around := Around(LineRange(lineAbove, sel.startLine),
                     LineRange(sel.endLine + (if sel.isEmpty then 0 else 1), lineBelow));
  }

  /** The language ids `getExpertAndLanguage` knows. */
  const KNOWN_IDS: set<string> :=
    {"dart", "javascript", "typescript", "python", "java", "csharp", "go", "ruby", "rust", "html",
     "css", "json", "yaml", "c", "cpp", "swift", "objective-c", "objective-cpp", "kotlin"}

  /** `getExpertAndLanguage`: a fixed pair per known id; "json" has a language
      but no expert; every other id gets two empty strings. */
  function GetExpertAndLanguage(languageId: string): (r: ExpertAndLanguage)
    ensures r.language != "" <==> languageId in KNOWN_IDS
    ensures r.expert != "" <==> languageId in KNOWN_IDS && languageId != "json"
  {
    match languageId
    case "dart" => ExpertAndLanguage("Flutter developer", "Dart")
    case "javascript" => ExpertAndLanguage("Full-stack developer", "JavaScript")
    case "typescript" => ExpertAndLanguage("Full-stack developer", "TypeScript")
    case "python" => ExpertAndLanguage("Back-end developer", "Python")
    case "java" => ExpertAndLanguage("Back-end developer", "Java")
    case "csharp" => ExpertAndLanguage(".NET developer", "C#")
    case "go" => ExpertAndLanguage("Back-end developer", "Go")
    case "ruby" => ExpertAndLanguage("Back-end developer", "Ruby")
    case "rust" => ExpertAndLanguage("Systems software engineer", "Rust")
    case "html" => ExpertAndLanguage("Front-end developer", "HTML")
    case "css" => ExpertAndLanguage("Front-end developer", "CSS")
    case "json" => ExpertAndLanguage("", "JSON")
    case "yaml" => ExpertAndLanguage("DevOps engineer", "YAML")
    case "c" => ExpertAndLanguage("Systems programmer", "C")
    case "cpp" => ExpertAndLanguage("Game developer", "C++")
    case "swift" => ExpertAndLanguage("Apple developer", "Swift")
    case "objective-c" => ExpertAndLanguage("Apple developer", "Objective-C")
    case "objective-cpp" => ExpertAndLanguage("Apple developer", "Objective-C++")
    case "kotlin" => ExpertAndLanguage("Android developer", "Kotlin")
    case _ => ExpertAndLanguage("", "")
  }
}
