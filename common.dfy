/** src/common.ts: the word-weighted boundary loop, the ranges around the
    cursor and around a selection, and the language table. */
module Common {
  import opened Strings
  import opened Window
  import opened Editor
  import BacklogCommon

  /** The word budget both range functions pass to the loop (`maxWords`). */
  const MAX_WORDS: int := 2500

  /** The loop's iteration cap. */
  const MAX_ITERATIONS: nat := 1024

  /** A line's weight, `text.split(' ').length`: one more than its number of
      spaces, so every line, even an empty one, weighs at least 1. */
  function Words(text: string): (n: nat)
    ensures n == CountChar(text, ' ') + 1
    ensures n >= 1
  {
    SplitLength(text, ' ');
    |Split(text, ' ')|
  }

  /** `calculateLineBoundariesWithMaxWordsLimmits`: the boundary loop with a
      word counter per side; it stops at the first addition that makes the two
      together exceed `maxWords`, checking the line above before the line
      below, when both sides are out of lines, or after MAX_ITERATIONS rounds;
      then it clamps both boundaries to the document. */
  method CalculateLineBoundariesWithMaxWordsLimits(doc: seq<string>, lineAbove0: int, lineBelow0: int,
                                                   maxWords: int)
    returns (lineAbove: int, lineBelow: int)
    requires lineAbove0 < |doc| && 0 <= lineBelow0
    ensures var b := Boundaries(doc, Words, maxWords, MAX_ITERATIONS, lineAbove0, lineBelow0);
      lineAbove == b.lineAbove && lineBelow == b.lineBelow
  {
    lineAbove, lineBelow := lineAbove0, lineBelow0;
    var aboveWordCounter := 0;
    var belowWordCounter := 0;
    ghost var stop := Expand(doc, Words, maxWords, MAX_ITERATIONS, lineAbove0, lineBelow0, 0);
    ghost var total: nat := 0;
    var iterationCounter := 0;
    while iterationCounter < MAX_ITERATIONS
      invariant 0 <= iterationCounter <= MAX_ITERATIONS
      invariant 0 <= aboveWordCounter && 0 <= belowWordCounter && total == aboveWordCounter + belowWordCounter
      invariant lineAbove < |doc| && 0 <= lineBelow
      invariant Expand(doc, Words, maxWords, MAX_ITERATIONS - iterationCounter, lineAbove, lineBelow, total) == stop
    {
      var outOfAboveLines := lineAbove < 0;
      var outOfBelowLines := lineBelow >= |doc|;
      if outOfAboveLines && outOfBelowLines {
        break;
      }
      if !outOfAboveLines {
        aboveWordCounter := aboveWordCounter + Words(doc[lineAbove]);
        total := total + Words(doc[lineAbove]);
        if aboveWordCounter + belowWordCounter > maxWords {
          assert stop == Stop(lineAbove, lineBelow, total, Overflow);
          break;
        }
      }
      if !outOfBelowLines {
        belowWordCounter := belowWordCounter + Words(doc[lineBelow]);
        total := total + Words(doc[lineBelow]);
        if aboveWordCounter + belowWordCounter > maxWords {
          assert stop == Stop(lineAbove, lineBelow, total, Overflow);
          break;
        }
      }
      lineAbove := lineAbove - 1;
      lineBelow := lineBelow + 1;
      iterationCounter := iterationCounter + 1;
    }
    assert stop.lineAbove == lineAbove && stop.lineBelow == lineBelow;
    if lineAbove < 0 {
      lineAbove := 0;
    }
    if lineBelow >= |doc| {
      lineBelow := |doc| - 1;
    }
  }

  /** `getCodeAroundCursor`: start one line above and one below the cursor;
      the range above includes the cursor line, the range below starts on the
      line after it. */
  method GetCodeAroundCursor(doc: seq<string>, cursorLine: nat) returns (around: Around)
    requires cursorLine < |doc|
    ensures var b := Boundaries(doc, Words, MAX_WORDS, MAX_ITERATIONS, cursorLine - 1, cursorLine + 1);
      around == Around(LineRange(b.lineAbove, cursorLine + 1), LineRange(cursorLine + 1, b.lineBelow))
    ensures 0 <= around.above.startLine <= cursorLine && cursorLine <= around.below.endLine <= |doc| - 1
  {
    var lineAbove, lineBelow :=
      CalculateLineBoundariesWithMaxWordsLimits(doc, cursorLine - 1, cursorLine + 1, MAX_WORDS);
    around := Around(LineRange(lineAbove, cursorLine + 1), LineRange(cursorLine + 1, lineBelow));
  }

  /** `getCodeAroundSelection`: start one line above the selection and one
      below it; the range above ends where the selection starts, the range
      below starts on the line after the selection. */
  method GetCodeAroundSelection(doc: seq<string>, sel: Selection) returns (around: Around)
    requires ValidSelection(doc, sel)
    ensures var b := Boundaries(doc, Words, MAX_WORDS, MAX_ITERATIONS, sel.startLine - 1, sel.endLine + 1);
      around == Around(LineRange(b.lineAbove, sel.startLine), LineRange(sel.endLine + 1, b.lineBelow))
    ensures 0 <= around.above.startLine <= sel.startLine && sel.endLine <= around.below.endLine <= |doc| - 1
  {
    var lineAbove, lineBelow :=
      CalculateLineBoundariesWithMaxWordsLimits(doc, sel.startLine - 1, sel.endLine + 1, MAX_WORDS);
    around := Around(LineRange(lineAbove, sel.startLine), LineRange(sel.endLine + 1, lineBelow));
  }

  /** The language ids `getDeveloperAndLanguage` knows. */
  const KNOWN_IDS: set<string> :=
    {"dart", "javascript", "typescript", "python", "java", "csharp", "go", "ruby", "rust", "html",
     "css", "json", "yaml"}

  /** `getDeveloperAndLanguage` (exported as `getExpertAndLanguage`): a fixed
      pair for each of the 13 known ids; "json" has a language but no expert;
      every other id gets two empty strings. */
  function GetDeveloperAndLanguage(languageId: string): (r: ExpertAndLanguage)
    ensures r.language != "" <==> languageId in KNOWN_IDS
    ensures r.expert != "" <==> languageId in KNOWN_IDS && languageId != "json"
  {
    match languageId
    case "dart" => ExpertAndLanguage("Flutter developer", "Dart")
    case "javascript" => ExpertAndLanguage("Full-stack developer", "JavaScript")
    case "typescript" => ExpertAndLanguage("Full-stack developer", "TypeScript")
    case "python" => ExpertAndLanguage("Back-end developer", "Python")
    case "java" => ExpertAndLanguage("Back-end developer", "Java")
    case "csharp" => ExpertAndLanguage(".NET developer", "C#")
    case "go" => ExpertAndLanguage("Back-end developer", "Go")
    case "ruby" => ExpertAndLanguage("Back-end developer", "Ruby")
    case "rust" => ExpertAndLanguage("Systems software engineer", "Rust")
    case "html" => ExpertAndLanguage("Front-end developer", "HTML")
    case "css" => ExpertAndLanguage("Front-end developer", "CSS")
    case "json" => ExpertAndLanguage("", "JSON")
    case "yaml" => ExpertAndLanguage("DevOps engineer", "YAML")
    case _ => ExpertAndLanguage("", "")
  }

  /** The two tables agree on every id this one knows; the table in
      backlog/common.ts knows six more (c, cpp, swift, objective-c,
      objective-cpp, kotlin), for which this one gives two empty strings. */
  lemma TablesAgree(languageId: string)
    ensures languageId in KNOWN_IDS ==>
      GetDeveloperAndLanguage(languageId) == BacklogCommon.GetExpertAndLanguage(languageId)
    ensures BacklogCommon.KNOWN_IDS - KNOWN_IDS == {"c", "cpp", "swift", "objective-c", "objective-cpp", "kotlin"}
    ensures languageId in BacklogCommon.KNOWN_IDS - KNOWN_IDS ==>
      GetDeveloperAndLanguage(languageId) == ExpertAndLanguage("", "")
      && BacklogCommon.GetExpertAndLanguage(languageId).language != ""
  {
  }
}
