/** src/codeCompleter.ts: the Flutter/Dart prompt `compilePrompt` builds, and
    the range endpoints around the cursor or the selection. The boundary loop
    and the two range functions of this file are the same code as the ones in
    src/common.ts, so they delegate to the `Common` model. */
module CodeCompleter {
  import opened Strings
  import opened Window
  import opened Editor
  import Common

  // The fixed wording of the prompt. Long texts are written as a few short
  // literals joined together; the text is the same. '\U{261D}' is the
  // pointing finger, '\U{2192}' the arrow.
  const HEADER_PREFIX := "You're an expert " + "Flutter developer. " + "Produce a valid Dart "
                         + "code block based on " + "the following " + "instructions:\n"
  const REPLACING_PREFIX := "\U{261D} Assume that the " + "produced code block " + "will be replacing the "
                            + "following existing " + "code block\U{2192}\n"
  const SUGGESTIONS := "\U{261D} Should you have " + "any suggestions (e.g. " + "adding imports above "
                       + "or changing some " + "surrounding parts of " + "the code), add them as "
                       + "instructions before " + "the produced code " + "block. Inline comments "
                       + "are also welcome.\n\n"
  const MORE_CONTEXT := "\U{261D} To give you " + "more context, here's "
  const AND_HERE := "And here's "
  const ABOVE_LEAD := "the code above the " + "line where you're " + "asked to insert the "
                      + "code\U{2192}\n"
  const BELOW_LEAD := "the code below the " + "line where you're " + "asked to insert the "
                      + "code\U{2192}\n"

  /** The first line, which carries the instruction. */
  function Header(whatToDo: string): string {
    HEADER_PREFIX + whatToDo + "\n\n"
  }

  /** The note naming the block to be replaced, when there is one. */
  function Replacing(refactorBlock: string): string {
    if !IsBlank(refactorBlock) then REPLACING_PREFIX + refactorBlock + "\n\n" else ""
  }

  function AboveSection(aboveText: string): string {
    if |aboveText| > 0 then ABOVE_LEAD + aboveText + "\n\n" else ""
  }

  function BelowSection(aboveText: string, belowText: string): string {
    if |belowText| > 0 then (if |aboveText| > 0 then AND_HERE else "") + BELOW_LEAD + belowText + "\n\n"
    else ""
  }

  /** The code above and below the insertion point, each given only when
      not empty. */
  function Surrounding(aboveText: string, belowText: string): string {
    AboveSection(aboveText) + BelowSection(aboveText, belowText)
  }

  /** What every prompt holds after the request and the optional note: the
      suggestions line, the lead-in to the surrounding code, and that code. */
  function Guidance(aboveText: string, belowText: string): string {
    SUGGESTIONS + MORE_CONTEXT + Surrounding(aboveText, belowText)
  }

  /** `compilePrompt(whatToDo, refactorBlock, aboveText, belowText)`. */
  function CompilePrompt(whatToDo: string, refactorBlock: string, aboveText: string, belowText: string): string {
    Header(whatToDo) + Replacing(refactorBlock) + Guidance(aboveText, belowText)
  }

  /** Every prompt starts with the request, followed by the optional
      replacement note and the guidance. */
  lemma PromptLayout(whatToDo: string, refactorBlock: string, aboveText: string, belowText: string)
    ensures var prompt := CompilePrompt(whatToDo, refactorBlock, aboveText, belowText);
      && StartsWith(prompt, Header(whatToDo))
      && prompt[|Header(whatToDo)|..] == Replacing(refactorBlock) + Guidance(aboveText, belowText)
  {
    var h := Header(whatToDo);
    var r := Replacing(refactorBlock);
    var g := Guidance(aboveText, belowText);
    AppendAssoc(h, r, g);
    PrefixOfAppend(h, r + g);
  }

  /** After the request, the replacement note naming the block is given
      exactly when the block is not blank; the guidance follows it, or
      follows the request directly when there is no note. */
  lemma ReplacementNote(refactorBlock: string, aboveText: string, belowText: string)
    ensures var rest := Replacing(refactorBlock) + Guidance(aboveText, belowText);
      && (StartsWith(rest, REPLACING_PREFIX + refactorBlock + "\n\n") <==> !IsBlank(refactorBlock))
      && (!IsBlank(refactorBlock) ==> rest[|REPLACING_PREFIX + refactorBlock + "\n\n"|..] == Guidance(aboveText, belowText))
      && (IsBlank(refactorBlock) ==> rest == Guidance(aboveText, belowText))
  {
    var r := Replacing(refactorBlock);
    var g := Guidance(aboveText, belowText);
    if !IsBlank(refactorBlock) {
      PrefixOfAppend(r, g);
    } else {
      assert r + g == g;
      assert g[2] == 'S';
      assert (REPLACING_PREFIX + refactorBlock + "\n\n")[2] == 'A';
    }
  }

  /** The guidance always opens with the suggestions line and the lead-in to
      the surrounding code. */
  lemma GuidanceAlwaysGiven(aboveText: string, belowText: string)
    ensures StartsWith(Guidance(aboveText, belowText), SUGGESTIONS + MORE_CONTEXT)
    ensures Guidance(aboveText, belowText)[|SUGGESTIONS + MORE_CONTEXT|..] == Surrounding(aboveText, belowText)
  {
    PrefixOfAppend(SUGGESTIONS + MORE_CONTEXT, Surrounding(aboveText, belowText));
  }

  /** After the lead-in, the code above is given exactly when it is not
      empty, and when it is empty the code below follows the lead-in
      directly. */
  lemma AboveFirst(aboveText: string, belowText: string)
    ensures StartsWith(Surrounding(aboveText, belowText), ABOVE_LEAD + aboveText + "\n\n") <==> |aboveText| > 0
    ensures |aboveText| == 0 ==> Surrounding(aboveText, belowText) == BelowSection(aboveText, belowText)
  {
    var below := BelowSection(aboveText, belowText);
    if |aboveText| > 0 {
      PrefixOfAppend(ABOVE_LEAD + aboveText + "\n\n", below);
    } else {
      assert Surrounding(aboveText, belowText) == below;
      if |belowText| > 0 {
        assert below[9] == 'b';
        assert (ABOVE_LEAD + aboveText + "\n\n")[9] == 'a';
      }
    }
  }

  /** The code below is given exactly when it is not empty, and is opened
      with "And here's " exactly when the code above was given too. */
  lemma BelowLast(aboveText: string, belowText: string)
    ensures var below := BelowSection(aboveText, belowText);
      && (StartsWith(below, AND_HERE) <==> |aboveText| > 0 && |belowText| > 0)
      && (EndsWith(below, BELOW_LEAD + belowText + "\n\n") <==> |belowText| > 0)
  {
    var below := BelowSection(aboveText, belowText);
    if |belowText| > 0 {
      var section := BELOW_LEAD + belowText + "\n\n";
      if |aboveText| > 0 {
        AppendAssoc(AND_HERE + BELOW_LEAD, belowText, "\n\n");
        AppendAssoc(AND_HERE, BELOW_LEAD, belowText + "\n\n");
        AppendAssoc(BELOW_LEAD, belowText, "\n\n");
        assert below == AND_HERE + section;
        PrefixOfAppend(AND_HERE, section);
      } else {
        assert below[0] == 't';
      }
    }
  }

  /** `calculateLineBoundariesWithMaxWordsLimmits` of this file: the same loop
      as the one in src/common.ts. */
  method CalculateLineBoundariesWithMaxWordsLimits(doc: seq<string>, lineAbove0: int, lineBelow0: int,
                                                   maxWords: int)
    returns (lineAbove: int, lineBelow: int)
    requires lineAbove0 < |doc| && 0 <= lineBelow0
    ensures var b := Boundaries(doc, Common.Words, maxWords, Common.MAX_ITERATIONS, lineAbove0, lineBelow0);
      lineAbove == b.lineAbove && lineBelow == b.lineBelow
    ensures 0 <= lineAbove && lineBelow <= |doc| - 1
  {
    lineAbove, lineBelow := Common.CalculateLineBoundariesWithMaxWordsLimits(doc, lineAbove0, lineBelow0, maxWords);
  }

  /** `getCodeAroundCursor` of this file: the range above includes the cursor
      line, the range below starts on the line after it. */
  method GetCodeAroundCursor(doc: seq<string>, cursorLine: nat) returns (around: Around)
    requires cursorLine < |doc|
    ensures var b := Boundaries(doc, Common.Words, Common.MAX_WORDS, Common.MAX_ITERATIONS, cursorLine - 1, cursorLine + 1);
      around == Around(LineRange(b.lineAbove, cursorLine + 1), LineRange(cursorLine + 1, b.lineBelow))
    ensures 0 <= around.above.startLine <= cursorLine && cursorLine <= around.below.endLine <= |doc| - 1
  {
    var lineAbove, lineBelow :=
      CalculateLineBoundariesWithMaxWordsLimits(doc, cursorLine - 1, cursorLine + 1, Common.MAX_WORDS);
    around := Around(LineRange(lineAbove, cursorLine + 1), LineRange(cursorLine + 1, lineBelow));
  }

  /** `getCodeAroundSelection` of this file: the range above ends where the
      selection starts, the range below starts on the line after it. */
  method GetCodeAroundSelection(doc: seq<string>, sel: Selection) returns (around: Around)
    requires ValidSelection(doc, sel)
    ensures var b := Boundaries(doc, Common.Words, Common.MAX_WORDS, Common.MAX_ITERATIONS, sel.startLine - 1, sel.endLine + 1);
      around == Around(LineRange(b.lineAbove, sel.startLine), LineRange(sel.endLine + 1, b.lineBelow))
    ensures 0 <= around.above.startLine <= sel.startLine && sel.endLine <= around.below.endLine <= |doc| - 1
  {
    var lineAbove, lineBelow :=
      CalculateLineBoundariesWithMaxWordsLimits(doc, sel.startLine - 1, sel.endLine + 1, Common.MAX_WORDS);
    around := Around(LineRange(lineAbove, sel.startLine), LineRange(sel.endLine + 1, lineBelow));
  }
}
