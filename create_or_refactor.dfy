/** src/createOrRefactor.ts: the single-string prompt `compilePrompt` builds,
    either to change a selected block (refactor mode) or to produce code for
    the cursor position (insertion mode). */
module CreateOrRefactor {
  import opened Strings

  // The fixed wording of the prompt. Long texts are written as a few short
  // literals joined together; the text is the same. '\U{261D}' is the
  // pointing finger, '\U{2192}' the arrow of the insertion marker.
  const DEFAULT_PROFILE := "software developer"
  const EXPERT_PREFIX := "You're an expert "
  const EXPERT_SUFFIX := " who is asked of " + "coding assistance.\n"
  const VALID_PREFIX := "\U{261D} Produce a valid"
  const VALID_SUFFIX := " code block\n"
  const CONCISE := "\U{261D} Be concise\n"
  const FREE_TEXT_PREFIX := "\U{261D} No free text, use"
  const FREE_TEXT_SUFFIX := " comments if " + "necessary\n"
  const CHANGE_PREFIX := "Change the following " + "code block:\n\n\n\n\n\n\n"
  const SPACING := "\n\n\n\n\n\n\n"
  const INSERT_PREFIX := "Produce a code block " + "that will be inserted " + "directly into VSCode "
                         + "editor in the location " + "marked by '\U{2192}\U{2192}\U{2192}' in "
                         + "the following source " + "code:\n"
  const CONTEXT_LEAD := "\nFor the context. "
  const ABOVE_LEAD := "Here's the code above:" + "\n\n\n\n\n\n\n"
  const BELOW_LEAD := "Here's the code below:" + "\n\n\n\n\n\n\n"

  /** A non-blank language gets one leading space, a blank one is kept. */
  function PadLanguage(language: string): string {
    if IsBlank(language) then language else " " + language
  }

  /** A blank profile becomes the default one. */
  function Profile(profile: string): string {
    if IsBlank(profile) then DEFAULT_PROFILE else profile
  }

  /** The expert line and the three constraint lines every prompt starts with. */
  function Header(profile: string, language: string): string {
    EXPERT_PREFIX + Profile(profile) + EXPERT_SUFFIX
    + VALID_PREFIX + PadLanguage(language) + VALID_SUFFIX
    + CONCISE
    + FREE_TEXT_PREFIX + PadLanguage(language) + FREE_TEXT_SUFFIX
  }

  predicate IsRefactor(refactorBlock: string) {
    !IsBlank(refactorBlock)
  }

  /** The block to change and the instruction (refactor mode), or the
      marker sentence, the surrounding code and the instruction (insertion
      mode). */
  function Task(whatToDo: string, refactorBlock: string, aboveText: string, belowText: string): string {
    if IsRefactor(refactorBlock) then
      CHANGE_PREFIX + refactorBlock + SPACING + "\U{261D} " + whatToDo + "\n\n"
    else
      INSERT_PREFIX + aboveText + "\n\n" + belowText + "\U{261D}" + whatToDo + "\n\n"
  }

  /** The surrounding code, given in refactor mode when both sides are
      non-blank; the guard of the second part tests the code above again. */
  function Context(refactorBlock: string, aboveText: string, belowText: string): string {
    if IsRefactor(refactorBlock) && !IsBlank(aboveText) && !IsBlank(belowText) then
      CONTEXT_LEAD
      + (if !IsBlank(aboveText) then ABOVE_LEAD + aboveText + SPACING else "")
      + (if !IsBlank(aboveText) then BELOW_LEAD + belowText + SPACING else "")
    else ""
  }

  /** `compilePrompt(whatToDo, refactorBlock, aboveText, belowText, profile, language)`. */
  function CompilePrompt(whatToDo: string, refactorBlock: string, aboveText: string, belowText: string,
                         profile: string, language: string): string {
    Header(profile, language) + Task(whatToDo, refactorBlock, aboveText, belowText)
    + Context(refactorBlock, aboveText, belowText)
  }

  /** The language is padded with exactly one space when it is not blank and
      is used unchanged otherwise; the default profile is used exactly when
      the profile is blank. */
  lemma HeaderDefaults(profile: string, language: string)
    ensures !IsBlank(language) ==> PadLanguage(language) == " " + language && |PadLanguage(language)| == |language| + 1
    ensures IsBlank(language) ==> PadLanguage(language) == language
    ensures Profile(profile) == DEFAULT_PROFILE <==> IsBlank(profile) || profile == DEFAULT_PROFILE
    ensures StartsWith(Header(profile, language), EXPERT_PREFIX + Profile(profile) + EXPERT_SUFFIX)
  {
    var first := EXPERT_PREFIX + Profile(profile) + EXPERT_SUFFIX;
    PrefixOfAppend(first, VALID_PREFIX);
    PrefixOfLonger(first + VALID_PREFIX, PadLanguage(language), first);
    PrefixOfLonger(first + VALID_PREFIX + PadLanguage(language), VALID_SUFFIX, first);
    PrefixOfLonger(first + VALID_PREFIX + PadLanguage(language) + VALID_SUFFIX, CONCISE, first);
    PrefixOfLonger(first + VALID_PREFIX + PadLanguage(language) + VALID_SUFFIX + CONCISE, FREE_TEXT_PREFIX, first);
    PrefixOfLonger(first + VALID_PREFIX + PadLanguage(language) + VALID_SUFFIX + CONCISE + FREE_TEXT_PREFIX,
                   PadLanguage(language), first);
    PrefixOfLonger(first + VALID_PREFIX + PadLanguage(language) + VALID_SUFFIX + CONCISE + FREE_TEXT_PREFIX
                   + PadLanguage(language), FREE_TEXT_SUFFIX, first);
  }

  /** Every prompt starts with the header, and what follows it is the mode-specific part
      and then the context section. */
  lemma PromptStartsWithHeader(whatToDo: string, refactorBlock: string, aboveText: string, belowText: string,
                               profile: string, language: string)
    ensures var prompt := CompilePrompt(whatToDo, refactorBlock, aboveText, belowText, profile, language);
      && StartsWith(prompt, Header(profile, language))
      && prompt[|Header(profile, language)|..]
         == Task(whatToDo, refactorBlock, aboveText, belowText) + Context(refactorBlock, aboveText, belowText)
  {
    var h := Header(profile, language);
    var t := Task(whatToDo, refactorBlock, aboveText, belowText);
    var c := Context(refactorBlock, aboveText, belowText);
    AppendAssoc(h, t, c);
    PrefixOfAppend(h, t + c);
  }

  /** Refactor mode holds exactly when the block is not blank: only then does
      the text after the header present the block, followed by the
      instruction. */
  lemma RefactorMode(whatToDo: string, refactorBlock: string, aboveText: string, belowText: string,
                     profile: string, language: string)
    ensures var rest := CompilePrompt(whatToDo, refactorBlock, aboveText, belowText, profile, language)
                          [|Header(profile, language)|..];
      (StartsWith(rest, CHANGE_PREFIX + refactorBlock + SPACING + "\U{261D} " + whatToDo + "\n\n")
       <==> !IsBlank(refactorBlock))
  {
    PromptStartsWithHeader(whatToDo, refactorBlock, aboveText, belowText, profile, language);
    var t := Task(whatToDo, refactorBlock, aboveText, belowText);
    var c := Context(refactorBlock, aboveText, belowText);
    var changed := CHANGE_PREFIX + refactorBlock + SPACING + "\U{261D} " + whatToDo + "\n\n";
    if IsRefactor(refactorBlock) {
      PrefixOfAppend(changed, c);
    } else {
      assert (t + c)[0] == 'P';
      assert changed[0] == 'C';
    }
  }

  /** Insertion mode (blank block): after the header come the marker
      sentence, the code above and below separated by a blank line, and the
      instruction, and nothing else; the block itself is never included. */
  lemma InsertionMode(whatToDo: string, refactorBlock: string, aboveText: string, belowText: string,
                      profile: string, language: string)
    requires IsBlank(refactorBlock)
    ensures CompilePrompt(whatToDo, refactorBlock, aboveText, belowText, profile, language)
         == Header(profile, language) + (INSERT_PREFIX + aboveText + "\n\n" + belowText + "\U{261D}" + whatToDo + "\n\n")
    ensures forall otherBlock :: IsBlank(otherBlock) ==>
              (CompilePrompt(whatToDo, otherBlock, aboveText, belowText, profile, language)
               == CompilePrompt(whatToDo, refactorBlock, aboveText, belowText, profile, language))
  {
    var h := Header(profile, language);
    var t := Task(whatToDo, refactorBlock, aboveText, belowText);
    assert Context(refactorBlock, aboveText, belowText) == "";
    assert h + t + "" == h + t;
  }

  /** The context section appears only in refactor mode with both sides
      non-blank, and then it always holds both the code above and the code
      below, in that order. */
  lemma ContextSection(refactorBlock: string, aboveText: string, belowText: string)
    ensures Context(refactorBlock, aboveText, belowText) != "" <==>
              IsRefactor(refactorBlock) && !IsBlank(aboveText) && !IsBlank(belowText)
    ensures Context(refactorBlock, aboveText, belowText) != "" ==>
              (Context(refactorBlock, aboveText, belowText)
               == CONTEXT_LEAD + ABOVE_LEAD + aboveText + SPACING + BELOW_LEAD + belowText + SPACING)
  {
  }
}
