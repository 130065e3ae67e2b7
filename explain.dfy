/** src/explain.ts: the ordered message list `compilePrompt` builds for the
    explain/ask command, the snippet of code near the cursor it points the
    model at, the normalisation of the typed request, and the compute-once
    token count of the empty prompt. */
module Explain {
  import opened Strings

  datatype Option<T> = None | Some(value: T)

  datatype Role = System | User | Assistant

  datatype Message = Message(role: Role, content: string)

  /** What `compilePrompt` returns: `{ messages, interesting }`. */
  datatype Compiled = Compiled(messages: seq<Message>, interesting: string)

  /** The `messages` array `compilePrompt` grows; `AddSystem` and `AddUser`
      stand for `common.addSystem` and `common.addUser`, which append one
      message with that role. */
  class MessageList {
    var messages: seq<Message>

    constructor ()
      ensures messages == []
    {
      messages := [];
    }

    method AddSystem(content: string)
      modifies this
      ensures messages == old(messages) + [Message(System, content)]
    {
      messages := messages + [Message(System, content)];
    }

    method AddUser(content: string)
      modifies this
      ensures messages == old(messages) + [Message(User, content)]
    {
      messages := messages + [Message(User, content)];
    }
  }

  // The fixed wording of the prompt. Long texts are written as a few short
  // literals joined together; the text is the same.
  const DEFAULT_REQUEST := "Please explain the code"
  const REQUEST_PREFIX := "Here is the request -> \n\n"
  const SELECTED_PREFIX := "The following code is " + "currently selected in " + "the editor and is in "
                           + "the focus of the " + "request -> \n\n"
  const ABOVE_PREFIX := "For the context, here's " + "part of the code above " + "the selection -> \n\n"
  const BELOW_PREFIX := "For the context, here's " + "part of the code below " + "the selection -> \n\n"
  const OPEN_CODE_PREFIX := "For the context, here's " + "the code that is " + "currently open in the "
                            + "editor -> \n\n"
  const CURSOR_PREFIX := "User's cursor is " + "currently near this " + "code -> \n\n"

  const EXPERT_PREFIX := "You're an AI assistant " + "acting as an expert "
  const REASONING := " and capable of chained " + "reasoning as humans do. "
  const VSCODE_OUTPUT := "You're providing output " + "through a VSCode " + "extension. "
  const NEXT_MESSAGES := "In the next messages a " + "user will provide you " + "with his/her request "
                         + "(instructions), show " + "the surrounding code " + "from the file that is "
                         + "in currently open in " + "the editor. "
  const FILE_PREFIX := "The name of the file " + "currenty open is '"
  const GOAL := "Your goal is to provide " + "advice and consultation."
  const FOLLOW := "- Carefully follow the " + "instructions\n"
  const CONCISE := "- Be concise\n"

  /** The part of the system message before the optional file-name sentence. */
  function SystemIntro(expert: string): string {
    EXPERT_PREFIX + expert + REASONING + VSCODE_OUTPUT + NEXT_MESSAGES
  }

  function FileSentence(fileName: string): string {
    if IsBlank(fileName) then "" else FILE_PREFIX + fileName + "'."
  }

  /** The part of the system message after the optional file-name sentence. */
  function SystemTail(): string {
    GOAL + "\n" + FOLLOW + CONCISE
  }

  function SystemMessage(expert: string, fileName: string): string {
    SystemIntro(expert) + FileSentence(fileName) + GOAL + "\n" + FOLLOW + CONCISE
  }

  /** The request a blank `whatToDo` is replaced by. */
  function Request(whatToDo: string): string {
    if IsBlank(whatToDo) then DEFAULT_REQUEST else whatToDo
  }

  /** The last five lines of the code above joined straight onto the first
      five lines of the code below. */
  function NearCursor(aboveCode: string, belowCode: string): string {
    Join(LastN(Split(aboveCode, '\n'), 5), '\n') + Join(FirstN(Split(belowCode, '\n'), 5), '\n')
  }

  /** `interesting` in cursor mode: the snippet, introduced as the code near
      the cursor unless it is blank. */
  function Interesting(aboveCode: string, belowCode: string): string {
    var near := NearCursor(aboveCode, belowCode);
    if IsBlank(near) then near else CURSOR_PREFIX + near
  }

  /** The prompt `compilePrompt` builds: the system message, the request, then
      either the selected code with the non-blank context around it
      (selection mode) or the open code and the code near the cursor (cursor
      mode). `language` is padded by the source but never used. */
  function ExplainPrompt(whatToDo: string, selectedCode: string, fileName: string, aboveCode: string,
                         belowCode: string, expert: string, language: string): (r: Compiled)
    ensures 3 <= |r.messages| <= 5
    ensures r.messages[0] == Message(System, SystemMessage(expert, fileName))
    ensures r.messages[1] == Message(User, REQUEST_PREFIX + Request(whatToDo))
    ensures forall i :: 1 <= i < |r.messages| ==> r.messages[i].role == User
  {
    var head := [Message(System, SystemMessage(expert, fileName)), Message(User, REQUEST_PREFIX + Request(whatToDo))];
    if !IsBlank(selectedCode) then
      Compiled(head + [Message(User, SELECTED_PREFIX + selectedCode)]
                    + (if IsBlank(aboveCode) then [] else [Message(User, ABOVE_PREFIX + aboveCode)])
                    + (if IsBlank(belowCode) then [] else [Message(User, BELOW_PREFIX + belowCode)]),
               "")
    else
      var interesting := Interesting(aboveCode, belowCode);
      Compiled(head + [Message(User, OPEN_CODE_PREFIX + aboveCode + belowCode), Message(User, interesting)],
               interesting)
  }

  /** The system message of `compilePrompt`, built up piece by piece. */
  method ComposeSystemMessage(expert: string, fileName: string) returns (systemMessage: string)
    ensures systemMessage == SystemMessage(expert, fileName)
  {
    systemMessage := EXPERT_PREFIX + expert + REASONING;
    systemMessage := systemMessage + VSCODE_OUTPUT;
    systemMessage := systemMessage + NEXT_MESSAGES;
    systemMessage := systemMessage + (if !IsBlank(fileName) then FILE_PREFIX + fileName + "'." else "");
    systemMessage := systemMessage + GOAL;
    systemMessage := systemMessage + "\n";
    systemMessage := systemMessage + FOLLOW;
    systemMessage := systemMessage + CONCISE;
  }

  /** `compilePrompt`, appending to a message list step by step. */
  method CompilePrompt(whatToDo: string, selectedCode: string, fileName: string, aboveCode: string,
                       belowCode: string, expert: string, language: string)
    returns (messages: seq<Message>, interesting: string)
    ensures Compiled(messages, interesting)
         == ExplainPrompt(whatToDo, selectedCode, fileName, aboveCode, belowCode, expert, language)
  {
    var paddedLanguage := language;
    if !IsBlank(paddedLanguage) {
      paddedLanguage := " " + paddedLanguage;
    }
    var list := new MessageList();

    var systemMessage := ComposeSystemMessage(expert, fileName);
    list.AddSystem(systemMessage);

    var request := whatToDo;
    if IsBlank(request) {
      request := DEFAULT_REQUEST;
    }
    list.AddUser(REQUEST_PREFIX + request);
    ghost var head := [Message(System, SystemMessage(expert, fileName)), Message(User, REQUEST_PREFIX + Request(whatToDo))];
    assert list.messages == head;

    interesting := "";
    if !IsBlank(selectedCode) {
      list.AddUser(SELECTED_PREFIX + selectedCode);
      ghost var selected := head + [Message(User, SELECTED_PREFIX + selectedCode)];
      assert list.messages == selected;
      if !IsBlank(aboveCode) {
        list.AddUser(ABOVE_PREFIX + aboveCode);
      }
      if !IsBlank(belowCode) {
        list.AddUser(BELOW_PREFIX + belowCode);
      }
      assert list.messages == selected
                    + (if IsBlank(aboveCode) then [] else [Message(User, ABOVE_PREFIX + aboveCode)])
                    + (if IsBlank(belowCode) then [] else [Message(User, BELOW_PREFIX + belowCode)]);
    } else {
      list.AddUser(OPEN_CODE_PREFIX + aboveCode + belowCode);
      interesting := Join(LastN(Split(aboveCode, '\n'), 5), '\n') + Join(FirstN(Split(belowCode, '\n'), 5), '\n');
      if !IsBlank(interesting) {
        interesting := CURSOR_PREFIX + interesting;
      }
      list.AddUser(interesting);
      assert list.messages == head + [Message(User, OPEN_CODE_PREFIX + aboveCode + belowCode), Message(User, interesting)];
      assert interesting == Interesting(aboveCode, belowCode);
    }
    messages := list.messages;
  }

  /** Selection mode (non-blank selected code): the selected code is the third
      message on its own, followed by the code above only if it is non-blank,
      then the code below only if it is non-blank; nothing is "interesting". */
  lemma SelectionMode(whatToDo: string, selectedCode: string, fileName: string, aboveCode: string,
                      belowCode: string, expert: string, language: string)
    requires !IsBlank(selectedCode)
    ensures var r := ExplainPrompt(whatToDo, selectedCode, fileName, aboveCode, belowCode, expert, language);
      && |r.messages| == 3 + (if IsBlank(aboveCode) then 0 else 1) + (if IsBlank(belowCode) then 0 else 1)
      && r.messages[2].content == SELECTED_PREFIX + selectedCode
      && (!IsBlank(aboveCode) ==> r.messages[3].content == ABOVE_PREFIX + aboveCode)
      && (!IsBlank(belowCode) ==> r.messages[|r.messages| - 1].content == BELOW_PREFIX + belowCode)
      && r.interesting == ""
  {
  }

  /** Cursor mode (blank selected code): exactly four messages, the third the
      code above and below run together, the fourth the `interesting` snippet,
      which is sent even when it is blank. */
  lemma CursorMode(whatToDo: string, selectedCode: string, fileName: string, aboveCode: string,
                   belowCode: string, expert: string, language: string)
    requires IsBlank(selectedCode)
    ensures var r := ExplainPrompt(whatToDo, selectedCode, fileName, aboveCode, belowCode, expert, language);
      && |r.messages| == 4
      && r.messages[2].content == OPEN_CODE_PREFIX + aboveCode + belowCode
      && r.messages[3].content == r.interesting
      && r.interesting == Interesting(aboveCode, belowCode)
  {
  }

  /** The system message starts by naming the expert, and carries the
      file-name sentence right after its introduction exactly when the file
      name is not blank. */
  lemma SystemMessageNamesFile(expert: string, fileName: string)
    ensures StartsWith(SystemMessage(expert, fileName), EXPERT_PREFIX + expert + REASONING)
    ensures var rest := SystemMessage(expert, fileName)[|SystemIntro(expert)|..];
      StartsWith(rest, FILE_PREFIX + fileName + "'.") <==> !IsBlank(fileName)
  {
    var intro := SystemIntro(expert);
    var sentence := FileSentence(fileName);
    var m := SystemMessage(expert, fileName);
    AppendAssoc(intro + sentence + GOAL, "\n", FOLLOW);
    AppendAssoc(intro + sentence + GOAL, "\n" + FOLLOW, CONCISE);
    AppendAssoc(intro + sentence, GOAL, "\n" + FOLLOW + CONCISE);
    AppendAssoc(GOAL, "\n", FOLLOW);
    AppendAssoc(GOAL, "\n" + FOLLOW, CONCISE);
    assert m == intro + sentence + SystemTail();
    PrefixOfAppend(EXPERT_PREFIX + expert + REASONING, VSCODE_OUTPUT);
    PrefixOfLonger(EXPERT_PREFIX + expert + REASONING + VSCODE_OUTPUT, NEXT_MESSAGES, EXPERT_PREFIX + expert + REASONING);
    PrefixOfLonger(intro, sentence, EXPERT_PREFIX + expert + REASONING);
    PrefixOfLonger(intro + sentence, SystemTail(), EXPERT_PREFIX + expert + REASONING);
    AppendAssoc(intro, sentence, SystemTail());
    PrefixOfAppend(intro, sentence + SystemTail());
    var rest := m[|intro|..];
    assert rest == sentence + SystemTail();
    if IsBlank(fileName) {
      assert rest == SystemTail();
      assert rest[0] == 'Y';
      assert (FILE_PREFIX + fileName + "'.")[0] == 'T';
    } else {
      PrefixOfAppend(FILE_PREFIX + fileName + "'.", SystemTail());
    }
  }

  /** The snippet near the cursor is the last (at most) five lines of the code
      above followed by the first (at most) five lines of the code below: its
      first part is a suffix of the code above that starts it or follows a
      line break and holds at most four line breaks; its second part is a
      prefix of the code below that ends it or precedes a line break. */
  lemma NearCursorLines(aboveCode: string, belowCode: string)
    ensures var tail := Join(LastN(Split(aboveCode, '\n'), 5), '\n');
      var head := Join(FirstN(Split(belowCode, '\n'), 5), '\n');
      && NearCursor(aboveCode, belowCode) == tail + head
      && EndsWith(aboveCode, tail) && CountChar(tail, '\n') == Min(4, CountChar(aboveCode, '\n'))
      && (tail == aboveCode || aboveCode[|aboveCode| - |tail| - 1] == '\n')
      && StartsWith(belowCode, head) && CountChar(head, '\n') == Min(4, CountChar(belowCode, '\n'))
      && (head == belowCode || belowCode[|head|] == '\n')
  {
    LastLines(aboveCode, '\n', 5);
    FirstLines(belowCode, '\n', 5);
  }

  /** The snippet is introduced as the code near the cursor exactly when it is
      not blank; a blank snippet is sent as it is. */
  lemma InterestingPrefix(aboveCode: string, belowCode: string)
    ensures var near := NearCursor(aboveCode, belowCode);
      var r := Interesting(aboveCode, belowCode);
      && (IsBlank(near) ==> r == near)
      && (!IsBlank(near) ==> StartsWith(r, CURSOR_PREFIX) && r[|CURSOR_PREFIX|..] == near)
  {
    var near := NearCursor(aboveCode, belowCode);
    if !IsBlank(near) {
      var r := CURSOR_PREFIX + near;
      assert r[..|CURSOR_PREFIX|] == CURSOR_PREFIX;
      assert r[|CURSOR_PREFIX|..] == near;
    }
  }

  /** The request typed by the user equals "explain" in some letter case. */
  predicate IsExplainWord(request: string) {
    Lower(request) == "explain"
  }

  /** `explainOrAsk`'s handling of the typed request (`showInputBox(...) ?? ""`):
      an empty or cancelled answer stops the command (None); "explain" in any
      letter case becomes the empty request; anything else is kept. */
  function NormaliseRequest(input: Option<string>): (r: Option<string>)
    ensures r == None <==> input == None || input == Some("")
    ensures r.Some? ==> (r.value == "" <==> IsExplainWord(input.value))
    ensures r.Some? && r.value != "" ==> r.value == input.value
  {
    var request := if input.Some? then input.value else "";
    if request == "" then None
    else if IsExplainWord(request) then Some("")
    else Some(request)
  }

  /** End to end: the request message asks to explain the code exactly when the
      user typed "explain" in some letter case or something blank, and states
      the typed request otherwise. */
  lemma RequestMessage(input: Option<string>, selectedCode: string, fileName: string, aboveCode: string,
                       belowCode: string, expert: string, language: string)
    requires NormaliseRequest(input).Some?
    ensures var r := ExplainPrompt(NormaliseRequest(input).value, selectedCode, fileName, aboveCode,
                                   belowCode, expert, language);
      r.messages[1].content
        == REQUEST_PREFIX + (if IsExplainWord(input.value) || IsBlank(input.value) then DEFAULT_REQUEST else input.value)
  {
  }

  /** `messages.map(m => m.content).join("")`. */
  function FoldContents(messages: seq<Message>): string {
    if |messages| == 0 then "" else messages[0].content + FoldContents(messages[1..])
  }

  /** The placeholder prompt whose token count `getEmptyPromptTokens` caches. */
  function EmptyPromptText(): string {
    FoldContents(ExplainPrompt("", "", "testfile.php", "testcodeabove", "testcodebelow", "PHP Developer", "PHP").messages)
  }

  /** The module-level `_emptyPromptTokens` cell, -1 until first computed.
      `countTokens` is the tokenizer, fixed for the life of the process;
      `computations` counts how often the count was computed. */
  class EmptyPromptTokens {
    const countTokens: string -> nat
    var emptyPromptTokens: int
    ghost var computations: nat

    ghost predicate Valid()
      reads this
    {
      || (emptyPromptTokens == -1 && computations == 0)
      || (emptyPromptTokens == countTokens(EmptyPromptText()) && computations == 1)
    }

    constructor (countTokens: string -> nat)
      ensures Valid() && this.countTokens == countTokens
      ensures emptyPromptTokens == -1 && computations == 0
    {
      this.countTokens := countTokens;
      emptyPromptTokens := -1;
      computations := 0;
    }

    /** `getEmptyPromptTokens`: the first call counts the tokens of the
        placeholder prompt and stores the count; later calls return the stored
        count without computing it again. */
    method Get() returns (tokens: int)
      requires Valid()
      modifies this
      ensures Valid()
      ensures tokens == countTokens(EmptyPromptText()) && tokens >= 0
      ensures emptyPromptTokens == tokens && computations == 1
      ensures old(emptyPromptTokens) >= 0 ==> tokens == old(emptyPromptTokens) && computations == old(computations)
    {
      if emptyPromptTokens < 0 {
        var emptyPrompt, _ := CompilePrompt("", "", "testfile.php", "testcodeabove", "testcodebelow", "PHP Developer", "PHP");
        var foldedPrompt := FoldContents(emptyPrompt);
        emptyPromptTokens := countTokens(foldedPrompt);
        computations := computations + 1;
      }
      tokens := emptyPromptTokens;
    }
  }
}
