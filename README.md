# cptX core in Dafny

cptX is a VS Code extension that sends an instruction plus nearby source code
to a chat-completion model. This project models two parts of it and proves
properties about them.

- **Window selection.** Around a cursor or a selection, the extension takes a
  window of lines. It grows the window one line above and one line below per
  round, until a budget is exceeded, the document runs out, or an iteration
  cap is reached. The boundaries are then clamped to the document.
  - The budget is counted in tokens in `backlog/common.ts`.
  - It is counted in space-separated words in `src/common.ts` and
    `src/codeCompleter.ts`.
- **Prompt assembly.** How the prompts are put together:
  - the ordered message list of the explain/ask command (`src/explain.ts`);
  - the single-string prompts of the refactor/insert command
    (`src/createOrRefactor.ts`) and of the Flutter completer
    (`src/codeCompleter.ts`);
  - the language tables;
  - the compute-once token count of the empty prompt.

Modules:

- `Strings`: the JavaScript string operations the core uses:
  - `trim()`-emptiness, `split`, `join`, `slice` on pieces;
  - lower-casing.
- `Window`: the boundary loop, written as a tail-recursive function `Expand`,
  plus an independent description of the same scan:
  - `Order` is the order in which lines are visited;
  - `Consumed` is how many of them a greedy scan against the limit takes.
- `Editor`: a document is a sequence of lines. The module also holds
  selections, line ranges and the expert/language pair.
- `BacklogCommon`:
  - the token-weighted loop, as a `while` method proved equal to the clamped
    `Expand`;
  - the range endpoints around the cursor and around a selection;
  - the 19-entry language table.
- `Common`:
  - the word-weighted loop;
  - its range endpoints;
  - the 13-entry language table.
- `CodeCompleter`:
  - the Flutter/Dart prompt;
  - this file's copies of the loop and the range functions, which are the
    same code as in `src/common.ts` and delegate to `Common`.
- `CreateOrRefactor`: the refactor/insert prompt.
- `Explain`:
  - the message list, as a class whose `AddSystem`/`AddUser` append;
  - `compilePrompt`, as a method proved equal to the function `ExplainPrompt`;
  - the `interesting` snippet;
  - request normalisation;
  - the `_emptyPromptTokens` memo cell, as a class.

Facts about the code that the model keeps:

- **Explain prompt.** It is one system message followed only by user
  messages.
- **Iteration caps.** They are 8192 (token loop) and 1024 (word loop).
- **The overflowing line.**
  - Its weight is added to the total before the check, so the returned
    total includes it.
  - The loop breaks before moving the index, so that line stays as the
    boundary.
- **Budget.** The word loop's budget is a fixed 2500. It does not subtract
  tokens already used elsewhere in the prompt.
- **Ranges.** When `startLine <= endLine`, a
  `vscode.Range(startLine, 0, endLine, 0)` stops at the start of `endLine`,
  so the lower boundary line is not part of the code below. When the anchor
  ends on the document's last line, the range below is inverted instead
  (see "## Left out").
- **`src/explain.ts` line 194-196.** They pad `language` with a space, but
  the padded value is never used afterwards.
- **`src/createOrRefactor.ts` line 105.** The second guard of the context
  section tests `aboveText` again instead of `belowText`. The outer guard
  has already required both sides to be non-blank, so the "below" part
  always follows the "above" part.

## Model

| member | source | states |
|---|---|---|
| Strings.Split | src/common.ts:54 | `split` always yields at least one piece, even for "" |
| Strings.SplitLength | src/common.ts:54-59 | a string splits on a character into exactly one more piece than it has occurrences of that character |
| Strings.JoinSplit | src/explain.ts:246-248 | joining the pieces of a split with the same separator gives the original string back |
| Strings.LastLines | src/explain.ts:247 | `split("\n").slice(-n).join("\n")` is a suffix of the text that starts it or follows a line break, and holds min(n-1, line breaks in the text) line breaks |
| Strings.FirstLines | src/explain.ts:248 | `split("\n").slice(0, n).join("\n")` is a prefix of the text that ends it or precedes a line break, and holds min(n-1, line breaks in the text) line breaks |
| Strings.Lower | src/explain.ts:28 | lower-casing keeps the length and maps each character to its lower-case form (ASCII letters) |
| Window.Boundaries | backlog/common.ts:106-107 | the clamped boundaries lie in [0, lineCount-1], the upper one no later than the start above and the lower one no earlier than the start below |
| Window.ExpandShape | backlog/common.ts:81-104 | each full round moves the upper boundary up one line and the lower one down one line; there are at most `cap` rounds. The loop stops at the cap only after all of them, on exhaustion only with both sides out of lines, on overflow only with a side still in the document. The total never decreases |
| Window.OrderExhausted | backlog/common.ts:85-88 | once both sides are out of lines, no further round visits any line |
| Window.OrderMembers | backlog/common.ts:91-103 | the visit order holds exactly the document lines within `cap` rounds of the start on either side |
| Window.ConsumedIsGreedyPrefix | backlog/common.ts:91-99 | a greedy scan takes a prefix of the visit order. Before each line it takes after the first, the running total was within the limit. It stops early only on a line whose addition exceeds the limit |
| Window.ExpandIsGreedy | backlog/common.ts:84-104 | the loop is a greedy scan of the visit order (above before below, an exhausted side skipped). The returned total is the sum of the weights of every visited line, including the one that triggered the stop. It stops on overflow exactly when that sum exceeds the limit, and then the last visited line is one of the two boundaries |
| Window.ExpandMonotone | backlog/common.ts:93-98 | a larger limit never gives a smaller window, before clamping |
| Window.BoundariesMonotone | backlog/common.ts:106-107 | a larger limit never gives a smaller window, after clamping |
| Window.BoundariesWholeDocument | backlog/common.ts:85-107 | when the loop stops because both sides ran out, the window is the whole document (0, lineCount-1) |
| Window.BoundariesKeepOverflowLine | backlog/common.ts:91-107 | on an overflow break the line that overflowed is a document line and is itself one of the returned boundaries |
| BacklogCommon.CalculateLineBoundariesWithMaxTokensLimit | backlog/common.ts:77-109 | the `while` loop returns the clamped boundaries and the total of the greedy scan specified by `Window.Expand` for the token weight and a cap of 8192 |
| BacklogCommon.GetCodeAroundCursor | backlog/common.ts:32-43 | starts at cursor-1 and cursor+1 with limit 2500; the range above runs from the upper boundary through the cursor line, the range below from the next line up to, not including, the lower boundary |
| BacklogCommon.GetTextAroundSelection | backlog/common.ts:54-75 | starts at start-1 and end+1 with the request budget. The range above ends at the selection start. The range below starts at the selection end when the selection is empty, and on the next line otherwise, and runs up to, not including, the lower boundary |
| BacklogCommon.GetExpertAndLanguage | backlog/common.ts:116-199 | a language is given exactly for the 19 known ids, and an expert exactly for those other than "json"; every other id gets two empty strings |
| Common.Words | src/common.ts:54-59 | a line weighs one more than its number of spaces, so at least 1 |
| Common.CalculateLineBoundariesWithMaxWordsLimits | src/common.ts:41-71 | the loop with two word counters returns the clamped boundaries of the greedy scan specified by `Window.Expand`, with the word weight and a cap of 1024 |
| Common.GetCodeAroundCursor | src/common.ts:16-27 | starts at cursor-1 and cursor+1 with 2500 words; the range above runs from the upper boundary through the cursor line, the range below from the next line up to, not including, the lower boundary |
| Common.GetCodeAroundSelection | src/common.ts:29-39 | starts at start-1 and end+1 with 2500 words; the range above runs from the upper boundary up to the selection start, the range below from the line after the selection end up to, not including, the lower boundary |
| Common.GetDeveloperAndLanguage | src/common.ts:90-150 | a language is given exactly for the 13 known ids, and an expert exactly for those other than "json"; every other id gets two empty strings |
| Common.TablesAgree | src/common.ts:90-150 | on every id this table knows it agrees with the table in backlog/common.ts, which knows exactly six more ids (c, cpp, swift, objective-c, objective-cpp, kotlin), and on those this table gives empty strings |
| CodeCompleter.PromptLayout | src/codeCompleter.ts:80-99 | every prompt starts with the Flutter/Dart header that embeds the instruction, followed by the optional replacement note and the guidance |
| CodeCompleter.ReplacementNote | src/codeCompleter.ts:82-87 | the note naming the block follows the header exactly when the block is not blank, and the guidance comes right after it (or right after the header) |
| CodeCompleter.GuidanceAlwaysGiven | src/codeCompleter.ts:89-90 | the suggestions line and the lead-in to more context are always there, followed only by the surrounding code |
| CodeCompleter.AboveFirst | src/codeCompleter.ts:91-93 | the code-above section follows the lead-in exactly when the code above is not empty; otherwise the code-below section comes straight after it |
| CodeCompleter.BelowLast | src/codeCompleter.ts:94-97 | the code-below section is given exactly when the code below is not empty, and it opens with "And here's " exactly when the code above was given too |
| CodeCompleter.CalculateLineBoundariesWithMaxWordsLimits | src/codeCompleter.ts:126-156 | the same boundaries as the word loop of src/common.ts, and clamped to [0, lineCount-1] |
| CodeCompleter.GetCodeAroundCursor | src/codeCompleter.ts:101-112 | the same endpoints as src/common.ts around the cursor, within the document: the code below runs up to, not including, the lower boundary |
| CodeCompleter.GetCodeAroundSelection | src/codeCompleter.ts:114-124 | the same endpoints as src/common.ts around the selection, within the document: the code below runs up to, not including, the lower boundary |
| CreateOrRefactor.HeaderDefaults | src/createOrRefactor.ts:74-85 | a non-blank language is padded with exactly one space and a blank one is kept unchanged; the default profile is used exactly when the profile is blank (or is that text); the header starts with the expert line |
| CreateOrRefactor.PromptStartsWithHeader | src/createOrRefactor.ts:82-109 | every prompt starts with the expert line and the three constraint lines, followed by the mode-specific part and then the context section |
| CreateOrRefactor.RefactorMode | src/createOrRefactor.ts:86-91 | the text after the header presents the block and then "☝ " and the instruction exactly when the block is not blank |
| CreateOrRefactor.InsertionMode | src/createOrRefactor.ts:93-97 | with a blank block the prompt is the header, the marker sentence, the code above and below separated by a blank line, and "☝" with the instruction, and nothing else. The block's content does not matter |
| CreateOrRefactor.ContextSection | src/createOrRefactor.ts:99-109 | the context section appears exactly in refactor mode with both sides non-blank, and then always holds both the code above and the code below, in that order |
| Explain.MessageList.constructor | src/explain.ts:198 | the message list starts empty |
| Explain.MessageList.AddSystem | src/explain.ts:212 | appends exactly one system message with the given content |
| Explain.MessageList.AddUser | src/explain.ts:217 | appends exactly one user message with the given content |
| Explain.ExplainPrompt | src/explain.ts:185-259 | 3 to 5 messages. The first is the only system message and carries the system text. The second is the request. Every later message is a user message |
| Explain.ComposeSystemMessage | src/explain.ts:200-210 | the text built with `+=` is the system message |
| Explain.CompilePrompt | src/explain.ts:185-259 | the method that appends to a message list returns exactly the messages and the `interesting` text of `ExplainPrompt` |
| Explain.SelectionMode | src/explain.ts:219-237 | with non-blank selected code: 3 messages, plus one for non-blank code above and one for non-blank code below. The selected code is third, the code above (if any) fourth, the code below (if any) last. Nothing is "interesting" |
| Explain.CursorMode | src/explain.ts:238-256 | with blank selected code: exactly 4 messages. The third is the code above and below run together, the fourth is the `interesting` text, sent even when it is blank |
| Explain.SystemMessageNamesFile | src/explain.ts:200-210 | the system message starts by naming the expert. The file-name sentence follows its introduction exactly when the file name is not blank |
| Explain.NearCursorLines | src/explain.ts:246-248 | the snippet is the last at most five lines of the code above followed directly by the first at most five lines of the code below (each part a line-aligned suffix/prefix with at most four line breaks) |
| Explain.InterestingPrefix | src/explain.ts:250-253 | the snippet is introduced as the code near the cursor exactly when it is not blank; a blank snippet is kept as it is |
| Explain.NormaliseRequest | src/explain.ts:20-30 | an empty or cancelled answer stops the command. "explain" in any letter case becomes the empty request. Any other answer is kept unchanged |
| Explain.RequestMessage | src/explain.ts:214-217 | the request message asks to explain the code exactly when the user typed "explain" in some letter case or something blank, and otherwise states the typed request |
| Explain.EmptyPromptTokens.constructor | src/explain.ts:166 | the memo cell starts at -1, with no count computed yet |
| Explain.EmptyPromptTokens.Get | src/explain.ts:168-183 | returns the token count of the placeholder prompt's joined contents. After the call the cell holds that count, and it has been computed exactly once over the cell's life. A stored count is returned without computing it again |

## Left out

- `countTokens` (the tiktoken `cl100k_base` encoder in backlog/common.ts:21-29) is a parameter `string -> nat`, fixed for the life of the process. The encoder itself is not modelled.
- `maxTokensInRequest` is `0.65 * ContextSize`, a floating-point value read from the settings. `BacklogCommon.GetTextAroundSelection` takes the limit as an integer parameter. Token totals are integers, so `total > x` holds exactly when `total > floor(x)`. Reading the setting is not modelled.
- `vscode.Range` normalisation and validation, and `getText`, are not modelled. The model stops at the range endpoints and never extracts text.
- Strings.Lower: lower-cases ASCII letters only. The only use is the comparison with "explain". Outside ASCII, only U+212A (Kelvin sign) lower-cases to a single ASCII character, and it becomes 'k', which "explain" does not contain. U+0130 (capital I with dot above) lower-cases to two characters, ASCII 'i' followed by U+0307, and U+0307 cannot occur in "explain" either. The lower case of any other non-ASCII character contains no ASCII letter. So `Explain.IsExplainWord` agrees with `toLowerCase() === "explain"` on every input.
- The network layer (src/openai.ts) is not modelled. Neither are the progress UI and timers (`updateProgress`, `withProgress`), telemetry, settings, debug logging, `performance.now` and `getElapsedSeconds`.
- `explainOrAsk` is not modelled beyond the request normalisation: editor lookup, error messages, the tab/file output of the explanation, and the call to the completer.
- When the anchor ends on the last line, the range below is inverted (`startLine = endLine + 1`); the empty selection of backlog/common.ts:63-65 is the exception, since its range below starts on the selection's own line. An example is `LineRange(2, 1)` for the cursor on line 1 of a two-line document. `vscode.Range` swaps the ends of an inverted range and `getText` clamps line `lineCount` to the end of the document, so the editor sends that last line as the code below, although it is also part of the code above (cursor) or of the selection. The model returns the endpoints only and does not swap them.
- src/common.ts does not define `getCodeAroundSelection(editor, knownTokens)`, which src/explain.ts:54 calls, so it is not part of this model.
- src/common.ts does not define `addSystem` / `addUser`. They are modelled as appending one message with that role.
- The trimming of the selected code (src/explain.ts:17) happens in the caller and is not modelled. `compilePrompt` is modelled on whatever text it receives.
- `getLanguageId` only reads the editor's language id, which is a parameter here.
- The loop and the two range functions of src/codeCompleter.ts (lines 101-156) are the same code as src/common.ts:16-71. Their models delegate to `Common`, so there is no second copy of the loop.
