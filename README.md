# Transcript controller and code-block tagging of a streaming chat page

The repository is a single React page (`index.tsx`) that sends the user's text to a
remote chat session and renders the streamed reply as markdown. This project models
the two parts of it that are logic rather than UI:

- **The transcript controller** (`transcript.dfy`, module `Transcript`): the
  `handleSubmit` handler and the state it updates: the message `history`, the
  `loading` flag, the `input` buffer and whether a chat session exists (`hasChat`).
  The handler's steps become methods of the class `Controller`. These are the
  guarded submit, the placeholder appended once the stream opens, the overwrite of
  the last message after each delta, the appended fallback on failure and the final
  return to idle. Each step is specified by a pure function on the history.
  `HandleSubmit` drives the steps in the handler's order, with a loop over the
  deltas. The stream is a value of type `Reply`. It either completes after a finite
  sequence of deltas, fails to open, or yields some deltas and then throws.
  `Exchange` gives the resulting history. The lemmas then prove the following:
  - the history from before the submit is a prefix of the new one;
  - a completed exchange adds exactly the user's raw text and the joined deltas;
  - a failed exchange ends with exactly one fallback message and keeps any partial
    reply;
  - the text shown while streaming only grows.
- **Code-block tagging** (`code_block.dfy`, module `CodeBlock`): the markdown `code`
  renderer's decision. `/language-(\w+)/.exec(className || '')` is modelled as a
  leftmost scan for `language-` followed by a word character, then the maximal run
  of word characters. `replace(/\n$/, '')` is modelled as removing one final newline.

The chat session's creation is reduced to the `hasChat` flag. `SessionCreated` models
the successful path. When creation fails that method is never called, and every
submission is a no-op.

Two behaviours of the handler that the model keeps as written:
- The empty model placeholder is appended only after the stream opens, that is after
  `sendMessageStream` has returned (index.tsx:61-64). When opening the stream fails,
  the history holds the user's message followed directly by the fallback.
- On failure the fallback is appended as a new message (index.tsx:77). A partial
  reply stays in the history before it.

## Model

| member | source | states |
|---|---|---|
| `Transcript.TrimStart` | index.tsx:53 | drops exactly the leading white space: the result is a suffix, what was dropped is blank, the result does not start with white space, and it is empty exactly when the input is blank |
| `Transcript.TrimEnd` | index.tsx:53 | drops exactly the trailing white space: the result is a prefix, what was dropped is blank, the result does not end with white space, and it is empty exactly when the input is blank |
| `Transcript.Trim` | index.tsx:53 | `input.trim()` is empty exactly when every character of the input is JavaScript white space |
| `Transcript.Accepts` | index.tsx:53 | a submission goes ahead exactly when the input is not all white space, nothing is loading and a chat session exists |
| `Transcript.Controller.constructor` | index.tsx:15-18 | the initial state: no session, empty history, empty input, not loading |
| `Transcript.Controller.SessionCreated` | index.tsx:36 | a successful session creation sets `hasChat` and changes nothing else |
| `Transcript.Controller.Edit` | index.tsx:124 | editing the text box replaces `input` and changes nothing else |
| `Transcript.Controller.Submit` | index.tsx:53-58 | a rejected submit leaves history, loading and input unchanged; an accepted one appends `{user, input}` with the raw untrimmed input, sets loading and clears the input |
| `Transcript.Controller.OpenPlaceholder` | index.tsx:63-64 | exactly one `{model, ""}` is appended and the old history is a prefix of the new one |
| `Transcript.Controller.ShowPartial` | index.tsx:68-71 | the length is unchanged, every entry but the last is unchanged, and the last becomes `{model, accumulated}` |
| `Transcript.Controller.ReportFailure` | index.tsx:75-77 | exactly one fallback message is appended after whatever is there |
| `Transcript.Controller.Settle` | index.tsx:78-80 | loading ends false |
| `Transcript.Controller.Consume` | index.tsx:61-73 | opening and streaming leave the history as the fold of the delta updates over the placeholder; the history recorded after the k-th delta is the old history plus the placeholder, whose text is then the first k+1 deltas joined in order |
| `Transcript.Controller.HandleSubmit` | index.tsx:51-81 | a rejected submit changes nothing; an accepted one leaves the history at `Exchange(old history, old input, reply)`, the input empty and loading false, on completion and on failure alike; after the k-th delta the history is the old one, the user's message and the in-flight message showing the first k+1 deltas joined in order |
| `Transcript.Streamed` | index.tsx:66-72 | the `for await` loop as a fold: each delta is added to the accumulator, which overwrites the last message; the length and every entry but the last are kept, and after at least one delta the last entry is a model message |
| `Transcript.Exchange` | index.tsx:51-81 | the history at the end of an accepted exchange, following the handler's control flow; the old history followed by `{user, text}` is a prefix of it, it is 3 entries longer when the stream breaks after opening and 2 otherwise, and its last entry is a model message |
| `Transcript.ConcatAppend` | index.tsx:67 | joining deltas distributes over concatenation of the delta sequence, so appending deltas one by one to the accumulator gives them joined in order |
| `Transcript.ShownTextGrows` | index.tsx:66-72 | the text of the in-flight message after i deltas is a prefix of its text after any j >= i deltas |
| `Transcript.StreamedOverwritesLast` | index.tsx:66-72 | streaming keeps every entry but the last and sets the last to `{model, accumulator + all deltas in order}` (unchanged when there are no deltas) |
| `Transcript.CompletedExchange` | index.tsx:55-73 | a completed exchange leaves exactly the old history, `{user, text}` and `{model, deltas joined in order}` |
| `Transcript.BrokenExchange` | index.tsx:55-77 | a stream that breaks after some deltas leaves the old history, `{user, text}`, the partial `{model, deltas joined}` and the fallback, in that order |
| `Transcript.FailedExchangeEndsWithFallback` | index.tsx:61-80 | any failed exchange grows the history by 2 if the stream never opened and by 3 otherwise; the user's message follows the old history and the last entry is the fallback |
| `Transcript.HelloTexts` | index.tsx:66-72 | for deltas "Hel", "lo" the in-flight text is "Hel" after the first and "Hello" after both |
| `Transcript.BrokenStreamScenario` | index.tsx:55-77 | a question whose stream breaks after "Par" and "tial" leaves the user's message, the partial "Partial" reply and the fallback as the last entry |
| `CodeBlock.WordRun` | index.tsx:95 | the run taken by `\w+` is a slice of the class name made only of word characters and cannot be extended |
| `CodeBlock.FirstTag` | index.tsx:95 | the scan finds a position where `language-` and a word character start, with none earlier, or reports that there is none |
| `CodeBlock.Language` | index.tsx:95 | a language is found exactly when the class name contains `language-` followed by a word character; the language is non-empty and made of word characters only |
| `CodeBlock.LanguageIsLeftmostMaximalRun` | index.tsx:95-101 | the language is the maximal word-character run right after the leftmost matching `language-` |
| `CodeBlock.StripFinalNewline` | index.tsx:99 | the result is a prefix of the text at most one character shorter, and shorter exactly when the text ends with a newline |
| `CodeBlock.RenderCode` | index.tsx:94-108 | a code element is highlighted exactly when its class name (or "" when absent) carries a language tag, with that language and its text minus one final newline; otherwise it is rendered unchanged |
| `CodeBlock.PythonBlockIsHighlighted` | index.tsx:95-107 | a block tagged `language-python` is highlighted as `python` without its final newline, and an untagged block stays plain |

## Left out

- React rendering, hooks and the batching of `useState` setters (index.tsx:14-19, 83-143): the setters' effects are modelled as direct field updates applied in the order the handler issues them.
- Chat creation through the remote client, the model identifier and the system instruction (index.tsx:21-43): a foreign network client, reduced to `hasChat` and `SessionCreated`.
- `sendMessageStream` and the `for await` iteration (index.tsx:61, 66): asynchronous I/O, replaced by a given finite `Reply`. A stream that hangs forever (loading stays true) cannot be expressed by it.
- `Transcript.Controller.HandleSubmit`: runs an exchange to its end in one call, so the user typing into the box while a reply streams is not interleaved. A second submit while loading is covered by `Submit`, which rejects it.
- A chunk whose `text` is undefined (so that the string "undefined" would be appended): a typing detail of the foreign client.
- The auto-scroll effect, the Enter/Shift key handling and the button's disabled state (index.tsx:45-49, 126-134): DOM and UI concerns.
- ReactMarkdown parsing and SyntaxHighlighter rendering (index.tsx:91-111): opaque libraries. Only the tag decision and the newline strip are modelled, and `String(children)` is taken to be the element's text.
- `console.error` logging and DOM mounting (index.tsx:38, 76, 145-146).
- The white-space set of `trim` (`Transcript.IsSpace`) is fixed as the ECMAScript WhiteSpace and LineTerminator code points with the Zs category of current Unicode. A later Unicode version that adds space separators is not followed. Strings are sequences of Unicode scalar values rather than UTF-16 code units, which makes no difference here because every white-space code point and every `\w` character lies in the Basic Multilingual Plane.
