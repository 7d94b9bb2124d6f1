# Groq chatbot core, modelled in Dafny

The chatbot is a Streamlit page. The user types a message. The page sends it to a hosted
completion endpoint and appends the answer to the conversation log kept in the session. This
project models the part of that page that carries logic:

- **Style presets** (`styles.dfy`, module `Styles`). A closed table maps the four assistant
  styles (Professional, Friendly, Teacher, Concise) to fixed system instructions. Direct
  dictionary indexing makes an unknown name a key error, so `LookupPrompt` returns `Found(prompt)`
  or `KeyError(key)` and never substitutes a default.
- **History windower and prompt assembler** (`assembler.dfy`, module `Assembler`).
  `BuildMessages(history, userText, systemPrompt)` keeps the last `MaxTurns = 12` entries of the
  history. It uses Python's `history[-12:]` semantics, modelled by `SliceFrom`. It puts one system
  message in front and the new input, verbatim, at the end. The source reads the system prompt
  from a global. Here it is an explicit parameter.
- **Turn controller** (`turn_controller.dfy`, module `TurnController`). One run of the turn block
  is the pure function `Turn`. The class `Session` holds the log as a `seq<Msg>` field and updates
  it in place. `HandleTurn` is proved equal to `Turn`, and `Clear` is the "Clear chat" button.
  The completion client is a parameter `client: Request -> Completion`. `Completion` is
  `Ok(text)` or `Err(desc)`, where `Err` stands for any exception inside the `try` block.
  `Replay` runs a whole session, given as a sequence of submit and clear events.
- **Messages** (`messages.dfy`, module `Messages`). Roles and messages. `WellFormedLog` is the
  shape every session log keeps: it holds no system message, and every assistant message comes
  directly after a user message.

Three details of the code's behaviour that the model keeps:

- The style lookup (app.py:85) runs before the turn block. An unknown style therefore aborts the
  run before the input is appended: the outcome is `UnknownStyle` and the log is unchanged.
- The turn block runs only `if user_input:`. An empty string is false in Python, so an empty input
  runs no turn (`NoInput`) and the log is unchanged. `BuildMessages` itself still includes an empty
  `userText` verbatim.
- `build_messages` takes the already resolved prompt, not a style key. The key error belongs to
  the lookup, not to the assembler.

Determinism of the assembler needs no lemma: Dafny functions are deterministic by construction.

## Model

| member | source | states |
|---|---|---|
| Styles.LookupPrompt | app.py:52-85 | the lookup succeeds exactly for the four names the style select box offers; a failure carries the key; a found prompt is one of the table's instructions |
| Styles.OptionsResolve | app.py:52-85 | every option of the select box resolves, so a style chosen in the sidebar never raises a key error |
| Styles.PresetTexts | app.py:65-83 | each of the four styles resolves to its own fixed instruction text, character for character |
| Styles.PresetsDistinct | app.py:65-83 | two different style names never select the same instruction |
| Assembler.SliceFrom | app.py:107 | Python's `s[start:]` is a suffix of `s`; for a negative start its length is `min(len(s), -start)`, otherwise the part after `start` (empty past the end) |
| Assembler.Window | app.py:106-107 | the window is the suffix of the history whose length is `min(len(history), 12)` |
| Assembler.BuildMessages | app.py:101-112 | the request has `min(len(history), 12) + 2` messages, at most 14; it starts with the system message carrying the prompt, ends with the user message holding the input verbatim, and in between holds the last entries of the history in their original order |
| Assembler.WindowNoSystem | app.py:107 | the window of a history without system messages has none either |
| Assembler.OneSystemMessage | app.py:109-111 | given a history without system messages, the request has exactly one system message, at position 0 |
| Assembler.ShortHistoryKeptWhole | app.py:106-111 | a history of at most 12 entries appears whole: the request is system, then the history, then the input |
| Assembler.LongHistoryWindowed | app.py:106-112 | a history of 12 or more entries yields exactly 14 messages, with the last 12 entries of the history in the middle |
| Assembler.EmptyHistory | app.py:107-111 | an empty history yields exactly the system message and the user message, also for an empty input |
| Assembler.FifteenPriorMessages | app.py:106-112 | with 15 prior messages, the request has 14 messages, and its window is prior entries 4 to 15 (counting from one) |
| Messages.AppendQuestion | app.py:121 | appending a user message keeps the log well formed |
| Messages.AppendAnswer | app.py:144 | appending an assistant message right after a user message keeps the log well formed |
| Messages.AnswersNeverOutnumberQuestions | app.py:119-144 | in a well-formed log, assistant messages never outnumber user messages |
| TurnController.ExchangeEffect | app.py:121-148 | after the lookup, the request is assembled from the log before the new entry; on success the log gains the input and then the client's text verbatim; on failure it gains only the input |
| TurnController.TurnOutcomeCases | app.py:85-148 | a key error happens exactly for a style outside the table, and no turn runs exactly for an empty input; otherwise the outcome is completed or failed, as the client answered for the request sent |
| TurnController.Exchange | app.py:121-148 | no contract of its own: the part of a turn after the preset was found (append, assemble from `log[:-1]`, call, append the answer); its behaviour is stated by ExchangeEffect |
| TurnController.Turn | app.py:85-148 | no contract of its own: one run of the script from the preset lookup through the turn block; its behaviour is stated by TurnOutcomeCases, TurnRequest, TurnSendsOneSystem, TurnLogEffect and TurnKeepsWellFormed |
| TurnController.Step | app.py:58-148 | no contract of its own: one script run for a submit (a `Turn`, app.py:85-148) or for the "Clear chat" button (the empty log, app.py:58-60); its behaviour is stated by the Replay lemmas |
| TurnController.Replay | app.py:58-148 | no contract of its own: the log after a sequence of such runs; its behaviour is stated by ReplayKeepsWellFormed, ReplayAppendOnly and ReplayAfterClear |
| TurnController.TurnRequest | app.py:121-139 | a turn sends the sidebar's model, temperature and max tokens unchanged, with the messages assembled from the log before the new entry: the window is drawn from the old log, so the entry just appended is not sent a second time, and the input is the last message (an equal message already in the window still appears there) |
| TurnController.TurnSendsOneSystem | app.py:109-131 | from a well-formed log, the request a turn sends holds exactly one system message, the first, carrying the selected preset |
| TurnController.TurnLogEffect | app.py:119-148 | success grows the log by exactly 2 (user message, then assistant message with the returned text); failure grows it by exactly 1 (the user message); no turn leaves it unchanged; earlier entries never change |
| TurnController.TurnKeepsWellFormed | app.py:119-148 | a turn keeps the log well formed |
| TurnController.ReplayKeepsWellFormed | app.py:58-148 | every sequence of turns and clears keeps the log well formed |
| TurnController.ReplayAppendOnly | app.py:119-148 | without a clear, the log only grows: the old log stays a prefix, and each event adds at most 2 entries |
| TurnController.ReplayAfterClear | app.py:58-59 | after a clear, the session continues exactly as one started from an empty log |
| TurnController.ConciseHiOnEmptyLog | app.py:79-85 | an empty log, the Concise style and the input "Hi" send exactly the Concise instruction and the user message "Hi" |
| TurnController.Session.constructor | app.py:90-91 | a new session starts with an empty (well-formed) log |
| TurnController.Session.Clear | app.py:58-59 | the log becomes empty |
| TurnController.Session.HandleTurn | app.py:119-148 | the outcome and the new log are those of `Turn` on the old log; on success the log is the old log plus the user and the assistant message, on failure plus the user message alone, otherwise unchanged; the log stays well formed; a request that was sent holds exactly one system message, the first |

## Left out

- Page setup, titles, captions, the sidebar widgets and the rendering of messages, the "Thinking..." placeholder and the error box (app.py:8-15, 37-56, 93-96, 122-128, 142, 147-148): user interface only.
- `st.rerun()` after a clear (app.py:60): a rerun ends the script run, so a clear and a turn never happen in the same run. `Replay` treats them as separate events.
- Reading the API key from the secrets or the environment, and stopping on a missing key (app.py:22-30): configuration I/O outside the core.
- Construction of the Groq client and the network call (app.py:32, 134-141): a foreign library. Both are the abstract `client` parameter. Any exception raised in the `try` block becomes `Err`, including one from reading `completion.choices[0].message.content`.
- Temperature, max tokens and model (app.py:40-50, 135-138): carried through unchanged in `RequestConfig` and `Request`. The slider ranges are not modelled, and temperature is a `real` rather than a float.
- The text of a successful answer is a string. The case where the provider returns no content (`None`) is not modelled.
- Concurrency and the session container semantics of `st.session_state`: the log is a single field owned by one `Session` object.
