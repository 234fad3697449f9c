# gotoword: the save path, modelled in Dafny

gotoword is a Vim plugin that keeps notes ("definitions") about words, filed
under contexts. `:HelperSave [context]` saves the help buffer as the
definition of the current word. It does this by running a small state
machine (`EntryState`, `ReadContextState`, `CheckContextState`,
`CreateContextState`, `NewKeywordState`, `UpdateKeywordState`) over the
plugin object `App` and the keyword/context/definition store.

This project models that machine, the two versions of the store it drives,
the generic state-machine runner, and the two logging helpers. It also
proves what the machine does to the store for every input. That includes
the scenarios of the functional tests, stated for every store, word and
answer queue.

Modules, one per source file or concern:

- `Common` (`common.dfy`): the Python 2 values and string methods the code
  relies on, written out. This covers `join`, `split("\n")`,
  `unicode.splitlines()`, `lstrip(chars)`, `rstrip(chars)`, and the byte
  string `strip()` (ASCII white space only) and `lower()`/`upper()`
  (ASCII letters only). `Ascii` is what `unicode()` accepts with the
  default codec.
- `DataStore` (`datastore.dfy`): the Django store of
  `gotoword/test/utils2.py`. Its tables are a value (`Tables`). What each
  helper does to them is an `...Effect` function. `Database` is the
  mutable store whose methods are proved to perform those effects.
- `Resolver` (`resolver.dfy`): each state's `evaluate` as a pure function
  over a `Session` (the attributes of `app` plus the store). `RunFrom` is
  the loop of `helper_save`, and it is proved to terminate.
- `ResolverFacts` (`resolver_facts.dfy`): what a whole save does, over all
  inputs.
- `Gotoword` (`gotoword.dfy`): the class `App` with the attributes the
  states reassign. It has one method per state, the `helper_save` loop,
  `helper_delete`, `helper_word_contexts` and the buffer logic of
  `update_buffer`. Each is proved against the pure model.
- `StormStore` (`stormstore.dfy`): the older Storm store of
  `gotoword/utils.py`.
- `Fsm` (`fsm.dfy`): `gotoword/gotoword_state_machine.py`. It covers the
  handler functions, the machine as a value, the `run` loop, and the class
  `StateMachine`.
- `Logging` (`logging.dfy`): `strip` and the `extra` loop of
  `custom_makeRecord` from `gotoword/gotoword_logging.py`.

Where the documentation and the code disagree, the model follows the code
in three places:

- `UpdateKeywordState` ignores a supplied context. It only creates that
  context when it is missing.
- `update_buffer` always takes the first context.
- An empty test-answer queue makes `ReadContextState` raise.

In two places the code as written always raises, and the save path follows
the evident intent instead:

- `create_keyword` of `utils2.py` calls `update_info` with the wrong
  arguments.
- `update_keyword` of `utils2.py` is called with the wrong arguments and
  calls `update_info` with the wrong arguments.

The code as written is stated separately, and both are listed under
Findings and under "## Left out".

## Model

| member | source | states |
|---|---|---|
| Resolver.PopAnswer | gotoword/gotoword.py:264-270 | `get_test_answer` gives an answer exactly when the queue is non-empty. The answer is the oldest one and the rest of the queue is what follows it. An empty queue gives no answer and is left unchanged. |
| Resolver.PopAnswerFifo | gotoword/gotoword.py:264-270 | Answers appended to the queue come out in the order they went in. |
| Resolver.Ask | gotoword/gotoword.py:495-499 | `ReadContextState`'s prompt consumes exactly one pending reply when it gets an answer, and changes nothing else in the session. Under test the answer is the oldest queued test answer. Otherwise it is the reply after `strip().lower()`, with no `unicode()`. |
| Resolver.AskUser | gotoword/gotoword.py:638-650 | The prompt of `CheckContextState` and `CreateContextState`: outside test mode, a reply holding a byte outside ASCII is consumed and raises in `unicode()`, with nothing else changed. Any other reply is answered as `Ask` answers it. |
| ResolverFacts.UndecodableReplyRaises | gotoword/gotoword.py:565-616 | Outside test mode, a non-ASCII reply makes `CheckContextState` and `CreateContextState` raise, consuming only that reply. The same reply never makes `ReadContextState` raise. |
| Resolver.NameOf | gotoword/gotoword.py:604-605 | The name handed to `Context.objects.create` is missing exactly when `app.context` is `None`. |
| Resolver.Evaluate | gotoword/gotoword.py:423-636 | Every state step either consumes a reply or moves down a fixed ranking of the states, so `helper_save` terminates. A step keeps the word, the buffer and the test flag. It keeps the store consistent and only lets it grow, and only `info` is rewritten. Only `CreateContextState`, `NewKeywordState` and `UpdateKeywordState` touch the store. |
| ResolverFacts.EntryStep | gotoword/gotoword.py:431-473 | `EntryState` asks nothing and writes nothing. No keyword and no context goes to `ReadContextState`. A new word with a stored context goes to `NewKeywordState` with that row as context. A new word with an unknown context goes to `CreateContextState`. A stored keyword goes to `UpdateKeywordState`, or raises when it has no current context and none is given. |
| ResolverFacts.ReadContextStep | gotoword/gotoword.py:495-536 | Under test `ReadContextState` consumes one answer and writes nothing. "1" or "y…" goes to `CheckContextState`. "2…" or "n…" goes to `NewKeywordState`. "3…" or "a…" stops. Anything else asks again. |
| ResolverFacts.CheckContextStep | gotoword/gotoword.py:565-590 | Under test `CheckContextState` consumes one answer and writes nothing. A stored name becomes the context row, followed by `NewKeywordState`. Other text is kept as the context, followed by `CreateContextState`. |
| ResolverFacts.CreateContextStep | gotoword/gotoword.py:596-616 | `CreateContextState` creates exactly one context, named `app.context` and described by the answer, then goes to `UpdateKeywordState` or `NewKeywordState` as there is a keyword or not. A stored name raises `Duplicate` and stores nothing. |
| ResolverFacts.NewKeywordStep | gotoword/gotoword.py:542-552 | By the corrected `create_keyword` (see Findings), `NewKeywordState` stores the word with one definition holding the whole buffer, in the context set or else in "default". It records that context as `current_context` and stops. It raises exactly when the word is already stored, the context is not, or the context is a bare string. |
| ResolverFacts.UpdateKeywordStep | gotoword/gotoword.py:623-636 | By the corrected `update_keyword` (see Findings): a given context that is not stored sends the save to `CreateContextState`. Otherwise the definition in `kw.current_context` is rewritten with the buffer minus its title line, whatever context was given. It raises when that definition does not exist. |
| ResolverFacts.RunFromGrows | gotoword/gotoword.py:81-96 | However a save ends, finished or raised, the store stays consistent and keeps every row of the store it started with. The word, buffer and test flag are kept. |
| ResolverFacts.NewKeywordShape | gotoword/gotoword.py:433-456 | A save of a word that is not yet a keyword either finishes with the store unchanged (aborted), or stores the word with exactly one definition. That definition holds the whole buffer and sits in a stored context `c`, which becomes the keyword's current context. At most that one context is new. |
| ResolverFacts.AbortAfterInvalidAnswers | gotoword/gotoword.py:510-536 | Answers that are not understood are asked again. The first answer starting with "3" or "a" stops the save with nothing stored and the rest of the queue untouched. |
| ResolverFacts.SaveAborted | test/ft.py:401-416 | `:HelperSave ""` for a new word answered with "3" (after any invalid answers) stores nothing. The word is still not a keyword. |
| ResolverFacts.SaveWithEmptyQueueRaises | gotoword/gotoword.py:495-510 | `:HelperSave ""` for a new word with no test answer queued raises at `answer.startswith`, with the store unchanged. |
| ResolverFacts.SaveInDefaultContext | test/ft.py:370-396 | Answering "2" stores the word with its definition in the context named "default". |
| ResolverFacts.SaveInContextCreatedWhenPrompted | test/ft.py:299-344 | Answering "1", a new context name and a description creates that context with that description. The word is then stored in it. |
| ResolverFacts.SaveInContextChosenWhenPrompted | gotoword/gotoword.py:574-585 | Answering "1" and the name of a stored context stores the word in that context, and creates no context. |
| ResolverFacts.SaveInGivenContext | test/ft.py:418-433 | `:HelperSave kivy` with a stored context stores the new word in it, asking nothing. |
| ResolverFacts.SaveInGivenNewContext | test/ft.py:439-457 | `:HelperSave <name>` with an unknown context asks only for its description. It then creates the context and stores the word in it. |
| ResolverFacts.SaveUpdatesCurrentContext | gotoword/gotoword.py:457-465 | By the corrected `update_keyword` (see Findings): for a stored keyword and no context, a save rewrites the keyword's definition in its current context with the buffer minus its title line. Nothing else changes. |
| ResolverFacts.SaveUpdateIdempotent | gotoword/gotoword.py:622-636 | By the corrected `update_keyword` (see Findings): saving the same buffer twice leaves what saving it once leaves. |
| ResolverFacts.UpdateIgnoresSuppliedContext | gotoword/gotoword.py:624-634 | By the corrected `update_keyword` (see Findings): for a stored keyword, a stored context given to `:HelperSave` is ignored. The definition in the keyword's current context is rewritten (the overwrite at line 632). |
| ResolverFacts.UpdateCreatesUnusedContext | gotoword/gotoword.py:624-634 | By the corrected `update_keyword` (see Findings): for a stored keyword, a context given that is not stored is created with the answered description. The definition written is still the one in the current context, and the new context gets no definition. |
| ResolverFacts.SaveAfterDeleteRaises | gotoword/gotoword.py:99-125 | By the corrected `update_keyword` (see Findings): `helper_delete` leaves `app.keyword` set. A later save with no context raises `DoesNotExist`, because the keyword's definitions are gone. |
| Gotoword.App.GetTestAnswer | gotoword/gotoword.py:264-270 | The method pops the queue in place as `PopAnswer` specifies. |
| Gotoword.App.Prompt | gotoword/gotoword.py:494-499 | The method answers `ReadContextState`'s prompt as `Ask` specifies: it pops a test answer under test and takes the next reply, normalised, otherwise. |
| Gotoword.App.GetUserInput | gotoword/gotoword.py:638-650 | The method answers the prompt of `CheckContextState` and `CreateContextState` as `AskUser` specifies, including the decoding failure. |
| Gotoword.App.EvaluateEntry | gotoword/gotoword.py:431-473 | The method updates `app` and the store as `EvalEntry` specifies, and returns its next state or exception. No keyword and no context goes to `ReadContextState`. With a context found, `app.context` becomes the row and the next state is `NewKeywordState`. An unknown context goes to `CreateContextState`. A keyword goes to `UpdateKeywordState`. |
| Gotoword.App.EvaluateReadContext | gotoword/gotoword.py:479-536 | `ReadContextState.evaluate` as `EvalReadContext`. "1" or "y…" goes to `CheckContextState`. "2…" or "n…" goes to `NewKeywordState`. "3…" or "a…" stops. Anything else repeats the state. |
| Gotoword.App.EvaluateCheckContext | gotoword/gotoword.py:565-590 | `CheckContextState.evaluate` as `EvalCheckContext`. A reply that does not decode raises. A stored name becomes the context row and the next state is `NewKeywordState`. Otherwise the typed text is kept and the next state is `CreateContextState`. |
| Gotoword.App.EvaluateCreateContext | gotoword/gotoword.py:596-616 | `CreateContextState.evaluate` as `EvalCreateContext`. A description that does not decode raises, and nothing is created. Otherwise it creates exactly one context (name `app.context`, description the answer), then goes to `UpdateKeywordState` with a keyword or to `NewKeywordState` without one. |
| Gotoword.App.EvaluateNewKeyword | gotoword/gotoword.py:542-552 | `NewKeywordState.evaluate` as `EvalNewKeyword`. It uses "default" when no context is set, creates the keyword with its definition by the corrected `create_keyword` (see Findings), records the context as `current_context`, and stops. |
| Gotoword.App.EvaluateUpdateKeyword | gotoword/gotoword.py:623-636 | By the corrected `update_keyword` (see Findings): `UpdateKeywordState.evaluate` as `EvalUpdateKeyword`. A supplied context missing from the store is created first. Otherwise the definition in `kw.current_context` is rewritten and the state stops. |
| Gotoword.App.EvaluateState | gotoword/gotoword.py:94 | One `state.evaluate(...)` call, as `Evaluate` specifies. |
| Gotoword.App.HelperSave | gotoword/gotoword.py:81-96 | The while loop leaves `app` and the store exactly as `Resolver.HelperSave` (the pure `RunFrom` from `EntryState`) says. A normal end clears `saving` and `state`. An exception leaves `saving` set. |
| Gotoword.App.HelperDelete | gotoword/gotoword.py:99-125 | With a stored keyword, it is deleted with all its definitions and the removal message is returned. A keyword already deleted (its name no longer stored, as after a second `:GotowordDelete`) raises, with the store unchanged and nothing printed. Without a keyword, the store is unchanged and the refusal message is returned. |
| Gotoword.App.HelperWordContexts | gotoword/gotoword.py:206-227 | Given the keyword's contexts as the query lists them (each once), the loop builds `ContextSummary`. The help buffer gets the header and the summary. The names returned are exactly the contexts the keyword has a definition in. A keyword already deleted raises before the buffer is touched. With no keyword nothing happens. |
| Gotoword.ContextSummaryLayout | gotoword/gotoword.py:214-225 | The summary has three lines per context, in order: the context's name, a first line of the definition (the user's note, else the public one) that holds no line feed and begins that definition, and "\n" (an empty line once in the Vim buffer, which drops the trailing newline). |
| Gotoword.ShowWord | gotoword/gotoword.py:370-413 | A word with a non-ASCII byte makes `unicode(word)` raise before anything is assigned. Otherwise `update_buffer` lower-cases the word. A stored keyword with a definition gets its first listed context, one it has a definition in, as current context. The buffer shows a title line above the lines of that definition. A stored keyword with no definition raises (`contexts[0]`). An unknown word shows the invitation. |
| Gotoword.App.UpdateBuffer | gotoword/gotoword.py:358-413 | The buffer assignments leave `app.word` and the help buffer as `ShowWord` says. On the `contexts[0]` exception the buffer is untouched. On the decoding exception `app.word` is untouched too. |
| Gotoword.ShowThenSaveKeepsStore | gotoword/gotoword.py:385-396 | By the corrected `update_keyword` (see Findings): showing a stored keyword and saving at once, with no context, leaves the store unchanged whenever the definition is plain text. `splitlines` and the "\n" join undo each other. |
| DataStore.FindContext | gotoword/test/utils2.py:9-21 | A context is found exactly when a stored context has that name. |
| DataStore.ReadVimBufferSplits | gotoword/test/utils2.py:159-164 | Splitting `read_vim_buffer(buf, k)` at "\n" gives back `buf[k:]` when that slice is non-empty and no line holds "\n". |
| DataStore.CreateContextEffect | gotoword/test/utils2.py:9-17 | `Context.objects.create` succeeds exactly when both columns are given and the name is new, and then adds just that context. Otherwise nothing changes. |
| DataStore.UpdateInfoEffect | gotoword/test/utils2.py:167-171 | `update_info` fails exactly when the (keyword, context) row is missing. Otherwise only that row's `info` becomes the content; `cmd`, `info_public` and every other row stay. |
| DataStore.UpdateInfoIdempotent | gotoword/test/utils2.py:167-171 | Writing the same content twice equals writing it once. |
| DataStore.CreateKeywordEffect | gotoword/test/utils2.py:125-144 | The corrected `create_keyword`, with line 143 as `update_info(keyword, context, buf_content)`. A duplicate name is rejected with nothing changed. A falsy context means "default". On success the keyword and exactly one `Data` row for the pair are added, holding the whole buffer joined with "\n". |
| DataStore.UpdateKeywordEffect | gotoword/gotoword.py:633-634 | The update this call evidently intends: the keyword's definition in the given context gets the buffer without its title line as `info`, and nothing else changes. A missing definition fails with nothing changed. |
| DataStore.UpdateKeywordAsWrittenRaises | gotoword/test/utils2.py:148-156 | As written, `update_keyword` raises for every store and buffer and changes nothing. Called as `gotoword.py:633` calls it, `read_vim_buffer` slices a `Context` row. Called with its own arguments, `update_info` gets the buffer text as the context and no content. The corrected update succeeds whenever the definition exists. |
| DataStore.ListedContexts | gotoword/gotoword.py:381-386 | A listing of `keyword.contexts.all()` holds exactly the contexts the keyword has a definition in, and is empty exactly when it has none. |
| DataStore.DeleteKeywordEffect | gotoword/test/utils2.py:47-60 | Deleting a keyword removes it and, by the foreign key's cascade, exactly its `Data` rows. |
| DataStore.CreateKeywordAsWrittenRaises | gotoword/test/utils2.py:142-143 | As written, `create_keyword` always raises, and the buffer text is never stored. |
| DataStore.IntroductionLineNamesWord | gotoword/test/utils2.py:175-185 | The invitation begins `The keyword "<word>" doesn't exist`. |
| DataStore.InvitationFirstLine | gotoword/gotoword.py:401-408 | For a one-line word, the first line of the help buffer that `update_buffer` shows begins `The keyword "<word>" doesn't exist`. |
| DataStore.IntroductionLineInjective | gotoword/utils.py:241-251 | Different words give different invitations. The Storm version builds the same text as the Django one. |
| DataStore.VimListRoundTrip | gotoword/test/utils2.py:188-201 | The literal `create_vim_list` writes reads back as the list given, when no element holds a double quote. |
| DataStore.VimListExample | gotoword/test/utils2.py:191-192 | `create_vim_list(["first line", "second line"])` is `["first line", "second line"]`. |
| DataStore.Database.CreateContext | gotoword/test/utils2.py:9-17 | The in-place store performs `CreateContextEffect`. |
| DataStore.Database.UpdateInfo | gotoword/test/utils2.py:167-171 | The in-place store performs `UpdateInfoEffect`. |
| DataStore.Database.CreateKeyword | gotoword/test/utils2.py:125-144 | The in-place store performs the corrected `CreateKeywordEffect` (see Findings), including the rows kept when a later step raises. |
| DataStore.Database.UpdateKeyword | gotoword/gotoword.py:633-634 | The in-place store performs the corrected `UpdateKeywordEffect` (see Findings). |
| DataStore.Database.DeleteKeyword | gotoword/test/utils2.py:47-60 | The in-place store performs `DeleteKeywordEffect`. |
| StormStore.FindKeyword | gotoword/utils.py:200-207 | `find_keyword` returns the row named exactly `word`, or nothing when there is none. |
| StormStore.CreateKeywordEffect | gotoword/utils.py:210-238 | A new name gets a row with no `cmd` and the joined buffer as `info`, and every other row stays. Content that is not ASCII makes `unicode()` raise before the commit. Otherwise a stored name is rejected by the UNIQUE constraint. Either failure commits nothing. |
| StormStore.UpdateKeywordInfoEffect | gotoword/utils.py:226-238 | `info` becomes the lines joined with "\n"; `cmd` and the other rows stay. Content that is not ASCII makes `unicode()` raise, and nothing is committed. |
| StormStore.BufferContentDecodes | gotoword/utils.py:230-233 | The joined content decodes exactly when every line of the buffer does. |
| StormStore.CreateThenFind | gotoword/utils.py:200-223 | A keyword just created from ASCII lines is found by its name, with no `cmd` and the joined buffer as `info`. |
| StormStore.CreateTwiceRejected | gotoword/utils.py:210-223 | Once a keyword is committed, creating it again fails whatever the buffer, and changes nothing. |
| StormStore.LinkTwiceRejected | gotoword/utils.py:152-160 | Linking the same keyword and context twice: the second commit raises and changes nothing, so a pair has at most one link. |
| StormStore.AddContextEffect | gotoword/utils.py:97-125 | A context name is added only when new. A duplicate is rejected. |
| StormStore.AddLinkEffect | gotoword/utils.py:141-160 | A (keyword, context) link is added only when new, so a pair has at most one link. |
| StormStore.BufferContentLineFeed | gotoword/utils.py:230-231 | The stored `info` holds "\n" exactly when the buffer had two lines or more, or a line held one. A one-line buffer gives `info` without "\n". |
| StormStore.BufferContentSplits | gotoword/utils.py:230-231 | Splitting the stored `info` at "\n" gives the buffer back when it is non-empty and no line holds "\n". |
| StormStore.Store.CreateKeyword | gotoword/utils.py:210-223 | The in-place store performs `CreateKeywordEffect`. |
| StormStore.Store.UpdateKeywordInfo | gotoword/utils.py:226-238 | The in-place store performs `UpdateKeywordInfoEffect`. |
| StormStore.Store.AddContext | gotoword/utils.py:118-125 | The in-place store performs `AddContextEffect`. |
| StormStore.Store.AddLink | gotoword/utils.py:152-160 | The in-place store performs `AddLinkEffect`. |
| Fsm.StartTransitionsIgnoreCaseAndSpace | gotoword/gotoword_state_machine.py:64-83 | `start_transitions` reads the reply whatever the case of its letters and whatever white space comes before it. |
| Fsm.ReadContextTransitionsOf | gotoword/gotoword_state_machine.py:86-95 | `read_context_transitions` always goes to `end_state` with the cargo unchanged, and fails when the cargo cannot be unpacked. |
| Fsm.EndStateOf | gotoword/gotoword_state_machine.py:98-104 | Only the answer "abort" gets through `end_state`. |
| Fsm.AddState | gotoword/gotoword_state_machine.py:36-40 | `add_state` stores the handler under the upper-cased name. The state is recorded as an end state exactly when `end_state` is truthy. |
| Fsm.AddStateCaseInsensitive | gotoword/gotoword_state_machine.py:36-38 | A state is found under any case spelling of its name. |
| Fsm.SetStart | gotoword/gotoword_state_machine.py:42-43 | `set_start` records the upper-cased name and changes nothing else. |
| Fsm.RunChecksInitialisation | gotoword/gotoword_state_machine.py:45-53 | `run` raises at once exactly when the start state has no handler. With a start state, it raises exactly when no end state is registered. |
| Fsm.RunStopsAtEndState | gotoword/gotoword_state_machine.py:55-61 | `run` stops at the first state named that is an end state, and no end state's handler runs after the start. |
| Fsm.ModuleMachineShape | gotoword/gotoword_state_machine.py:108-112 | The module's machine has the three handlers, START as its start state, and END_STATE as its only end state. |
| Fsm.ModuleMachineNewKeywordFails | gotoword/gotoword_state_machine.py:75-80 | In the module's machine, answering "2" names `new_keyword_state`, which is not registered, so `run` fails after START. |
| Fsm.ModuleMachineReadContext | gotoword/gotoword_state_machine.py:75-95 | Answering "1" runs `read_context_transitions`, which makes the call and reaches `end_state`. |
| Fsm.ModuleMachineAbort | gotoword/gotoword_state_machine.py:75-83 | Any other answer reaches `end_state` straight from START, without running its handler. |
| Fsm.StateMachine.AddStateTo | gotoword/gotoword_state_machine.py:36-40 | The handler dictionary and end-state list change as `AddState` says. |
| Fsm.StateMachine.SetStartTo | gotoword/gotoword_state_machine.py:42-43 | The start state changes as `SetStart` says. |
| Fsm.StateMachine.RunMachine | gotoword/gotoword_state_machine.py:45-61 | The `while True` loop returns what `Run` says. |
| Logging.StripIsSlice | gotoword/gotoword_logging.py:198 | `strip` returns one contiguous piece of the repr. Everything before it is in `{<, c, l, a, s, space, '}` and everything after it is in `{', >}`. The piece neither begins nor ends with one of those characters. |
| Logging.StripIdempotent | gotoword/gotoword_logging.py:198 | Stripping an already stripped text changes nothing. |
| Logging.StripModuleClass | gotoword/gotoword_logging.py:176-177 | `<class 'module.Class'>` becomes `module.Class`. |
| Logging.StripOverTrims | gotoword/gotoword_logging.py:198 | As written, `<class 'calc.Tool'>` becomes `.Tool`. |
| Logging.StripClassReprRoundTrip | gotoword/gotoword_logging.py:171-196 | Removing exactly the prefix `<class '` and the suffix `'>` gives back every class name. |
| Logging.StripAgreesOnPlainNames | gotoword/gotoword_logging.py:171-198 | The two agree on names that neither begin with a character of `<class '` nor end with `'` or `>`. |
| Logging.LStripDropsPrefix | gotoword/gotoword_logging.py:198 | `lstrip(chars)` drops the longest prefix made of `chars`. |
| Logging.RStripDropsSuffix | gotoword/gotoword_logging.py:198 | `rstrip(chars)` drops the longest suffix made of `chars`. |
| Logging.MakeRecord | gotoword/gotoword_logging.py:55-62 | With `extra`, every key of `extra` maps to its value on the record, the other attributes are untouched, and no other key appears. Without `extra`, the record is returned as built. |
| Common.SplitJoin | gotoword/test/utils2.py:159-164 | Joining lines with "\n" and splitting at "\n" gives them back, when none holds "\n" and there is at least one. |
| Common.JoinSplit | gotoword/test/utils2.py:159-164 | Splitting at "\n" and joining with "\n" gives every text back. |
| Common.JoinSplitLines | gotoword/gotoword.py:396 | `splitlines` followed by the "\n" join gives back plain text. |
| Common.FirstLineIsPrefix | gotoword/gotoword.py:221 | `split("\n", 1)[0]` is the part of the text before its first line feed. |

## Left out

- Vim plumbing: opening windows, `vim.command` echoes, `vim.eval`, and the
  `input()`/`inputlist()` calls that display a prompt. The user's replies
  are a sequence in the session. When that sequence runs out, the prompt
  gets no answer, just as an empty test queue does. What
  `get_user_input` does to a reply (`strip().lower()`, then `unicode()`) is
  modelled by `Resolver.AskUser`.
- ORM mechanics (Django managers, Storm `find`/`add`/`commit`, the
  `find_model_object` helper, which is not part of this model). Lookups
  are exact-name lookups on maps, and inserts are map updates.
- `utils2.find_keyword` and `load_keywords_store`, and Storm's
  `initialize`/`get_server`: database set-up.
- The order of `keyword.contexts.all()`: the query's result is a parameter
  (`order`) of the display members. `ListsContexts` requires it to list each
  context the keyword has a definition in exactly once. Which order the
  database picks is not modelled.
- `App.__init__`'s `default_context`, the `app.word` initial value (`None`
  in the source, `""` here) and the debug attributes
  (`app.new_context`, `app.kwnotcontext`, ...): never read on the save path.
- `helper_delete_context`, `helper_all_words`, `helper_all_contexts`,
  `helper_context_words`, `_template`, `_template_with_header`: display
  only, they write names into the buffer.
- `print` messages and log lines: output only. `HelperDelete` returns its
  message instead.
- Gotoword.App.HelperDelete: a keyword object is identified by its name, so
  an object deleted earlier whose word was since stored again (a new row
  under the same name) is taken for the stored one; Django would still
  refuse the stale object. `HelperWordContexts` shares this.
- Resolver.EvalNewKeyword: calls the corrected `create_keyword`, with
  `update_info(keyword, context, buf_content)` in place of `utils2.py:143`.
  As written, that call raises after the keyword and an empty `Data` row
  are committed (see Findings).
- DataStore.CreateKeywordEffect: the corrected `create_keyword`, with
  `update_info(keyword, context, buf_content)` in place of `utils2.py:143`.
  `DataStore.CreateKeywordAsWrittenRaises` states the code as written.
- DataStore.Database.CreateKeyword: performs the corrected
  `CreateKeywordEffect`, not `utils2.py:125-144` as written.
- Gotoword.App.EvaluateNewKeyword: performs `EvalNewKeyword`, so it stores
  the buffer by the corrected `create_keyword`, where gotoword.py:547 as
  written raises at `utils2.py:143`.
- ResolverFacts.NewKeywordStep: states the corrected create. As written,
  every `NewKeywordState` that gets past the duplicate and context checks
  raises, leaving the keyword and an empty `Data` row committed.
- ResolverFacts.SaveInContextChosenWhenPrompted: the stored definition
  relies on the corrected create. As written, the save raises at
  `utils2.py:143`.
- ResolverFacts.SaveInDefaultContext: as for SaveInContextChosenWhenPrompted.
- ResolverFacts.SaveInContextCreatedWhenPrompted: as for
  SaveInContextChosenWhenPrompted.
- ResolverFacts.SaveInGivenContext: as for SaveInContextChosenWhenPrompted.
- ResolverFacts.SaveInGivenNewContext: as for
  SaveInContextChosenWhenPrompted.
- Resolver.EvalUpdateKeyword: line 633 calls `update_keyword(kw, ctx, buf)`
  while `utils2.update_keyword` takes `(keyword, buf, store)`. As written
  this always raises (see Findings). The model uses the evidently intended
  call: the definition in that context gets the buffer minus its title line.
- DataStore.Database.UpdateKeyword: performs the corrected update of
  `UpdateKeywordEffect`, not `utils2.py:148-156` as written, which always
  raises. `DataStore.UpdateKeywordAsWrittenRaises` states the code as
  written (see Findings).
- Storm's uncommitted session: a row added or changed before a failed
  commit stays pending in the Storm store object, where a later commit
  would write it. The model keeps only what is committed.
- The `NotAContext` error: `create_keyword` given a plain string where a
  `Context` row belongs. `helper_save` never reaches it, because every path
  turns a typed name into a row first.
- Gotoword.App.UpdateBuffer: the keyword it returns is assigned to
  `app.keyword` by the Vim-side caller, which is not part of this model.
- Fsm.Run: the `while True` loop is bounded by a `fuel` argument.
  `OutOfFuel` is the model's, not the source's. The handlers'
  `func(*args)` call is recorded in `calls` rather than made.
- Fsm.Handle: `NoAnswer` stands for a prompt with no reply left, which the
  source cannot express.
- `custom_makeRecord`'s construction of the `LogRecord` itself. The record
  as built is the `record` argument of `Logging.MakeRecord`.
- Concurrency, the asyncore log server, settings modules.

## Findings

| source | as written | input that shows it | evidently intended | confidence | as-written member | corrected member |
|---|---|---|---|---|---|---|
| gotoword/test/utils2.py:143 | `update_info(keyword, buf_content, store)` passes the buffer text as the context and `store` (None) as the content | any new word with a stored context: the `Data` row for (word, buffer text) does not exist, so the call raises and the text is never stored | `update_info(keyword, context, buf_content)`, storing the buffer as the new row's `info` | high, not executed | DataStore.CreateKeywordAsWrittenRaises | DataStore.CreateKeywordEffect |
| gotoword/test/utils2.py:153 | `update_keyword(keyword, buf, store)` calls `update_info(keyword, buf_content, store)`, and `gotoword.py:633` calls `update_keyword(kw, current_context, help_buffer)`, so `read_vim_buffer` slices a `Context` row | any `:HelperSave` of a stored keyword: the slice raises a `TypeError`; with its own arguments the (keyword, buffer text) row does not exist, so `update_info` raises | `update_info(keyword, context, read_vim_buffer(buf, 1))` for `kw.current_context` | high, not executed | DataStore.UpdateKeywordAsWrittenRaises | DataStore.UpdateKeywordEffect |
| gotoword/gotoword_logging.py:198 | `lstrip("<class '")` and `rstrip("'>")` remove any run of those characters, not the prefix and suffix | `<class 'calc.Tool'>` gives `.Tool` | remove exactly `<class '` and `'>` | high, not executed | Logging.StripOverTrims | Logging.StripClassReprRoundTrip |
