/** The save-resolution states of gotoword/gotoword.py as pure functions.

    `App.helper_save` threads the keyword, the context and the store through
    `EntryState`, `ReadContextState`, `CheckContextState`,
    `CreateContextState`, `NewKeywordState` and `UpdateKeywordState`; each
    state's `evaluate` reads and reassigns `app.context`/`app.keyword`, may
    prompt once, may write to the store, and returns the next state or `None`.
    Here a `Session` holds everything those states read or write, `Evaluate`
    is one call of `evaluate`, and `RunFrom` is the loop of `helper_save`. */
module Resolver {
  import opened Common
  import opened DataStore

  /** `app.keyword`: a stored keyword together with the `current_context`
      attribute that `update_buffer` or `NewKeywordState` puts on the object
      (`None` where it was never set, so reading it raises AttributeError). */
  datatype Keyword = Keyword(name: string, currentContext: Option<string>)

  /** The state classes of gotoword.py. */
  datatype State = Entry | ReadContext | CheckContext | CreateContext | NewKeyword | UpdateKeyword

  /** The attributes of `app` the states use, the prompt replies still to
      come, and the store. `testing` is the module flag `TESTING`;
      `testAnswers` is `app.test_answers`; `replies` are what the user would
      type at the editor's prompts when not under test; `buffer` is the help
      buffer's lines. */
  datatype Session = Session(
    word: string,
    keyword: Option<Keyword>,
    context: ContextRef,
    keywordContext: Option<string>,
    testing: bool,
    testAnswers: seq<string>,
    replies: seq<string>,
    buffer: seq<string>,
    tables: Tables)

  /** What one `evaluate` call returns: the next state, `None` (stop), or an exception. */
  datatype Step = Next(state: State, session: Session) | Stop(session: Session) | Fail(error: Error, session: Session)

  /** How `helper_save` ends: normally, or with the exception a state raised. */
  datatype Outcome = Finished(session: Session) | Raised(error: Error, session: Session)

  /** `get_test_answer`: takes the oldest queued answer; with none left it
      gives `None` and leaves the queue as it was. */
  function PopAnswer(queue: seq<string>): (r: (Option<string>, seq<string>))
    ensures r.0.Some? <==> queue != []
    ensures r.0.Some? ==> [r.0.value] + r.1 == queue
    ensures r.0.None? ==> r.1 == queue
  {
    if queue == [] then (None, queue) else (Some(queue[0]), queue[1..])
  }

  /** Answers appended to the queue come out in the order they went in. */
  lemma {:induction false} PopAnswerFifo(queue: seq<string>, x: string)
    ensures PopAnswer(queue + [x]).0 == Some(if queue == [] then x else queue[0])
    ensures PopAnswer(queue + [x]).1 == (if queue == [] then [] else queue[1..] + [x])
  {
    if queue != [] {
      assert (queue + [x])[1..] == queue[1..] + [x];
    }
  }

  /** What `get_user_input` and `ReadContextState` do to a typed reply: `.strip().lower()`. */
  function Normalize(reply: string): string
  {
    Lower(StripSpace(reply))
  }

  /** The replies still to be consumed by prompts. */
  function Pending(s: Session): nat
  {
    if s.testing then |s.testAnswers| else |s.replies|
  }

  /** One prompt. Under test the answer is the oldest queued test answer,
      taken as it is; otherwise it is the user's next reply, normalised. */
  function Ask(s: Session): (r: (Option<string>, Session))
    ensures r.0.Some? ==> Pending(r.1) + 1 == Pending(s)
    ensures r.0.None? ==> r.1 == s
    ensures r.1 == s.(testAnswers := r.1.testAnswers, replies := r.1.replies)
    ensures s.testing && r.0.Some? ==> [r.0.value] + r.1.testAnswers == s.testAnswers
  {
    if s.testing then
      var popped := PopAnswer(s.testAnswers);
      (popped.0, s.(testAnswers := popped.1))
    else if s.replies == [] then (None, s)
    else (Some(Normalize(s.replies[0])), s.(replies := s.replies[1..]))
  }

  /** `strip().lower()` keeps a reply decodable exactly when it was. */
  lemma NormalizeAscii(reply: string)
    ensures Ascii(Normalize(reply)) <==> Ascii(reply)
  {
    StripSpaceAscii(reply);
    LowerAscii(StripSpace(reply));
  }

  /** The prompt of `CheckContextState` and `CreateContextState`: under test
      `get_test_answer`, otherwise `get_user_input`, which also passes the
      normalised reply through `unicode()`. A reply holding a byte outside
      ASCII is consumed and raises; any other outcome is that of `Ask`. */
  function AskUser(s: Session): (r: (Option<string>, Option<Error>, Session))
    ensures r.1.Some? <==> !s.testing && s.replies != [] && !Ascii(s.replies[0])
    ensures r.1.Some? ==> r.1 == Some(NotAscii) && r.0.None? && r.2 == s.(replies := s.replies[1..])
    ensures r.1.None? ==> (r.0, r.2) == Ask(s)
  {
    var (answer, s1) := Ask(s);
    if s.testing || answer.None? then (answer, None, s1)
    else
      NormalizeAscii(s.replies[0]);
      if Ascii(answer.value) then (answer, None, s1) else (None, Some(NotAscii), s1)
  }

  /** The answers of `ReadContextState`'s three-way question. */
  datatype Choice = Provide | NoContext | Abort | Invalid

  /** `ReadContextState`'s reading of an answer: exactly "1" or "y…" provides
      a context, "2…"/"n…" uses none, "3…"/"a…" aborts, anything else is invalid. */
  function ReadChoice(answer: string): Choice
  {
    if answer == "1" || StartsWith(answer, "y") then Provide
    else if StartsWith(answer, "2") || StartsWith(answer, "n") then NoContext
    else if StartsWith(answer, "3") || StartsWith(answer, "a") then Abort
    else Invalid
  }

  /** A `context` value as the `name` handed to `Context.objects.create`. */
  function NameOf(c: ContextRef): (r: Option<string>)
    ensures r.None? <==> c.Null?
  {
    match c
    case Null => None
    case Name(text) => Some(text)
    case Row(name) => Some(name)
  }

  /** `EntryState.evaluate`. */
  function EvalEntry(s: Session): Step
  {
    var hasKeyword := s.keyword.Some?;
    var hasContext := Truthy(s.context);
    if !hasKeyword && !hasContext then Next(ReadContext, s)
    else if !hasKeyword then
      match FindContext(s.tables, s.context)
      case None => Next(CreateContext, s)
      case Some(name) => Next(NewKeyword, s.(context := Row(name)))
    else if !hasContext then
      match s.keyword.value.currentContext
      case None => Fail(MissingAttribute("current_context"), s)
      case Some(c) => Next(UpdateKeyword, s.(keywordContext := Some(c)))
    else Next(UpdateKeyword, s)
  }

  /** `ReadContextState.evaluate`. */
  function EvalReadContext(s: Session): Step
  {
    var (answer, s1) := Ask(s);
    match answer
    case None => Fail(MissingAttribute("startswith"), s1)
    case Some(a) =>
      match ReadChoice(a)
      case Provide => Next(CheckContext, s1)
      case NoContext => Next(NewKeyword, s1)
      case Abort => Stop(s1)
      case Invalid => Next(ReadContext, s1)
  }

  /** `CheckContextState.evaluate`. */
  function EvalCheckContext(s: Session): Step
  {
    var (answer, err, s1) := AskUser(s);
    if err.Some? then Fail(err.value, s1)
    else
    var typed := match answer case None => Null case Some(a) => Name(a);
    match FindContext(s1.tables, typed)
    case Some(name) => Next(NewKeyword, s1.(context := Row(name)))
    case None => Next(CreateContext, s1.(context := typed))
  }

  /** `CreateContextState.evaluate`. */
  function EvalCreateContext(s: Session): Step
  {
    var (answer, err, s1) := AskUser(s);
    if err.Some? then Fail(err.value, s1)
    else
    var name := NameOf(s1.context);
    var r := CreateContextEffect(s1.tables, name, answer);
    if r.error.Some? then Fail(r.error.value, s1.(tables := r.after))
    else
      var s2 := s1.(tables := r.after, context := Row(name.value));
      if s.keyword.Some? then Next(UpdateKeyword, s2) else Next(NewKeyword, s2)
  }

  /** `NewKeywordState.evaluate`, with the corrected `create_keyword` (as
      written it always raises: see `CreateKeywordAsWrittenRaises`). */
  function EvalNewKeyword(s: Session): Step
  {
    if !Truthy(s.context) && "default" !in s.tables.contexts then Fail(DoesNotExist("context"), s)
    else
      var context := if Truthy(s.context) then s.context else Row("default");
      var r := CreateKeywordEffect(s.tables, s.word, context, s.buffer);
      if r.error.Some? then Fail(r.error.value, s.(tables := r.after))
      else Stop(s.(tables := r.after, keyword := Some(Keyword(s.word, Some(context.name)))))
  }

  /** `UpdateKeywordState.evaluate`: a context given and missing from the
      store is created first; the definition written is always the one in
      `kw.current_context`, whatever context was given (line 632). */
  function EvalUpdateKeyword(s: Session): Step
  {
    if Truthy(s.context) && FindContext(s.tables, s.context).None? then Next(CreateContext, s)
    else if s.keyword.None? || s.keyword.value.currentContext.None? then
      Fail(MissingAttribute("current_context"), s)
    else
      var kw := s.keyword.value;
      var r := UpdateKeywordEffect(s.tables, kw.name, kw.currentContext.value, s.buffer);
      if r.error.Some? then Fail(r.error.value, s.(tables := r.after)) else Stop(s.(tables := r.after))
  }

  /** The order in which `helper_save` can move between states: every move
      either consumes a reply or goes down this ranking, which is why the
      loop ends. */
  function Rank(state: State): nat
  {
    match state
    case Entry => 5
    case ReadContext => 4
    case CheckContext => 3
    case UpdateKeyword => 2
    case CreateContext => 1
    case NewKeyword => 0
  }

  /** `state.evaluate(app, app.keyword, app.context, ...)`. Besides the store,
      a step only changes the context, the keyword, `keyword_context` and
      the reply queues; the store only grows (only `info` is rewritten). */
  function Evaluate(state: State, s: Session): (r: Step)
    ensures r.Next? ==>
      Pending(r.session) < Pending(s) || (Pending(r.session) == Pending(s) && Rank(r.state) < Rank(state))
    ensures r.session.word == s.word && r.session.buffer == s.buffer && r.session.testing == s.testing
    ensures Consistent(s.tables) ==> Consistent(r.session.tables) && Grows(s.tables, r.session.tables)
    ensures state !in {CreateContext, NewKeyword, UpdateKeyword} ==> r.session.tables == s.tables
  {
    match state
    case Entry => EvalEntry(s)
    case ReadContext => EvalReadContext(s)
    case CheckContext => EvalCheckContext(s)
    case CreateContext => EvalCreateContext(s)
    case NewKeyword => EvalNewKeyword(s)
    case UpdateKeyword => EvalUpdateKeyword(s)
  }

  /** The loop of `helper_save` from a given state: evaluate until a state
      returns `None` or raises. */
  function RunFrom(state: State, s: Session): Outcome
    decreases Pending(s), Rank(state)
  {
    match Evaluate(state, s)
    case Next(next, s1) => RunFrom(next, s1)
    case Stop(s1) => Finished(s1)
    case Fail(e, s1) => Raised(e, s1)
  }

  /** `App.helper_save(context, test_answer)`: `app.context` is set to the
      given text and the loop starts in `EntryState`. */
  function HelperSave(s: Session, context: string): Outcome
  {
    RunFrom(Entry, s.(context := Name(context)))
  }
}
