/** `App` of gotoword/gotoword.py: the plugin object whose attributes the
    save states read and reassign, the `helper_save` loop over them, and the
    helpers that show a keyword in the help buffer, list its contexts and
    delete it. The editor's help buffer is the field `helpBuffer`; prompts
    are answered from `testAnswers` under test and from `replies` otherwise. */
module Gotoword {
  import opened Common
  import opened DataStore
  import opened Resolver
  import ResolverFacts

  // ---------------------------------------------------------------------------
  // what the display helpers put in the help buffer

  /** The definition `helper_word_contexts` summarises: the user's note if
      there is one, else the public note. */
  function Definition(row: Data): string
  {
    if row.info != "" then row.info else row.infoPublic
  }

  /** The header line of `helper_word_contexts`. */
  function WordContextsHeader(name: string): string
  {
    "The keyword '" + name + "' has information belonging to the following contexts:"
  }

  /** The summary `helper_word_contexts` builds: for each context in the
      order the query gives them, its name, the first line of its
      definition, and a "\n" line. Vim's buffer interface drops a line's
      trailing newline, so once written to the help buffer that third line
      shows as an empty line; the model keeps the list as the source builds
      it. */
  function ContextSummary(t: Tables, name: string, order: seq<string>): seq<string>
    requires forall i :: 0 <= i < |order| ==> (name, order[i]) in t.data
  {
    if order == [] then []
    else
      var last := order[|order| - 1];
      ContextSummary(t, name, order[..|order| - 1]) + [last, FirstLine(Definition(t.data[(name, last)])), "\n"]
  }

  /** The summary has three lines per context: the context's name, one line
      of its definition holding no line feed and beginning that definition,
      and "\n". */
  lemma {:induction false} ContextSummaryLayout(t: Tables, name: string, order: seq<string>)
    requires forall i :: 0 <= i < |order| ==> (name, order[i]) in t.data
    ensures var r := ContextSummary(t, name, order);
      && |r| == 3 * |order|
      && (forall i :: 0 <= i < |order| ==>
            && r[3 * i] == order[i]
            && r[3 * i + 1] == FirstLine(Definition(t.data[(name, order[i])]))
            && '\n' !in r[3 * i + 1]
            && StartsWith(Definition(t.data[(name, order[i])]), r[3 * i + 1])
            && r[3 * i + 2] == "\n")
  {
    if order != [] {
      var n := |order| - 1;
      ContextSummaryLayout(t, name, order[..n]);
      FirstLineIsPrefix(Definition(t.data[(name, order[n])]));
      var r := ContextSummary(t, name, order);
      forall i | 0 <= i < n
        ensures '\n' !in r[3 * i + 1] && StartsWith(Definition(t.data[(name, order[i])]), r[3 * i + 1])
      {
        assert order[..n][i] == order[i];
        FirstLineIsPrefix(Definition(t.data[(name, order[i])]));
      }
    }
  }

  /** The title line `update_buffer` puts above a keyword's definition. */
  function TitleLine(name: string, contexts: seq<string>): string
  {
    "keyword: " + name + "   contexts: " + Join("; ", contexts)
  }

  /** What `update_buffer(word)` leaves: the lower-cased word in `app.word`,
      and either the keyword it returns (its `current_context` set to the
      first of its contexts) with the help buffer it wrote, or an exception;
      or, for a word `unicode()` cannot decode, an exception raised before
      anything is assigned. */
  datatype Shown =
    | Shown(word: string, keyword: Option<Keyword>, buffer: seq<string>)
    | ShowFailed(word: string, error: Error)
    | Undecodable

  /** `update_buffer(word)`, given the contexts of the keyword in the order
      the query returns them. A stored keyword is shown as a title line and
      the lines of its definition in its first context; a keyword with no
      context makes `contexts[0]` raise; a word that is not stored is shown
      as the invitation for the word as typed. A word with a byte outside
      ASCII makes `unicode(word)` raise first. */
  function ShowWord(t: Tables, raw: string, order: seq<string>): (r: Shown)
    requires ListsContexts(t, Lower(raw), order)
    ensures r.Undecodable? <==> !Ascii(raw)
    ensures !r.Undecodable? ==> r.word == Lower(raw)
    ensures r.Shown? && r.keyword.None? <==> Ascii(raw) && Lower(raw) !in t.keywords
    ensures r.Shown? && r.keyword.Some? <==> Ascii(raw) && Lower(raw) in t.keywords && ContextsOf(t, Lower(raw)) != {}
    ensures r.ShowFailed? <==> Ascii(raw) && Lower(raw) in t.keywords && ContextsOf(t, Lower(raw)) == {}
    ensures r.Shown? && r.keyword.Some? ==>
      && r.keyword == Some(Keyword(Lower(raw), Some(order[0])))
      && r.keyword.value.currentContext.Some?
      && r.keyword.value.currentContext.value in ContextsOf(t, Lower(raw))
      && r.buffer != [] && r.buffer[0] == TitleLine(Lower(raw), order)
      && r.buffer[1..] == SplitLines(t.data[(Lower(raw), r.keyword.value.currentContext.value)].info)
    ensures r.Shown? && r.keyword.None? ==> r.buffer == SplitLines(IntroductionLine(raw))
    ensures r.Shown? && r.keyword.None? && (forall j :: 0 <= j < |raw| ==> !IsLineBreak(raw[j])) ==>
      r.buffer != [] && StartsWith(r.buffer[0], "The keyword \"" + raw + "\" doesn't exist")
  {
    var word := Lower(raw);
    ListedContexts(t, word, order);
    InvitationFirstLine(raw);
    if !Ascii(raw) then Undecodable
    else if word !in t.keywords then Shown(word, None, SplitLines(IntroductionLine(raw)))
    else if order == [] then ShowFailed(word, NoSuchIndex)
    else Shown(word, Some(Keyword(word, Some(order[0]))), [TitleLine(word, order)] + SplitLines(t.data[(word, order[0])].info))
  }

  /** Showing a stored keyword and saving straight away, with no context,
      leaves the store as it was, whenever its definition is plain text
      ("\n" its only line boundary, none at the end). */
  lemma ShowThenSaveKeepsStore(s: Session, raw: string, order: seq<string>)
    requires Lower(raw) in s.tables.keywords && order != []
    requires ListsContexts(s.tables, Lower(raw), order)
    requires ShowWord(s.tables, raw, order).Shown?
    requires s.keyword == ShowWord(s.tables, raw, order).keyword && s.buffer == ShowWord(s.tables, raw, order).buffer
    requires PlainText(s.tables.data[(Lower(raw), order[0])].info)
    ensures HelperSave(s, "") == Finished(s.(context := Name(""), keywordContext := Some(order[0])))
  {
    var name, c := Lower(raw), order[0];
    var info := s.tables.data[(name, c)].info;
    ResolverFacts.SaveUpdatesCurrentContext(s, name, c);
    assert s.buffer[1..] == SplitLines(info);
    JoinSplitLines(info);
    assert ReadVimBuffer(s.buffer, 1) == info;
    assert s.tables.data[(name, c)].(info := info) == s.tables.data[(name, c)];
    assert ResolverFacts.WithInfo(s.tables, name, c, s.buffer) == s.tables;
  }

  /** A `Step` as the state method that ran it reports it: the next state,
      or `None`, and the exception it raised. */
  predicate Reports(r: Step, next: Option<State>, err: Option<Error>)
  {
    match r
    case Next(state, _) => next == Some(state) && err.None?
    case Stop(_) => next.None? && err.None?
    case Fail(e, _) => next.None? && err == Some(e)
  }

  // ---------------------------------------------------------------------------
  // the plugin object

  class App {
    var word: string
    var keyword: Option<Keyword>
    var context: ContextRef
    var keywordContext: Option<string>
    var testAnswers: seq<string>
    var replies: seq<string>
    var helpBuffer: seq<string>
    var state: Option<State>
    var saving: bool
    /** The module flag `TESTING`. */
    const testing: bool
    const db: Database

    /** `App.__init__`: no word, no keyword, no test answers yet. */
    constructor(testing: bool, db: Database, replies: seq<string>)
      ensures this.testing == testing && this.db == db && this.replies == replies
      ensures word == "" && keyword.None? && context.Null? && keywordContext.None?
      ensures testAnswers == [] && helpBuffer == [] && state.None? && !saving
    {
      this.testing := testing;
      this.db := db;
      this.replies := replies;
      word := "";
      keyword := None;
      context := Null;
      keywordContext := None;
      testAnswers := [];
      helpBuffer := [];
      state := None;
      saving := false;
    }

    /** The attributes the save states use, and the store. */
    function Snapshot(): Session
      reads this, db
    {
      Session(word, keyword, context, keywordContext, testing, testAnswers, replies, helpBuffer, db.Snapshot())
    }

    /** `get_test_answer`. */
    method GetTestAnswer() returns (answer: Option<string>)
      modifies this`testAnswers
      ensures (answer, testAnswers) == PopAnswer(old(testAnswers))
    {
      if testAnswers == [] {
        answer := None;
      } else {
        answer := Some(testAnswers[0]);
        testAnswers := testAnswers[1..];
      }
    }

    /** One prompt: `get_test_answer` under test, else the user's reply, normalised. */
    method Prompt() returns (answer: Option<string>)
      modifies this`testAnswers, this`replies
      ensures (answer, Snapshot()) == Ask(old(Snapshot()))
    {
      if testing {
        answer := GetTestAnswer();
      } else if replies == [] {
        answer := None;
      } else {
        answer := Some(Normalize(replies[0]));
        replies := replies[1..];
      }
    }

    /** The prompt of `CheckContextState` and `CreateContextState`:
        `get_test_answer` under test, else `get_user_input`, whose
        `unicode()` raises on a reply that is not ASCII. */
    method GetUserInput() returns (answer: Option<string>, err: Option<Error>)
      modifies this`testAnswers, this`replies
      ensures (answer, err, Snapshot()) == AskUser(old(Snapshot()))
    {
      answer := Prompt();
      err := None;
      if !testing && answer.Some? && !Ascii(answer.value) {
        answer, err := None, Some(NotAscii);
      }
    }

    /** `EntryState.evaluate`. */
    method EvaluateEntry() returns (next: Option<State>, err: Option<Error>)
      modifies this`context, this`keywordContext
      ensures var r := EvalEntry(old(Snapshot())); Snapshot() == r.session && Reports(r, next, err)
    {
      next, err := None, None;
      if keyword.None? && !Truthy(context) {
        next := Some(ReadContext);
      } else if keyword.None? {
        var found := FindContext(db.Snapshot(), context);
        if found.None? {
          next := Some(CreateContext);
        } else {
          context := Row(found.value);
          next := Some(NewKeyword);
        }
      } else if !Truthy(context) {
        if keyword.value.currentContext.None? {
          err := Some(MissingAttribute("current_context"));
        } else {
          keywordContext := keyword.value.currentContext;
          next := Some(UpdateKeyword);
        }
      } else {
        next := Some(UpdateKeyword);
      }
    }

    /** `ReadContextState.evaluate`. */
    method EvaluateReadContext() returns (next: Option<State>, err: Option<Error>)
      modifies this`testAnswers, this`replies
      ensures var r := EvalReadContext(old(Snapshot())); Snapshot() == r.session && Reports(r, next, err)
    {
      var answer := Prompt();
      next, err := None, None;
      if answer.None? {
        err := Some(MissingAttribute("startswith"));
      } else {
        var a := answer.value;
        if a == "1" || StartsWith(a, "y") {
          next := Some(CheckContext);
        } else if StartsWith(a, "2") || StartsWith(a, "n") {
          next := Some(NewKeyword);
        } else if StartsWith(a, "3") || StartsWith(a, "a") {
          next := None;
        } else {
          next := Some(ReadContext);
        }
      }
    }

    /** `CheckContextState.evaluate`. */
    method EvaluateCheckContext() returns (next: Option<State>, err: Option<Error>)
      modifies this`testAnswers, this`replies, this`context
      ensures var r := EvalCheckContext(old(Snapshot())); Snapshot() == r.session && Reports(r, next, err)
    {
      var answer;
      answer, err := GetUserInput();
      if err.Some? {
        return None, err;
      }
      var typed := if answer.None? then Null else Name(answer.value);
      var found := FindContext(db.Snapshot(), typed);
      if found.Some? {
        context := Row(found.value);
        next := Some(NewKeyword);
      } else {
        context := typed;
        next := Some(CreateContext);
      }
    }

    /** `CreateContextState.evaluate`. */
    method EvaluateCreateContext() returns (next: Option<State>, err: Option<Error>)
      modifies this`testAnswers, this`replies, this`context, db
      ensures var r := EvalCreateContext(old(Snapshot())); Snapshot() == r.session && Reports(r, next, err)
    {
      var answer;
      answer, err := GetUserInput();
      if err.Some? {
        return None, err;
      }
      var name := NameOf(context);
      next := None;
      err := db.CreateContext(name, answer);
      if err.None? {
        context := Row(name.value);
        next := if keyword.Some? then Some(UpdateKeyword) else Some(NewKeyword);
      }
    }

    /** `NewKeywordState.evaluate`. */
    method EvaluateNewKeyword() returns (next: Option<State>, err: Option<Error>)
      modifies this`keyword, db
      ensures var r := EvalNewKeyword(old(Snapshot())); Snapshot() == r.session && Reports(r, next, err)
    {
      next := None;
      var c := context;
      if !Truthy(c) {
        if "default" !in db.contexts {
          err := Some(DoesNotExist("context"));
          return;
        }
        c := Row("default");
      }
      err := db.CreateKeyword(word, c, helpBuffer);
      if err.None? {
        keyword := Some(Keyword(word, Some(c.name)));
      }
    }

    /** `UpdateKeywordState.evaluate`. */
    method EvaluateUpdateKeyword() returns (next: Option<State>, err: Option<Error>)
      modifies db
      ensures var r := EvalUpdateKeyword(old(Snapshot())); Snapshot() == r.session && Reports(r, next, err)
    {
      next, err := None, None;
      if Truthy(context) && FindContext(db.Snapshot(), context).None? {
        next := Some(CreateContext);
      } else if keyword.None? || keyword.value.currentContext.None? {
        err := Some(MissingAttribute("current_context"));
      } else {
        err := db.UpdateKeyword(keyword.value.name, keyword.value.currentContext.value, helpBuffer);
      }
    }

    /** `state.evaluate(app, app.keyword, app.context, app.test_answer)`. */
    method EvaluateState(current: State) returns (next: Option<State>, err: Option<Error>)
      modifies this`context, this`keywordContext, this`keyword, this`testAnswers, this`replies, db
      ensures var r := Evaluate(current, old(Snapshot())); Snapshot() == r.session && Reports(r, next, err)
    {
      match current
      case Entry => next, err := EvaluateEntry();
      case ReadContext => next, err := EvaluateReadContext();
      case CheckContext => next, err := EvaluateCheckContext();
      case CreateContext => next, err := EvaluateCreateContext();
      case NewKeyword => next, err := EvaluateNewKeyword();
      case UpdateKeyword => next, err := EvaluateUpdateKeyword();
    }

    /** `helper_save(context, test_answer)`: evaluate states from
        `EntryState` until one returns `None`. An exception leaves the loop
        at once, so `saving` stays true and `state` keeps the state that
        raised. */
    method HelperSave(given: string) returns (err: Option<Error>)
      modifies this, db
      ensures var o := Resolver.HelperSave(old(Snapshot()), given);
        && Snapshot() == o.session
        && (o.Finished? ==> err.None? && !saving && state.None?)
        && (o.Raised? ==> err == Some(o.error) && saving && state.Some?)
    {
      ghost var outcome := Resolver.HelperSave(Snapshot(), given);
      context := Name(given);
      state := Some(Entry);
      saving := true;
      err := None;
      while saving
        invariant saving ==> state.Some? && RunFrom(state.value, Snapshot()) == outcome
        invariant !saving ==> state.None? && outcome == Finished(Snapshot())
        decreases (if saving then 1 else 0), Pending(Snapshot()), if saving && state.Some? then Rank(state.value) else 0
      {
        var next, e := EvaluateState(state.value);
        if e.Some? {
          err := e;
          return;
        }
        state := next;
        if state.None? {
          saving := false;
        }
      }
    }

    /** `helper_delete(keyword)`: deletes the keyword given, with its
        definitions, and says so; with no keyword it only says it cannot.
        `app.keyword` is left as it was, so a second delete gets the object
        already deleted, whose `delete()` raises. A keyword object is
        identified by its name: one whose name is no longer stored is one
        deleted earlier. */
    method HelperDelete(given: Option<Keyword>) returns (message: string, err: Option<Error>)
      modifies db
      ensures given.Some? && given.value.name in old(db.keywords) ==>
        && db.Snapshot() == DeleteKeywordEffect(old(db.Snapshot()), given.value.name)
        && message == "Keyword " + given.value.name + " and its definition was removed from database"
        && err.None?
      ensures given.Some? && given.value.name !in old(db.keywords) ==>
        db.Snapshot() == old(db.Snapshot()) && message == "" && err == Some(Unsaved("delete"))
      ensures given.None? ==>
        && db.Snapshot() == old(db.Snapshot())
        && message == "Can't delete a word and its definition if it's not in the database."
        && err.None?
    {
      message, err := "", None;
      if given.Some? {
        var name := given.value.name;
        if name !in db.keywords {
          return "", Some(Unsaved("delete"));
        }
        db.DeleteKeyword(name);
        message := "Keyword " + name + " and its definition was removed from database";
      } else {
        message := "Can't delete a word and its definition if it's not in the database.";
      }
    }

    /** `helper_word_contexts()`, given the keyword's contexts in the order
        the query returns them: the header and the summary go to the help
        buffer and the context names are returned; with no keyword nothing
        happens. The names returned are those of every context the keyword
        has a definition in, each once. A keyword deleted earlier (its name
        no longer stored) makes `contexts.all()` raise before anything is
        written. */
    method HelperWordContexts(order: seq<string>) returns (names: Option<seq<string>>, err: Option<Error>)
      requires keyword.Some? ==> ListsContexts(db.Snapshot(), keyword.value.name, order)
      modifies this`helpBuffer
      ensures keyword.None? ==> names.None? && helpBuffer == old(helpBuffer) && err.None?
      ensures keyword.Some? && keyword.value.name !in db.keywords ==>
        names.None? && helpBuffer == old(helpBuffer) && err == Some(Unsaved("contexts"))
      ensures keyword.Some? && keyword.value.name in db.keywords ==>
        && err.None?
        && names == Some(order)
        && (forall c :: c in order <==> c in ContextsOf(db.Snapshot(), keyword.value.name))
        && helpBuffer == [WordContextsHeader(keyword.value.name)] + ContextSummary(db.Snapshot(), keyword.value.name, order)
    {
      names, err := None, None;
      if keyword.Some? {
        var name := keyword.value.name;
        if name !in db.keywords {
          return None, Some(Unsaved("contexts"));
        }
        var t := db.Snapshot();
        var summary: seq<string> := [];
        var i := 0;
        while i < |order|
          invariant 0 <= i <= |order|
          invariant summary == ContextSummary(t, name, order[..i])
        {
          var row := t.data[(name, order[i])];
          var definition := if row.info != "" then row.info else row.infoPublic;
          summary := summary + [order[i], Split(definition, '\n')[0], "\n"];
          assert order[..i + 1][..i] == order[..i];
          i := i + 1;
        }
        assert order[..|order|] == order;
        ListedContexts(t, name, order);
        helpBuffer := [WordContextsHeader(name)] + summary;
        names := Some(order);
      }
    }

    /** `VimWrapper.update_buffer(word)`, given the contexts of the keyword
        in the order the query returns them; the keyword it returns becomes
        `app.keyword` at the caller. */
    method UpdateBuffer(raw: string, order: seq<string>) returns (found: Option<Keyword>, err: Option<Error>)
      requires ListsContexts(db.Snapshot(), Lower(raw), order)
      modifies this`word, this`helpBuffer
      ensures var r := ShowWord(db.Snapshot(), raw, order);
        && (r.Shown? ==> word == r.word && found == r.keyword && helpBuffer == r.buffer && err.None?)
        && (r.ShowFailed? ==> word == r.word && found.None? && helpBuffer == old(helpBuffer) && err == Some(r.error))
        && (r.Undecodable? ==> word == old(word) && found.None? && helpBuffer == old(helpBuffer) && err == Some(NotAscii))
    {
      found, err := None, None;
      if !Ascii(raw) {
        err := Some(NotAscii);
        return;
      }
      word := Lower(raw);
      if word in db.keywords {
        if order == [] {
          err := Some(NoSuchIndex);
          return;
        }
        found := Some(Keyword(word, Some(order[0])));
        helpBuffer := [TitleLine(word, order)] + helpBuffer;
        helpBuffer := helpBuffer[..1] + SplitLines(db.data[(word, order[0])].info);
      } else {
        helpBuffer := SplitLines(IntroductionLine(raw));
      }
    }
  }
}
