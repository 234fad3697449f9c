/** What a whole `helper_save` does to the store, over all inputs, and the
    functional-test scenarios of test/ft.py stated for every store, word and
    buffer rather than for the one word "rgb". */
module ResolverFacts {
  import opened Common
  import opened DataStore
  import opened Resolver

  /** The store with `word` added as a keyword whose one definition, in
      context `c`, holds the whole buffer. */
  function WithDefinition(t: Tables, word: string, c: string, buf: seq<string>): Tables
  {
    t.(keywords := t.keywords + {word}, data := t.data[(word, c) := Data("", "", ReadVimBuffer(buf, 0))])
  }

  /** The store with the definition of `keyword` in context `c` rewritten to
      the buffer without its title line. */
  function WithInfo(t: Tables, keyword: string, c: string, buf: seq<string>): Tables
    requires (keyword, c) in t.data
  {
    t.(data := t.data[(keyword, c) := t.data[(keyword, c)].(info := ReadVimBuffer(buf, 1))])
  }

  // ---------------------------------------------------------------------------
  // one step of each state

  /** `EntryState` asks nothing and writes nothing; it goes to
      `ReadContextState` with neither a keyword nor a context, to
      `NewKeywordState` for a new word with a stored context, to
      `CreateContextState` for a new word with an unknown context, and to
      `UpdateKeywordState` for a stored keyword. */
  lemma EntryStep(s: Session)
    ensures var r := Evaluate(Entry, s);
      && r.session.tables == s.tables && r.session.testAnswers == s.testAnswers && r.session.replies == s.replies
      && (r.Fail? <==> s.keyword.Some? && !Truthy(s.context) && s.keyword.value.currentContext.None?)
      && (r.Next? && r.state == ReadContext <==> s.keyword.None? && !Truthy(s.context))
      && (r.Next? && r.state == NewKeyword <==>
            s.keyword.None? && Truthy(s.context) && FindContext(s.tables, s.context).Some?)
      && (r.Next? && r.state == NewKeyword ==> r.session.context == Row(FindContext(s.tables, s.context).value))
      && (r.Next? && r.state == CreateContext <==>
            s.keyword.None? && Truthy(s.context) && FindContext(s.tables, s.context).None?)
      && (r.Next? && r.state == UpdateKeyword <==>
            s.keyword.Some? && (Truthy(s.context) || s.keyword.value.currentContext.Some?))
  {
  }

  /** `ReadContextState` under test consumes one answer, writes nothing and
      never raises while an answer is queued: "1" or "y…" goes on to
      `CheckContextState`, "2…"/"n…" to `NewKeywordState`, "3…"/"a…" stops,
      and anything else asks again. */
  lemma ReadContextStep(s: Session, answer: string, rest: seq<string>)
    requires s.testing && s.testAnswers == [answer] + rest
    ensures var r := Evaluate(ReadContext, s);
      && r.session == s.(testAnswers := rest)
      && !r.Fail?
      && (r.Next? && r.state == CheckContext <==> answer == "1" || StartsWith(answer, "y"))
      && (r.Next? && r.state == NewKeyword <==>
            answer != "1" && !StartsWith(answer, "y") && (StartsWith(answer, "2") || StartsWith(answer, "n")))
      && (r.Stop? <==> ReadChoice(answer) == Abort)
      && (r.Next? && r.state == ReadContext <==> ReadChoice(answer) == Invalid)
  {
    assert s.testAnswers[1..] == rest;
  }

  /** `CheckContextState` under test consumes one answer and writes nothing:
      a stored name becomes the context row and `NewKeywordState` follows;
      any other text is kept as the context and `CreateContextState` follows. */
  lemma CheckContextStep(s: Session, name: string, rest: seq<string>)
    requires s.testing && s.testAnswers == [name] + rest
    ensures var r := Evaluate(CheckContext, s);
      && r.Next? && r.session.tables == s.tables && r.session.testAnswers == rest
      && (name in s.tables.contexts ==> r.state == NewKeyword && r.session.context == Row(name))
      && (name !in s.tables.contexts ==> r.state == CreateContext && r.session.context == Name(name))
  {
    assert s.testAnswers[1..] == rest;
  }

  /** `CreateContextState` under test creates exactly one context, named
      `app.context` and described by the answer, then goes to
      `UpdateKeywordState` or `NewKeywordState` as there is a keyword or
      not; a name already stored makes the creation raise, storing nothing. */
  lemma CreateContextStep(s: Session, description: string, rest: seq<string>)
    requires s.testing && s.testAnswers == [description] + rest && !s.context.Null?
    ensures var r := Evaluate(CreateContext, s);
      var name := NameOf(s.context).value;
      && (name in s.tables.contexts ==> r == Fail(Duplicate("context", name), s.(testAnswers := rest)))
      && (name !in s.tables.contexts ==>
            && r.Next?
            && r.session == s.(testAnswers := rest, context := Row(name),
                               tables := s.tables.(contexts := s.tables.contexts[name := description]))
            && r.state == (if s.keyword.Some? then UpdateKeyword else NewKeyword))
  {
    assert s.testAnswers[1..] == rest;
  }

  /** Outside test mode a reply holding a byte outside ASCII makes
      `get_user_input` raise at the context-name and description prompts,
      with the reply consumed and nothing else changed. `ReadContextState`
      reads its reply without `unicode()`, so the same reply never makes it
      raise. */
  lemma UndecodableReplyRaises(s: Session, reply: string, rest: seq<string>)
    requires !s.testing && s.replies == [reply] + rest && !Ascii(reply)
    ensures Evaluate(CheckContext, s) == Fail(NotAscii, s.(replies := rest))
    ensures Evaluate(CreateContext, s) == Fail(NotAscii, s.(replies := rest))
    ensures !Evaluate(ReadContext, s).Fail? && Evaluate(ReadContext, s).session == s.(replies := rest)
  {
    assert s.replies[1..] == rest;
  }

  /** `NewKeywordState` stores the word, with one definition holding the
      whole buffer, in the context set or else in "default", records that
      context as the keyword's `current_context` and stops; it raises
      exactly when the word is stored already or that context is not. */
  lemma NewKeywordStep(s: Session)
    ensures var r := Evaluate(NewKeyword, s);
      var c := if Truthy(s.context) then NameOf(s.context).value else "default";
      && !r.Next?
      && (r.Stop? <==> s.word !in s.tables.keywords && (s.context.Name? ==> !Truthy(s.context)) && c in s.tables.contexts)
      && (r.Stop? ==>
            && r.session.keyword == Some(Keyword(s.word, Some(c)))
            && r.session.tables == WithDefinition(s.tables, s.word, c, s.buffer))
  {
  }

  /** `UpdateKeywordState` for a keyword whose `current_context` is `c`: a
      context given and not stored sends the save to `CreateContextState`;
      otherwise the definition in `c` is rewritten, whatever context was
      given, or the save raises when there is none. */
  lemma UpdateKeywordStep(s: Session, name: string, c: string)
    requires s.keyword == Some(Keyword(name, Some(c)))
    ensures var r := Evaluate(UpdateKeyword, s);
      && (Truthy(s.context) && FindContext(s.tables, s.context).None? ==> r == Next(CreateContext, s))
      && (!Truthy(s.context) || FindContext(s.tables, s.context).Some? ==>
            && ((name, c) in s.tables.data ==> r == Stop(s.(tables := WithInfo(s.tables, name, c, s.buffer))))
            && ((name, c) !in s.tables.data ==> r == Fail(DoesNotExist("data"), s)))
  {
  }

  /** However a save goes, it ends, keeps the word, buffer and test flag, and
      leaves a store that kept every keyword, context and definition row it
      had and is still consistent, even when a step raised part-way. */
  lemma {:induction false} RunFromGrows(state: State, s: Session)
    requires Consistent(s.tables)
    ensures var o := RunFrom(state, s);
      && Consistent(o.session.tables) && Grows(s.tables, o.session.tables)
      && o.session.word == s.word && o.session.buffer == s.buffer && o.session.testing == s.testing
    decreases Pending(s), Rank(state)
  {
    var r := Evaluate(state, s);
    if r.Next? {
      RunFromGrows(r.state, r.session);
      GrowsTransitive(s.tables, r.session.tables, RunFrom(r.state, r.session).session.tables);
    }
  }

  /** A save of a word that is not a keyword yet (`app.keyword` is None)
      either ends with the store exactly as it was (the abort) or ends with
      exactly this word added as a keyword, one definition holding the
      buffer in the context recorded as its `current_context`, and at most
      that one context added. */
  lemma {:induction false} NewKeywordShape(state: State, s: Session)
    requires s.keyword.None? && state != UpdateKeyword
    ensures var o := RunFrom(state, s);
      o.Finished? ==>
        (o.session.keyword.None? && o.session.tables == s.tables)
        || (&& o.session.keyword.Some?
            && o.session.keyword.value.name == s.word
            && o.session.keyword.value.currentContext.Some?
            && var c := o.session.keyword.value.currentContext.value;
               && o.session.tables.keywords == s.tables.keywords + {s.word}
               && o.session.tables.data == WithDefinition(s.tables, s.word, c, s.buffer).data
               && o.session.tables.contexts.Keys <= s.tables.contexts.Keys + {c}
               && c in o.session.tables.contexts)
    decreases Pending(s), Rank(state)
  {
    var r := Evaluate(state, s);
    if state == CreateContext {
      if r.Next? {
        assert r.state == NewKeyword && r.session.context.Row?;
        var name := r.session.context.name;
        assert r.session.tables.contexts.Keys == s.tables.contexts.Keys + {name};
        assert r.session.tables.keywords == s.tables.keywords && r.session.tables.data == s.tables.data;
      }
    } else if state != NewKeyword && r.Next? {
      assert r.session.keyword.None? && r.state != UpdateKeyword;
      NewKeywordShape(r.state, r.session);
    }
  }

  /** Answers to the three-way question that are not understood are asked
      again; an abort then ends the save and the store is as it was (a word
      that was not a keyword still is not one). */
  lemma {:induction false} AbortAfterInvalidAnswers(s: Session, bad: seq<string>, abort: string, rest: seq<string>)
    requires s.testing && s.testAnswers == bad + [abort] + rest
    requires forall i :: 0 <= i < |bad| ==> ReadChoice(bad[i]) == Invalid
    requires ReadChoice(abort) == Abort
    ensures RunFrom(ReadContext, s) == Finished(s.(testAnswers := rest))
    decreases |bad|
  {
    if bad == [] {
      assert s.testAnswers == [abort] + rest;
      assert Evaluate(ReadContext, s) == Stop(s.(testAnswers := rest));
    } else {
      var s1 := s.(testAnswers := bad[1..] + [abort] + rest);
      assert s.testAnswers[0] == bad[0];
      assert s.testAnswers[1..] == bad[1..] + [abort] + rest;
      assert Evaluate(ReadContext, s) == Next(ReadContext, s1);
      AbortAfterInvalidAnswers(s1, bad[1..], abort, rest);
    }
  }

  /** `:HelperSave ""` for a new word, answering "3" (test_008): nothing is stored. */
  lemma SaveAborted(s: Session, bad: seq<string>, abort: string, rest: seq<string>)
    requires s.keyword.None? && s.testing && s.testAnswers == bad + [abort] + rest
    requires forall i :: 0 <= i < |bad| ==> ReadChoice(bad[i]) == Invalid
    requires ReadChoice(abort) == Abort
    ensures HelperSave(s, "") == Finished(s.(context := Name(""), testAnswers := rest))
    ensures s.word !in s.tables.keywords ==> s.word !in HelperSave(s, "").session.tables.keywords
  {
    var s0 := s.(context := Name(""));
    assert Evaluate(Entry, s0) == Next(ReadContext, s0);
    assert HelperSave(s, "") == RunFrom(ReadContext, s0);
    AbortAfterInvalidAnswers(s0, bad, abort, rest);
  }

  /** `:HelperSave ""` with no answer queued: reading the answer raises
      (`None.startswith`), and nothing is stored. */
  lemma SaveWithEmptyQueueRaises(s: Session)
    requires s.keyword.None? && s.testing && s.testAnswers == []
    ensures HelperSave(s, "") == Raised(MissingAttribute("startswith"), s.(context := Name("")))
  {
    var s0 := s.(context := Name(""));
    assert Evaluate(Entry, s0) == Next(ReadContext, s0);
    assert Evaluate(ReadContext, s0) == Fail(MissingAttribute("startswith"), s0);
    assert HelperSave(s, "") == RunFrom(ReadContext, s0);
  }

  /** `:HelperSave ""` for a new word, answering "2" (test_007): the word is
      stored with its definition in the context "default". */
  lemma SaveInDefaultContext(s: Session, no: string, rest: seq<string>)
    requires s.keyword.None? && s.testing && s.testAnswers == [no] + rest
    requires ReadChoice(no) == NoContext
    requires s.word !in s.tables.keywords && "default" in s.tables.contexts
    ensures var o := HelperSave(s, "");
      && o.Finished?
      && o.session.tables == WithDefinition(s.tables, s.word, "default", s.buffer)
      && o.session.keyword == Some(Keyword(s.word, Some("default")))
      && o.session.testAnswers == rest
  {
    var s0 := s.(context := Name(""));
    var s1 := s0.(testAnswers := rest);
    assert Evaluate(Entry, s0) == Next(ReadContext, s0);
    assert Evaluate(ReadContext, s0) == Next(NewKeyword, s1);
    assert HelperSave(s, "") == RunFrom(ReadContext, s0) == RunFrom(NewKeyword, s1);
  }

  /** `:HelperSave ""` for a new word, answering "1", a context name that
      is not stored and its description (test_004): the context is created
      with that description and the word is stored in it. */
  lemma SaveInContextCreatedWhenPrompted(s: Session, yes: string, name: string, description: string, rest: seq<string>)
    requires s.keyword.None? && s.testing && s.testAnswers == [yes, name, description] + rest
    requires ReadChoice(yes) == Provide
    requires name !in s.tables.contexts && s.word !in s.tables.keywords
    ensures var o := HelperSave(s, "");
      && o.Finished?
      && o.session.tables == WithDefinition(s.tables.(contexts := s.tables.contexts[name := description]), s.word, name, s.buffer)
      && o.session.keyword == Some(Keyword(s.word, Some(name)))
      && o.session.testAnswers == rest
  {
    var s0 := s.(context := Name(""));
    var s1 := s0.(testAnswers := [name, description] + rest);
    var s2 := s1.(testAnswers := [description] + rest, context := Name(name));
    var t3 := s.tables.(contexts := s.tables.contexts[name := description]);
    var s3 := s2.(testAnswers := rest, context := Row(name), tables := t3);
    assert Evaluate(Entry, s0) == Next(ReadContext, s0);
    assert s0.testAnswers[1..] == [name, description] + rest;
    assert Evaluate(ReadContext, s0) == Next(CheckContext, s1);
    assert s1.testAnswers[1..] == [description] + rest;
    assert Evaluate(CheckContext, s1) == Next(CreateContext, s2);
    assert Evaluate(CreateContext, s2) == Next(NewKeyword, s3);
    assert HelperSave(s, "") == RunFrom(ReadContext, s0) == RunFrom(CheckContext, s1);
    assert RunFrom(CheckContext, s1) == RunFrom(CreateContext, s2) == RunFrom(NewKeyword, s3);
  }

  /** `:HelperSave ""` for a new word, answering "1" and the name of a stored
      context: the word is stored in that context and no context is created. */
  lemma SaveInContextChosenWhenPrompted(s: Session, yes: string, name: string, rest: seq<string>)
    requires s.keyword.None? && s.testing && s.testAnswers == [yes, name] + rest
    requires ReadChoice(yes) == Provide
    requires name in s.tables.contexts && s.word !in s.tables.keywords
    ensures var o := HelperSave(s, "");
      && o.Finished?
      && o.session.tables == WithDefinition(s.tables, s.word, name, s.buffer)
      && o.session.keyword == Some(Keyword(s.word, Some(name)))
      && o.session.testAnswers == rest
  {
    var s0 := s.(context := Name(""));
    var s1 := s0.(testAnswers := [name] + rest);
    var s2 := s1.(testAnswers := rest, context := Row(name));
    assert Evaluate(Entry, s0) == Next(ReadContext, s0);
    assert s0.testAnswers[1..] == [name] + rest;
    assert Evaluate(ReadContext, s0) == Next(CheckContext, s1);
    assert Evaluate(CheckContext, s1) == Next(NewKeyword, s2);
    assert HelperSave(s, "") == RunFrom(ReadContext, s0) == RunFrom(CheckContext, s1);
    assert RunFrom(CheckContext, s1) == RunFrom(NewKeyword, s2);
  }

  /** `:HelperSave kivy` for a new word and a stored context (test_009): the
      word is stored in it, and no question is asked. */
  lemma SaveInGivenContext(s: Session, context: string)
    requires s.keyword.None? && context != "" && context in s.tables.contexts && s.word !in s.tables.keywords
    ensures var o := HelperSave(s, context);
      && o.Finished?
      && o.session.tables == WithDefinition(s.tables, s.word, context, s.buffer)
      && o.session.keyword == Some(Keyword(s.word, Some(context)))
      && o.session.testAnswers == s.testAnswers && o.session.replies == s.replies
  {
    var s0 := s.(context := Name(context));
    assert Evaluate(Entry, s0) == Next(NewKeyword, s0.(context := Row(context)));
    assert HelperSave(s, context) == RunFrom(NewKeyword, s0.(context := Row(context)));
  }

  /** `:HelperSave "functional tests"` for a new word and a context that is
      not stored (test_010): one answer, the description, creates the
      context, and the word is stored in it. */
  lemma SaveInGivenNewContext(s: Session, context: string, description: string, rest: seq<string>)
    requires s.keyword.None? && s.testing && s.testAnswers == [description] + rest
    requires context != "" && context !in s.tables.contexts && s.word !in s.tables.keywords
    ensures var o := HelperSave(s, context);
      && o.Finished?
      && o.session.tables == WithDefinition(s.tables.(contexts := s.tables.contexts[context := description]), s.word, context, s.buffer)
      && o.session.keyword == Some(Keyword(s.word, Some(context)))
      && o.session.testAnswers == rest
  {
    var s0 := s.(context := Name(context));
    var t1 := s.tables.(contexts := s.tables.contexts[context := description]);
    var s1 := s0.(testAnswers := rest, context := Row(context), tables := t1);
    assert Evaluate(Entry, s0) == Next(CreateContext, s0);
    assert Evaluate(CreateContext, s0) == Next(NewKeyword, s1);
    assert HelperSave(s, context) == RunFrom(CreateContext, s0) == RunFrom(NewKeyword, s1);
  }

  /** `:HelperSave` with no context for a stored keyword (test_011): its
      definition in its current context becomes the buffer without the title
      line, and no question is asked. */
  lemma SaveUpdatesCurrentContext(s: Session, name: string, c: string)
    requires s.keyword == Some(Keyword(name, Some(c))) && (name, c) in s.tables.data
    ensures HelperSave(s, "") ==
      Finished(s.(context := Name(""), keywordContext := Some(c), tables := WithInfo(s.tables, name, c, s.buffer)))
  {
    var s0 := s.(context := Name(""));
    var s1 := s0.(keywordContext := Some(c));
    assert Evaluate(Entry, s0) == Next(UpdateKeyword, s1);
    assert Evaluate(UpdateKeyword, s1) == Stop(s1.(tables := WithInfo(s.tables, name, c, s.buffer)));
    assert HelperSave(s, "") == RunFrom(UpdateKeyword, s1);
  }

  /** Saving the same buffer twice leaves what saving it once leaves. */
  lemma SaveUpdateIdempotent(s: Session, name: string, c: string)
    requires s.keyword == Some(Keyword(name, Some(c))) && (name, c) in s.tables.data
    ensures var once := HelperSave(s, "").session;
      HelperSave(once, "").session.tables == once.tables
  {
    SaveUpdatesCurrentContext(s, name, c);
    var once := HelperSave(s, "").session;
    SaveUpdatesCurrentContext(once, name, c);
    UpdateInfoIdempotent(s.tables, name, c, ReadVimBuffer(s.buffer, 1));
  }

  /** The defect of line 632: for a stored keyword, a context given to
      `:HelperSave` that is stored is looked up and then ignored; the
      definition written is the one in the keyword's current context. */
  lemma UpdateIgnoresSuppliedContext(s: Session, name: string, c: string, given: string)
    requires s.keyword == Some(Keyword(name, Some(c))) && (name, c) in s.tables.data
    requires given in s.tables.contexts
    ensures var o := HelperSave(s, given);
      && o.Finished?
      && o.session.tables == WithInfo(s.tables, name, c, s.buffer)
  {
    var s0 := s.(context := Name(given));
    var s1 := if given == "" then s0.(keywordContext := Some(c)) else s0;
    assert Evaluate(Entry, s0) == Next(UpdateKeyword, s1);
    assert Evaluate(UpdateKeyword, s1) == Stop(s1.(tables := WithInfo(s.tables, name, c, s.buffer)));
    assert HelperSave(s, given) == RunFrom(UpdateKeyword, s1);
  }

  /** The same defect with a context that is not stored: it is created, with
      the one answer as its description, and still receives no definition. */
  lemma UpdateCreatesUnusedContext(s: Session, name: string, c: string, given: string, description: string, rest: seq<string>)
    requires s.keyword == Some(Keyword(name, Some(c))) && (name, c) in s.tables.data
    requires s.testing && s.testAnswers == [description] + rest
    requires given != "" && given !in s.tables.contexts && Consistent(s.tables)
    ensures var o := HelperSave(s, given);
      && o.Finished?
      && o.session.tables == WithInfo(s.tables.(contexts := s.tables.contexts[given := description]), name, c, s.buffer)
      && (name, given) !in o.session.tables.data
  {
    var s0 := s.(context := Name(given));
    var t1 := s.tables.(contexts := s.tables.contexts[given := description]);
    var s1 := s0.(testAnswers := rest, context := Row(given), tables := t1);
    assert Evaluate(Entry, s0) == Next(UpdateKeyword, s0);
    assert Evaluate(UpdateKeyword, s0) == Next(CreateContext, s0);
    assert Evaluate(CreateContext, s0) == Next(UpdateKeyword, s1);
    assert Evaluate(UpdateKeyword, s1) == Stop(s1.(tables := WithInfo(t1, name, c, s.buffer)));
    assert HelperSave(s, given) == RunFrom(UpdateKeyword, s0) == RunFrom(CreateContext, s0);
    assert RunFrom(CreateContext, s0) == RunFrom(UpdateKeyword, s1);
  }

  /** `helper_delete` does not clear `app.keyword`: a save with no context
      after the keyword was deleted looks for the definition the delete
      removed, and raises. */
  lemma SaveAfterDeleteRaises(s: Session, name: string, c: string)
    requires s.keyword == Some(Keyword(name, Some(c)))
    ensures var t := DeleteKeywordEffect(s.tables, name);
      HelperSave(s.(tables := t), "")
        == Raised(DoesNotExist("data"), s.(tables := t, context := Name(""), keywordContext := Some(c)))
  {
    var t := DeleteKeywordEffect(s.tables, name);
    var s0 := s.(tables := t, context := Name(""));
    var s1 := s0.(keywordContext := Some(c));
    assert (name, c) !in t.data;
    assert Evaluate(Entry, s0) == Next(UpdateKeyword, s1);
    assert HelperSave(s.(tables := t), "") == RunFrom(UpdateKeyword, s1);
  }
}
