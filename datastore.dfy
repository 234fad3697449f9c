/** The keyword/context/definition store of gotoword/test/utils2.py: the
    Django models `Context`, `Keyword` and the through-model `Data`, and the
    helper functions that create keywords and write definitions into it.

    The tables are values (`Tables`); what each helper does to them is a
    function returning an `Effect`, and the class `Database` is the mutable
    store that the helpers update in place. Django saves every row as soon as
    it is written, so an effect that ends in an error keeps the rows written
    before the error. */
module DataStore {
  import opened Common

  /** The exceptions the save path can raise. */
  datatype Error =
    | Duplicate(table: string, name: string)   // IntegrityError: UNIQUE constraint
    | NotNull(column: string)                  // IntegrityError: NOT NULL constraint
    | DoesNotExist(table: string)              // Model.DoesNotExist from objects.get
    | NotAContext(text: string)                // ValueError: a str given where a Context row is needed
    | MissingAttribute(name: string)           // AttributeError
    | NoSuchIndex                              // IndexError
    | NotSliceable(type_: string)              // TypeError: slicing an object that is no sequence
    | NotAscii                                 // UnicodeDecodeError: `unicode()` of non-ASCII bytes
    | Unsaved(operation: string)               // a deleted instance, whose pk Django has set to None, used again

  /** One `Data` row: the definition of a keyword in one context. */
  datatype Data = Data(cmd: string, infoPublic: string, info: string)

  /** Keyword names (unique), context name to description (names unique), and
      the `Data` rows keyed by (keyword name, context name). */
  datatype Tables = Tables(
    keywords: set<string>,
    contexts: map<string, string>,
    data: map<(string, string), Data>)

  /** The tables after an operation, and the exception it raised, if any. */
  datatype Effect = Effect(after: Tables, error: Option<Error>)

  /** What `context` holds in the source at a given moment: `None`, a `str`
      typed by the user, or a `Context` row (named by its unique name). */
  datatype ContextRef = Null | Name(text: string) | Row(name: string)

  /** Python truthiness of a `context` value: `None` and `""` are false, a row is true. */
  predicate Truthy(c: ContextRef)
  {
    match c
    case Null => false
    case Name(text) => text != ""
    case Row(_) => true
  }

  /** Every `Data` row points at a stored keyword and a stored context. */
  predicate Consistent(t: Tables)
  {
    forall p :: p in t.data ==> p.0 in t.keywords && p.1 in t.contexts
  }

  /** The contexts a keyword has a definition in (`keyword.contexts.all()`). */
  function ContextsOf(t: Tables, keyword: string): set<string>
  {
    set p | p in t.data && p.0 == keyword :: p.1
  }

  /** `order` is a listing of `keyword.contexts.all()` as the query returns
      it: each context the keyword has a definition in, exactly once. */
  predicate ListsContexts(t: Tables, keyword: string, order: seq<string>)
  {
    && (forall i :: 0 <= i < |order| ==> (keyword, order[i]) in t.data)
    && (forall p :: p in t.data && p.0 == keyword ==> p.1 in order)
    && (forall i, j :: 0 <= i < j < |order| ==> order[i] != order[j])
  }

  /** A listing holds the same names as `ContextsOf`, so it is empty
      exactly when the keyword has no definition. */
  lemma ListedContexts(t: Tables, keyword: string, order: seq<string>)
    requires ListsContexts(t, keyword, order)
    ensures forall c :: c in order <==> c in ContextsOf(t, keyword)
    ensures order == [] <==> ContextsOf(t, keyword) == {}
  {
    forall c
      ensures c in order <==> c in ContextsOf(t, keyword)
    {
      if c in order {
        var i :| 0 <= i < |order| && order[i] == c;
        assert (keyword, c) in t.data;
      }
      if c in ContextsOf(t, keyword) {
        var p :| p in t.data && p.0 == keyword && p.1 == c;
      }
    }
    if order != [] {
      assert order[0] in ContextsOf(t, keyword);
    }
  }

  /** `t2` keeps every keyword, context (with its description) and `Data` row
      of `t1`, and every row's `cmd` and `info_public`: only `info` may change. */
  predicate Grows(t1: Tables, t2: Tables)
  {
    && t1.keywords <= t2.keywords
    && t1.contexts.Keys <= t2.contexts.Keys
    && (forall c :: c in t1.contexts ==> t2.contexts[c] == t1.contexts[c])
    && t1.data.Keys <= t2.data.Keys
    && (forall p :: p in t1.data ==>
          t2.data[p].cmd == t1.data[p].cmd && t2.data[p].infoPublic == t1.data[p].infoPublic)
  }

  lemma GrowsTransitive(t1: Tables, t2: Tables, t3: Tables)
    requires Grows(t1, t2) && Grows(t2, t3)
    ensures Grows(t1, t3)
  {
  }

  /** `find_model_object(context, Context)`: the stored context with that exact name. */
  function FindContext(t: Tables, c: ContextRef): (r: Option<string>)
    ensures r.Some? <==> (c.Name? && c.text in t.contexts) || (c.Row? && c.name in t.contexts)
    ensures r.Some? ==> r.value in t.contexts
  {
    match c
    case Null => None
    case Name(text) => if text in t.contexts then Some(text) else None
    case Row(name) => if name in t.contexts then Some(name) else None
  }

  /** `read_vim_buffer(buf, k)`: the lines from index `k` on, joined with "\n". */
  function ReadVimBuffer(buf: seq<string>, k: nat): string
  {
    Join("\n", if k <= |buf| then buf[k..] else [])
  }

  /** Splitting what `read_vim_buffer` returns at "\n" gives back the lines it
      read, when at least one line was read and none of them holds "\n". */
  lemma ReadVimBufferSplits(buf: seq<string>, k: nat)
    requires k < |buf|
    requires forall i :: k <= i < |buf| ==> '\n' !in buf[i]
    ensures Split(ReadVimBuffer(buf, k), '\n') == buf[k..]
  {
    var lines := buf[k..];
    forall i | 0 <= i < |lines| ensures '\n' !in lines[i] {
      assert lines[i] == buf[k + i];
    }
    SplitJoin(lines, '\n');
  }

  /** `Context.objects.create(name=..., description=...)`: both columns are
      NOT NULL and the name is unique. */
  function CreateContextEffect(t: Tables, name: Option<string>, description: Option<string>): (r: Effect)
    ensures r.error.None? <==> name.Some? && description.Some? && name.value !in t.contexts
    ensures r.error.None? ==>
      r.after == t.(contexts := t.contexts[name.value := description.value])
    ensures r.error.Some? ==> r.after == t
    ensures Grows(t, r.after)
    ensures Consistent(t) ==> Consistent(r.after)
  {
    if name.None? then Effect(t, Some(NotNull("context.name")))
    else if description.None? then Effect(t, Some(NotNull("context.description")))
    else if name.value in t.contexts then Effect(t, Some(Duplicate("context", name.value)))
    else Effect(t.(contexts := t.contexts[name.value := description.value]), None)
  }

  /** `update_info(keyword, context, content)`: the `Data` row of the pair gets
      `info = content`; `cmd`, `info_public` and every other row stay. */
  function UpdateInfoEffect(t: Tables, keyword: string, context: string, content: string): (r: Effect)
    ensures r.error.None? <==> (keyword, context) in t.data
    ensures r.error.Some? ==> r.error == Some(DoesNotExist("data")) && r.after == t
    ensures r.error.None? ==>
      && r.after.keywords == t.keywords && r.after.contexts == t.contexts
      && r.after.data.Keys == t.data.Keys
      && r.after.data[(keyword, context)].info == content
      && r.after.data[(keyword, context)].cmd == t.data[(keyword, context)].cmd
      && r.after.data[(keyword, context)].infoPublic == t.data[(keyword, context)].infoPublic
      && (forall p :: p in t.data && p != (keyword, context) ==> r.after.data[p] == t.data[p])
    ensures Grows(t, r.after)
    ensures Consistent(t) ==> Consistent(r.after)
  {
    if (keyword, context) !in t.data then Effect(t, Some(DoesNotExist("data")))
    else
      var row := t.data[(keyword, context)];
      Effect(t.(data := t.data[(keyword, context) := row.(info := content)]), None)
  }

  /** Writing the same text twice leaves what writing it once leaves. */
  lemma UpdateInfoIdempotent(t: Tables, keyword: string, context: string, content: string)
    requires UpdateInfoEffect(t, keyword, context, content).error.None?
    ensures var once := UpdateInfoEffect(t, keyword, context, content).after;
            UpdateInfoEffect(once, keyword, context, content) == Effect(once, None)
  {
    var once := UpdateInfoEffect(t, keyword, context, content).after;
    assert once.data[(keyword, context)].info == content;
    assert once.data[(keyword, context)] == t.data[(keyword, context)].(info := content);
    assert once.data[(keyword, context) := once.data[(keyword, context)].(info := content)] == once.data;
  }

  /** `create_keyword(word, context, buf)`, with `update_info` given the
      arguments its signature asks for (see `CreateKeywordAsWritten`): the
      keyword row is created first (its name is unique), a falsy context
      means the context named "default", and one `Data` row for the pair then
      holds the whole buffer, title line included, joined with "\n". */
  function CreateKeywordEffect(t: Tables, word: string, context: ContextRef, buf: seq<string>): (r: Effect)
    ensures word in t.keywords ==> r == Effect(t, Some(Duplicate("keyword", word)))
    ensures word !in t.keywords ==> r.after.keywords == t.keywords + {word}
    ensures r.after.contexts == t.contexts
    ensures r.error.None? <==>
      word !in t.keywords && (if Truthy(context) then context.Row? && context.name in t.contexts
                              else "default" in t.contexts)
    ensures r.error.None? ==>
      var c := if Truthy(context) then context.name else "default";
      r.after == t.(keywords := t.keywords + {word}, data := t.data[(word, c) := Data("", "", ReadVimBuffer(buf, 0))])
    ensures r.error.Some? ==> r.after.data == t.data
    ensures Consistent(t) ==> Grows(t, r.after) && Consistent(r.after)
  {
    if word in t.keywords then Effect(t, Some(Duplicate("keyword", word)))
    else
      var t1 := t.(keywords := t.keywords + {word});
      var c :=
        if !Truthy(context) then
          (if "default" in t.contexts then Some("default") else None)
        else if context.Row? && context.name in t.contexts then Some(context.name)
        else None;
      if c.None? then
        Effect(t1, Some(if !Truthy(context) || context.Row? then DoesNotExist("context")
                        else NotAContext(context.text)))
      else
        var t2 := t1.(data := t1.data[(word, c.value) := Data("", "", "")]);
        UpdateInfoEffect(t2, word, c.value, ReadVimBuffer(buf, 0))
  }

  /** The update of a definition that gotoword.py:633 evidently intends
      (see `UpdateKeywordAsCalled`): the buffer without its title line
      becomes the `info` of the keyword's definition in `context`, as
      `update_info(keyword, context, read_vim_buffer(buf, 1))` would do. */
  function UpdateKeywordEffect(t: Tables, keyword: string, context: string, buf: seq<string>): (r: Effect)
    ensures r.error.None? <==> (keyword, context) in t.data
    ensures r.error.None? ==>
      r.after == t.(data := t.data[(keyword, context) := t.data[(keyword, context)].(info := ReadVimBuffer(buf, 1))])
    ensures r.error.Some? ==> r.after == t
  {
    UpdateInfoEffect(t, keyword, context, ReadVimBuffer(buf, 1))
  }

  /** `keyword.delete()`: the keyword goes, and with it (Django's cascade on
      the `Data.keyword` foreign key) every definition it had. */
  function DeleteKeywordEffect(t: Tables, name: string): (r: Tables)
    ensures name !in r.keywords && ContextsOf(r, name) == {}
    ensures r.keywords == t.keywords - {name} && r.contexts == t.contexts
    ensures forall p :: p in t.data && p.0 != name ==> p in r.data && r.data[p] == t.data[p]
    ensures forall p :: p in r.data ==> p in t.data && p.0 != name
    ensures Consistent(t) ==> Consistent(r)
  {
    Tables(t.keywords - {name}, t.contexts, map p | p in t.data && p.0 != name :: t.data[p])
  }

  // ---------------------------------------------------------------------------
  // the call of update_info as written in create_keyword and update_keyword

  /** The body of `update_info(keyword, context, content)`, with `content`
      possibly `None`: the row is looked up by the context it is given, and
      `info` is NOT NULL. In the as-written calls the "context" is the
      buffer's text, which Django compares with the context's primary key,
      not its name: non-numeric text raises `ValueError`, and numeric text
      either matches no row (`DoesNotExist`) or a row whose save then fails
      NOT NULL on `info`. Modelling it as a lookup by name changes which
      exception is raised, not whether one is. */
  function UpdateInfoGiven(t: Tables, keyword: string, context: string, content: Option<string>): (r: Effect)
  {
    if (keyword, context) !in t.data then Effect(t, Some(DoesNotExist("data")))
    else if content.None? then Effect(t, Some(NotNull("data.info")))
    else UpdateInfoEffect(t, keyword, context, content.value)
  }

  /** `create_keyword` exactly as written: line 143 calls
      `update_info(keyword, buf_content, store)`, so the buffer text goes
      where the context belongs and `store` (None) where the content does. */
  function CreateKeywordAsWritten(t: Tables, word: string, context: ContextRef, buf: seq<string>): Effect
  {
    var made := CreateKeywordEffect(t, word, context, []);
    if made.error.Some? then made
    else UpdateInfoGiven(made.after, word, ReadVimBuffer(buf, 0), None)
  }

  /** As written, `create_keyword` never completes: whenever the keyword and
      its `Data` row can be created, the following `update_info` call raises,
      and the buffer text is never stored. */
  lemma CreateKeywordAsWrittenRaises(t: Tables, word: string, context: ContextRef, buf: seq<string>)
    ensures CreateKeywordAsWritten(t, word, context, buf).error.Some?
    ensures CreateKeywordAsWritten(t, word, context, buf).after == CreateKeywordEffect(t, word, context, []).after
  {
    var made := CreateKeywordEffect(t, word, context, []);
    if made.error.None? {
      var c := if Truthy(context) then context.name else "default";
      var text := ReadVimBuffer(buf, 0);
      if (word, text) in made.after.data {
        assert UpdateInfoGiven(made.after, word, text, None) == Effect(made.after, Some(NotNull("data.info")));
      } else {
        assert UpdateInfoGiven(made.after, word, text, None) == Effect(made.after, Some(DoesNotExist("data")));
      }
    }
  }

  /** `update_keyword(keyword, buf)` exactly as written, called with the
      arguments its signature asks for: line 153 calls
      `update_info(keyword, buf_content, store)`, so the buffer text goes
      where the context belongs and `store` (None) where the content does. */
  function UpdateKeywordAsWritten(t: Tables, keyword: string, buf: seq<string>): Effect
  {
    UpdateInfoGiven(t, keyword, ReadVimBuffer(buf, 1), None)
  }

  /** `update_keyword(kw, current_context, help_buffer)` as gotoword.py:633
      calls it: the `Context` row lands in the `buf` parameter, and
      `read_vim_buffer` slices it (`buf[1:]`), which a model row does not
      support. */
  function UpdateKeywordAsCalled(t: Tables, keyword: string, context: string, buf: seq<string>): Effect
  {
    Effect(t, Some(NotSliceable("Context")))
  }

  /** As written, no update of a definition completes: the call at
      gotoword.py:633 raises before reading the buffer, and even a call with
      the arguments in their places raises inside `update_keyword`; in both
      cases the store is left as it was and the buffer text is never stored. */
  lemma UpdateKeywordAsWrittenRaises(t: Tables, keyword: string, context: string, buf: seq<string>)
    ensures UpdateKeywordAsCalled(t, keyword, context, buf) == Effect(t, Some(NotSliceable("Context")))
    ensures UpdateKeywordAsWritten(t, keyword, buf).error.Some?
    ensures UpdateKeywordAsWritten(t, keyword, buf).after == t
    ensures (keyword, context) in t.data ==> UpdateKeywordEffect(t, keyword, context, buf).error.None?
  {
    var text := ReadVimBuffer(buf, 1);
    if (keyword, text) in t.data {
      assert UpdateInfoGiven(t, keyword, text, None) == Effect(t, Some(NotNull("data.info")));
    } else {
      assert UpdateInfoGiven(t, keyword, text, None) == Effect(t, Some(DoesNotExist("data")));
    }
  }

  // ---------------------------------------------------------------------------
  // texts shown in the editor

  /** What follows the quoted word in the invitation. */
  const InvitationRest: string :=
    " in the database. Would you like to add info about it?\n"
    + "Edit text with usual vim commands, but save it to this plugin's database, for future use, "
    + "with :HelperSave.\nIf you don't want to save it, quit with :q!\n\n "
    + "All these lines can be deleted when adding info."

  /** `introduction_line(word)`: the invitation shown for a word that is not stored. */
  function IntroductionLine(word: string): string
  {
    "The keyword \"" + word + "\" doesn't exist" + InvitationRest
  }

  /** The invitation names the word, in double quotes, as one that does not exist. */
  lemma IntroductionLineNamesWord(word: string)
    ensures StartsWith(IntroductionLine(word), "The keyword \"" + word + "\" doesn't exist")
  {
    var p := "The keyword \"" + word + "\" doesn't exist";
    assert IntroductionLine(word) == p + InvitationRest;
    assert (p + InvitationRest)[..|p|] == p;
  }

  /** Shown in the help buffer, the invitation's first line names the word,
      when the word is a single line. */
  lemma InvitationFirstLine(word: string)
    ensures (forall j :: 0 <= j < |word| ==> !IsLineBreak(word[j])) ==>
      && SplitLines(IntroductionLine(word)) != []
      && StartsWith(SplitLines(IntroductionLine(word))[0], "The keyword \"" + word + "\" doesn't exist")
  {
    if forall j :: 0 <= j < |word| ==> !IsLineBreak(word[j]) {
      var p := "The keyword \"" + word + "\" doesn't exist";
      IntroductionLineNamesWord(word);
      forall j | 0 <= j < |p|
        ensures !IsLineBreak(p[j])
      {
        var k := |"The keyword \""|;
        if k <= j < k + |word| {
          assert p[j] == word[j - k];
        }
      }
      SplitLinesFirstLine(IntroductionLine(word), p);
    }
  }

  /** Different words give different invitations: the word can be read back. */
  lemma IntroductionLineInjective(a: string, b: string)
    requires IntroductionLine(a) == IntroductionLine(b)
    ensures a == b
  {
    var p := "The keyword \"";
    assert |a| == |b|;
    assert a == IntroductionLine(a)[|p|..|p| + |a|];
    assert b == IntroductionLine(b)[|p|..|p| + |b|];
  }

  /** One element of a Vim list literal: the text between double quotes. */
  function Quote(s: string): string
  {
    "\"" + s + "\""
  }

  /** `create_vim_list(values)`: the Vim list literal `["a", "b"]`. */
  function CreateVimList(values: seq<string>): string
  {
    "[" + Join(", ", QuoteAll(values)) + "]"
  }

  function QuoteAll(values: seq<string>): (r: seq<string>)
    ensures |r| == |values|
    ensures forall i :: 0 <= i < |values| ==> r[i] == Quote(values[i])
  {
    if values == [] then [] else [Quote(values[0])] + QuoteAll(values[1..])
  }

  /** Reads the elements back from a Vim list literal written by
      `CreateVimList`: quoted elements separated by ", ". */
  function ParseVimList(s: string): Option<seq<string>>
  {
    if |s| < 2 || s[0] != '[' || s[|s| - 1] != ']' then None
    else if |s| == 2 then Some([])
    else ParseElements(s[1..|s| - 1])
  }

  /** Elements `"x", "y"`: a quoted text, then either the end or ", " and more. */
  function ParseElements(s: string): Option<seq<string>>
    decreases |s|
  {
    if |s| < 2 || s[0] != '"' then None
    else
      var close := QuoteEnd(s[1..]);
      if close == |s| - 1 then None
      else
        var elem := s[1..close + 1];
        var rest := s[close + 2..];
        if rest == [] then Some([elem])
        else if |rest| >= 2 && rest[..2] == ", " then
          match ParseElements(rest[2..])
          case None => None
          case Some(more) => Some([elem] + more)
        else None
  }

  /** Index of the first '"' in `s`, or `|s|`. */
  function QuoteEnd(s: string): (i: nat)
    ensures i <= |s|
    ensures forall j :: 0 <= j < i ==> s[j] != '"'
    ensures i < |s| ==> s[i] == '"'
  {
    if |s| == 0 then 0 else if s[0] == '"' then 0 else 1 + QuoteEnd(s[1..])
  }

  lemma QuoteEndOf(a: string, b: string)
    requires '"' !in a
    ensures QuoteEnd(a + "\"" + b) == |a|
  {
    var s := a + "\"" + b;
    assert s[|a|] == '"';
    assert forall j :: 0 <= j < |a| ==> s[j] == a[j];
  }

  /** One quoted element alone. */
  lemma ParseOneElement(v: string)
    requires '"' !in v
    ensures ParseElements(Quote(v)) == Some([v])
  {
    var s := Quote(v);
    QuoteEndOf(v, "");
    assert s[1..] == v + "\"" + "";
    assert s[1..|v| + 1] == v;
    assert s[|v| + 2..] == [];
  }

  /** One step of `ParseElements`: a quoted text closed before the end and
      followed by ", " parses as that text before the rest's elements. */
  lemma ParseElementsStep(s: string, close: nat)
    requires |s| >= 2 && s[0] == '"' && close == QuoteEnd(s[1..]) && close + 4 <= |s|
    requires s[close + 2..close + 4] == ", "
    ensures ParseElements(s) ==
      match ParseElements(s[close + 4..]) case None => None case Some(m) => Some([s[1..close + 1]] + m)
  {
    var rest := s[close + 2..];
    assert rest[..2] == s[close + 2..close + 4];
    assert rest[2..] == s[close + 4..];
  }

  /** One quoted element followed by ", " and more elements. */
  lemma ParseFirstElement(v: string, more: string)
    requires '"' !in v
    ensures ParseElements(Quote(v) + ", " + more) ==
      match ParseElements(more) case None => None case Some(m) => Some([v] + m)
  {
    var s := Quote(v) + ", " + more;
    var rest := ", " + more;
    assert s == "\"" + (v + "\"" + rest);
    QuoteEndOf(v, rest);
    assert s[1..] == v + "\"" + rest;
    assert s[1..|v| + 1] == v;
    assert s[|v| + 2..|v| + 4] == ", ";
    assert s[|v| + 4..] == more;
    ParseElementsStep(s, |v|);
  }

  lemma {:induction false} ParseElementsOfJoin(values: seq<string>)
    requires values != []
    requires forall i :: 0 <= i < |values| ==> '"' !in values[i]
    ensures ParseElements(Join(", ", QuoteAll(values))) == Some(values)
  {
    var q := QuoteAll(values);
    if |values| == 1 {
      ParseOneElement(values[0]);
      assert values == [values[0]];
    } else {
      var tail := values[1..];
      forall i | 0 <= i < |tail|
        ensures '"' !in tail[i]
      {
        assert tail[i] == values[i + 1];
      }
      ParseElementsOfJoin(tail);
      assert q[1..] == QuoteAll(tail);
      var rest := Join(", ", q[1..]);
      assert Join(", ", q) == Quote(values[0]) + ", " + rest;
      ParseFirstElement(values[0], rest);
      assert [values[0]] + tail == values;
    }
  }

  /** The literal that `create_vim_list` writes reads back as the list it was
      given, provided no element holds a double quote (the function does no
      escaping, so `["a\"b"]` would be read back differently). */
  lemma VimListRoundTrip(values: seq<string>)
    requires forall i :: 0 <= i < |values| ==> '"' !in values[i]
    ensures ParseVimList(CreateVimList(values)) == Some(values)
  {
    var s := CreateVimList(values);
    if values == [] {
      assert s == "[]";
    } else {
      ParseElementsOfJoin(values);
      assert s[1..|s| - 1] == Join(", ", QuoteAll(values));
    }
  }

  /** The example in the function's own documentation. */
  lemma VimListExample()
    ensures CreateVimList(["first line", "second line"]) == "[\"first line\", \"second line\"]"
  {
    var q := QuoteAll(["first line", "second line"]);
    assert q == [q[0]] + [q[1]];
    JoinCons(", ", q[0], [q[1]]);
  }

  // ---------------------------------------------------------------------------
  // the store as the helpers change it in place

  /** The database the Django models live in; each helper writes to it and saves. */
  class Database {
    var keywords: set<string>
    var contexts: map<string, string>
    var data: map<(string, string), Data>

    constructor(t: Tables)
      ensures Snapshot() == t
    {
      keywords, contexts, data := t.keywords, t.contexts, t.data;
    }

    function Snapshot(): Tables
      reads this
    {
      Tables(keywords, contexts, data)
    }

    /** `Context.objects.create(name=name, description=description)`. */
    method CreateContext(name: Option<string>, description: Option<string>) returns (err: Option<Error>)
      modifies this
      ensures var r := CreateContextEffect(old(Snapshot()), name, description);
              Snapshot() == r.after && err == r.error
    {
      if name.None? {
        return Some(NotNull("context.name"));
      }
      if description.None? {
        return Some(NotNull("context.description"));
      }
      if name.value in contexts {
        return Some(Duplicate("context", name.value));
      }
      contexts := contexts[name.value := description.value];
      err := None;
    }

    /** `update_info(keyword, context, content)`. */
    method UpdateInfo(keyword: string, context: string, content: string) returns (err: Option<Error>)
      modifies this
      ensures var r := UpdateInfoEffect(old(Snapshot()), keyword, context, content);
              Snapshot() == r.after && err == r.error
    {
      if (keyword, context) !in data {
        return Some(DoesNotExist("data"));
      }
      var row := data[(keyword, context)];
      row := row.(info := content);
      data := data[(keyword, context) := row];
      err := None;
    }

    /** `create_keyword(word, context, buf)`. */
    method CreateKeyword(word: string, context: ContextRef, buf: seq<string>) returns (err: Option<Error>)
      modifies this
      ensures var r := CreateKeywordEffect(old(Snapshot()), word, context, buf);
              Snapshot() == r.after && err == r.error
    {
      if word in keywords {
        return Some(Duplicate("keyword", word));
      }
      keywords := keywords + {word};
      var c: string;
      if !Truthy(context) {
        if "default" !in contexts {
          return Some(DoesNotExist("context"));
        }
        c := "default";
      } else if context.Name? {
        return Some(NotAContext(context.text));
      } else {
        if context.name !in contexts {
          return Some(DoesNotExist("context"));
        }
        c := context.name;
      }
      data := data[(word, c) := Data("", "", "")];
      var content := ReadVimBuffer(buf, 0);
      err := UpdateInfo(word, c, content);
    }

    /** `update_keyword(keyword, context, buf)`. */
    method UpdateKeyword(keyword: string, context: string, buf: seq<string>) returns (err: Option<Error>)
      modifies this
      ensures var r := UpdateKeywordEffect(old(Snapshot()), keyword, context, buf);
              Snapshot() == r.after && err == r.error
    {
      var content := ReadVimBuffer(buf, 1);
      err := UpdateInfo(keyword, context, content);
    }

    /** `keyword.delete()`. */
    method DeleteKeyword(name: string)
      modifies this
      ensures Snapshot() == DeleteKeywordEffect(old(Snapshot()), name)
    {
      keywords := keywords - {name};
      data := map p | p in data && p.0 != name :: data[p];
    }
  }
}
