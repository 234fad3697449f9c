/** The older store of gotoword/utils.py, on the Storm ORM: a `keyword`
    table (name UNIQUE NOT NULL, `cmd`, `info`), a `context` table (name
    UNIQUE NOT NULL) and the link table `keyword_context`, whose primary key
    is the pair (context, keyword). Rows are named by their unique names.
    Storm checks the constraints when the store commits, so a commit that
    breaks one raises and stores nothing. */
module StormStore {
  import opened Common
  import DataStore

  /** A `keyword` row: `cmd` and `info` may be NULL. */
  datatype KeywordRow = KeywordRow(cmd: Option<string>, info: Option<string>)

  datatype StormTables = StormTables(
    keywords: map<string, KeywordRow>,
    contexts: set<string>,
    links: set<(string, string)>)

  /** The tables after a commit, and the error it raised, if any. */
  datatype Commit = Commit(after: StormTables, error: Option<DataStore.Error>)

  /** `find_keyword(store, word)`: the row named exactly `word`, if any. */
  function FindKeyword(t: StormTables, word: string): (r: Option<KeywordRow>)
    ensures r.Some? <==> word in t.keywords
    ensures r.Some? ==> r.value == t.keywords[word]
  {
    if word in t.keywords then Some(t.keywords[word]) else None
  }

  /** What `update_keyword_info` stores: the buffer's lines joined with "\n". */
  function BufferContent(buf: seq<string>): string
  {
    Join("\n", buf)
  }

  /** `create_keyword(store, word, buf)`: a new row named `word`, no `cmd`,
      `info` the buffer's content, committed. `unicode()` of content that is
      not ASCII raises before the commit; otherwise a name already stored
      breaks the UNIQUE constraint at the commit. Either way nothing is
      committed. */
  function CreateKeywordEffect(t: StormTables, word: string, buf: seq<string>): (r: Commit)
    ensures r.error.Some? <==> word in t.keywords || !Ascii(BufferContent(buf))
    ensures r.error.Some? ==> r.after == t
    ensures !Ascii(BufferContent(buf)) ==> r.error == Some(DataStore.NotAscii)
    ensures Ascii(BufferContent(buf)) && word in t.keywords ==> r.error == Some(DataStore.Duplicate("keyword", word))
    ensures r.error.None? ==>
      && r.after.keywords.Keys == t.keywords.Keys + {word}
      && (forall k :: k in t.keywords ==> r.after.keywords[k] == t.keywords[k])
      && r.after.contexts == t.contexts && r.after.links == t.links
  {
    if !Ascii(BufferContent(buf)) then Commit(t, Some(DataStore.NotAscii))
    else if word in t.keywords then Commit(t, Some(DataStore.Duplicate("keyword", word)))
    else Commit(t.(keywords := t.keywords[word := KeywordRow(None, Some(BufferContent(buf)))]), None)
  }

  /** `update_keyword_info(store, keyword, buf)` for a stored keyword: its
      `info` becomes the buffer's content; its `cmd` and every other row
      stay. Content that is not ASCII makes `unicode()` raise, and nothing
      is committed. */
  function UpdateKeywordInfoEffect(t: StormTables, name: string, buf: seq<string>): (r: Commit)
    requires name in t.keywords
    ensures r.error.Some? <==> !Ascii(BufferContent(buf))
    ensures r.error.Some? ==> r == Commit(t, Some(DataStore.NotAscii))
    ensures r.error.None? ==>
      && r.after.keywords.Keys == t.keywords.Keys
      && r.after.keywords[name].info == Some(BufferContent(buf))
      && r.after.keywords[name].cmd == t.keywords[name].cmd
      && (forall k :: k in t.keywords && k != name ==> r.after.keywords[k] == t.keywords[k])
      && r.after.contexts == t.contexts && r.after.links == t.links
  {
    if !Ascii(BufferContent(buf)) then Commit(t, Some(DataStore.NotAscii))
    else Commit(t.(keywords := t.keywords[name := t.keywords[name].(info := Some(BufferContent(buf)))]), None)
  }

  /** The buffer's content decodes exactly when every line of it does. */
  lemma BufferContentDecodes(buf: seq<string>)
    ensures Ascii(BufferContent(buf)) <==> forall i :: 0 <= i < |buf| ==> Ascii(buf[i])
  {
    assert Ascii("\n");
    JoinAscii("\n", buf);
  }

  /** Adding a `Context` row and committing: the name is UNIQUE. */
  function AddContextEffect(t: StormTables, name: string): (r: Commit)
    ensures r.error.Some? <==> name in t.contexts
    ensures r.error.Some? ==> r.after == t
    ensures r.error.None? ==> r.after == t.(contexts := t.contexts + {name})
  {
    if name in t.contexts then Commit(t, Some(DataStore.Duplicate("context", name)))
    else Commit(t.(contexts := t.contexts + {name}), None)
  }

  /** Adding a `KeywordContext` row and committing: the pair is the primary key. */
  function AddLinkEffect(t: StormTables, keyword: string, context: string): (r: Commit)
    ensures r.error.Some? <==> (keyword, context) in t.links
    ensures r.error.Some? ==> r.after == t
    ensures r.error.None? ==> r.after == t.(links := t.links + {(keyword, context)})
  {
    if (keyword, context) in t.links then Commit(t, Some(DataStore.Duplicate("keyword_context", keyword)))
    else Commit(t.(links := t.links + {(keyword, context)}), None)
  }

  /** A keyword just created from ASCII lines is found by its name, with
      no `cmd` and the buffer's content as `info`. */
  lemma CreateThenFind(t: StormTables, word: string, buf: seq<string>)
    requires word !in t.keywords
    requires forall i :: 0 <= i < |buf| ==> Ascii(buf[i])
    ensures FindKeyword(CreateKeywordEffect(t, word, buf).after, word) == Some(KeywordRow(None, Some(Join("\n", buf))))
  {
    BufferContentDecodes(buf);
  }

  /** Creating a keyword twice: once the first is committed, the second
      raises whatever its buffer and changes nothing. */
  lemma CreateTwiceRejected(t: StormTables, word: string, buf1: seq<string>, buf2: seq<string>)
    requires word !in t.keywords
    requires forall i :: 0 <= i < |buf1| ==> Ascii(buf1[i])
    ensures var once := CreateKeywordEffect(t, word, buf1).after;
      && word in once.keywords
      && CreateKeywordEffect(once, word, buf2).error.Some?
      && CreateKeywordEffect(once, word, buf2).after == once
  {
    BufferContentDecodes(buf1);
  }

  /** Linking the same keyword and context twice: the second commit raises,
      so a pair has at most one link. */
  lemma LinkTwiceRejected(t: StormTables, keyword: string, context: string)
    ensures var once := AddLinkEffect(t, keyword, context).after;
      && (keyword, context) in once.links
      && AddLinkEffect(once, keyword, context) == Commit(once, Some(DataStore.Duplicate("keyword_context", keyword)))
  {
  }

  /** The stored `info` holds a line feed exactly when the buffer had two
      lines or more, or a line of it held one; so a one-line buffer gives
      `info` without "\n". */
  lemma BufferContentLineFeed(buf: seq<string>)
    ensures '\n' in BufferContent(buf) <==> |buf| > 1 || exists i :: 0 <= i < |buf| && '\n' in buf[i]
  {
    JoinHasSeparator(buf, '\n');
  }

  /** Splitting the stored `info` at "\n" gives the buffer's lines back,
      when there was at least one line and none held "\n". */
  lemma BufferContentSplits(buf: seq<string>)
    requires buf != []
    requires forall i :: 0 <= i < |buf| ==> '\n' !in buf[i]
    ensures Split(BufferContent(buf), '\n') == buf
  {
    SplitJoin(buf, '\n');
  }

  // ---------------------------------------------------------------------------
  // the store as the helpers change it

  /** A Storm `Store` over the three tables. */
  class Store {
    var keywords: map<string, KeywordRow>
    var contexts: set<string>
    var links: set<(string, string)>

    constructor(t: StormTables)
      ensures Snapshot() == t
    {
      keywords, contexts, links := t.keywords, t.contexts, t.links;
    }

    function Snapshot(): StormTables
      reads this
    {
      StormTables(keywords, contexts, links)
    }

    /** `create_keyword(store, word, buf)`: add the row, set its `info`,
        commit. The fields hold what is committed, so a failure leaves them
        as they were. */
    method CreateKeyword(word: string, buf: seq<string>) returns (err: Option<DataStore.Error>)
      modifies this
      ensures var r := CreateKeywordEffect(old(Snapshot()), word, buf);
              Snapshot() == r.after && err == r.error
    {
      if word in keywords {
        // the added row waits for the commit, which `unicode()` may pre-empt
        var content := Join("\n", buf[..]);
        if !Ascii(content) {
          return Some(DataStore.NotAscii);
        }
        return Some(DataStore.Duplicate("keyword", word));
      }
      var committed := keywords;
      keywords := keywords[word := KeywordRow(None, None)];
      err := UpdateKeywordInfo(word, buf);
      if err.Some? {
        keywords := committed;
      }
    }

    /** `update_keyword_info(store, keyword, buf)`: join the lines, decode
        them, set `info`, commit. */
    method UpdateKeywordInfo(name: string, buf: seq<string>) returns (err: Option<DataStore.Error>)
      requires name in keywords
      modifies this
      ensures var r := UpdateKeywordInfoEffect(old(Snapshot()), name, buf);
              Snapshot() == r.after && err == r.error
    {
      var lines := buf[..];
      var content := Join("\n", lines);
      if !Ascii(content) {
        return Some(DataStore.NotAscii);
      }
      keywords := keywords[name := keywords[name].(info := Some(content))];
      err := None;
    }

    /** `store.add(Context(name)); store.commit()`. */
    method AddContext(name: string) returns (err: Option<DataStore.Error>)
      modifies this
      ensures var r := AddContextEffect(old(Snapshot()), name);
              Snapshot() == r.after && err == r.error
    {
      if name in contexts {
        return Some(DataStore.Duplicate("context", name));
      }
      contexts := contexts + {name};
      err := None;
    }

    /** `store.add(KeywordContext(...)); store.commit()`. */
    method AddLink(keyword: string, context: string) returns (err: Option<DataStore.Error>)
      modifies this
      ensures var r := AddLinkEffect(old(Snapshot()), keyword, context);
              Snapshot() == r.after && err == r.error
    {
      if (keyword, context) in links {
        return Some(DataStore.Duplicate("keyword_context", keyword));
      }
      links := links + {(keyword, context)};
      err := None;
    }
  }
}
