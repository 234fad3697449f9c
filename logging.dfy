/** The two pieces of gotoword/gotoword_logging.py the rest of the plugin
    relies on: `strip`, which turns the text of a class's `repr` into the
    name shown in log lines, and the loop of `custom_makeRecord` that lets
    the `extra` argument of a logging call overwrite attributes of the
    record. */
module Logging {
  import opened Common

  // ---------------------------------------------------------------------------
  // lstrip and rstrip with a set of characters

  /** `s.lstrip(chars)` drops the longest prefix made of `chars`: what is
      left is a suffix of `s`, everything dropped is in `chars`, and what is
      left does not begin with one of them. */
  lemma {:induction false} LStripDropsPrefix(s: string, chars: set<char>)
    ensures |LStrip(s, chars)| <= |s|
    ensures LStrip(s, chars) == s[|s| - |LStrip(s, chars)|..]
    ensures forall k :: 0 <= k < |s| - |LStrip(s, chars)| ==> s[k] in chars
    ensures LStrip(s, chars) != [] ==> LStrip(s, chars)[0] !in chars
  {
    if |s| > 0 && s[0] in chars {
      LStripDropsPrefix(s[1..], chars);
      forall k | 1 <= k < |s| - |LStrip(s, chars)|
        ensures s[k] in chars
      {
        assert s[k] == s[1..][k - 1];
      }
    }
  }

  /** `s.rstrip(chars)` drops the longest suffix made of `chars`. */
  lemma {:induction false} RStripDropsSuffix(s: string, chars: set<char>)
    ensures |RStrip(s, chars)| <= |s|
    ensures RStrip(s, chars) == s[..|RStrip(s, chars)|]
    ensures forall k :: |RStrip(s, chars)| <= k < |s| ==> s[k] in chars
    ensures RStrip(s, chars) != [] ==> RStrip(s, chars)[|RStrip(s, chars)| - 1] !in chars
  {
    if |s| > 0 && s[|s| - 1] in chars {
      var init := s[..|s| - 1];
      RStripDropsSuffix(init, chars);
      assert init[..|RStrip(s, chars)|] == s[..|RStrip(s, chars)|];
      forall k | |RStrip(s, chars)| <= k < |s| - 1
        ensures s[k] in chars
      {
        assert s[k] == init[k];
      }
    }
  }

  lemma LStripUnchanged(s: string, chars: set<char>)
    requires s == [] || s[0] !in chars
    ensures LStrip(s, chars) == s
  {
  }

  lemma RStripUnchanged(s: string, chars: set<char>)
    requires s == [] || s[|s| - 1] !in chars
    ensures RStrip(s, chars) == s
  {
  }

  // ---------------------------------------------------------------------------
  // strip

  /** The characters of `"<class '"` and of `"'>"`, which `lstrip` and
      `rstrip` take as sets, not as a prefix and a suffix. */
  const Leading: set<char> := {'<', 'c', 'l', 'a', 's', ' ', '\''}
  const Trailing: set<char> := {'\'', '>'}

  /** `strip(s)`, given the text of `repr(s)`. */
  function Strip(repr: string): string
  {
    RStrip(LStrip(repr, Leading), Trailing)
  }

  /** What `strip` returns is one contiguous piece of its input: everything
      before it is in the leading set, everything after it in the trailing
      set, and it neither begins with a leading character nor ends with a
      trailing one. */
  lemma StripIsSlice(repr: string)
    ensures var i := |repr| - |LStrip(repr, Leading)|;
      && 0 <= i && i + |Strip(repr)| <= |repr|
      && Strip(repr) == repr[i..i + |Strip(repr)|]
      && (forall k :: 0 <= k < i ==> repr[k] in Leading)
      && (forall k :: i + |Strip(repr)| <= k < |repr| ==> repr[k] in Trailing)
      && (Strip(repr) != [] ==> Strip(repr)[0] !in Leading && Strip(repr)[|Strip(repr)| - 1] !in Trailing)
  {
    var left := LStrip(repr, Leading);
    var i := |repr| - |left|;
    LStripDropsPrefix(repr, Leading);
    RStripDropsSuffix(left, Trailing);
    var r := Strip(repr);
    assert r == left[..|r|];
    assert left[..|r|] == repr[i..i + |r|];
    forall k | i + |r| <= k < |repr|
      ensures repr[k] in Trailing
    {
      assert repr[k] == left[k - i];
    }
    if r != [] {
      assert r[0] == left[0];
    }
  }

  /** Stripping twice strips no more than once. */
  lemma StripIdempotent(repr: string)
    ensures Strip(Strip(repr)) == Strip(repr)
  {
    StripIsSlice(repr);
    var r := Strip(repr);
    LStripUnchanged(r, Leading);
    RStripUnchanged(r, Trailing);
  }

  /** The example of the function's documentation. */
  lemma StripModuleClass()
    ensures Strip("<class 'module.Class'>") == "module.Class"
  {
    var repr := "<class 'module.Class'>";
    assert repr == "<class '" + "module.Class'>";
    LStripOfLeading("<class '", "module.Class'>");
    assert "module.Class'>" == "module.Class" + "'>";
    RStripOfTrailing("module.Class", "'>");
  }

  /** `lstrip` removes a prefix made of the set's characters, when what
      follows does not begin with one. */
  lemma {:induction false} LStripOfLeading(p: string, rest: string)
    requires forall k :: 0 <= k < |p| ==> p[k] in Leading
    requires rest == [] || rest[0] !in Leading
    ensures LStrip(p + rest, Leading) == rest
  {
    if p == [] {
      assert p + rest == rest;
    } else {
      assert (p + rest)[0] == p[0];
      assert (p + rest)[1..] == p[1..] + rest;
      LStripOfLeading(p[1..], rest);
    }
  }

  /** `rstrip` removes a suffix made of the set's characters, when what
      precedes does not end with one. */
  lemma {:induction false} RStripOfTrailing(body: string, q: string)
    requires forall k :: 0 <= k < |q| ==> q[k] in Trailing
    requires body == [] || body[|body| - 1] !in Trailing
    ensures RStrip(body + q, Trailing) == body
  {
    if q == [] {
      assert body + q == body;
    } else {
      var n := |q| - 1;
      assert (body + q)[|body + q| - 1] == q[n];
      assert (body + q)[..|body + q| - 1] == body + q[..n];
      RStripOfTrailing(body, q[..n]);
    }
  }

  /** As written, `strip` also eats the start of a module name made of the
      letters of "class": `<class 'calc.Tool'>` gives ".Tool". */
  lemma StripOverTrims()
    ensures Strip("<class 'calc.Tool'>") == ".Tool"
  {
    LStripOfLeading("<class 'calc", ".Tool'>");
    assert "<class 'calc.Tool'>" == "<class 'calc" + ".Tool'>";
    assert ".Tool'>" == ".Tool" + "'>";
    RStripOfTrailing(".Tool", "'>");
  }

  /** What `strip` is documented to do: remove the prefix `<class '` and
      the suffix `'>` of a class's `repr`, and nothing else. */
  function StripClassRepr(repr: string): string
  {
    if |repr| >= 10 && repr[..8] == "<class '" && repr[|repr| - 2..] == "'>" then repr[8..|repr| - 2]
    else repr
  }

  /** The corrected helper gives back every class name. */
  lemma StripClassReprRoundTrip(name: string)
    ensures StripClassRepr("<class '" + name + "'>") == name
  {
    var repr := "<class '" + name + "'>";
    assert repr[..8] == "<class '";
    assert repr[|repr| - 2..] == "'>";
    assert repr[8..|repr| - 2] == name;
  }

  /** The two agree on names that begin with none of the characters of
      "<class '" and end with neither "'" nor ">". */
  lemma StripAgreesOnPlainNames(name: string)
    requires name != [] && name[0] !in Leading && name[|name| - 1] !in Trailing
    ensures Strip("<class '" + name + "'>") == StripClassRepr("<class '" + name + "'>") == name
  {
    StripClassReprRoundTrip(name);
    assert "<class '" + name + "'>" == "<class '" + (name + "'>");
    LStripOfLeading("<class '", name + "'>");
    RStripOfTrailing(name, "'>");
  }

  // ---------------------------------------------------------------------------
  // custom_makeRecord

  /** The key-override loop of `custom_makeRecord`: `record` is the
      `__dict__` of the `LogRecord` just built; each key of `extra`, when
      given, is written into it. */
  method MakeRecord<V>(record: map<string, V>, extra: Option<map<string, V>>) returns (rv: map<string, V>)
    ensures extra.None? ==> rv == record
    ensures extra.Some? ==> rv.Keys == record.Keys + extra.value.Keys
    ensures extra.Some? ==> forall k :: k in extra.value ==> rv[k] == extra.value[k]
    ensures extra.Some? ==> forall k :: k in record && k !in extra.value ==> rv[k] == record[k]
  {
    rv := record;
    if extra.Some? {
      var pending := extra.value.Keys;
      while pending != {}
        invariant pending <= extra.value.Keys
        invariant rv.Keys == record.Keys + (extra.value.Keys - pending)
        invariant forall k :: k in extra.value && k !in pending ==> rv[k] == extra.value[k]
        invariant forall k :: k in record && k !in extra.value ==> rv[k] == record[k]
        invariant forall k :: k in record && k in pending ==> rv[k] == record[k]
        decreases pending
      {
        var key :| key in pending;
        rv := rv[key := extra.value[key]];
        pending := pending - {key};
      }
    }
  }
}
