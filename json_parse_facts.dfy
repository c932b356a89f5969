/// Properties of `Json::parse2` as modelled in JsonParse: how it treats
/// spaces, truncated input, the opening brace, numbers and errors.
module JsonParseFacts {
  import opened JsonValue
  import opened JsonParse

  /** The input with every space taken out. */
  function RemoveSpaces(s: string): (r: string)
    ensures ' ' !in r
    ensures |r| <= |s|
  {
    if s == [] then []
    else (if s[0] == ' ' then [] else [s[0]]) + RemoveSpaces(s[1..])
  }

  // ---------------------------------------------------------------------------
  // Spaces are dropped everywhere (src/lib.rs:135-136)

  /** Spaces have no effect at all: reading `s` and reading `s` without its
      spaces end alike, from any state, even inside a key or a string. */
  lemma {:induction false} FeedIgnoresSpaces(m: Machine, s: string)
    requires Inv(m)
    ensures Feed(m, s) == Feed(m, RemoveSpaces(s))
    decreases |s|
  {
    if s != [] {
      if s[0] == ' ' {
        assert RemoveSpaces(s) == RemoveSpaces(s[1..]);
        FeedIgnoresSpaces(m, s[1..]);
      } else {
        var r := RemoveSpaces(s[1..]);
        assert RemoveSpaces(s) == [s[0]] + r;
        assert ([s[0]] + r)[0] == s[0] && ([s[0]] + r)[1..] == r;
        match Step(m, s[0])
        case Halt(_) =>
        case Next(m') => FeedIgnoresSpaces(m', s[1..]);
      }
    }
  }

  lemma Parse2IgnoresSpaces(s: string)
    ensures Parse2Spec(s) == Parse2Spec(RemoveSpaces(s))
  {
    FeedIgnoresSpaces(Init(), s);
  }

  /** No key and no text anywhere in a value tree contains a space. */
  predicate SpaceFreeValue(v: JsonType)
    decreases v, 1
  {
    match v
    case I64(_) => true
    case F64(literal) => ' ' !in literal
    case String(s) => ' ' !in s
    case Vec(items) => forall i :: 0 <= i < |items| ==> SpaceFreeValue(items[i])
    case Object(o) => SpaceFree(o)
  }

  predicate SpaceFree(j: Json)
    decreases Object(j), 0
  {
    forall k :: k in j.attr ==> ' ' !in k && SpaceFreeValue(j.attr[k])
  }

  predicate SpaceFreeMachine(m: Machine)
  {
    SpaceFree(m.result) && ' ' !in m.cache && ' ' !in m.keyName
  }

  lemma {:induction false} SetAtSpaceFree(j: Json, p: seq<string>, key: string, v: JsonType)
    requires At(j, p).Some? && SpaceFree(j)
    requires ' ' !in key && SpaceFreeValue(v)
    ensures SpaceFree(SetAt(j, p, key, v))
  {
    if p != [] {
      SetAtSpaceFree(j.attr[p[0]].obj, p[1..], key, v);
    }
  }

  lemma StepSpaceFree(m: Machine, c: char)
    requires Inv(m) && SpaceFreeMachine(m) && c != ' '
    ensures Step(m, c).Next? ==> SpaceFreeMachine(Step(m, c).m)
  {
    match m.state
    case Val =>
      if c == '{' {
        SetAtSpaceFree(m.result, m.cur, m.keyName, Object(Json.New()));
      }
    case ValNumber =>
      if (c == ',' || c == '}') && ParseI64(m.cache).Some? {
        SetAtSpaceFree(m.result, m.cur, m.keyName, I64(ParseI64(m.cache).value));
      }
    case ValNumberDecimal =>
      if c == ',' || c == '}' {
        SetAtSpaceFree(m.result, m.cur, m.keyName, F64(m.cache));
      }
    case ValString =>
      if c == '"' {
        SetAtSpaceFree(m.result, m.cur, m.keyName, String(m.cache));
      }
    case _ =>
  }

  lemma {:induction false} FeedSpaceFree(m: Machine, s: string)
    requires Inv(m) && SpaceFreeMachine(m)
    ensures Feed(m, s).Next? ==> SpaceFreeMachine(Feed(m, s).m)
    decreases |s|
  {
    if s != [] {
      if s[0] == ' ' {
        FeedSpaceFree(m, s[1..]);
      } else {
        StepSpaceFree(m, s[0]);
        match Step(m, s[0])
        case Halt(_) =>
        case Next(m') => FeedSpaceFree(m', s[1..]);
      }
    }
  }

  /** Whatever `parse2` accepts, no key and no stored text in its result
      contains a space. */
  lemma Parse2NoSpaces(s: string)
    ensures Parse2Spec(s).Ok? ==> SpaceFree(Parse2Spec(s).json)
  {
    FeedSpaceFree(Init(), s);
  }

  // ---------------------------------------------------------------------------
  // End of input and truncation (src/lib.rs:135, 268)

  /** Reading `s + t` is reading `s` and then, unless that stopped, `t`. */
  lemma {:induction false} FeedAppend(m: Machine, s: string, t: string)
    requires Inv(m)
    ensures Feed(m, s + t) ==
      match Feed(m, s)
      case Halt(o) => Halt(o)
      case Next(m') => Feed(m', t)
    decreases |s|
  {
    if s == [] {
      assert s + t == t;
    } else {
      assert (s + t)[0] == s[0] && (s + t)[1..] == s[1..] + t;
      if s[0] == ' ' {
        FeedAppend(m, s[1..], t);
      } else {
        match Step(m, s[0])
        case Halt(_) =>
        case Next(m') => FeedAppend(m', s[1..], t);
      }
    }
  }

  /** Cutting an accepted input short never makes it fail: every prefix of
      an input that `parse2` accepts is accepted too. */
  lemma TruncatedInputAccepted(s: string, t: string)
    requires Parse2Spec(s + t).Ok?
    ensures Parse2Spec(s).Ok?
  {
    FeedAppend(Init(), s, t);
  }

  /** Once `parse2` has failed on a prefix, nothing that follows matters. */
  lemma FailureIsFinal(s: string, t: string)
    requires !Parse2Spec(s).Ok?
    ensures Parse2Spec(s + t) == Parse2Spec(s)
  {
    FeedAppend(Init(), s, t);
  }

  /** A string value that is never closed is simply missing from the result. */
  lemma {:induction false} FeedOpenString(m: Machine, t: string)
    requires Inv(m) && m.state == ValString && '"' !in t
    ensures Feed(m, t).Next? && Feed(m, t).m.result == m.result
    decreases |t|
  {
    if t != [] {
      assert '"' !in t[1..] by {
        assert forall i :: 0 <= i < |t[1..]| ==> t[1..][i] == t[i + 1];
      }
      if t[0] != ' ' {
        FeedOpenString(m.(cache := m.cache + [t[0]]), t[1..]);
      } else {
        FeedOpenString(m, t[1..]);
      }
    }
  }

  lemma UnterminatedStringDropped(m: Machine, t: string)
    requires Inv(m) && m.state == Val && '"' !in t
    ensures Run(m, "\"" + t) == Ok(m.result)
  {
    FeedAppend(m, "\"", t);
    FeedOpenString(m.(state := ValString), t);
  }

  // ---------------------------------------------------------------------------
  // Numbers (src/lib.rs:182-229)

  /** In an integer, digits only grow the cache. */
  lemma {:induction false} FeedDigits(m: Machine, d: string)
    requires Inv(m) && m.state == ValNumber && AllNumeric(d)
    ensures Feed(m, d) == Next(m.(cache := m.cache + d))
    decreases |d|
  {
    if d == [] {
      assert m.cache + d == m.cache;
    } else {
      assert AllNumeric(d[1..]) by {
        assert forall i :: 0 <= i < |d[1..]| ==> d[1..][i] == d[i + 1];
      }
      assert m.cache + [d[0]] + d[1..] == m.cache + d;
      FeedDigits(m.(cache := m.cache + [d[0]]), d[1..]);
    }
  }

  /** In a decimal, digits only grow the cache. */
  lemma {:induction false} FeedDecimalDigits(m: Machine, d: string)
    requires Inv(m) && m.state == ValNumberDecimal && AllNumeric(d)
    ensures Feed(m, d) == Next(m.(cache := m.cache + d))
    decreases |d|
  {
    if d == [] {
      assert m.cache + d == m.cache;
    } else {
      assert AllNumeric(d[1..]) by {
        assert forall i :: 0 <= i < |d[1..]| ==> d[1..][i] == d[i + 1];
      }
      assert m.cache + [d[0]] + d[1..] == m.cache + d;
      FeedDecimalDigits(m.(cache := m.cache + [d[0]]), d[1..]);
    }
  }

  /** The next state after a value ends with `c`: `,` awaits another key,
      `}` awaits the end. */
  function After(c: char): ReadState
  {
    if c == ',' then KeyNameSignal else EndSignal
  }

  /** Digits in value position start an integer whose cache is those digits. */
  lemma FeedInteger(m: Machine, d: string)
    requires Inv(m) && m.state == Val && m.cache == ""
    requires d != [] && AllNumeric(d)
    ensures Feed(m, d) == Next(m.(state := ValNumber, cache := d))
  {
    var m1 := m.(state := ValNumber, cache := [d[0]]);
    assert d == [d[0]] + d[1..];
    assert AllNumeric(d[1..]) by {
      assert forall i :: 0 <= i < |d[1..]| ==> d[1..][i] == d[i + 1];
    }
    assert Feed(m, [d[0]]) == Next(m1) by {
      assert [d[0]][1..] == [];
    }
    FeedAppend(m, [d[0]], d[1..]);
    FeedDigits(m1, d[1..]);
    assert m1.cache + d[1..] == d;
  }

  /** An integer in value position is stored, as the number its digits
      denote, exactly when a `,` or `}` follows it; one beyond the i64 range
      makes `parse2` panic. */
  lemma IntegerCommit(m: Machine, d: string, c: char, t: string)
    requires Inv(m) && m.state == Val && m.cache == ""
    requires d != [] && AllNumeric(d) && (c == ',' || c == '}')
    ensures Feed(m, d + [c] + t) ==
      if DigitsValue(d) <= MaxI64
      then Feed(Commit(m, I64(DigitsValue(d) as i64), After(c)), t)
      else Halt(Panic("i64 parse failed"))
  {
    FeedInteger(m, d);
    FeedAppend(m, d, [c] + t);
    assert d + [c] + t == d + ([c] + t);
    FeedAppend(m.(state := ValNumber, cache := d), [c], t);
  }

  /** A trailing integer that nothing follows is not stored. */
  lemma TrailingIntegerDropped(m: Machine, d: string)
    requires Inv(m) && m.state == Val && m.cache == "" && d != [] && AllNumeric(d)
    ensures Run(m, d) == Ok(m.result)
  {
    FeedInteger(m, d);
  }

  lemma {:induction false} NoPointInDigits(d: string)
    requires AllNumeric(d)
    ensures CountChar(d, '.') == 0
    decreases |d|
  {
    if d != [] {
      NoPointInDigits(d[..|d| - 1]);
    }
  }

  /** A point inside an integer switches to a decimal without storing the
      point; the digits after it join the cache. */
  lemma FeedFraction(m: Machine, f: string)
    requires Inv(m) && m.state == ValNumber && AllNumeric(f)
    ensures Feed(m, "." + f) == Next(m.(state := ValNumberDecimal, cache := m.cache + f))
  {
    FeedOne(m, '.');
    FeedAppend(m, ".", f);
    FeedDecimalDigits(m.(state := ValNumberDecimal), f);
  }

  /** The point of a decimal is not kept: `i.f` followed by `,` or `}` is
      stored as the float literal `i` + `f` (src/lib.rs:202-204). */
  lemma DecimalPointDropped(m: Machine, i: string, f: string, c: char, t: string)
    requires Inv(m) && m.state == Val && m.cache == ""
    requires i != [] && AllNumeric(i) && AllNumeric(f) && (c == ',' || c == '}')
    ensures Feed(m, i + "." + f + [c] + t) == Feed(Commit(m, F64(i + f), After(c)), t)
  {
    FeedInteger(m, i);
    var m2 := m.(state := ValNumber, cache := i);
    FeedFraction(m2, f);
    var m4 := m2.(state := ValNumberDecimal, cache := i + f);
    FeedAppend(m, i, "." + f);
    assert i + "." + f + [c] + t == (i + ("." + f)) + ([c] + t);
    FeedAppend(m, i + ("." + f), [c] + t);
    FeedAppend(m4, [c], t);
    assert AllNumeric(i + f) by {
      assert forall k :: 0 <= k < |i + f| ==> (i + f)[k] == if k < |i| then i[k] else f[k - |i|];
    }
    NoPointInDigits(i + f);
    assert IsNumeric((i + f)[0]);
    assert FloatLiteralOk(i + f);
  }

  /** Inside a string value, characters other than `"` and space only grow the cache. */
  lemma {:induction false} FeedStringChars(m: Machine, x: string)
    requires Inv(m) && m.state == ValString && '"' !in x && ' ' !in x
    ensures Feed(m, x) == Next(m.(cache := m.cache + x))
    decreases |x|
  {
    if x == [] {
      assert m.cache + x == m.cache;
    } else {
      assert '"' !in x[1..] && ' ' !in x[1..] by {
        assert forall i :: 0 <= i < |x[1..]| ==> x[1..][i] == x[i + 1];
      }
      assert m.cache + [x[0]] + x[1..] == m.cache + x;
      FeedStringChars(m.(cache := m.cache + [x[0]]), x[1..]);
    }
  }

  /** An opening `"` in value position and the string's characters fill the cache. */
  lemma StringOpen(m: Machine, x: string, t: string)
    requires Inv(m) && m.state == Val && m.cache == ""
    requires '"' !in x && ' ' !in x
    ensures Feed(m, "\"" + x + t) == Feed(m.(state := ValString, cache := x), t)
  {
    var m1 := m.(state := ValString);
    assert ("\"" + x + t)[0] == '"' && ("\"" + x + t)[1..] == x + t;
    assert Step(m, '"') == Next(m1);
    FeedStringChars(m1, x);
    assert m1.cache + x == x;
    FeedAppend(m1, x, t);
  }

  /** A quoted string in value position is stored when its closing `"` is read. */
  lemma StringCommit(m: Machine, x: string, t: string)
    requires Inv(m) && m.state == Val && m.cache == ""
    requires '"' !in x && ' ' !in x
    ensures Feed(m, "\"" + x + "\"" + t) == Feed(Commit(m, String(x), EndSignal), t)
  {
    var m2 := m.(state := ValString, cache := x);
    assert "\"" + x + "\"" + t == "\"" + x + ("\"" + t);
    StringOpen(m, x, "\"" + t);
    assert ("\"" + t)[0] == '"' && ("\"" + t)[1..] == t;
    assert Step(m2, '"') == Next(Commit(m, String(x), EndSignal));
  }

  /** A space is skipped in every state. */
  lemma FeedSpace(m: Machine, t: string)
    requires Inv(m)
    ensures Feed(m, " " + t) == Feed(m, t)
  {
    assert (" " + t)[0] == ' ' && (" " + t)[1..] == t;
  }

  /** After a value, `,` awaits the next key and `}` changes nothing. */
  lemma EndSignalStep(m: Machine, c: char, t: string)
    requires Inv(m) && m.state == EndSignal && (c == ',' || c == '}')
    ensures Feed(m, [c] + t) == Feed(m.(state := After(c)), t)
  {
    assert ([c] + t)[0] == c && ([c] + t)[1..] == t;
  }

  // ---------------------------------------------------------------------------
  // Keys (src/lib.rs:141-157, 245-255)

  /** One character that is not a space is exactly one step. */
  lemma FeedOne(m: Machine, c: char)
    requires Inv(m) && c != ' '
    ensures Feed(m, [c]) == Step(m, c)
  {
    assert [c][1..] == [];
  }

  /** Inside a key, characters other than `"` and space only grow the cache. */
  lemma {:induction false} FeedKeyChars(m: Machine, k: string)
    requires Inv(m) && m.state == KeyName && '"' !in k && ' ' !in k
    ensures Feed(m, k) == Next(m.(cache := m.cache + k))
    decreases |k|
  {
    if k == [] {
      assert m.cache + k == m.cache;
    } else {
      assert '"' !in k[1..] && ' ' !in k[1..] by {
        assert forall i :: 0 <= i < |k[1..]| ==> k[1..][i] == k[i + 1];
      }
      assert m.cache + [k[0]] + k[1..] == m.cache + k;
      FeedKeyChars(m.(cache := m.cache + [k[0]]), k[1..]);
    }
  }

  /** A quoted key makes `k` the pending key and awaits the colon. */
  lemma ReadKeyName(m: Machine, k: string)
    requires Inv(m) && m.state == KeyNameSignal && m.cache == ""
    requires '"' !in k && ' ' !in k
    ensures Feed(m, "\"" + k + "\"") == Next(m.(state := WaitSignal(':'), keyName := k))
  {
    var m1 := m.(state := KeyName);
    FeedOne(m, '"');
    FeedKeyChars(m1, k);
    var m2 := m1.(cache := k);
    FeedOne(m2, '"');
    FeedAppend(m, "\"", k);
    FeedAppend(m, "\"" + k, "\"");
  }

  /** A quoted key and its colon make `k` the pending key and await a value. */
  lemma ReadKey(m: Machine, k: string)
    requires Inv(m) && m.state == KeyNameSignal && m.cache == ""
    requires '"' !in k && ' ' !in k
    ensures Feed(m, "\"" + k + "\"" + ":") == Next(m.(state := Val, keyName := k))
  {
    ReadKeyName(m, k);
    var m3 := m.(state := WaitSignal(':'), keyName := k);
    FeedOne(m3, ':');
    FeedAppend(m, "\"" + k + "\"", ":");
  }

  /** A quoted key, its colon and a space await a value under that key. */
  lemma ReadKeyThenSpace(m: Machine, k: string, t: string)
    requires Inv(m) && m.state == KeyNameSignal && m.cache == ""
    requires '"' !in k && ' ' !in k
    ensures Feed(m, "\"" + k + "\"" + ": " + t) == Feed(m.(state := Val, keyName := k), t)
  {
    var key := "\"" + k + "\"" + ":";
    assert "\"" + k + "\"" + ": " + t == key + (" " + t);
    ReadKey(m, k);
    FeedAppend(m, key, " " + t);
    FeedSpace(m.(state := Val, keyName := k), t);
  }

  // ---------------------------------------------------------------------------
  // The opening brace and the current object (src/lib.rs:159-176, 256-258)

  /** Once the current object is below the root entry `""`, the root keeps
      that single entry whatever follows. */
  predicate NestedUnderEmptyKey(m: Machine)
  {
    |m.cur| > 0 && m.cur[0] == "" && m.result.attr.Keys == {""}
  }

  lemma StepKeepsRoot(m: Machine, c: char)
    requires Inv(m) && NestedUnderEmptyKey(m)
    ensures Step(m, c).Next? ==> NestedUnderEmptyKey(Step(m, c).m)
  {
  }

  lemma {:induction false} FeedKeepsRoot(m: Machine, s: string)
    requires Inv(m) && NestedUnderEmptyKey(m)
    ensures Feed(m, s).Next? ==> NestedUnderEmptyKey(Feed(m, s).m)
    decreases |s|
  {
    if s != [] {
      if s[0] == ' ' {
        FeedKeepsRoot(m, s[1..]);
      } else {
        StepKeepsRoot(m, s[0]);
        match Step(m, s[0])
        case Halt(_) =>
        case Next(m') => FeedKeepsRoot(m', s[1..]);
      }
    }
  }

  /** The machine right after a top-level `{`: the new object sits under the
      key `""` of the root and is the current object. */
  function AfterTopBrace(): (m: Machine)
    ensures Inv(m) && NestedUnderEmptyKey(m)
  {
    Machine(KeyNameSignal, "", "", Json(map["" := Object(Json.New())]), [""])
  }

  lemma FeedTopBrace(t: string)
    ensures Feed(Init(), "{" + t) == Feed(AfterTopBrace(), t)
  {
    assert ("{" + t)[0] == '{' && ("{" + t)[1..] == t;
    assert SetAt(Json.New(), [], "", Object(Json.New())) == AfterTopBrace().result;
    assert Step(Init(), '{') == Next(AfterTopBrace());
  }

  /** A document that opens with `{` is not stored at the root but under
      the key `""`, and since `}` never returns to the parent, the root ends
      with that one entry and no other key is ever found at the top. */
  lemma TopLevelBraceNestsUnderEmptyKey(s: string)
    requires RemoveSpaces(s) != [] && RemoveSpaces(s)[0] == '{'
    requires Parse2Spec(s).Ok?
    ensures Parse2Spec(s).json.attr.Keys == {""}
    ensures Parse2Spec(s).json.attr[""].Object?
    ensures forall k :: k != "" ==> Parse2Spec(s).json.GetVal(k) == None
  {
    var r := RemoveSpaces(s);
    Parse2IgnoresSpaces(s);
    assert r == "{" + r[1..];
    FeedTopBrace(r[1..]);
    FeedKeepsRoot(AfterTopBrace(), r[1..]);
  }

  /** `{"a":1}` gives `{"": {"a": 1}}`. */
  lemma BraceExample()
    ensures Parse2Spec("{\"a\":1}") ==
      Ok(Json(map["" := Object(Json(map["a" := I64(1)]))]))
  {
    var m := AfterTopBrace();
    var key := "\"" + "a" + "\"" + ":";
    assert "{\"a\":1}" == "{" + (key + "1}");
    FeedTopBrace(key + "1}");
    ReadKey(m, "a");
    FeedAppend(m, key, "1}");
    var m1 := m.(state := Val, keyName := "a");
    assert Feed(m, key + "1}") == Feed(m1, "1}");
    IntegerCommit(m1, "1", '}', "");
    assert "1" + ['}'] + "" == "1}";
    assert DigitsValue("1") == 1;
    var m2 := Commit(m1, I64(1), EndSignal);
    assert Feed(m1, "1}") == Feed(m2, "");
    assert m2.result == Json(map["" := Object(Json(map["a" := I64(1)]))]);
  }

  // ---------------------------------------------------------------------------
  // Errors (src/lib.rs:142, 186, 246, 261)

  /** A document whose first non-space character cannot start a value (a
      `-`, a `[`, an `n`, a `t`, ...) is rejected with "??? wtf". */
  lemma NonValueStartRejected(s: string)
    requires RemoveSpaces(s) != []
    requires var c := RemoveSpaces(s)[0]; c != '{' && c != '"' && !IsNumeric(c)
    ensures Parse2Spec(s) == Err("??? wtf")
  {
    Parse2IgnoresSpaces(s);
  }

  /** Where `s` leaves the reader, `parse2` on `s + u` goes on reading `u`. */
  lemma Resume(s: string, u: string)
    requires Feed(Init(), s).Next?
    ensures Parse2Spec(s + u) == Run(Feed(Init(), s).m, u)
  {
    FeedAppend(Init(), s, u);
  }

  /** Wherever a value is awaited (the start of the document, after a key's
      `:`, at any depth), a character that cannot start one is rejected with
      "??? wtf". */
  lemma ValueStartRejected(s: string, c: char, t: string)
    requires Feed(Init(), s).Next? && Feed(Init(), s).m.state == Val
    requires c != '{' && c != '"' && c != ' ' && !IsNumeric(c)
    ensures Parse2Spec(s + ([c] + t)) == Err("??? wtf")
  {
    Resume(s, [c] + t);
    assert ([c] + t)[0] == c;
  }

  /** Wherever a key is awaited (after the outermost `{`, after a `,`, after a
      nested `{`), anything but `"` and spaces is rejected with "not key
      name signal". */
  lemma KeyMustBeQuoted(s: string, c: char, t: string)
    requires Feed(Init(), s).Next? && Feed(Init(), s).m.state == KeyNameSignal
    requires c != '"' && c != ' '
    ensures Parse2Spec(s + ([c] + t)) == Err("not key name signal")
  {
    Resume(s, [c] + t);
    assert ([c] + t)[0] == c;
  }

  lemma EmptyObjectRejected()
    ensures Parse2Spec("{}") == Err("not key name signal")
  {
    FeedTopBrace("");
    assert "{" + "" == "{";
    KeyMustBeQuoted("{", '}', "");
    assert "{" + (['}'] + "") == "{}";
  }

  /** Wherever a key is read, it must be followed by `:`: any other
      character but a space is rejected with "wait signal not correct". */
  lemma ColonExpected(s: string, k: string, c: char, t: string)
    requires Feed(Init(), s).Next?
    requires Feed(Init(), s).m.state == KeyNameSignal && Feed(Init(), s).m.cache == ""
    requires '"' !in k && ' ' !in k
    requires c != ':' && c != ' '
    ensures Parse2Spec(s + ("\"" + k + "\"" + ([c] + t))) == Err("wait signal not correct")
  {
    var m := Feed(Init(), s).m;
    var key := "\"" + k + "\"";
    Resume(s, key + ([c] + t));
    ReadKeyName(m, k);
    FeedAppend(m, key, [c] + t);
    var w := m.(state := WaitSignal(':'), keyName := k);
    assert ([c] + t)[0] == c;
    assert Step(w, c) == Halt(Err("wait signal not correct"));
  }

  /** Inside any integer, a character that is not a digit, `.`, `,`, `}` or a
      space is rejected with "not number". */
  lemma IntegerExpectsDigit(s: string, d: string, c: char, t: string)
    requires Feed(Init(), s).Next?
    requires Feed(Init(), s).m.state == Val && Feed(Init(), s).m.cache == ""
    requires d != [] && AllNumeric(d)
    requires !IsNumeric(c) && c != '.' && c != ',' && c != '}' && c != ' '
    ensures Parse2Spec(s + (d + ([c] + t))) == Err("not number")
  {
    var m := Feed(Init(), s).m;
    Resume(s, d + ([c] + t));
    FeedInteger(m, d);
    FeedAppend(m, d, [c] + t);
    var n := m.(state := ValNumber, cache := d);
    assert ([c] + t)[0] == c;
    assert Step(n, c) == Halt(Err("not number"));
  }

  /** Inside any decimal, a character that is not a digit, `.`, `,`, `}` or a
      space is rejected with "not number". */
  lemma DecimalExpectsDigit(s: string, i: string, f: string, c: char, t: string)
    requires Feed(Init(), s).Next?
    requires Feed(Init(), s).m.state == Val && Feed(Init(), s).m.cache == ""
    requires i != [] && AllNumeric(i) && AllNumeric(f)
    requires !IsNumeric(c) && c != '.' && c != ',' && c != '}' && c != ' '
    ensures Parse2Spec(s + (i + (("." + f) + ([c] + t)))) == Err("not number")
  {
    var m := Feed(Init(), s).m;
    Resume(s, i + (("." + f) + ([c] + t)));
    FeedInteger(m, i);
    FeedAppend(m, i, ("." + f) + ([c] + t));
    var n := m.(state := ValNumber, cache := i);
    FeedFraction(n, f);
    FeedAppend(n, "." + f, [c] + t);
    var q := n.(state := ValNumberDecimal, cache := i + f);
    assert ([c] + t)[0] == c;
    assert Step(q, c) == Halt(Err("not number"));
  }

  /** After any complete value (a string, or an object's `}`), a character
      other than `,`, `}` or a space is rejected with "not end signal". */
  lemma EndSignalExpected(s: string, c: char, t: string)
    requires Feed(Init(), s).Next? && Feed(Init(), s).m.state == EndSignal
    requires c != ',' && c != '}' && c != ' '
    ensures Parse2Spec(s + ([c] + t)) == Err("not end signal")
  {
    Resume(s, [c] + t);
    assert ([c] + t)[0] == c;
  }

  /** After a string value, the reader awaits `,` or `}`. */
  lemma StringValueEnds(s: string, x: string)
    requires Feed(Init(), s).Next?
    requires Feed(Init(), s).m.state == Val && Feed(Init(), s).m.cache == ""
    requires '"' !in x && ' ' !in x
    ensures Feed(Init(), s + ("\"" + x + "\"")).Next?
    ensures Feed(Init(), s + ("\"" + x + "\"")).m.state == EndSignal
  {
    var m := Feed(Init(), s).m;
    FeedAppend(Init(), s, "\"" + x + "\"");
    StringCommit(m, x, "");
    assert "\"" + x + "\"" + "" == "\"" + x + "\"";
    assert Feed(Commit(m, String(x), EndSignal), "") == Next(Commit(m, String(x), EndSignal));
  }

  /** After `{"a":1,` the reader awaits the next key inside the document's object. */
  lemma AfterFirstEntry(p: string)
    requires p == "{\"a\":1,"
    ensures Feed(Init(), p) ==
      Next(Machine(KeyNameSignal, "", "", Json(map["" := Object(Json(map["a" := I64(1)]))]), [""]))
  {
    var m := AfterTopBrace();
    var key := "\"" + "a" + "\"" + ":";
    assert p == "{" + (key + ("1" + [','] + ""));
    FeedTopBrace(key + ("1" + [','] + ""));
    ReadKey(m, "a");
    FeedAppend(m, key, "1" + [','] + "");
    var m1 := m.(state := Val, keyName := "a");
    IntegerCommit(m1, "1", ',', "");
    assert DigitsValue("1") == 1;
    var m2 := Commit(m1, I64(1), KeyNameSignal);
    assert Feed(m2, "") == Next(m2);
  }

  /** The same errors arise after the first entry: once `{"a":1,` has been
      read, `"b"x` is rejected for its missing colon and `x` for its missing
      quote. */
  lemma LaterKeyErrors(p: string)
    requires p == "{\"a\":1,"
    ensures Parse2Spec(p + "\"b\"x") == Err("wait signal not correct")
    ensures Parse2Spec(p + "x") == Err("not key name signal")
  {
    AfterFirstEntry(p);
    ColonExpected(p, "b", 'x', "");
    assert "\"" + "b" + "\"" + (['x'] + "") == "\"b\"x";
    KeyMustBeQuoted(p, 'x', "");
    assert ['x'] + "" == "x";
  }

  /** Inside a nested object a key is awaited too, and after a closed value
      only `,` or `}` may follow: `{"a":{x` and `{"a":1}x` are rejected. */
  lemma NestedAndEndErrors(p: string, q: string)
    requires p == "{\"a\":{" && q == "{\"a\":1}"
    ensures Parse2Spec(p + "x") == Err("not key name signal")
    ensures Parse2Spec(q + "x") == Err("not end signal")
  {
    var m := AfterTopBrace();
    var key := "\"" + "a" + "\"" + ":";
    ReadKey(m, "a");
    var m1 := m.(state := Val, keyName := "a");

    assert p == "{" + (key + "{");
    FeedTopBrace(key + "{");
    FeedAppend(m, key, "{");
    FeedOne(m1, '{');
    KeyMustBeQuoted(p, 'x', "");
    assert ['x'] + "" == "x";

    assert q == "{" + (key + ("1" + ['}'] + ""));
    FeedTopBrace(key + ("1" + ['}'] + ""));
    FeedAppend(m, key, "1" + ['}'] + "");
    IntegerCommit(m1, "1", '}', "");
    assert DigitsValue("1") == 1;
    var m2 := Commit(m1, I64(1), EndSignal);
    assert Feed(m2, "") == Next(m2);
    EndSignalExpected(q, 'x', "");
  }
}
