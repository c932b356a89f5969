/// Rendering an object with `Display` and reading the text back with
/// `parse2`. For a flat object of non-negative integers and strings, with
/// keys and strings of printable ASCII other than space, `"` and `\`, the
/// text `Display` writes is read back in full, though by the code as written
/// under the key `""`. Floats,
/// vectors, nested objects, negative numbers and the empty object do not come
/// back: `parse2` has no syntax for vectors, drops the point of a decimal,
/// never leaves a nested object, rejects `-` and rejects `{}`.
module JsonRoundTrip {
  import opened JsonValue
  import opened JsonParse
  import opened JsonParseFacts
  import opened JsonRooted
  import opened JsonDisplay

  /** The `{:?}` text of a non-negative integer reads back as that integer. */
  lemma {:induction false} NatToStringValue(n: nat)
    ensures AllNumeric(NatToString(n)) && DigitsValue(NatToString(n)) == n
    decreases n
  {
    var s := NatToString(n);
    if n >= 10 {
      NatToStringValue(n / 10);
      assert s[..|s| - 1] == NatToString(n / 10);
    } else {
      assert s[..|s| - 1] == [];
    }
  }

  /** Text that `{:?}` writes unescaped and `parse2` reads back unchanged
      inside quotes: printable ASCII other than space, `"` and `\`. */
  predicate PlainText(s: string)
  {
    forall i :: 0 <= i < |s| ==> '!' <= s[i] <= '~' && s[i] != '"' && s[i] != '\\'
  }

  lemma PlainTextReadable(s: string)
    requires PlainText(s)
    ensures '"' !in s && ' ' !in s
  {
    forall i | 0 <= i < |s|
      ensures s[i] != '"' && s[i] != ' '
    {
    }
  }

  predicate FlatValue(v: JsonType)
  {
    (v.I64? && v.i >= 0) || (v.String? && PlainText(v.s))
  }

  /** An object whose keys are plain text and whose values are non-negative
      integers or plain strings. */
  predicate Flat(j: Json)
  {
    forall k :: k in j.attr ==> PlainText(k) && FlatValue(j.attr[k])
  }

  /** The reader at the result's root, with nothing cached and no pending key. */
  function AtRoot(state: ReadState, acc: Json): (m: Machine)
    ensures Inv(m)
  {
    Machine(state, "", "", acc, [])
  }

  /** One rendered entry `"k": v` followed by `,` or `}` stores `v` under `k`
      in the current object. */
  lemma EntryRead(m: Machine, k: string, v: JsonType, c: char, t: string, env: Env)
    requires Enumerates(env)
    requires Inv(m) && m.state == KeyNameSignal && m.cache == "" && m.keyName == ""
    requires PlainText(k) && FlatValue(v) && (c == ',' || c == '}')
    ensures Feed(m, Quote(k) + ": " + Render(v, env) + [c] + t) ==
      Feed(Commit(m.(state := Val, keyName := k), v, After(c)), t)
  {
    PlainTextReadable(k);
    var m1 := m.(state := Val, keyName := k);
    var r := Render(v, env);
    assert Quote(k) + ": " + r + [c] + t == "\"" + k + "\"" + ": " + (r + [c] + t);
    ReadKeyThenSpace(m, k, r + [c] + t);
    if v.I64? {
      NatToStringValue(v.i as int);
      assert r == NatToString(v.i as int);
      IntegerCommit(m1, r, c, t);
      assert DigitsValue(r) as i64 == v.i;
    } else {
      PlainTextReadable(v.s);
      assert r == "\"" + v.s + "\"";
      assert r + [c] + t == "\"" + v.s + "\"" + ([c] + t);
      StringCommit(m1, v.s, [c] + t);
      var m2 := Commit(m1, String(v.s), EndSignal);
      EndSignalStep(m2, c, t);
      assert m2.(state := After(c)) == Commit(m1, v, After(c));
    }
  }

  /** `acc` with the entries of `j` under the keys `ks` stored one by one. */
  function SetAll(acc: Json, j: Json, ks: seq<string>): Json
    requires forall i :: 0 <= i < |ks| ==> ks[i] in j.attr
    decreases |ks|
  {
    if ks == [] then acc
    else SetAll(acc.SetVal(ks[0], j.attr[ks[0]]), j, ks[1..])
  }

  lemma {:induction false} SetAllGet(acc: Json, j: Json, ks: seq<string>, x: string)
    requires forall i :: 0 <= i < |ks| ==> ks[i] in j.attr
    ensures SetAll(acc, j, ks).GetVal(x) == if x in ks then j.GetVal(x) else acc.GetVal(x)
    decreases |ks|
  {
    if ks != [] {
      assert x in ks <==> x == ks[0] || x in ks[1..] by {
        assert ks == [ks[0]] + ks[1..];
      }
      SetAllGet(acc.SetVal(ks[0], j.attr[ks[0]]), j, ks[1..], x);
    }
  }

  lemma JsonEquality(a: Json, b: Json)
    requires forall x :: a.GetVal(x) == b.GetVal(x)
    ensures a == b
  {
    assert forall x :: x in a.attr <==> x in b.attr by {
      forall x ensures x in a.attr <==> x in b.attr {
        assert a.GetVal(x).Some? <==> b.GetVal(x).Some?;
      }
    }
    assert a.attr == b.attr by {
      forall x | x in a.attr ensures a.attr[x] == b.attr[x] {
        assert a.GetVal(x) == b.GetVal(x);
      }
    }
  }

  /** The rendered entries of `ks`, joined by `", "` and closed by `}`, store
      every one of them in the current object, in order. */
  lemma {:induction false} EntriesRead(j: Json, ks: seq<string>, acc: Json, env: Env)
    requires Enumerates(env) && Flat(j)
    requires ks != [] && forall i :: 0 <= i < |ks| ==> ks[i] in j.attr
    ensures Feed(AtRoot(KeyNameSignal, acc), Join(Entries(j, ks, env), ", ") + "}") ==
      Next(AtRoot(EndSignal, SetAll(acc, j, ks)))
    decreases |ks|
  {
    var m := AtRoot(KeyNameSignal, acc);
    var es := Entries(j, ks, env);
    var k := ks[0];
    var v := j.attr[k];
    var e := Quote(k) + ": " + Render(v, env);
    assert es[0] == e;
    if |ks| == 1 {
      assert Join(es, ", ") + "}" == e + ['}'] + "";
      EntryRead(m, k, v, '}', "", env);
      assert Commit(m.(state := Val, keyName := k), v, EndSignal) ==
        AtRoot(EndSignal, acc.SetVal(k, v));
    } else {
      var rest := Join(Entries(j, ks[1..], env), ", ");
      assert es[1..] == Entries(j, ks[1..], env);
      assert Join(es, ", ") + "}" == e + [','] + (" " + (rest + "}"));
      EntryRead(m, k, v, ',', " " + (rest + "}"), env);
      var m1 := AtRoot(KeyNameSignal, acc.SetVal(k, v));
      assert Commit(m.(state := Val, keyName := k), v, KeyNameSignal) == m1;
      FeedSpace(m1, rest + "}");
      EntriesRead(j, ks[1..], acc.SetVal(k, v), env);
    }
  }

  /** With the outermost `{` opening the result itself, reading back what
      `Display` writes for a non-empty flat object gives that object, in
      whatever order the entries were written. */
  lemma RoundTripRooted(j: Json, env: Env)
    requires Enumerates(env) && Flat(j) && j.attr != map[]
    ensures Parse2Rooted(RenderJson(j, env)) == Ok(j)
  {
    var ks := env.keyOrder(j.attr);
    assert IsEnumeration(ks, j.attr);
    var x :| x in j.attr;
    assert x in ks;
    var body := Join(Entries(j, ks, env), ", ") + "}";
    var s := RenderJson(j, env);
    assert s == "{" + body;
    assert SkipSpaces(s) == s;
    assert s[1..] == body;
    EntriesRead(j, ks, Json.New(), env);
    forall y ensures SetAll(Json.New(), j, ks).GetVal(y) == j.GetVal(y) {
      SetAllGet(Json.New(), j, ks, y);
    }
    JsonEquality(SetAll(Json.New(), j, ks), j);
  }

  /** The code as written reads the same text back under the key `""`. */
  lemma RoundTripAsWritten(j: Json, env: Env)
    requires Enumerates(env) && Flat(j) && j.attr != map[]
    ensures Parse2Spec(RenderJson(j, env)) == Ok(Wrap(j))
  {
    RoundTripRooted(j, env);
    var s := RenderJson(j, env);
    assert s[0] == '{' && SkipSpaces(s) == s;
    RootedRelation(s);
  }

  /** The empty object does not come back: `Display` writes `{}`, which
      `parse2` rejects. */
  lemma EmptyObjectNoRoundTrip(env: Env)
    requires Enumerates(env)
    ensures Parse2Spec(RenderJson(Json.New(), env)) == Err("not key name signal")
  {
    EmptyJsonRendersBraces(env);
    EmptyObjectRejected();
  }

  // ---------------------------------------------------------------------------
  // The unit test `parse_json` (src/lib.rs:19-27)

  /** The document the test reads (src/lib.rs:21), in three pieces: the
      outermost `{`, the flat entries, and the nested object with the end. */
  const TestHead: string := " \"a\": 123, \"c\": \"aaad\", \"fgfgfg\": 444.2,"
  const TestTail: string := " \"complex\": { \"son\": 123} } "
  const TestDocument: string := " {" + TestHead + TestTail

  /** What the intended reading gives for it. The decimal keeps the literal
      "4442", since its point is dropped either way. */
  function TestResult(): Json
  {
    Json(map["a" := I64(123), "c" := String("aaad"), "fgfgfg" := F64("4442"),
             "complex" := Object(Json(map["son" := I64(123)]))])
  }

  lemma Digits123()
    ensures AllNumeric("123") && DigitsValue("123") == 123
  {
    assert "123"[..2] == "12" && "12"[..1] == "1" && "1"[..0] == "";
  }

  /** `"a": 123,` at the root stores 123 under `"a"`. */
  lemma TestEntryA(acc: Json, rest: string)
    ensures Feed(AtRoot(KeyNameSignal, acc), " \"a\": 123," + rest) ==
      Feed(AtRoot(KeyNameSignal, acc.SetVal("a", I64(123))), rest)
  {
    var m := AtRoot(KeyNameSignal, acc);
    assert " \"a\": 123," + rest == " " + ("\"" + "a" + "\"" + ": " + ("123" + [','] + rest));
    FeedSpace(m, "\"" + "a" + "\"" + ": " + ("123" + [','] + rest));
    ReadKeyThenSpace(m, "a", "123" + [','] + rest);
    Digits123();
    IntegerCommit(m.(state := Val, keyName := "a"), "123", ',', rest);
  }

  /** `"c": "aaad",` at the root stores the string under `"c"`. */
  lemma TestEntryC(acc: Json, rest: string)
    ensures Feed(AtRoot(KeyNameSignal, acc), " \"c\": \"aaad\"," + rest) ==
      Feed(AtRoot(KeyNameSignal, acc.SetVal("c", String("aaad"))), rest)
  {
    var m := AtRoot(KeyNameSignal, acc);
    assert " \"c\": \"aaad\"," + rest == " " + ("\"" + "c" + "\"" + ": " + ("\"" + "aaad" + "\"" + ([','] + rest)));
    FeedSpace(m, "\"" + "c" + "\"" + ": " + ("\"" + "aaad" + "\"" + ([','] + rest)));
    ReadKeyThenSpace(m, "c", "\"" + "aaad" + "\"" + ([','] + rest));
    var mc := m.(state := Val, keyName := "c");
    StringCommit(mc, "aaad", [','] + rest);
    EndSignalStep(Commit(mc, String("aaad"), EndSignal), ',', rest);
  }

  /** `"fgfgfg": 444.2,` at the root stores the literal without its point. */
  lemma TestEntryF(acc: Json, rest: string)
    ensures Feed(AtRoot(KeyNameSignal, acc), " \"fgfgfg\": 444.2," + rest) ==
      Feed(AtRoot(KeyNameSignal, acc.SetVal("fgfgfg", F64("4442"))), rest)
  {
    var m := AtRoot(KeyNameSignal, acc);
    assert " \"fgfgfg\": 444.2," + rest == " " + ("\"" + "fgfgfg" + "\"" + ": " + ("444" + "." + "2" + [','] + rest));
    FeedSpace(m, "\"" + "fgfgfg" + "\"" + ": " + ("444" + "." + "2" + [','] + rest));
    ReadKeyThenSpace(m, "fgfgfg", "444" + "." + "2" + [','] + rest);
    DecimalPointDropped(m.(state := Val, keyName := "fgfgfg"), "444", "2", ',', rest);
    assert "444" + "2" == "4442";
  }

  /** The entries up to the nested object. */
  lemma TestDocumentHead(rest: string)
    ensures Feed(AtRoot(KeyNameSignal, Json.New()), TestHead + rest) ==
      Feed(AtRoot(KeyNameSignal, Json.New().SetVal("a", I64(123)).SetVal("c", String("aaad"))
                                           .SetVal("fgfgfg", F64("4442"))), rest)
  {
    var r2 := " \"fgfgfg\": 444.2," + rest;
    var r1 := " \"c\": \"aaad\"," + r2;
    assert TestHead + rest == " \"a\": 123," + r1;
    TestEntryA(Json.New(), r1);
    TestEntryC(Json.New().SetVal("a", I64(123)), r2);
    TestEntryF(Json.New().SetVal("a", I64(123)).SetVal("c", String("aaad")), rest);
  }

  /** The key `"complex"` and the `{` that opens its object. */
  lemma TestTailOpen(j3: Json, h: string)
    ensures Feed(AtRoot(KeyNameSignal, j3), " \"complex\": {" + h) ==
      Feed(Machine(KeyNameSignal, "", "", j3.SetVal("complex", Object(Json.New())), ["complex"]), h)
  {
    var m3 := AtRoot(KeyNameSignal, j3);
    assert " \"complex\": {" + h == " " + ("\"" + "complex" + "\"" + ": " + ("{" + h));
    FeedSpace(m3, "\"" + "complex" + "\"" + ": " + ("{" + h));
    ReadKeyThenSpace(m3, "complex", "{" + h);
    var m3c := m3.(state := Val, keyName := "complex");
    var m4 := Machine(KeyNameSignal, "", "", j3.SetVal("complex", Object(Json.New())), ["complex"]);
    assert Step(m3c, '{') == Next(m4);
    assert ("{" + h)[0] == '{' && ("{" + h)[1..] == h;
  }

  /** The nested entry `"son": 123` and its closing brace. */
  lemma TestEntrySon(j4: Json, rest: string)
    requires "complex" in j4.attr && j4.attr["complex"] == Object(Json.New())
    ensures Feed(Machine(KeyNameSignal, "", "", j4, ["complex"]), " \"son\": 123}" + rest) ==
      Feed(Machine(EndSignal, "", "", j4.SetVal("complex", Object(Json(map["son" := I64(123)]))),
                   ["complex"]), rest)
  {
    var m4 := Machine(KeyNameSignal, "", "", j4, ["complex"]);
    assert " \"son\": 123}" + rest == " " + ("\"" + "son" + "\"" + ": " + ("123" + ['}'] + rest));
    FeedSpace(m4, "\"" + "son" + "\"" + ": " + ("123" + ['}'] + rest));
    ReadKeyThenSpace(m4, "son", "123" + ['}'] + rest);
    var m4s := m4.(state := Val, keyName := "son");
    Digits123();
    IntegerCommit(m4s, "123", '}', rest);
    var m5 := Commit(m4s, I64(123), EndSignal);
    assert Json.New().SetVal("son", I64(123)) == Json(map["son" := I64(123)]);
    assert m5.result == j4.SetVal("complex", Object(Json(map["son" := I64(123)])));
  }

  /** The closing ` } ` after a value changes nothing. */
  lemma TestClosing(m: Machine)
    requires Inv(m) && m.state == EndSignal
    ensures Feed(m, " } ") == Next(m)
  {
    assert " } " == " " + (['}'] + " ");
    FeedSpace(m, ['}'] + " ");
    EndSignalStep(m, '}', " ");
    FeedSpace(m, "");
  }

  /** The nested entry `"son": 123` and the two closing braces. */
  lemma TestTailClose(j4: Json)
    requires "complex" in j4.attr && j4.attr["complex"] == Object(Json.New())
    ensures Feed(Machine(KeyNameSignal, "", "", j4, ["complex"]), " \"son\": 123} } ") ==
      Next(Machine(EndSignal, "", "", j4.SetVal("complex", Object(Json(map["son" := I64(123)]))),
                   ["complex"]))
  {
    assert " \"son\": 123} } " == " \"son\": 123}" + " } ";
    TestEntrySon(j4, " } ");
    var j5 := j4.SetVal("complex", Object(Json(map["son" := I64(123)])));
    assert At(j5, ["complex"]).Some?;
    TestClosing(Machine(EndSignal, "", "", j5, ["complex"]));
  }

  /** The nested object and the end, after any entries `acc`. */
  lemma TestDocumentTail(acc: Json, tail: string)
    requires tail == TestTail
    ensures Feed(AtRoot(KeyNameSignal, acc), tail) ==
      Next(Machine(EndSignal, "", "", acc.SetVal("complex", Object(Json(map["son" := I64(123)]))),
                   ["complex"]))
  {
    var h := " \"son\": 123} } ";
    assert tail == " \"complex\": {" + h;
    TestTailOpen(acc, h);
    TestTailClose(acc.SetVal("complex", Object(Json.New())));
    assert acc.SetVal("complex", Object(Json.New())).SetVal("complex", Object(Json(map["son" := I64(123)])))
      == acc.SetVal("complex", Object(Json(map["son" := I64(123)])));
  }

  /** Everything after the outermost `{` fills the result and ends inside
      the nested object. */
  lemma TestBody(head: string, tail: string)
    requires head == TestHead && tail == TestTail
    ensures Feed(RootInit(), head + tail) ==
      Next(Machine(EndSignal, "", "", TestResult(), ["complex"]))
  {
    var j3 := Json.New().SetVal("a", I64(123)).SetVal("c", String("aaad")).SetVal("fgfgfg", F64("4442"));
    TestDocumentHead(tail);
    assert RootInit() == AtRoot(KeyNameSignal, Json.New());
    TestDocumentTail(j3, tail);
    TestResultBuilt(j3);
  }

  lemma TestDocumentStart()
    ensures SkipSpaces(TestDocument) == "{" + (TestHead + TestTail)
  {
    var x := "{" + (TestHead + TestTail);
    assert TestDocument == " " + x;
    assert (" " + x)[1..] == x;
    assert x[0] == '{';
  }

  /** With the outermost `{` opening the result, the test finds `"a"` = 123. */
  lemma TestDocumentRooted()
    ensures Parse2Rooted(TestDocument) == Ok(TestResult())
    ensures Parse2Rooted(TestDocument).json.GetVal("a") == Some(I64(123))
  {
    TestDocumentStart();
    var x := "{" + (TestHead + TestTail);
    assert x[1..] == TestHead + TestTail;
    TestBody(TestHead, TestTail);
  }

  lemma TestResultBuilt(j3: Json)
    requires j3 == Json.New().SetVal("a", I64(123)).SetVal("c", String("aaad")).SetVal("fgfgfg", F64("4442"))
    ensures j3.SetVal("complex", Object(Json(map["son" := I64(123)]))) == TestResult()
  {
  }

  /** The code as written puts the document under `""`, so the test's
      `get_val("a")` finds nothing and its `unwrap` panics. */
  lemma TestDocumentAsWritten()
    ensures Parse2Spec(TestDocument) == Ok(Wrap(TestResult()))
    ensures Parse2Spec(TestDocument).json.GetVal("a") == None
  {
    TestDocumentRooted();
    TestDocumentStart();
    RootedRelation(TestDocument);
  }
}
