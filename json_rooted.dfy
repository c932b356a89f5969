/// `parse2` nests a document that opens with `{` under the key `""` of an
/// otherwise empty result (src/lib.rs:159-176), while the unit test at
/// src/lib.rs:19-27 reads the document's key `"a"` from the top. This module
/// gives the evidently intended reading, in which the outermost `{` opens the
/// result itself, and proves how the two are related.
module JsonRooted {
  import opened JsonValue
  import opened JsonParse
  import opened JsonParseFacts

  /** The input without its leading spaces. */
  function SkipSpaces(s: string): (r: string)
    ensures r == [] || r[0] != ' '
    decreases |s|
  {
    if s != [] && s[0] == ' ' then SkipSpaces(s[1..]) else s
  }

  lemma {:induction false} FeedSkipsLeadingSpaces(m: Machine, s: string)
    requires Inv(m)
    ensures Feed(m, s) == Feed(m, SkipSpaces(s))
    decreases |s|
  {
    if s != [] && s[0] == ' ' {
      FeedSkipsLeadingSpaces(m, s[1..]);
    }
  }

  /** The state right after the outermost `{` when it opens the result itself. */
  function RootInit(): (m: Machine)
    ensures Inv(m)
  {
    Machine(KeyNameSignal, "", "", Json.New(), [])
  }

  /** `parse2` as evidently intended: the outermost `{` opens the result
      itself; any other document is read as before. */
  function Parse2Rooted(s: string): Outcome
  {
    var t := SkipSpaces(s);
    if t != [] && t[0] == '{' then Run(RootInit(), t[1..]) else Parse2Spec(s)
  }

  /** An object placed under the key `""` of an otherwise empty object. */
  function Wrap(j: Json): Json
  {
    Json(map["" := Object(j)])
  }

  function WrapMachine(m: Machine): Machine
  {
    m.(result := Wrap(m.result), cur := [""] + m.cur)
  }

  function WrapProgress(p: Progress): Progress
  {
    match p
    case Next(m) => Next(WrapMachine(m))
    case Halt(o) => Halt(o)
  }

  function WrapOutcome(o: Outcome): Outcome
  {
    if o.Ok? then Ok(Wrap(o.json)) else o
  }

  lemma AtWrap(j: Json, p: seq<string>)
    ensures At(Wrap(j), [""] + p) == At(j, p)
  {
    assert ([""] + p)[0] == "" && ([""] + p)[1..] == p;
  }

  lemma SetAtWrap(j: Json, p: seq<string>, key: string, v: JsonType)
    requires At(j, p).Some?
    ensures At(Wrap(j), [""] + p).Some?
    ensures SetAt(Wrap(j), [""] + p, key, v) == Wrap(SetAt(j, p, key, v))
  {
    AtWrap(j, p);
    assert ([""] + p)[0] == "" && ([""] + p)[1..] == p;
    assert Wrap(j).SetVal("", Object(SetAt(j, p, key, v))) == Wrap(SetAt(j, p, key, v));
  }

  /** Reading a character below the root entry `""` does what it does at the
      root, one level down. */
  lemma StepWrap(m: Machine, c: char)
    requires Inv(m)
    ensures Inv(WrapMachine(m))
    ensures Step(WrapMachine(m), c) == WrapProgress(Step(m, c))
  {
    AtWrap(m.result, m.cur);
    var w := WrapMachine(m);
    match m.state
    case Val =>
      if c == '{' {
        SetAtWrap(m.result, m.cur, m.keyName, Object(Json.New()));
        assert [""] + (m.cur + [m.keyName]) == w.cur + [m.keyName];
      }
    case ValNumber =>
      if (c == ',' || c == '}') && ParseI64(m.cache).Some? {
        SetAtWrap(m.result, m.cur, m.keyName, I64(ParseI64(m.cache).value));
      }
    case ValNumberDecimal =>
      if c == ',' || c == '}' {
        SetAtWrap(m.result, m.cur, m.keyName, F64(m.cache));
      }
    case ValString =>
      if c == '"' {
        SetAtWrap(m.result, m.cur, m.keyName, String(m.cache));
      }
    case _ =>
  }

  lemma {:induction false} FeedWrap(m: Machine, s: string)
    requires Inv(m)
    ensures Inv(WrapMachine(m))
    ensures Feed(WrapMachine(m), s) == WrapProgress(Feed(m, s))
    decreases |s|
  {
    AtWrap(m.result, m.cur);
    if s != [] {
      if s[0] == ' ' {
        FeedWrap(m, s[1..]);
      } else {
        StepWrap(m, s[0]);
        match Step(m, s[0])
        case Halt(_) =>
        case Next(m') => FeedWrap(m', s[1..]);
      }
    }
  }

  /** For a document that opens with `{`, `parse2` as written returns the
      intended result placed under the key `""`, and fails exactly when the
      intended reading fails, with the same error. */
  lemma RootedRelation(s: string)
    requires var t := SkipSpaces(s); t != [] && t[0] == '{'
    ensures Parse2Spec(s) == WrapOutcome(Parse2Rooted(s))
  {
    var t := SkipSpaces(s);
    FeedSkipsLeadingSpaces(Init(), s);
    assert t == "{" + t[1..];
    FeedTopBrace(t[1..]);
    assert AfterTopBrace() == WrapMachine(RootInit());
    FeedWrap(RootInit(), t[1..]);
  }

  /** `Wrap` loses nothing: the intended result can be read back from the
      as-written one. */
  lemma WrapInjective(a: Json, b: Json)
    requires Wrap(a) == Wrap(b)
    ensures a == b
  {
    assert Wrap(a).attr[""] == Wrap(b).attr[""];
  }
}
