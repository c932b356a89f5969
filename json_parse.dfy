/// `Json::parse2` and `Json::parse` (src/lib.rs:112-295).
///
/// `parse2` reads its input one character at a time. Spaces are dropped
/// before anything else happens. Every other character drives a small state
/// machine over `ReadState`, which keeps a `cache` of the text read so far,
/// the `key_name` of the entry being read and a "current object" into which
/// values are stored. The current object is a mutable reference that only
/// ever moves down into an object it has just created; here it is the path
/// of keys `cur` from the result's root to that object.
module JsonParse {
  import opened JsonValue

  /** The states of the reader (src/lib.rs:119-128). */
  datatype ReadState =
    | KeyNameSignal
    | KeyName
    | Val
    | ValNumber
    | ValNumberDecimal
    | ValString
    | WaitSignal(signal: char)
    | EndSignal

  /** Everything the loop of `parse2` updates. */
  datatype Machine = Machine(
    state: ReadState,
    cache: string,
    keyName: string,
    result: Json,
    cur: seq<string>)

  /** What `parse2` ends with: `Ok`, `Err` with its message, or a panic of
      one of its `unwrap` calls. */
  datatype Outcome = Ok(json: Json) | Err(msg: string) | Panic(reason: string)

  /** Where one step leaves the reader: running on, or stopped. */
  datatype Progress = Next(m: Machine) | Halt(out: Outcome)

  /** `char::is_numeric`, restricted to ASCII digits. */
  predicate IsNumeric(c: char)
  {
    '0' <= c <= '9'
  }

  predicate AllNumeric(s: string)
  {
    forall i :: 0 <= i < |s| ==> IsNumeric(s[i])
  }

  /** The number a string of decimal digits denotes. */
  function DigitsValue(s: string): nat
    requires AllNumeric(s)
  {
    if s == [] then 0
    else DigitsValue(s[..|s| - 1]) * 10 + (s[|s| - 1] - '0') as nat
  }

  /** `str::parse::<i64>` on a string of the shape the reader builds: it
      succeeds exactly for a non-empty digit string within range. */
  function ParseI64(s: string): (r: Option<i64>)
    ensures r.Some? <==> s != [] && AllNumeric(s) && DigitsValue(s) <= MaxI64
    ensures r.Some? ==> r.value as int == DigitsValue(s)
  {
    if s != [] && AllNumeric(s) && DigitsValue(s) <= MaxI64 then Some(DigitsValue(s) as i64)
    else None
  }

  function CountChar(s: string, c: char): nat
  {
    if s == [] then 0
    else CountChar(s[..|s| - 1], c) + (if s[|s| - 1] == c then 1 else 0)
  }

  /** Whether `str::parse::<f64>` accepts a string of the shape the reader
      builds (digits and points): at least one digit and at most one point. */
  predicate FloatLiteralOk(s: string)
  {
    && (forall i :: 0 <= i < |s| ==> IsNumeric(s[i]) || s[i] == '.')
    && (exists i :: 0 <= i < |s| && IsNumeric(s[i]))
    && CountChar(s, '.') <= 1
  }

  /** The object the path `p` leads to from `j`, if every step of it names
      an object. */
  function At(j: Json, p: seq<string>): Option<Json>
  {
    if p == [] then Some(j)
    else if p[0] in j.attr && j.attr[p[0]].Object? then At(j.attr[p[0]].obj, p[1..])
    else None
  }

  /** `cur_json.set_val(key, v)` where `cur_json` is the object at path `p`:
      the object at `p` gets the entry, and nothing outside it changes. */
  function SetAt(j: Json, p: seq<string>, key: string, v: JsonType): (r: Json)
    requires At(j, p).Some?
    ensures At(r, p) == Some(At(j, p).value.SetVal(key, v))
    ensures p != [] ==> r.attr.Keys == j.attr.Keys
    ensures p != [] ==> forall k :: k != p[0] ==> r.GetVal(k) == j.GetVal(k)
  {
    if p == [] then j.SetVal(key, v)
    else j.SetVal(p[0], Object(SetAt(j.attr[p[0]].obj, p[1..], key, v)))
  }

  /** Along the path, each object above the one written to keeps its keys,
      and every entry of it except the one the path goes through. */
  lemma {:induction false} SetAtFrame(j: Json, p: seq<string>, key: string, v: JsonType, n: nat)
    requires At(j, p).Some? && n < |p|
    ensures At(j, p[..n]).Some? && At(SetAt(j, p, key, v), p[..n]).Some?
    ensures At(SetAt(j, p, key, v), p[..n]).value.attr.Keys == At(j, p[..n]).value.attr.Keys
    ensures forall k :: k != p[n] ==>
      At(SetAt(j, p, key, v), p[..n]).value.GetVal(k) == At(j, p[..n]).value.GetVal(k)
    decreases n
  {
    var r := SetAt(j, p, key, v);
    if n == 0 {
      assert p[..0] == [];
    } else {
      var child := j.attr[p[0]].obj;
      SetAtFrame(child, p[1..], key, v, n - 1);
      assert p[..n][0] == p[0] && p[..n][1..] == p[1..][..n - 1];
      assert r.attr[p[0]] == Object(SetAt(child, p[1..], key, v));
    }
  }

  /** The path one key further down leads to the object stored under that key. */
  lemma {:induction false} AtAppend(j: Json, p: seq<string>, key: string)
    requires At(j, p).Some?
    ensures At(j, p + [key]) ==
      (var o := At(j, p).value;
       if key in o.attr && o.attr[key].Object? then Some(o.attr[key].obj) else None)
  {
    if p != [] {
      assert (p + [key])[0] == p[0];
      assert (p + [key])[1..] == p[1..] + [key];
      AtAppend(j.attr[p[0]].obj, p[1..], key);
    }
  }

  /** The reader's invariant: the current object exists. */
  predicate Inv(m: Machine)
  {
    At(m.result, m.cur).Some?
  }

  /** The state `parse2` starts in: awaiting a value, with an empty key and
      the empty result as the current object. */
  function Init(): (m: Machine)
    ensures Inv(m)
  {
    Machine(Val, "", "", Json.New(), [])
  }

  /** Store `v` under the pending key in the current object and clear the
      key and the cache, moving to `next`. */
  function Commit(m: Machine, v: JsonType, next: ReadState): (r: Machine)
    requires Inv(m)
    ensures Inv(r) && r.cur == m.cur && r.state == next
    ensures r.cache == "" && r.keyName == ""
    ensures At(r.result, r.cur) == Some(At(m.result, m.cur).value.SetVal(m.keyName, v))
  {
    m.(state := next, cache := "", keyName := "",
       result := SetAt(m.result, m.cur, m.keyName, v))
  }

  /** One pass of the loop body for a character that is not a space
      (src/lib.rs:140-265). */
  function Step(m: Machine, c: char): (r: Progress)
    requires Inv(m)
    ensures r.Next? ==> Inv(r.m)
    ensures r.Next? ==> m.cur <= r.m.cur && |r.m.cur| <= |m.cur| + 1
    ensures r.Halt? ==> !r.out.Ok?
  {
    match m.state
    case KeyNameSignal =>
      if c != '"' then Halt(Err("not key name signal"))
      else Next(m.(state := KeyName))
    case KeyName =>
      if c == '"' then Next(m.(state := WaitSignal(':'), keyName := m.cache, cache := ""))
      else Next(m.(cache := m.cache + [c]))
    case Val =>
      if c == '{' then
        var m' := m.(state := KeyNameSignal, keyName := "",
                     result := SetAt(m.result, m.cur, m.keyName, Object(Json.New())),
                     cur := m.cur + [m.keyName]);
        AtAppend(m'.result, m.cur, m.keyName);
        Next(m')
      else if c == '"' then Next(m.(state := ValString))
      else if IsNumeric(c) then Next(m.(state := ValNumber, cache := m.cache + [c]))
      else Halt(Err("??? wtf"))
    case ValNumber =>
      if c == ',' || c == '}' then
        match ParseI64(m.cache)
        case None => Halt(Panic("i64 parse failed"))
        case Some(n) => Next(Commit(m, I64(n), if c == ',' then KeyNameSignal else EndSignal))
      else if c == '.' then Next(m.(state := ValNumberDecimal))
      else if !IsNumeric(c) then Halt(Err("not number"))
      else Next(m.(cache := m.cache + [c]))
    case ValNumberDecimal =>
      if c == ',' || c == '}' then
        if !FloatLiteralOk(m.cache) then Halt(Panic("f64 parse failed"))
        else Next(Commit(m, F64(m.cache), if c == ',' then KeyNameSignal else EndSignal))
      else if !IsNumeric(c) && c != '.' then Halt(Err("not number"))
      else Next(m.(cache := m.cache + [c]))
    case ValString =>
      if c == '"' then Next(Commit(m, String(m.cache), EndSignal))
      else Next(m.(cache := m.cache + [c]))
    case WaitSignal(signal) =>
      if c != signal then Halt(Err("wait signal not correct"))
      else if c == ':' then Next(m.(state := Val))
      else Next(m)
    case EndSignal =>
      if c == '}' then Next(m)
      else if c == ',' then Next(m.(state := KeyNameSignal))
      else Halt(Err("not end signal"))
  }

  /** The loop over the whole input: spaces are skipped, everything else is
      a `Step`, and the first `Halt` ends the loop. */
  function Feed(m: Machine, s: string): (r: Progress)
    requires Inv(m)
    ensures r.Next? ==> Inv(r.m) && m.cur <= r.m.cur
    ensures r.Halt? ==> !r.out.Ok?
    decreases |s|
  {
    if s == [] then Next(m)
    else if s[0] == ' ' then Feed(m, s[1..])
    else match Step(m, s[0])
      case Halt(o) => Halt(o)
      case Next(m') => Feed(m', s[1..])
  }

  /** `parse2` from machine `m`: when the input runs out, the result is `Ok`
      whatever the state (src/lib.rs:268). */
  function Run(m: Machine, s: string): Outcome
    requires Inv(m)
  {
    match Feed(m, s)
    case Halt(o) => o
    case Next(m') => Ok(m'.result)
  }

  /** What `Json::parse2(s)` returns. */
  function Parse2Spec(s: string): Outcome
  {
    Run(Init(), s)
  }

  /** `Json::parse2` as the source writes it: one loop over the characters
      that updates the state, the cache, the key and the current object. */
  method Parse2(jsonStr: string) returns (r: Outcome)
    ensures r == Parse2Spec(jsonStr)
  {
    var curState := Val;
    var cache := "";
    var keyName := "";
    var result := Json.New();
    var curJson: seq<string> := [];
    var i := 0;
    while i < |jsonStr|
      invariant 0 <= i <= |jsonStr|
      invariant Inv(Machine(curState, cache, keyName, result, curJson))
      invariant Feed(Init(), jsonStr) ==
        Feed(Machine(curState, cache, keyName, result, curJson), jsonStr[i..])
    {
      assert jsonStr[i..][1..] == jsonStr[i + 1..];
      var c := jsonStr[i];
      i := i + 1;
      if c == ' ' {
        continue;
      }
      match curState {
        case KeyNameSignal =>
          if c != '"' {
            return Err("not key name signal");
          }
          curState := KeyName;
        case KeyName =>
          if c == '"' {
            curState := WaitSignal(':');
            keyName := cache;
            cache := "";
          } else {
            cache := cache + [c];
          }
        case Val =>
          if c == '{' {
            curState := KeyNameSignal;
            result := SetAt(result, curJson, keyName, Object(Json.New()));
            AtAppend(result, curJson, keyName);
            curJson := curJson + [keyName];
            keyName := "";
          } else if c == '"' {
            curState := ValString;
          } else if IsNumeric(c) {
            curState := ValNumber;
            cache := cache + [c];
          } else {
            return Err("??? wtf");
          }
        case ValNumber =>
          if c == ',' || c == '}' {
            curState := if c == ',' then KeyNameSignal else EndSignal;
            var valStr := cache;
            cache := "";
            var n := ParseI64(valStr);
            if n.None? {
              return Panic("i64 parse failed");
            }
            result := SetAt(result, curJson, keyName, I64(n.value));
            keyName := "";
          } else if c == '.' {
            curState := ValNumberDecimal;
          } else {
            if !IsNumeric(c) {
              return Err("not number");
            }
            cache := cache + [c];
          }
        case ValNumberDecimal =>
          if c == ',' || c == '}' {
            curState := if c == ',' then KeyNameSignal else EndSignal;
            var valStr := cache;
            cache := "";
            if !FloatLiteralOk(valStr) {
              return Panic("f64 parse failed");
            }
            result := SetAt(result, curJson, keyName, F64(valStr));
            keyName := "";
          } else {
            if !IsNumeric(c) && c != '.' {
              return Err("not number");
            }
            cache := cache + [c];
          }
        case ValString =>
          if c == '"' {
            var valStr := cache;
            result := SetAt(result, curJson, keyName, String(valStr));
            cache := "";
            keyName := "";
            curState := EndSignal;
          } else {
            cache := cache + [c];
          }
        case WaitSignal(signal) =>
          if c != signal {
            return Err("wait signal not correct");
          }
          if c == ':' {
            curState := Val;
          }
        case EndSignal =>
          if c == ',' {
            curState := KeyNameSignal;
          } else if c != '}' {
            return Err("not end signal");
          }
      }
    }
    return Ok(result);
  }

  /** `Json::parse`: a stub whose loop inspects the characters and keeps
      nothing, so every input gives the empty object (src/lib.rs:271-295). */
  function Parse(jsonStr: string): (r: Outcome)
    ensures r.Ok? && forall key :: r.json.GetVal(key) == None
  {
    Ok(Json.New())
  }
}
