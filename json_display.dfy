/// The `Display` impls of `JsonType` and `Json` (src/lib.rs:71-88, 298-307).
///
/// Two things the Rust standard library decides are parameters here: the
/// order in which a `HashMap` yields its entries, which is unspecified, and
/// the `{:?}` text of an `f64`, whose value this model does not compute.
module JsonDisplay {
  import opened JsonValue

  /** What the standard library supplies to rendering. */
  datatype Env = Env(
    keyOrder: map<string, JsonType> -> seq<string>,  // a HashMap's iteration order
    showF64: string -> string)                       // `{:?}` of the float parsed from a literal

  /** `ks` lists every key of `m` exactly once. */
  predicate IsEnumeration(ks: seq<string>, m: map<string, JsonType>)
  {
    && (forall i :: 0 <= i < |ks| ==> ks[i] in m)
    && (forall k :: k in m ==> k in ks)
    && (forall i, j :: 0 <= i < j < |ks| ==> ks[i] != ks[j])
  }

  /** The iteration order visits each entry of every map once. */
  ghost predicate Enumerates(env: Env)
  {
    forall m :: IsEnumeration(env.keyOrder(m), m)
  }

  /** `{:?}` of a string with nothing to escape. */
  function Quote(s: string): (r: string)
    ensures |r| == |s| + 2 && r[0] == '"' && r[|r| - 1] == '"' && r[1..|r| - 1] == s
  {
    "\"" + s + "\""
  }

  function DigitChar(d: nat): (c: char)
    requires d < 10
    ensures '0' <= c <= '9' && (c - '0') as nat == d
  {
    "0123456789"[d]
  }

  /** The decimal digits of `n`, most significant first, without leading zeros. */
  function NatToString(n: nat): (r: string)
    ensures r != [] && forall i :: 0 <= i < |r| ==> '0' <= r[i] <= '9'
    ensures |r| > 1 ==> r[0] != '0'
  {
    if n < 10 then [DigitChar(n)]
    else NatToString(n / 10) + [DigitChar(n % 10)]
  }

  /** `{:?}` of an `i64`: its decimal text, with a `-` when negative. */
  function I64ToString(n: i64): string
  {
    if n < 0 then "-" + NatToString(-(n as int)) else NatToString(n as int)
  }

  /** The parts separated by `sep`: what the loops writing `sep` before every
      part but the first produce. */
  function Join(parts: seq<string>, sep: string): string
  {
    if |parts| == 0 then ""
    else if |parts| == 1 then parts[0]
    else parts[0] + sep + Join(parts[1..], sep)
  }

  lemma {:induction false} JoinSnoc(parts: seq<string>, p: string, sep: string)
    ensures Join(parts + [p], sep) == if parts == [] then p else Join(parts, sep) + sep + p
    decreases |parts|
  {
    if |parts| > 1 {
      assert (parts + [p])[1..] == parts[1..] + [p];
      JoinSnoc(parts[1..], p, sep);
    } else if |parts| == 1 {
      assert (parts + [p])[1..] == [p];
    }
  }

  /** The text `{}` writes for a value. */
  function Render(v: JsonType, env: Env): string
    requires Enumerates(env)
    decreases v, 2, 0
  {
    match v
    case I64(n) => I64ToString(n)
    case F64(literal) => env.showF64(literal)
    case String(s) => Quote(s)
    case Vec(items) =>
      "[" + Join(seq(|items|, i requires 0 <= i < |items| => Render(items[i], env)), ", ") + "]"
    case Object(o) => RenderJson(o, env)
  }

  /** The text `{}` writes for an object: its entries in iteration order. */
  function RenderJson(j: Json, env: Env): string
    requires Enumerates(env)
    decreases Object(j), 1, 0
  {
    "{" + Join(Entries(j, env.keyOrder(j.attr), env), ", ") + "}"
  }

  /** `key: value` for each of the keys `ks`, in that order. */
  function Entries(j: Json, ks: seq<string>, env: Env): (r: seq<string>)
    requires Enumerates(env)
    requires forall i :: 0 <= i < |ks| ==> ks[i] in j.attr
    ensures |r| == |ks|
    decreases Object(j), 0, |ks|
  {
    if ks == [] then []
    else [Quote(ks[0]) + ": " + Render(j.attr[ks[0]], env)] + Entries(j, ks[1..], env)
  }

  /** `impl Display for JsonType`: writes a scalar directly, a `Vec` element
      by element with `", "` before every element but the first. */
  method FmtJsonType(v: JsonType, env: Env) returns (out: string)
    requires Enumerates(env)
    ensures out == Render(v, env)
    decreases v, 2, 0
  {
    match v {
      case I64(val) =>
        out := I64ToString(val);
      case F64(val) =>
        out := env.showF64(val);
      case String(val) =>
        out := Quote(val);
      case Vec(val) =>
        ghost var parts := seq(|val|, i requires 0 <= i < |val| => Render(val[i], env));
        out := "[";
        var count := 0;
        while count < |val|
          invariant 0 <= count <= |val|
          invariant out == "[" + Join(parts[..count], ", ")
        {
          if count != 0 {
            out := out + ", ";
          }
          var text := FmtJsonType(val[count], env);
          JoinSnoc(parts[..count], text, ", ");
          assert parts[..count + 1] == parts[..count] + [text];
          out := out + text;
          count := count + 1;
        }
        assert parts[..|val|] == parts;
        out := out + "]";
      case Object(val) =>
        out := FmtJson(val, env);
    }
  }

  /** `impl Display for Json`: `{`, then `key: value` for each entry in
      iteration order with `", "` before every entry but the first, then `}`. */
  method FmtJson(j: Json, env: Env) returns (out: string)
    requires Enumerates(env)
    ensures out == RenderJson(j, env)
    decreases Object(j), 1, 0
  {
    var ks := env.keyOrder(j.attr);
    KeysOfOrder(env, j.attr);
    out := "{";
    var count := 0;
    while count < |ks|
      invariant 0 <= count <= |ks|
      invariant out == "{" + Join(Entries(j, ks, env)[..count], ", ")
    {
      ghost var parts := Entries(j, ks, env);
      ghost var before := Join(parts[..count], ", ");
      if count != 0 {
        out := out + ", ";
      }
      var key := ks[count];
      var text := FmtJsonType(j.attr[key], env);
      var entry := Quote(key) + ": " + text;
      EntriesAt(j, ks, env, count);
      JoinPrefix(parts, count, ", ");
      assert out == "{" + (if count == 0 then "" else before + ", ");
      out := out + entry;
      count := count + 1;
    }
    assert Entries(j, ks, env)[..|ks|] == Entries(j, ks, env);
    out := out + "}";
  }

  lemma KeysOfOrder(env: Env, m: map<string, JsonType>)
    requires Enumerates(env)
    ensures forall i :: 0 <= i < |env.keyOrder(m)| ==> env.keyOrder(m)[i] in m
  {
    assert IsEnumeration(env.keyOrder(m), m);
  }

  /** Joining one more part of `parts` adds a separator (unless it is the
      first) and that part. */
  lemma JoinPrefix(parts: seq<string>, n: nat, sep: string)
    requires n < |parts|
    ensures Join(parts[..n + 1], sep) ==
      (if n == 0 then "" else Join(parts[..n], sep) + sep) + parts[n]
  {
    assert parts[..n + 1] == parts[..n] + [parts[n]];
    JoinSnoc(parts[..n], parts[n], sep);
  }

  lemma {:induction false} EntriesAt(j: Json, ks: seq<string>, env: Env, i: nat)
    requires Enumerates(env)
    requires forall k :: 0 <= k < |ks| ==> ks[k] in j.attr
    requires i < |ks|
    ensures Entries(j, ks, env)[i] == Quote(ks[i]) + ": " + Render(j.attr[ks[i]], env)
    decreases i
  {
    if i > 0 {
      EntriesAt(j, ks[1..], env, i - 1);
    }
  }

  /** An object without entries renders as `{}`, whatever the order. */
  lemma EmptyJsonRendersBraces(env: Env)
    requires Enumerates(env)
    ensures RenderJson(Json.New(), env) == "{}"
  {
    var ks := env.keyOrder(Json.New().attr);
    assert IsEnumeration(ks, Json.New().attr);
  }

  /** An empty `Vec` renders as `[]`, a one-element `Vec` as its element in
      brackets, and a longer one as its first element, `", "` and the rest. */
  lemma VecRendering(items: seq<JsonType>, env: Env)
    requires Enumerates(env)
    ensures items == [] ==> Render(Vec(items), env) == "[]"
    ensures |items| == 1 ==> Render(Vec(items), env) == "[" + Render(items[0], env) + "]"
    ensures |items| > 1 ==> (Render(Vec(items), env) ==
      "[" + Render(items[0], env) + ", " + Render(Vec(items[1..]), env)[1..])
  {
    var parts := seq(|items|, i requires 0 <= i < |items| => Render(items[i], env));
    if |items| > 1 {
      var rest := seq(|items| - 1, i requires 0 <= i < |items| - 1 => Render(items[1..][i], env));
      assert parts[1..] == rest;
      var r := Render(Vec(items[1..]), env);
      assert r == "[" + Join(rest, ", ") + "]";
      assert r[1..] == Join(rest, ", ") + "]";
    }
  }
}
