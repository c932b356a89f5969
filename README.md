# JSON layer of rust-web, in Dafny

This project models the `web` module of `src/lib.rs`. That module is a small JSON layer:

- `JsonType` is a value that is an `i64`, an `f64`, a string, a vector of values or a nested object.
- `Json` is an object: a `HashMap` from keys to values. It has `new`, `set_val` and `get_val`.
- `Json::parse2` reads text into a `Json` with a character-by-character state machine.
- `Json::parse` is a stub that returns the empty object.
- The `From` conversions turn a value into an `i64` or a `String`.
- The `Display` impls write a value or an object back out as text.

The modules follow the source:

- `JsonValue` (`json_value.dfy`) holds the data model, `new`/`set_val`/`get_val` and the `From` conversions. `Json` is a value type with pure `GetVal`/`SetVal`. `JsonObject` is a class holding the same map, for the `&mut self` methods, and each method is proved against the value type.
- `JsonParse` (`json_parse.dfy`) holds `parse2` and `parse`:
  - `Step` is one pass of the loop body.
  - `Feed` is the loop, which skips spaces and stops at the first error.
  - `Run` returns the accumulated result once the input runs out.
  - `Parse2` is the loop itself, written as a method with mutable state. It is proved equal to `Parse2Spec`.
  - The `&mut Json` cursor `cur_json` becomes a path of keys from the root. `At` and `SetAt` navigate and update along that path.
  - Panics from `unwrap` are a third outcome, `Panic`, next to `Ok` and `Err`.
- `JsonParseFacts` (`json_parse_facts.dfy`) proves what `parse2` does to whole inputs. It covers spaces, truncated input, numbers, strings, keys, errors and the outermost `{`.
- `JsonRooted` (`json_rooted.dfy`) is the reading of `parse2` that the unit test expects: the outermost `{` opens the result itself. It proves exactly how that reading relates to the code as written.
- `JsonDisplay` (`json_display.dfy`) holds the two `Display` impls. They are loops written as methods and proved against the functions `Render` and `RenderJson`.
- `JsonRoundTrip` (`json_roundtrip.dfy`) shows that writing an object with `Display` and reading the text back gives the object again. This holds for flat objects of non-negative integers and plain strings. It also proves what happens to the unit test's document.

Some behaviour of `parse2` that the proofs make explicit:

- Every space is skipped, including spaces inside keys and strings.
- Input that ends in the middle of a value is accepted. The result holds what was stored so far.
- A decimal such as `444.2` drops its point: the stored literal is `4442`.
- `{}` is rejected.
- A document that opens with `{` is stored under the key `""` (see Findings).

## Model

| member | source | states |
|---|---|---|
| JsonValue.Json.New | src/lib.rs:100-102 | the new object has no value under any key |
| JsonValue.Json.GetVal | src/lib.rs:108-110 | finds a value exactly when the key is present, and that value is the stored one |
| JsonValue.Json.SetVal | src/lib.rs:104-106 | afterwards the key gives the new value, every other key gives what it gave before, and the key set gains the key |
| JsonValue.JsonObject.New | src/lib.rs:100-102 | the new object's contents are the empty `Json` |
| JsonValue.JsonObject.SetVal | src/lib.rs:104-106 | the object's new contents are its old contents with the entry inserted or replaced |
| JsonValue.JsonObject.GetVal | src/lib.rs:108-110 | returns what the value type's `GetVal` gives on the object's contents: a value exactly when the key is present, and that value is the stored one |
| JsonValue.ObjectClient | src/lib.rs:4-17 | the unit tests through the contracts alone: a new object has nothing under `"asd"`, a stored `i64` 123 converts back to 123, and a second store replaces the first |
| JsonValue.I64From | src/lib.rs:43-50 | an `i64` value gives its number and every other value gives 0 |
| JsonValue.StringFrom | src/lib.rs:62-69 | a string value gives its text and every other value gives the empty string |
| JsonParse.ParseI64 | src/lib.rs:199 | `parse::<i64>` succeeds exactly on a non-empty digit string whose value is at most 2^63-1, and then returns that value |
| JsonParse.SetAt | src/lib.rs:165 | storing through the cursor changes the object at the cursor's path by that one entry and keeps every root key other than the path's first |
| JsonParse.SetAtFrame | src/lib.rs:165 | at every level above the cursor, the object on the path keeps its key set and every entry except the one the path goes through |
| JsonParse.Step | src/lib.rs:140-265 | one character keeps the cursor a valid path, extends the path by at most one key and never reports success |
| JsonParse.Feed | src/lib.rs:135-266 | the loop keeps the cursor valid, only extends its path, and stops only on an error or a panic |
| JsonParse.Parse2 | src/lib.rs:112-269 | the loop over the characters returns exactly what the state machine `Run(Init(), s)` gives |
| JsonParse.Parse | src/lib.rs:271-295 | `parse` always succeeds with the empty object |
| JsonParseFacts.Parse2IgnoresSpaces | src/lib.rs:135-136 | the result is the same as for the input with every space removed |
| JsonParseFacts.Parse2NoSpaces | src/lib.rs:136 | no key and no string in a successful result contains a space |
| JsonParseFacts.FeedAppend | src/lib.rs:135-266 | reading `s + t` is reading `s`, then reading `t` from where it stopped, unless `s` already ended the loop |
| JsonParseFacts.TruncatedInputAccepted | src/lib.rs:268 | when an input succeeds, every prefix of it succeeds too |
| JsonParseFacts.FailureIsFinal | src/lib.rs:142-262 | once a prefix fails, anything appended gives the same failure |
| JsonParseFacts.UnterminatedStringDropped | src/lib.rs:231-268 | a string value with no closing quote is silently dropped and the result is `Ok` |
| JsonParseFacts.IntegerCommit | src/lib.rs:182-201 | digits then `,` or `}` store their value as `i64`, or panic when it exceeds 2^63-1 |
| JsonParseFacts.TrailingIntegerDropped | src/lib.rs:190-268 | an integer at the end of the input with no `,` or `}` after it is dropped |
| JsonParseFacts.DecimalPointDropped | src/lib.rs:202-223 | `i.f` then `,` or `}` stores the `f64` literal `i + f`, without its point |
| JsonParseFacts.StringCommit | src/lib.rs:231-241 | a quoted string stores its text and waits for `,` or `}` |
| JsonParseFacts.EndSignalStep | src/lib.rs:256-263 | after a value, `,` waits for a new key and `}` keeps waiting |
| JsonParseFacts.ReadKey | src/lib.rs:141-157 | a quoted key and its colon set the pending key and wait for a value |
| JsonParseFacts.TopLevelBraceNestsUnderEmptyKey | src/lib.rs:159-176 | a successful document that opens with `{` has exactly one root key, `""`, which holds an object |
| JsonParseFacts.BraceExample | src/lib.rs:159-201 | `{"a":1}` reads as `{"": {"a": 1}}` |
| JsonParseFacts.NonValueStartRejected | src/lib.rs:181-186 | an input whose first non-space character is not `{`, `"` or an ASCII digit is rejected with "??? wtf" |
| JsonParseFacts.Resume | src/lib.rs:135-268 | once a prefix has been read without an error, reading the rest of the input continues from the state the prefix left, so the outcome depends on the prefix only through that state |
| JsonParseFacts.ValueStartRejected | src/lib.rs:181-186 | after any prefix that leaves the reader awaiting a value, a non-space character other than `{`, `"` or an ASCII digit is rejected with "??? wtf" |
| JsonParseFacts.ColonExpected | src/lib.rs:245-246 | after any prefix that leaves the reader awaiting a key, a quoted key followed by a non-space character other than `:` is rejected with "wait signal not correct" |
| JsonParseFacts.IntegerExpectsDigit | src/lib.rs:205-206 | after any prefix that leaves the reader awaiting a value, digits followed by a non-space character other than a digit, `.`, `,` or `}` are rejected with "not number" |
| JsonParseFacts.DecimalExpectsDigit | src/lib.rs:224-225 | after any prefix that leaves the reader awaiting a value, `i.f` followed by a non-space character other than a digit, `.`, `,` or `}` is rejected with "not number" |
| JsonParseFacts.EndSignalExpected | src/lib.rs:256-262 | after any prefix that leaves the reader after a complete value, a non-space character other than `,` or `}` is rejected with "not end signal" |
| JsonParseFacts.KeyMustBeQuoted | src/lib.rs:141-142 | after any prefix that leaves the reader awaiting a key (after the outermost `{`, a `,` or a nested `{`), a non-space character other than `"` is rejected with "not key name signal" |
| JsonParseFacts.StringValueEnds | src/lib.rs:231-241 | after any prefix that leaves the reader awaiting a value, a quoted string leaves it after a complete value |
| JsonParseFacts.LaterKeyErrors | src/lib.rs:141-142 | after `{"a":1,` the same key errors arise: `"b"x` gives "wait signal not correct" and `x` gives "not key name signal" |
| JsonParseFacts.NestedAndEndErrors | src/lib.rs:256-262 | `{"a":{x` gives "not key name signal" and `{"a":1}x` gives "not end signal" |
| JsonParseFacts.EmptyObjectRejected | src/lib.rs:141-142 | `{}` is rejected with "not key name signal" |
| JsonRooted.RootedRelation | src/lib.rs:159-176 | for a document that opens with `{`, the code as written returns the intended result nested under `""`, and it fails exactly when the intended reading fails, with the same error |
| JsonRooted.WrapInjective | src/lib.rs:159-176 | the nesting under `""` loses nothing |
| JsonDisplay.FmtJsonType | src/lib.rs:71-88 | writes exactly `Render(v)`: a scalar's `{:?}` text, or a vector's elements in order between brackets with `", "` between them |
| JsonDisplay.FmtJson | src/lib.rs:298-307 | writes exactly `RenderJson(j)`: `{`, each entry as `"key": value` in the map's iteration order separated by `", "`, then `}` |
| JsonDisplay.EmptyJsonRendersBraces | src/lib.rs:298-307 | an object with no entries is written as `{}` whatever the iteration order |
| JsonDisplay.VecRendering | src/lib.rs:77-84 | `[]` for an empty vector, one element with no separator, and otherwise the first element, `", "`, then the rest |
| JsonRoundTrip.NatToStringValue | src/lib.rs:74 | the decimal text written for a non-negative integer reads back as that integer |
| JsonRoundTrip.EntryRead | src/lib.rs:141-263 | one written entry `"k": v` followed by `,` or `}` stores `v` under `k` |
| JsonRoundTrip.RoundTripRooted | src/lib.rs:112-269 | under the intended reading, parsing what `Display` writes for a non-empty flat object gives that object back, for any iteration order |
| JsonRoundTrip.RoundTripAsWritten | src/lib.rs:112-269 | the code as written gives the same object back, nested under `""` |
| JsonRoundTrip.EmptyObjectNoRoundTrip | src/lib.rs:298-307 | the empty object is written as `{}`, which `parse2` rejects |
| JsonRoundTrip.TestDocumentRooted | src/lib.rs:19-27 | under the intended reading, the unit test's document gives the expected object, with `"a"` = 123 |
| JsonRoundTrip.TestDocumentAsWritten | src/lib.rs:19-27 | the code as written gives that object under `""`, so `get_val("a")` finds nothing |

## Left out

- `f64` values: a float is kept as the digit text `parse::<f64>` would read. Its numeric value is not modelled. Its `{:?}` text is a parameter of rendering, `showF64`.
- The `From<&mut JsonType> for f64` conversion (src/lib.rs:52-60) is not modelled. Its result is a float computed from an `i64` or `f64`, and floats are not modelled.
- `char::is_numeric` is modelled as the ASCII digits `0`-`9`. The source's method also accepts other Unicode numerals, such as `٣`, and on those the model gives a different answer from the source. The model rejects such a character with `Err("??? wtf")` at the start of a value (src/lib.rs:182-186) or `Err("not number")` inside a number (src/lib.rs:206, 225). The source accepts it into the number. It then returns `Ok` if the input ends before the number is closed (src/lib.rs:268), or panics in `parse::<i64>` at src/lib.rs:199 or `parse::<f64>` at src/lib.rs:221 when a `,` or `}` closes it. For example, the model gives `Err("??? wtf")` for the input `٣`, where the source returns `Ok` of the empty object. The error lemmas that mention "not a digit" (JsonParseFacts.NonValueStartRejected, JsonParseFacts.ValueStartRejected, JsonParseFacts.IntegerExpectsDigit and JsonParseFacts.DecimalExpectsDigit) therefore hold of the source only for characters that are not Unicode numerals.
- `Quote`: the `{:?}` text of a string is modelled without escapes. Rust writes `"`, `\`, control characters and other non-printable characters escaped, and `parse2` has no unescaping. The round-trip lemmas therefore only cover `PlainText` keys and strings, which `{:?}` writes unchanged.
- `HashMap` iteration order is unspecified. Rendering therefore takes it as a parameter `keyOrder`, which is only required to list each key once. `keyOrder` is a function of the map's contents, so two equal maps, such as two equal objects in one `Vec`, always render in the same order. In Rust each `HashMap` has its own random hasher state and may order them differently. Every lemma about rendering holds for every `keyOrder`, so none depends on this choice.
- `get_val` returns `&mut JsonType`. The model returns the value itself. Writes through that reference are not modelled, apart from the one inside `parse2`, which is modelled as a path.
- `cur_json` aliasing into `result` is modelled as a path of keys from the root, not as a reference into it.
- Errors returned by the `Formatter` (the `?` after each `write!`) are not modelled. Writing is taken to succeed.
- The `println!` calls in `parse2` and in the unit test are output only and are not modelled.
- The `Err("not json obj")` branch (src/lib.rs:171-173) cannot be taken, because the value just stored under that key is an object. It is not modelled.
- `JsonParse.Parse` does not model the loop of `parse` (src/lib.rs:280-291). The loop has no effect on the result, so only the result is modelled.
- The parser is modelled as the code writes it, and the code reads no arrays, no `null`/`true`/`false`, no negative numbers, no exponents and no escapes, so neither does the model.
- JsonRoundTrip.RoundTripRooted: stated only for non-empty flat objects. Keys and strings must be printable ASCII without space, `"` or `\` (`PlainText`), and integers must be non-negative. Other values are changed by the reader: spaces are dropped, floats lose their point, negative numbers are rejected, and nested objects and vectors are not re-read by the same path.
- The repository's demo server, which only calls into this module, is not part of this model.

## Findings

| source | as written | input that shows it | evidently intended | confidence | as-written member | corrected member |
|---|---|---|---|---|---|---|
| src/lib.rs:159-176 | `parse2` starts in the value state, so the outermost `{` stores a new object under the empty key `""` and reads the document into it | the unit test's document at src/lib.rs:21: the result is `{"": {...}}`, so `get_val("a")` at src/lib.rs:26 is `None` and `unwrap` panics | the outermost `{` opens the result itself, so `get_val("a")` gives 123 | high, not executed | JsonRoundTrip.TestDocumentAsWritten | JsonRoundTrip.TestDocumentRooted |
