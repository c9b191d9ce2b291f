/**
 * Values shared by the chat turn pipeline: the provider boundary's message,
 * citation and stream-chunk shapes, a JSON value for what the providers parse,
 * the abstract HTTP response the providers read, errors, and the token
 * approximation both providers use.
 */
module ChatTypes {

  datatype Option<+T> = None | Some(value: T)

  /** Why a call failed; `ApiError` carries the message the provider builds. */
  datatype Error =
    | NotFound(message: string)
    | NoUserMessage
    | ApiError(message: string)
    | NoReader
    | ReadFailed
    | InvalidJson
    | UnsupportedContent

  datatype Result<+T> = Ok(value: T) | Err(error: Error)

  datatype Role = User | Assistant | System

  /** One turn handed to a provider: role and content only. */
  datatype AiMessage = AiMessage(role: Role, content: string)

  /** A JSON value as `JSON.parse` produces it (numbers restricted to integers). */
  datatype Json =
    | JNull
    | JBool(b: bool)
    | JNum(n: int)
    | JStr(s: string)
    | JArr(items: seq<Json>)
    | JObj(members: map<string, Json>)

  /** `JSON.parse`, left abstract: None stands for a thrown SyntaxError. */
  type Parser = string -> Option<Json>

  const StartCharKey: string := "start_char"
  const EndCharKey: string := "end_char"

  /**
   * A citation is the object `JSON.parse` returned for a marker; the optional
   * legal coordinates (chuong, dieu, khoan, phu_luc, ...) are whatever other
   * members it has. Only the presence of the two span members is checked.
   */
  datatype Citation = Citation(fields: map<string, Json>)
  {
    predicate HasSpan() { StartCharKey in fields && EndCharKey in fields }
  }

  /** A stream fragment: narrative text, or `""` together with one citation. */
  datatype AiStreamChunk = AiStreamChunk(text: string, citation: Option<Citation>)

  /** A complete response; `citations` is absent for the local provider. */
  datatype AiResponse = AiResponse(content: string, tokenCount: nat, citations: Option<seq<Citation>>)

  /**
   * A live response, fully drained: the fragments it yields and whether it
   * then ends with an error instead of finishing normally.
   */
  datatype AiStreamResponse = AiStreamResponse(stream: seq<AiStreamChunk>, streamFails: bool, totalTokens: nat)

  /** What `generateResponse` resolves to: a complete response, or a live one when streaming. */
  datatype ProviderReply = Complete(response: AiResponse) | Live(live: AiStreamResponse)

  /**
   * A response body read chunk by chunk: the already-decoded text of every
   * successful `read()`, then either `done` or a rejected read.
   */
  datatype Body = Body(chunks: seq<string>, readError: bool)

  /** What `fetch` resolves to; `body == None` means no body reader. */
  datatype HttpResponse = HttpResponse(ok: bool, statusText: string, body: Option<Body>)

  /** JavaScript truthiness of a parsed JSON value. */
  predicate Truthy(j: Json) {
    match j
    case JNull => false
    case JBool(b) => b
    case JNum(n) => n != 0
    case JStr(s) => s != ""
    case _ => true
  }

  /** `obj.key` on a parsed value: only objects have members. */
  function Member(j: Json, key: string): (r: Option<Json>)
    ensures r.Some? <==> j.JObj? && key in j.members
    ensures r.Some? ==> r.value == j.members[key]
  {
    if j.JObj? && key in j.members then Some(j.members[key]) else None
  }

  /**
   * The token approximation of both providers: one token per started group
   * of four characters, `Math.ceil(text.length / 4)`.
   */
  function CountTokens(text: string): (n: nat)
    ensures 4 * n >= |text|
    ensures 4 * n < |text| + 4
  {
    (|text| + 3) / 4
  }

  lemma CountTokensEmpty()
    ensures CountTokens("") == 0
  {
  }

  lemma CountTokensMonotone(x: string, y: string)
    ensures CountTokens(x) <= CountTokens(x + y)
  {
  }

  /** Determinism: the count depends on the length only, whatever the text. */
  lemma CountTokensByLength(x: string, y: string)
    requires |x| == |y|
    ensures CountTokens(x) == CountTokens(y)
  {
  }

  lemma CountTokensHelloWorld()
    ensures CountTokens("HelloWorld") == 3
  {
  }

  lemma AppendAssociative<T>(x: seq<T>, y: seq<T>, z: seq<T>)
    ensures x + (y + z) == (x + y) + z
  {
  }

  lemma AppendEmpty<T>(x: seq<T>)
    ensures [] + x == x && x + [] == x
  {
  }

  lemma ConsParts<T>(x: T, y: seq<T>)
    ensures |[x] + y| == |y| + 1 && ([x] + y)[0] == x && ([x] + y)[1..] == y
  {
  }

  /** The prefix of length `k + 1` extends the prefix of length `k` by `s[k]`. */
  lemma TakeStep<T>(s: seq<T>, k: nat)
    requires k < |s|
    ensures |s[..k + 1]| == k + 1 && s[..k + 1][..k] == s[..k] && s[..k + 1][k] == s[k]
  {
  }

  lemma SnocParts<T>(s: seq<T>, x: T)
    ensures |s + [x]| == |s| + 1 && (s + [x])[..|s|] == s && (s + [x])[|s|] == x
  {
  }

  lemma SliceSplit<T>(s: seq<T>, i: nat, j: nat)
    requires i <= j <= |s|
    ensures s[i..] == s[i..j] + s[j..]
  {
  }

  /** The suffix from `j` is `s[j]` followed by the suffix from `j + 1`. */
  lemma DropStep<T>(s: seq<T>, j: nat)
    requires j < |s|
    ensures s[j..] != [] && s[j..][0] == s[j] && s[j..][1..] == s[j + 1..]
  {
  }

  lemma DropAll<T>(s: seq<T>)
    ensures s[|s|..] == [] && s[..0] == []
  {
  }

  /** The two operands can be read back out of an append. */
  lemma AppendParts<T>(x: seq<T>, y: seq<T>)
    ensures |x + y| == |x| + |y| && (x + y)[..|x|] == x && (x + y)[|x|..] == y
    ensures y != [] ==> (x + y)[|x + y| - 1] == y[|y| - 1]
  {
  }

  lemma TakeAll<T>(s: seq<T>)
    ensures s[..|s|] == s
  {
  }

  lemma PairParts<T>(x: T, y: T)
    ensures |[x, y]| == 2 && [x, y][..1] == [x] && [x, y][1] == y && [x][..0] == [] && [x][0] == x
  {
  }

  /** Dropping the first element of a non-empty left operand. */
  lemma DropFirstOfAppend<T>(x: seq<T>, y: seq<T>)
    requires x != []
    ensures (x + y)[0] == x[0] && (x + y)[1..] == x[1..] + y
  {
  }

  /** The concatenation of a sequence of strings, in order. */
  function Concat(parts: seq<string>): (s: string)
    ensures parts == [] ==> s == ""
  {
    if parts == [] then "" else Concat(parts[..|parts| - 1]) + parts[|parts| - 1]
  }

  lemma {:induction false} ConcatAppend(a: seq<string>, b: seq<string>)
    ensures Concat(a + b) == Concat(a) + Concat(b)
    decreases |b|
  {
    if b == [] {
      assert a + b == a;
    } else {
      var last := b[|b| - 1];
      assert (a + b)[..|a + b| - 1] == a + b[..|b| - 1];
      ConcatAppend(a, b[..|b| - 1]);
    }
  }

  /** Cutting the parts anywhere cuts the concatenation there. */
  lemma ConcatSplit(parts: seq<string>, m: nat)
    requires m <= |parts|
    ensures Concat(parts) == Concat(parts[..m]) + Concat(parts[m..])
  {
    var a, b := parts[..m], parts[m..];
    assert |a + b| == |parts| && forall i :: 0 <= i < |parts| ==> (a + b)[i] == parts[i];
    assert a + b == parts;
    ConcatAppend(a, b);
  }

  lemma ConcatSingle(s: string)
    ensures Concat([s]) == s
  {
    assert [s][..0] == [];
  }

  lemma ConcatCons(s: string, rest: seq<string>)
    ensures Concat([s] + rest) == s + Concat(rest)
  {
    ConcatAppend([s], rest);
    ConcatSingle(s);
  }

  /** The outputs of `f` on each part, concatenated in order. */
  function FlatMap<T>(f: string -> seq<T>, parts: seq<string>): seq<T> {
    if parts == [] then [] else FlatMap(f, parts[..|parts| - 1]) + f(parts[|parts| - 1])
  }

  lemma {:induction false} FlatMapAppend<T>(f: string -> seq<T>, a: seq<string>, b: seq<string>)
    ensures FlatMap(f, a + b) == FlatMap(f, a) + FlatMap(f, b)
    decreases |b|
  {
    if b == [] {
      assert a + b == a;
    } else {
      var n := |b| - 1;
      assert (a + b)[..|a + b| - 1] == a + b[..n];
      assert (a + b)[|a + b| - 1] == b[n];
      FlatMapAppend(f, a, b[..n]);
    }
  }

  lemma FlatMapPair<T>(f: string -> seq<T>, x: string, y: string)
    ensures FlatMap(f, [x, y]) == f(x) + f(y)
    ensures FlatMap(f, [x]) == f(x)
  {
    assert [x, y][..1] == [x] && [x][..0] == [];
    assert FlatMap(f, [x]) == [] + f(x);
    assert FlatMap(f, [x, y]) == FlatMap(f, [x]) + f(y);
  }

  /** The length of a concatenation is the sum of the lengths. */
  function TotalLength(parts: seq<string>): nat {
    if parts == [] then 0 else TotalLength(parts[..|parts| - 1]) + |parts[|parts| - 1]|
  }

  lemma {:induction false} ConcatLength(parts: seq<string>)
    ensures |Concat(parts)| == TotalLength(parts)
  {
    if parts != [] {
      ConcatLength(parts[..|parts| - 1]);
    }
  }
}
