/**
 * Inline citation extraction of the remote provider (`parseTextAndCitations`).
 *
 * The global regular expression `\{[^{}]*"start_char"[^{}]*\}` is modelled by
 * the scanner `MatchesFrom`: a match starts at a `{`, runs to the first brace
 * after it, which must be a `}`, and must contain the marker `"start_char"`;
 * scanning resumes after the `}`, or at the next position when there is no
 * match. Each match that parses to an object with both span members is
 * pushed as a citation and deleted from the text with a first-occurrence
 * `replace`; the others stay in the text.
 */
module CitationParsing {

  import opened ChatTypes
  import opened JsStrings

  /** The literal `"start_char"`, quotes included, that a candidate must contain. */
  const Marker: string := "\"start_char\""

  predicate IsBrace(c: char) { c == '{' || c == '}' }

  /** The first `{` or `}` at or after `from`, or `|text|` when there is none. */
  function NextBrace(text: string, from: nat): (j: nat)
    requires from <= |text|
    ensures from <= j <= |text|
    ensures j < |text| ==> IsBrace(text[j])
    ensures forall k :: from <= k < j ==> !IsBrace(text[k])
    decreases |text| - from
  {
    if from == |text| || IsBrace(text[from]) then from else NextBrace(text, from + 1)
  }

  /** The regular expression matches at `i`. */
  predicate CandidateAt(text: string, i: nat) {
    && i < |text|
    && text[i] == '{'
    && var j := NextBrace(text, i + 1);
       j < |text| && text[j] == '}' && Contains(text[i + 1..j], Marker)
  }

  /** One past the closing brace of the match at `i`. */
  function CandidateEnd(text: string, i: nat): (e: nat)
    requires CandidateAt(text, i)
    ensures i + 2 <= e <= |text| && text[e - 1] == '}'
    ensures forall k :: i < k < e - 1 ==> !IsBrace(text[k])
  {
    NextBrace(text, i + 1) + 1
  }

  /** A match, as the half-open range `[start, end)` of the text. */
  datatype Span = Span(start: nat, end: nat)

  /** The matches `matchAll` yields from position `i` on, left to right. */
  function MatchesFrom(text: string, i: nat): (ms: seq<Span>)
    requires i <= |text|
    ensures forall k :: 0 <= k < |ms| ==>
      i <= ms[k].start && CandidateAt(text, ms[k].start) && ms[k].end == CandidateEnd(text, ms[k].start)
    ensures forall k :: 0 <= k < |ms| - 1 ==> ms[k].end <= ms[k + 1].start
    decreases |text| - i
  {
    if i == |text| then []
    else if CandidateAt(text, i) then [Span(i, CandidateEnd(text, i))] + MatchesFrom(text, CandidateEnd(text, i))
    else MatchesFrom(text, i + 1)
  }

  /** The matched substrings in order. */
  function TextsOf(text: string, spans: seq<Span>): (ms: seq<string>)
    requires forall k :: 0 <= k < |spans| ==> spans[k].start <= spans[k].end <= |text|
    ensures |ms| == |spans|
    ensures forall k :: 0 <= k < |ms| ==> ms[k] == text[spans[k].start..spans[k].end]
  {
    if spans == [] then [] else [text[spans[0].start..spans[0].end]] + TextsOf(text, spans[1..])
  }

  /** `match[0]` of every match of the global scan, in order. */
  function MatchTexts(text: string): seq<string> {
    TextsOf(text, MatchesFrom(text, 0))
  }

  /**
   * Every position where the regular expression can match is a match: no
   * candidate is hidden inside another, since candidates are brace-free inside.
   */
  lemma {:induction false} EveryCandidateIsMatched(text: string, i: nat, p: nat)
    requires i <= p && CandidateAt(text, p)
    ensures exists k :: 0 <= k < |MatchesFrom(text, i)| && MatchesFrom(text, i)[k].start == p
    decreases |text| - i
  {
    var ms := MatchesFrom(text, i);
    if CandidateAt(text, i) {
      var e := CandidateEnd(text, i);
      if p == i {
        assert ms[0].start == p;
      } else {
        assert text[p] == '{';
        assert p >= e;
        EveryCandidateIsMatched(text, e, p);
        var k :| 0 <= k < |MatchesFrom(text, e)| && MatchesFrom(text, e)[k].start == p;
        assert ms[k + 1] == MatchesFrom(text, e)[k];
      }
    } else {
      EveryCandidateIsMatched(text, i + 1, p);
    }
  }

  /** Matches and candidate positions coincide. */
  lemma MatchesAreCandidates(text: string, p: nat)
    ensures (exists k :: 0 <= k < |MatchesFrom(text, 0)| && MatchesFrom(text, 0)[k].start == p)
            <==> CandidateAt(text, p)
  {
    if CandidateAt(text, p) {
      EveryCandidateIsMatched(text, 0, p);
    }
  }

  /**
   * A candidate is accepted when its parse has both span members defined; a
   * parse failure, or a value without them, rejects it.
   */
  function Accept(parse: Parser, candidate: string): (c: Option<Citation>)
    ensures c.Some? <==> (parse(candidate).Some? && parse(candidate).value.JObj?
                          && StartCharKey in parse(candidate).value.members
                          && EndCharKey in parse(candidate).value.members)
    ensures c.Some? ==> c.value.fields == parse(candidate).value.members && c.value.HasSpan()
  {
    match parse(candidate)
    case Some(JObj(fields)) =>
      if StartCharKey in fields && EndCharKey in fields then Some(Citation(fields)) else None
    case _ => None
  }

  datatype TextAndCitations = TextAndCitations(text: string, citations: seq<Citation>)

  /** The loop of `parseTextAndCitations` over the remaining matches. */
  function ExtractFrom(parse: Parser, matches: seq<string>, cleaned: string, citations: seq<Citation>): TextAndCitations
  {
    if matches == [] then TextAndCitations(cleaned, citations)
    else match Accept(parse, matches[0])
      case Some(c) => ExtractFrom(parse, matches[1..], ReplaceFirst(cleaned, matches[0]), citations + [c])
      case None => ExtractFrom(parse, matches[1..], cleaned, citations)
  }

  /** Cleaned text and extracted citations of one text delta. */
  function Separate(parse: Parser, text: string): TextAndCitations {
    ExtractFrom(parse, MatchTexts(text), text, [])
  }

  /** The accepted citations, in match order. */
  function Accepted(parse: Parser, matches: seq<string>): seq<Citation> {
    if matches == [] then []
    else match Accept(parse, matches[0])
      case Some(c) => [c] + Accepted(parse, matches[1..])
      case None => Accepted(parse, matches[1..])
  }

  /** The total length of the accepted candidates. */
  function AcceptedLength(parse: Parser, matches: seq<string>): nat {
    if matches == [] then 0
    else (if Accept(parse, matches[0]).Some? then |matches[0]| else 0) + AcceptedLength(parse, matches[1..])
  }

  lemma {:induction false} ExtractFromCitations(parse: Parser, matches: seq<string>, cleaned: string, citations: seq<Citation>)
    ensures ExtractFrom(parse, matches, cleaned, citations).citations == citations + Accepted(parse, matches)
  {
    if matches != [] {
      match Accept(parse, matches[0])
      case Some(c) =>
        ExtractFromCitations(parse, matches[1..], ReplaceFirst(cleaned, matches[0]), citations + [c]);
      case None =>
        ExtractFromCitations(parse, matches[1..], cleaned, citations);
    }
  }

  /** The citations are exactly the accepted candidates, in match order. */
  lemma SeparateCitations(parse: Parser, text: string)
    ensures Separate(parse, text).citations == Accepted(parse, MatchTexts(text))
  {
    ExtractFromCitations(parse, MatchTexts(text), text, []);
  }

  /** Deleting the first occurrence of `m` from `head + m + rest` keeps `rest` and the length of `head`. */
  lemma RemoveBeforeRest(head: string, m: string, rest: string) returns (head': string)
    ensures |head'| == |head|
    ensures ReplaceFirst(head + m + rest, m) == head' + rest
  {
    var cleaned := head + m + rest;
    assert cleaned[|head|..|head| + |m|] == m;
    ReplaceFirstKeepsTail(cleaned, m, |head|);
    head' :| |head'| == |head| && ReplaceFirst(cleaned, m) == head' + cleaned[|head| + |m|..];
    assert cleaned[|head| + |m|..] == rest;
  }

  /** One step of the extraction loop on a match list that starts with `m`. */
  lemma ExtractFromStep(parse: Parser, m: string, rest: seq<string>, cleaned: string, citations: seq<Citation>)
    ensures Accept(parse, m).Some? ==>
      ExtractFrom(parse, [m] + rest, cleaned, citations)
      == ExtractFrom(parse, rest, ReplaceFirst(cleaned, m), citations + [Accept(parse, m).value])
    ensures Accept(parse, m).None? ==>
      ExtractFrom(parse, [m] + rest, cleaned, citations) == ExtractFrom(parse, rest, cleaned, citations)
    ensures AcceptedLength(parse, [m] + rest)
      == (if Accept(parse, m).Some? then |m| else 0) + AcceptedLength(parse, rest)
  {
    assert ([m] + rest)[0] == m && ([m] + rest)[1..] == rest;
  }

  /** Spans in the text, left to right and not overlapping, none before `from`. */
  predicate OrderedSpans(text: string, from: nat, spans: seq<Span>) {
    && from <= |text|
    && (forall k :: 0 <= k < |spans| ==> spans[k].start <= spans[k].end <= |text|)
    && (spans != [] ==> from <= spans[0].start)
    && (forall k :: 0 <= k < |spans| - 1 ==> spans[k].end <= spans[k + 1].start)
  }

  /**
   * The cleaned text while the spans from `from` on are still to be
   * processed is some `head` followed by the untouched `text[from..]`; every
   * accepted match is deleted where it stands or earlier, so the text
   * shrinks by exactly its length.
   */
  lemma {:induction false} ExtractFromLength(parse: Parser, text: string, from: nat, spans: seq<Span>,
                                             head: string, citations: seq<Citation>)
    requires OrderedSpans(text, from, spans)
    ensures |ExtractFrom(parse, TextsOf(text, spans), head + text[from..], citations).text|
            == |head| + (|text| - from) - AcceptedLength(parse, TextsOf(text, spans))
    decreases |spans|
  {
    if spans != [] {
      var s := spans[0];
      var m := text[s.start..s.end];
      var rest := TextsOf(text, spans[1..]);
      OrderedSpansTail(text, from, spans);
      ExtractFromStep(parse, m, rest, head + text[from..], citations);
      var gapped := head + text[from..s.start];
      CutAtSpan(text, from, s, head);
      if Accept(parse, m).Some? {
        var head' := RemoveBeforeRest(gapped, m, text[s.end..]);
        ExtractFromLength(parse, text, s.end, spans[1..], head', citations + [Accept(parse, m).value]);
      } else {
        ExtractFromLength(parse, text, s.end, spans[1..], gapped + m, citations);
      }
    }
  }

  /** The spans after the first are ordered from its end, and the match texts split the same way. */
  lemma OrderedSpansTail(text: string, from: nat, spans: seq<Span>)
    requires OrderedSpans(text, from, spans) && spans != []
    ensures from <= spans[0].start <= spans[0].end <= |text|
    ensures OrderedSpans(text, spans[0].end, spans[1..])
    ensures TextsOf(text, spans) == [text[spans[0].start..spans[0].end]] + TextsOf(text, spans[1..])
  {
  }

  /** The text from `from` on is the gap before a span, the span, and what follows it. */
  lemma CutAtSpan(text: string, from: nat, s: Span, head: string)
    requires from <= s.start <= s.end <= |text|
    ensures head + text[from..] == head + text[from..s.start] + text[s.start..s.end] + text[s.end..]
  {
    assert text[from..] == text[from..s.start] + text[s.start..s.end] + text[s.end..];
  }

  /** The cleaned text is shorter than the input by exactly the accepted candidates. */
  lemma SeparateLength(parse: Parser, text: string)
    ensures |Separate(parse, text).text| == |text| - AcceptedLength(parse, MatchTexts(text))
  {
    ExtractFromLength(parse, text, 0, MatchesFrom(text, 0), "", []);
    assert "" + text[0..] == text;
  }

  lemma {:induction false} NothingAcceptedKeepsText(parse: Parser, matches: seq<string>, cleaned: string, citations: seq<Citation>)
    requires Accepted(parse, matches) == []
    ensures ExtractFrom(parse, matches, cleaned, citations) == TextAndCitations(cleaned, citations)
  {
    if matches != [] {
      NothingAcceptedKeepsText(parse, matches[1..], cleaned, citations);
    }
  }

  lemma {:induction false} AcceptedLengthPositive(parse: Parser, matches: seq<string>)
    requires forall k :: 0 <= k < |matches| ==> matches[k] != []
    requires Accepted(parse, matches) != []
    ensures AcceptedLength(parse, matches) > 0
  {
    if Accept(parse, matches[0]).None? {
      AcceptedLengthPositive(parse, matches[1..]);
    }
  }

  /**
   * The text comes back unchanged exactly when no candidate is accepted, and
   * then the citation list is empty.
   */
  lemma UnchangedIffNoCitation(parse: Parser, text: string)
    ensures Separate(parse, text).text == text <==> Separate(parse, text).citations == []
    ensures Separate(parse, text).citations == [] ==> Separate(parse, text) == TextAndCitations(text, [])
  {
    SeparateCitations(parse, text);
    SeparateLength(parse, text);
    if Accepted(parse, MatchTexts(text)) == [] {
      NothingAcceptedKeepsText(parse, MatchTexts(text), text, []);
    } else {
      var ms := MatchTexts(text);
      assert forall k :: 0 <= k < |ms| ==> |ms[k]| >= 2;
      AcceptedLengthPositive(parse, ms);
    }
  }

  /** Text without an opening brace holds no match. */
  lemma {:induction false} NoOpenBraceNoMatch(text: string, i: nat, j: nat)
    requires i <= j <= |text|
    requires forall k :: i <= k < j ==> text[k] != '{'
    ensures MatchesFrom(text, i) == MatchesFrom(text, j)
    decreases j - i
  {
    if i < j {
      NoOpenBraceNoMatch(text, i + 1, j);
    }
  }

  /** `NextBrace` finds the first brace. */
  lemma {:induction false} NextBraceIs(text: string, from: nat, j: nat)
    requires from <= j < |text| && IsBrace(text[j])
    requires forall k :: from <= k < j ==> !IsBrace(text[k])
    ensures NextBrace(text, from) == j
    decreases j - from
  {
    if from < j {
      NextBraceIs(text, from + 1, j);
    }
  }

  /**
   * The layout of a text with one marker object: `text[s..e]` is a brace-free
   * object holding the marker, and no opening brace occurs outside it.
   */
  predicate SingleObject(text: string, s: nat, e: nat) {
    && s + 2 <= e <= |text|
    && text[s] == '{' && text[e - 1] == '}'
    && (forall k :: s < k < e - 1 ==> !IsBrace(text[k]))
    && (forall k :: 0 <= k < s ==> text[k] != '{')
    && (forall k :: e <= k < |text| ==> text[k] != '{')
    && Contains(text[s + 1..e - 1], Marker)
  }

  /** The one marker object is the one match. */
  lemma SingleMatch(text: string, s: nat, e: nat)
    requires SingleObject(text, s, e)
    ensures MatchesFrom(text, 0) == [Span(s, e)]
    ensures MatchTexts(text) == [text[s..e]]
  {
    NextBraceIs(text, s + 1, e - 1);
    assert CandidateAt(text, s);
    NoOpenBraceNoMatch(text, 0, s);
    NoOpenBraceNoMatch(text, e, |text|);
    assert MatchesFrom(text, s) == [Span(s, e)] + MatchesFrom(text, e);
  }

  /**
   * The single marker object is deleted and becomes the only citation when
   * accepted; otherwise the text is returned unchanged with no citation.
   */
  lemma SeparateSingle(parse: Parser, text: string, s: nat, e: nat)
    requires SingleObject(text, s, e)
    ensures Accept(parse, text[s..e]).Some? ==>
      Separate(parse, text) == TextAndCitations(text[..s] + text[e..], [Accept(parse, text[s..e]).value])
    ensures Accept(parse, text[s..e]).None? ==> Separate(parse, text) == TextAndCitations(text, [])
  {
    var m := text[s..e];
    SingleMatch(text, s, e);
    ExtractFromStep(parse, m, [], text, []);
    assert [m] + [] == [m];
    FirstOccurrence(text, m, s);
  }

  /** `SeparateSingle` for a text given as the pieces around the object. */
  lemma SeparatePieces(parse: Parser, text: string, pre: string, inner: string, post: string)
    requires text == pre + "{" + inner + "}" + post
    requires '{' !in pre && '{' !in post && '{' !in inner && '}' !in inner
    requires Contains(inner, Marker)
    ensures Accept(parse, "{" + inner + "}").Some? ==>
      Separate(parse, text) == TextAndCitations(pre + post, [Accept(parse, "{" + inner + "}").value])
    ensures Accept(parse, "{" + inner + "}").None? ==> Separate(parse, text) == TextAndCitations(text, [])
  {
    var s := |pre|;
    var e := s + |inner| + 2;
    assert text[..s] == pre && text[s..e] == "{" + inner + "}" && text[e..] == post;
    assert text[s + 1..e - 1] == inner;
    assert forall k :: 0 <= k < s ==> text[k] == pre[k];
    assert forall k :: s < k < e - 1 ==> text[k] == inner[k - s - 1];
    assert forall k :: e <= k < |text| ==> text[k] == post[k - e];
    assert SingleObject(text, s, e);
    SeparateSingle(parse, text, s, e);
  }

  /** The body of the object in the worked example: `"start_char":0,"end_char":5`. */
  const ExampleInner: string := Marker + ":0,\"end_char\":5"

  /**
   * A worked example, `See {"start_char":0,"end_char":5} here`: the object
   * is removed, leaving two spaces, and becomes the one citation.
   */
  lemma SeparateExample(parse: Parser, fields: map<string, Json>)
    requires StartCharKey in fields && EndCharKey in fields
    requires parse("{" + ExampleInner + "}") == Some(JObj(fields))
    ensures Separate(parse, "See " + "{" + ExampleInner + "}" + " here")
            == TextAndCitations("See " + " here", [Citation(fields)])
  {
    assert OccursAt(ExampleInner, Marker, 0);
    SeparatePieces(parse, "See " + "{" + ExampleInner + "}" + " here", "See ", ExampleInner, " here");
  }

  /** `parseTextAndCitations`: a loop over the matches of the original text. */
  method ParseTextAndCitations(parse: Parser, text: string) returns (r: TextAndCitations)
    ensures r == Separate(parse, text)
  {
    var citations: seq<Citation> := [];
    var cleanedText := text;
    var matches := MatchTexts(text);
    var k := 0;
    while k < |matches|
      invariant 0 <= k <= |matches|
      invariant ExtractFrom(parse, matches[k..], cleanedText, citations) == Separate(parse, text)
    {
      var citationJson := matches[k];
      assert matches[k..][1..] == matches[k + 1..];
      match Accept(parse, citationJson) {
        case Some(citation) =>
          citations := citations + [citation];
          cleanedText := ReplaceFirst(cleanedText, citationJson);
        case None =>
      }
      k := k + 1;
    }
    r := TextAndCitations(cleanedText, citations);
  }
}
