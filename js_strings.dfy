/**
 * The JavaScript string operations the providers rely on, with the behaviour
 * the language defines for them: `split("\n")`, `trim()`, `startsWith`,
 * `indexOf` and first-occurrence `replace(pattern, "")`.
 */
module JsStrings {

  import opened ChatTypes

  const Newline: char := '\n'

  /** The characters `String.prototype.trim` removes: white space and line terminators. */
  predicate IsTrimmable(c: char) {
    c == '\t' || c == '\n' || c == '\U{000B}' || c == '\U{000C}' || c == '\r' || c == ' '
    || c == '\U{00A0}' || c == '\U{1680}' || ('\U{2000}' <= c <= '\U{200A}')
    || c == '\U{2028}' || c == '\U{2029}' || c == '\U{202F}' || c == '\U{205F}'
    || c == '\U{3000}' || c == '\U{FEFF}'
  }

  function TrimStart(s: string): (r: string)
    ensures |r| <= |s| && r == s[|s| - |r|..]
    ensures r != [] ==> !IsTrimmable(r[0])
    ensures forall i :: 0 <= i < |s| - |r| ==> IsTrimmable(s[i])
  {
    if s != [] && IsTrimmable(s[0]) then TrimStart(s[1..]) else s
  }

  function TrimEnd(s: string): (r: string)
    ensures |r| <= |s| && r == s[..|r|]
    ensures r != [] ==> !IsTrimmable(r[|r| - 1])
    ensures forall i :: |r| <= i < |s| ==> IsTrimmable(s[i])
  {
    if s != [] && IsTrimmable(s[|s| - 1]) then TrimEnd(s[..|s| - 1]) else s
  }

  /** `s.trim()`. */
  function Trim(s: string): string {
    TrimEnd(TrimStart(s))
  }

  /** `s.trim()` is falsy exactly when every character is trimmable. */
  lemma TrimEmptyIff(s: string)
    ensures Trim(s) == "" <==> forall i :: 0 <= i < |s| ==> IsTrimmable(s[i])
  {
  }

  predicate StartsWith(s: string, prefix: string) {
    |prefix| <= |s| && s[..|prefix|] == prefix
  }

  /** `s.split("\n")`: the pieces between newlines, always at least one. */
  function Split(s: string): (pieces: seq<string>)
    ensures |pieces| >= 1
    decreases |s|
  {
    if s == [] then [""]
    else if s[0] == Newline then [""] + Split(s[1..])
    else
      var rest := Split(s[1..]);
      [[s[0]] + rest[0]] + rest[1..]
  }

  /** No piece holds a newline. */
  lemma {:induction false} SplitPiecesHaveNoNewline(s: string)
    ensures forall k :: 0 <= k < |Split(s)| ==> Newline !in Split(s)[k]
    decreases |s|
  {
    if s != [] {
      SplitPiecesHaveNoNewline(s[1..]);
      if s[0] != Newline {
        var rest := Split(s[1..]);
        assert Split(s)[0] == [s[0]] + rest[0];
        assert forall k :: 1 <= k < |Split(s)| ==> Split(s)[k] == rest[k];
      } else {
        assert forall k :: 1 <= k < |Split(s)| ==> Split(s)[k] == Split(s[1..])[k - 1];
      }
    }
  }

  /** Splitting text that starts with an ordinary character glues it to the first piece. */
  lemma SplitFirst(s: string)
    requires s != [] && s[0] != Newline
    ensures Split(s) == [[s[0]] + Split(s[1..])[0]] + Split(s[1..])[1..]
  {
  }

  /** Text that starts with a newline has an empty first line. */
  lemma LinesOfNewline(s: string)
    requires s != [] && s[0] == Newline
    ensures Split(s) == [""] + Split(s[1..])
    ensures CompleteLines(s) == [""] + CompleteLines(s[1..]) && Rest(s) == Rest(s[1..])
  {
    var t := Split(s[1..]);
    assert ([""] + t)[..|t|] == [""] + t[..|t| - 1];
  }

  /** The complete lines and the tail of text that starts with an ordinary character. */
  lemma LinesOfFirst(s: string)
    requires s != [] && s[0] != Newline
    ensures |Split(s[1..])| > 1 ==>
      && CompleteLines(s[1..]) != [] && CompleteLines(s[1..])[0] == Split(s[1..])[0]
      && CompleteLines(s) == [[s[0]] + Split(s[1..])[0]] + CompleteLines(s[1..])[1..] && Rest(s) == Rest(s[1..])
    ensures |Split(s[1..])| == 1 ==> CompleteLines(s) == [] && Rest(s) == [s[0]] + Split(s[1..])[0]
  {
    SplitFirst(s);
  }

  /** Text without a newline has no complete line; all of it is the tail. */
  lemma OneLine(s: string)
    requires |Split(s)| == 1
    ensures CompleteLines(s) == [] && Rest(s) == Split(s)[0]
  {
  }

  /** Joining the pieces with newlines gives the text back. */
  function JoinLines(pieces: seq<string>): string
    requires |pieces| >= 1
  {
    if |pieces| == 1 then pieces[0] else pieces[0] + [Newline] + JoinLines(pieces[1..])
  }

  lemma {:induction false} SplitJoin(s: string)
    ensures JoinLines(Split(s)) == s
    decreases |s|
  {
    if s == [] {
    } else if s[0] == Newline {
      SplitJoin(s[1..]);
      assert Split(s)[1..] == Split(s[1..]);
    } else {
      SplitJoin(s[1..]);
      var rest := Split(s[1..]);
      if |rest| > 1 {
        assert Split(s)[1..] == rest[1..];
      }
    }
  }

  /** The pieces of `split("\n")` that a newline terminates. */
  function CompleteLines(s: string): seq<string> {
    Split(s)[..|Split(s)| - 1]
  }

  /** The last piece of `split("\n")`: the text after the last newline. */
  function Rest(s: string): string {
    Split(s)[|Split(s)| - 1]
  }

  lemma SplitIsCompleteLinesAndRest(s: string)
    ensures Split(s) == CompleteLines(s) + [Rest(s)]
  {
  }

  /**
   * Splitting `a + b` splits `a` and then re-splits its unterminated tail
   * together with `b`: the heart of the carry-over buffer.
   */
  lemma {:induction false} SplitAppend(a: string, b: string)
    ensures Split(a + b) == CompleteLines(a) + Split(Rest(a) + b)
    decreases |a|
  {
    if a == [] {
      assert a + b == b;
    } else {
      SplitAppend(a[1..], b);
      if a[0] == Newline {
        SplitAppendAfterNewline(a, b);
      } else if |Split(a[1..])| > 1 {
        SplitAppendInFirstLine(a, b);
      } else {
        SplitAppendInTail(a, b);
      }
    }
  }

  /** The step of `SplitAppend` for text that starts with a newline. */
  lemma SplitAppendAfterNewline(a: string, b: string)
    requires a != [] && a[0] == Newline
    requires Split(a[1..] + b) == CompleteLines(a[1..]) + Split(Rest(a[1..]) + b)
    ensures Split(a + b) == CompleteLines(a) + Split(Rest(a) + b)
  {
    DropFirstOfAppend(a, b);
    LinesOfNewline(a);
    LinesOfNewline(a + b);
    AppendAssociative([""], CompleteLines(a[1..]), Split(Rest(a[1..]) + b));
  }

  /** The step of `SplitAppend` when the first character's line ends inside `a`. */
  lemma SplitAppendInFirstLine(a: string, b: string)
    requires a != [] && a[0] != Newline && |Split(a[1..])| > 1
    requires Split(a[1..] + b) == CompleteLines(a[1..]) + Split(Rest(a[1..]) + b)
    ensures Split(a + b) == CompleteLines(a) + Split(Rest(a) + b)
  {
    DropFirstOfAppend(a, b);
    SplitFirst(a + b);
    LinesOfFirst(a);
    var lines, tail := CompleteLines(a[1..]), Split(Rest(a[1..]) + b);
    DropFirstOfAppend(lines, tail);
    AppendAssociative([[a[0]] + Split(a[1..])[0]], lines[1..], tail);
  }

  /** The step of `SplitAppend` when `a` holds no newline after its first character. */
  lemma SplitAppendInTail(a: string, b: string)
    requires a != [] && a[0] != Newline && |Split(a[1..])| == 1
    requires Split(a[1..] + b) == CompleteLines(a[1..]) + Split(Rest(a[1..]) + b)
    ensures Split(a + b) == CompleteLines(a) + Split(Rest(a) + b)
  {
    var u := Split(a[1..]);
    LinesOfFirst(a);
    OneLine(a[1..]);
    AppendEmpty(Split(u[0] + b));
    AppendEmpty(Split(Rest(a) + b));
    DropFirstOfAppend(a, b);
    SplitFirst(a + b);
    DropFirstOfAppend([a[0]], u[0]);
    DropFirstOfAppend([a[0]] + u[0], b);
    SplitFirst(Rest(a) + b);
  }

  lemma CompleteLinesAppend(a: string, b: string)
    ensures CompleteLines(a + b) == CompleteLines(a) + CompleteLines(Rest(a) + b)
    ensures Rest(a + b) == Rest(Rest(a) + b)
  {
    SplitAppend(a, b);
  }

  /** Text without a newline never completes a line. */
  lemma {:induction false} SplitNoNewline(s: string)
    requires Newline !in s
    ensures Split(s) == [s]
    decreases |s|
  {
    if s != [] {
      assert s[0] != Newline;
      SplitNoNewline(s[1..]);
      assert [s[0]] + s[1..] == s;
    }
  }

  /** A line followed by a newline splits off as one complete line. */
  lemma {:induction false} LineThenRest(line: string, b: string)
    requires Newline !in line
    ensures Split(line + [Newline] + b) == [line] + Split(b)
    decreases |line|
  {
    if line == [] {
      assert line + [Newline] + b == [Newline] + b;
      assert ([Newline] + b)[1..] == b;
    } else {
      assert line[0] != Newline;
      assert (line + [Newline] + b)[1..] == line[1..] + [Newline] + b;
      LineThenRest(line[1..], b);
      assert [line[0]] + line[1..] == line;
    }
  }

  predicate OccursAt(s: string, pat: string, k: nat) {
    k + |pat| <= |s| && s[k..k + |pat|] == pat
  }

  /** `s.indexOf(pat, from)`: the first occurrence at or after `from`. */
  function IndexOf(s: string, pat: string, from: nat): (r: Option<nat>)
    requires from <= |s|
    ensures r.Some? ==> from <= r.value && OccursAt(s, pat, r.value)
    ensures r.Some? ==> forall k :: from <= k < r.value ==> !OccursAt(s, pat, k)
    ensures r.None? ==> forall k :: from <= k ==> !OccursAt(s, pat, k)
    decreases |s| - from
  {
    if from + |pat| > |s| then None
    else if s[from..from + |pat|] == pat then Some(from)
    else IndexOf(s, pat, from + 1)
  }

  predicate Contains(s: string, pat: string) {
    IndexOf(s, pat, 0).Some?
  }

  /** `s.replace(pat, "")` with a string pattern: deletes the first occurrence only. */
  function ReplaceFirst(s: string, pat: string): (r: string)
    ensures Contains(s, pat) ==> |r| == |s| - |pat|
    ensures !Contains(s, pat) ==> r == s
  {
    match IndexOf(s, pat, 0)
    case None => s
    case Some(p) => s[..p] + s[p + |pat|..]
  }

  /** The deletion happens at the first occurrence, wherever that is. */
  lemma ReplaceFirstAtFirst(s: string, pat: string, q: nat)
    requires OccursAt(s, pat, q)
    requires forall k :: 0 <= k < q ==> !OccursAt(s, pat, k)
    ensures IndexOf(s, pat, 0) == Some(q)
    ensures ReplaceFirst(s, pat) == s[..q] + s[q + |pat|..]
  {
    var p := IndexOf(s, pat, 0).value;
    assert p <= q && q <= p;
  }

  /** An occurrence whose first character appears nowhere before it is the first one. */
  lemma FirstOccurrence(s: string, pat: string, q: nat)
    requires OccursAt(s, pat, q) && pat != []
    requires forall k :: 0 <= k < q ==> s[k] != pat[0]
    ensures IndexOf(s, pat, 0) == Some(q)
    ensures ReplaceFirst(s, pat) == s[..q] + s[q + |pat|..]
  {
    forall k | 0 <= k < q
      ensures !OccursAt(s, pat, k)
    {
      if k + |pat| <= |s| {
        assert s[k..k + |pat|][0] == s[k];
      }
    }
    ReplaceFirstAtFirst(s, pat, q);
  }

  /**
   * When `pat` occurs at `q`, the first occurrence is at or before `q`, so the
   * deletion leaves everything from `q + |pat|` on untouched.
   */
  lemma ReplaceFirstKeepsTail(s: string, pat: string, q: nat)
    requires OccursAt(s, pat, q)
    ensures Contains(s, pat)
    ensures exists head: string :: |head| == q && ReplaceFirst(s, pat) == head + s[q + |pat|..]
  {
    var p := IndexOf(s, pat, 0).value;
    assert p <= q;
    var r := ReplaceFirst(s, pat);
    var head := s[..p] + s[p + |pat|..q + |pat|];
    SliceSplit(s, p + |pat|, q + |pat|);
    AppendAssociative(s[..p], s[p + |pat|..q + |pat|], s[q + |pat|..]);
  }

}
