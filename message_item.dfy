/**
 * How the message view splits a reply into the model's reasoning and the
 * answer proper. Three tag patterns are tried in order, the first one that
 * matches anywhere wins; if that leaves no reasoning text, two "unfinished
 * tag at the start" patterns are tried. Each pattern is a regular expression
 * of one shape, `<name[^>]*>([\s\S]*?)(close|$)` with the `i` and `g` flags,
 * and is modelled by what that shape matches.
 */
module MessageItem {
  import opened Wrappers
  import opened Text
  import opened ThinkMarkup

  /** One tag pattern: the opening name, the closing tag it stops at, and the end tag whose presence marks the reasoning complete. */
  datatype Pattern = Pattern(open: string, close: string, endTag: string)

  const Patterns: seq<Pattern> := [
    Pattern(ThinkName, ThinkClose, ThinkClose),
    Pattern(ThinkingName, PrefixedThinkingClose, ThinkingClose),
    Pattern(ThinkingName, ThinkingClose, ThinkingClose)]

  /** The names of `^<name[^>]*>([\s\S]*)$`, tried when no reasoning text was found. */
  const IncompleteNames: seq<string> := [ThinkName, ThinkingName]

  const ThinkingName: string := "<thinking"
  const ThinkingClose: string := "</thinking>"
  /** The closing tag the second pattern stops at; its end tag for completeness is still `</thinking>`. */
  const PrefixedThinkingClose: string := "</antml:thinking>"

  /** The split the view renders. */
  datatype Parsed = Parsed(thinkingContent: string, normalContent: string, thinkingComplete: bool)

  /**
   * A match: the opening tag spans `start..bodyStart`, the capture
   * `bodyStart..bodyEnd`, and the closing tag, if any, `bodyEnd..end`.
   */
  datatype Match = Match(start: nat, bodyStart: nat, bodyEnd: nat, end: nat)

  /**
   * The shape of a match of `<name[^>]*>([\s\S]*?)(close|$)`: the opening
   * tag ends with `>`, the capture holds no closing tag, and the match ends
   * with the closing tag or at the end of the text.
   */
  predicate Placed(s: string, m: Match, close: string) {
    && m.start < m.bodyStart <= m.bodyEnd <= m.end <= |s|
    && s[m.bodyStart - 1] == '>'
    && ((m.end == m.bodyEnd + |close| && MatchesAtCI(s, m.bodyEnd, close)) || m.bodyEnd == m.end == |s|)
    && forall k :: m.bodyStart <= k < m.bodyEnd ==> !MatchesAtCI(s, k, close)
  }

  /** The first index `>= from` where an opening tag `<name…>` is recognised, or -1. */
  function FirstTag(s: string, from: nat, name: string): (r: int)
    ensures r == -1 || (from <= r < |s| && OpenTagEnd(s, r, name) >= 0)
    ensures forall k :: from <= k && (r == -1 || k < r) ==> OpenTagEnd(s, k, name) < 0
    decreases |s| - from
  {
    if from >= |s| then -1
    else if OpenTagEnd(s, from, name) >= 0 then from
    else FirstTag(s, from + 1, name)
  }

  /**
   * `regex.exec(s)` with `lastIndex` at `from`: the leftmost opening tag;
   * the lazy capture stops at the nearest closing tag (any case) after it,
   * or runs to the end of the text when there is none.
   */
  function Exec(s: string, p: Pattern, from: nat): (r: Option<Match>)
    ensures r.None? <==> FirstTag(s, from, p.open) == -1
    ensures r.Some? ==>
      var m := r.value;
      && m.start == FirstTag(s, from, p.open) && m.bodyStart == OpenTagEnd(s, m.start, p.open)
      && from <= m.start && Placed(s, m, p.close)
  {
    var i := FirstTag(s, from, p.open);
    if i < 0 then None
    else
      var e := OpenTagEnd(s, i, p.open);
      var c := IndexOfCI(s, p.close, e);
      if c >= 0 then Some(Match(i, e, c, c + |p.close|)) else Some(Match(i, e, |s|, |s|))
  }

  /** `s.replace(regex, '')` from index `from`: every match, left to right, removed. */
  function ReplaceAll(s: string, p: Pattern, from: nat): (r: string)
    requires from <= |s|
    ensures |r| <= |s| - from
    ensures Exec(s, p, from).None? ==> r == s[from..]
    decreases |s| - from
  {
    match Exec(s, p, from)
    case None => s[from..]
    case Some(m) => s[from..m.start] + ReplaceAll(s, p, m.end)
  }

  /** The index of the first pattern, from `k` on, that matches somewhere, or -1. */
  function FirstMatching(s: string, k: nat): (r: int)
    ensures r == -1 || (k <= r < |Patterns| && FirstTag(s, 0, Patterns[r].open) >= 0)
    ensures forall j :: k <= j < |Patterns| && (r == -1 || j < r) ==> FirstTag(s, 0, Patterns[j].open) == -1
    decreases |Patterns| - k
  {
    if k >= |Patterns| then -1
    else if Exec(s, Patterns[k], 0).Some? then k
    else FirstMatching(s, k + 1)
  }

  /** The index of the first unfinished-tag pattern, from `k` on, that matches at the start, or -1. */
  function FirstIncomplete(s: string, k: nat): (r: int)
    ensures r == -1 || (k <= r < |IncompleteNames| && OpenTagEnd(s, 0, IncompleteNames[r]) >= 0)
    ensures forall j :: k <= j < |IncompleteNames| && (r == -1 || j < r) ==> OpenTagEnd(s, 0, IncompleteNames[j]) < 0
    decreases |IncompleteNames| - k
  {
    if k >= |IncompleteNames| then -1
    else if OpenTagEnd(s, 0, IncompleteNames[k]) >= 0 then k
    else FirstIncomplete(s, k + 1)
  }

  /** What the first loop leaves: the winning pattern's capture, the text without its matches, and completeness. */
  function FirstPass(s: string): Parsed {
    var k := FirstMatching(s, 0);
    if k < 0 then Parsed("", s, false)
    else
      var p := Patterns[k];
      var m := Exec(s, p, 0).value;
      Parsed(Trim(s[m.bodyStart..m.bodyEnd]), Trim(ReplaceAll(s, p, 0)), Includes(s[m.start..m.end], p.endTag))
  }

  /** `parseMessageContent`, as the component computes it. */
  function ParseContent(s: string): Parsed {
    var first := FirstPass(s);
    if first.thinkingContent != "" then first
    else
      var j := FirstIncomplete(s, 0);
      if j < 0 then first else Parsed(Trim(s[OpenTagEnd(s, 0, IncompleteNames[j])..]), "", false)
  }

  /** `parseMessageContent`: two loops over the pattern lists, each left at the first match. */
  method ParseMessageContent(content: string) returns (r: Parsed)
    ensures r == ParseContent(content)
  {
    var thinkingContent := "";
    var normalContent := content;
    var thinkingComplete := false;
    var i := 0;
    while i < |Patterns|
      invariant 0 <= i <= |Patterns|
      invariant FirstMatching(content, 0) == FirstMatching(content, i)
      invariant thinkingContent == "" && normalContent == content && !thinkingComplete
    {
      var pattern := Patterns[i];
      var found := Exec(content, pattern, 0);
      if found.Some? {
        var m := found.value;
        thinkingComplete := Includes(content[m.start..m.end], pattern.endTag);
        thinkingContent := Trim(content[m.bodyStart..m.bodyEnd]);
        normalContent := Trim(ReplaceAll(content, pattern, 0));
        break;
      }
      i := i + 1;
    }
    assert Parsed(thinkingContent, normalContent, thinkingComplete) == FirstPass(content);
    if thinkingContent == "" {
      var j := 0;
      while j < |IncompleteNames|
        invariant 0 <= j <= |IncompleteNames|
        invariant FirstIncomplete(content, 0) == FirstIncomplete(content, j)
        invariant Parsed(thinkingContent, normalContent, thinkingComplete) == FirstPass(content)
      {
        var e := OpenTagEnd(content, 0, IncompleteNames[j]);
        if e >= 0 {
          thinkingContent := Trim(content[e..]);
          thinkingComplete := false;
          normalContent := "";
          break;
        }
        j := j + 1;
      }
    }
    r := Parsed(thinkingContent, normalContent, thinkingComplete);
  }

  // ---------------------------------------------------------------------------
  // Properties

  /** Every `<thinking…>` tag is also a `<think…>` tag: the longer name starts with the shorter. */
  lemma LongerNameSubsumed(s: string, i: nat)
    requires OpenTagEnd(s, i, ThinkingName) >= 0
    ensures OpenTagEnd(s, i, ThinkName) >= 0
  {
    forall k | 0 <= k < |ThinkName| ensures Lower(s[i + k]) == ThinkName[k] {
      assert ThinkingName[k] == ThinkName[k];
    }
    var g := IndexOf(s, '>', i + |ThinkingName|);
    assert s[g] == '>';
  }

  lemma FirstTagSubsumed(s: string, from: nat)
    requires FirstTag(s, from, ThinkingName) >= 0
    ensures FirstTag(s, from, ThinkName) >= 0
  {
    LongerNameSubsumed(s, FirstTag(s, from, ThinkingName));
  }

  /**
   * The second and third patterns never decide anything: whenever any
   * pattern matches, the first one does, and it matches exactly when the
   * content holds a `<think…>` tag; the same holds for the two
   * unfinished-tag patterns, which in turn only apply when the first
   * pattern has matched.
   */
  lemma OnlyFirstPatternsCount(s: string)
    ensures FirstMatching(s, 0) == -1 || FirstMatching(s, 0) == 0
    ensures FirstMatching(s, 0) == 0 <==> FirstTag(s, 0, ThinkName) >= 0
    ensures FirstIncomplete(s, 0) == -1 || FirstIncomplete(s, 0) == 0
    ensures FirstIncomplete(s, 0) == 0 ==> FirstMatching(s, 0) == 0
  {
    if FirstMatching(s, 0) > 0 {
      FirstTagSubsumed(s, 0);
    }
    if OpenTagEnd(s, 0, IncompleteNames[1]) >= 0 {
      LongerNameSubsumed(s, 0);
    }
  }

  /** Without a `<think…>` tag the content is shown as it is, with no reasoning. */
  lemma NoTagUnchanged(s: string)
    requires FirstTag(s, 0, ThinkName) == -1
    ensures ParseContent(s) == Parsed("", s, false)
  {
    OnlyFirstPatternsCount(s);
  }

  /**
   * When the first block has reasoning text, that text is its trimmed
   * capture and the answer is the content with every block removed, trimmed.
   */
  lemma BlockSplit(s: string)
    requires FirstTag(s, 0, ThinkName) >= 0
    ensures var m := Exec(s, Patterns[0], 0).value;
      Trim(s[m.bodyStart..m.bodyEnd]) != "" ==>
        ParseContent(s) == Parsed(Trim(s[m.bodyStart..m.bodyEnd]), Trim(ReplaceAll(s, Patterns[0], 0)),
                                  Includes(s[m.start..m.end], ThinkClose))
  {
    OnlyFirstPatternsCount(s);
  }

  /**
   * When the first pass yields no reasoning text but the content opens with
   * a tag, everything after that tag becomes the reasoning and the answer is
   * empty, even if the block was closed and text follows it.
   */
  lemma LeadingTagFallback(s: string)
    requires FirstPass(s).thinkingContent == "" && OpenTagEnd(s, 0, ThinkName) >= 0
    ensures ParseContent(s) == Parsed(Trim(s[OpenTagEnd(s, 0, ThinkName)..]), "", false)
  {
    OnlyFirstPatternsCount(s);
  }

  /** Text written without upper-case letters, found exactly, is also found ignoring case. */
  lemma ExactIsCaseless(t: string, s: string, i: nat)
    requires MatchesAt(s, i, t)
    requires forall k :: 0 <= k < |t| ==> !('A' <= t[k] <= 'Z')
    ensures MatchesAtCI(s, i, t)
  {
    forall k | 0 <= k < |t| ensures Lower(s[i + k]) == t[k] {
      assert s[i + k] == s[i..i + |t|][k];
    }
  }

  /**
   * Where `</think>` can sit inside a match whose opening tag holds no `/`:
   * only right after the capture, as the closing tag itself.
   */
  lemma EndTagPosition(s: string, m: Match, a: nat)
    requires Placed(s, m, ThinkClose)
    requires forall k :: m.start <= k < m.bodyStart ==> s[k] != '/'
    requires m.start <= a && a + |ThinkClose| <= m.end && MatchesAt(s, a, ThinkClose)
    ensures a == m.bodyEnd && m.end == m.bodyEnd + |ThinkClose|
  {
    assert s[a] == ThinkClose[0] && s[a + 1] == ThinkClose[1];
    assert m.bodyStart <= a;
    ExactIsCaseless(ThinkClose, s, a);
    assert m.bodyEnd <= a;
  }

  /**
   * With an opening tag free of `/` (such as `<think>`), the reasoning is
   * marked complete exactly when the block was closed by `</think>` written
   * in lower case: a `</THINK>` ends the block but does not mark it complete.
   */
  lemma CompleteIffClosedLowerCase(s: string)
    requires FirstTag(s, 0, ThinkName) >= 0
    requires var m := Exec(s, Patterns[0], 0).value;
      forall k :: m.start <= k < m.bodyStart ==> s[k] != '/'
    ensures var m := Exec(s, Patterns[0], 0).value;
      Includes(s[m.start..m.end], ThinkClose) <==> m.bodyEnd < m.end && s[m.bodyEnd..m.end] == ThinkClose
  {
    EndTagMarksCompletion(s, Exec(s, Patterns[0], 0).value);
  }

  lemma EndTagMarksCompletion(s: string, m: Match)
    requires Placed(s, m, ThinkClose)
    requires forall k :: m.start <= k < m.bodyStart ==> s[k] != '/'
    ensures Includes(s[m.start..m.end], ThinkClose) <==> m.bodyEnd < m.end && s[m.bodyEnd..m.end] == ThinkClose
  {
    if m.bodyEnd < m.end && s[m.bodyEnd..m.end] == ThinkClose {
      InfixFromWhole(s, m.start, m.end, m.bodyEnd, ThinkClose);
    }
    if Includes(s[m.start..m.end], ThinkClose) {
      var q :| 0 <= q <= |s[m.start..m.end]| - |ThinkClose| && MatchesAt(s[m.start..m.end], q, ThinkClose);
      WholeFromInfix(s, m.start, m.end, q, ThinkClose);
      EndTagPosition(s, m, m.start + q);
    }
  }

  lemma InfixFromWhole(s: string, a: nat, b: nat, i: nat, t: string)
    requires a <= i && i + |t| == b <= |s| && s[i..b] == t
    ensures Includes(s[a..b], t)
  {
    assert s[a..b][i - a..i - a + |t|] == t;
    assert MatchesAt(s[a..b], i - a, t);
  }

  lemma WholeFromInfix(s: string, a: nat, b: nat, q: nat, t: string)
    requires a <= b <= |s| && MatchesAt(s[a..b], q, t)
    ensures a + q + |t| <= b && MatchesAt(s, a + q, t)
  {
    var w := s[a..b];
    forall k | a + q <= k < a + q + |t| ensures s[k] == t[k - a - q] {
      assert w[q..q + |t|][k - a - q] == w[k - a] == s[k];
    }
    assert s[a + q..a + q + |t|] == t;
  }

  // ---------------------------------------------------------------------------
  // Shifting text behind a prefix

  lemma IndexOfShift(p: string, t: string, c: char, f: nat)
    ensures IndexOf(p + t, c, |p| + f) == if IndexOf(t, c, f) < 0 then -1 else |p| + IndexOf(t, c, f)
    decreases |t| - f
  {
    if f < |t| {
      assert (p + t)[|p| + f] == t[f];
      IndexOfShift(p, t, c, f + 1);
    }
  }

  lemma OpenTagShift(p: string, t: string, j: nat, name: string)
    ensures OpenTagEnd(p + t, |p| + j, name) == if OpenTagEnd(t, j, name) < 0 then -1 else |p| + OpenTagEnd(t, j, name)
  {
    if j + |name| <= |t| {
      forall k | |p| + j <= k < |p| + j + |name| ensures (p + t)[k] == t[k - |p|] {}
      assert MatchesAtCI(p + t, |p| + j, name) == MatchesAtCI(t, j, name);
    }
    IndexOfShift(p, t, '>', j + |name|);
  }

  lemma FirstTagShift(p: string, t: string, f: nat, name: string)
    ensures FirstTag(p + t, |p| + f, name) == if FirstTag(t, f, name) < 0 then -1 else |p| + FirstTag(t, f, name)
    decreases |t| - f
  {
    if f < |t| {
      OpenTagShift(p, t, f, name);
      FirstTagShift(p, t, f + 1, name);
    }
  }

  // ---------------------------------------------------------------------------
  // A closed but empty block

  /** An empty reasoning block, as models write it when reasoning is switched off. */
  const EmptyBlock: string := "<think></think>"

  /** How the first pattern reads content that opens with an empty block. */
  lemma EmptyBlockMatch(answer: string)
    ensures var s := EmptyBlock + answer;
      && FirstTag(s, 0, ThinkName) == 0 && OpenTagEnd(s, 0, ThinkName) == 7
      && Exec(s, Patterns[0], 0) == Some(Match(0, 7, 7, 15))
      && s[7..] == ThinkClose + answer
  {
    var s := EmptyBlock + answer;
    forall k | 0 <= k < 15 ensures s[k] == EmptyBlock[k] {}
    assert MatchesAtCI(s, 0, ThinkName);
    assert IndexOf(s, '>', 6) == 6;
    assert MatchesAtCI(s, 7, ThinkClose);
  }

  /** An empty, closed block followed by an answer: the answer is shown as reasoning and the answer itself is empty. */
  lemma EmptyBlockSwallowsAnswer(answer: string)
    ensures ParseContent(EmptyBlock + answer) == Parsed(Trim(ThinkClose + answer), "", false)
  {
    var s := EmptyBlock + answer;
    EmptyBlockMatch(answer);
    EmptyCapture(answer);
    LeadingTagFallback(s);
  }

  lemma EmptyCapture(answer: string)
    ensures FirstPass(EmptyBlock + answer).thinkingContent == ""
  {
    var s := EmptyBlock + answer;
    EmptyBlockMatch(answer);
    OnlyFirstPatternsCount(s);
    assert s[7..7] == "";
  }

  /**
   * The split as the comment above the fallback describes it: the fallback
   * is for content without tags. As every leading tag is also found by the
   * first pattern, the fallback then never applies.
   */
  function ParseContentIntended(s: string): (r: Parsed)
    ensures FirstTag(s, 0, ThinkName) == -1 ==> r == Parsed("", s, false)
    ensures FirstTag(s, 0, ThinkName) >= 0 ==>
      var m := Exec(s, Patterns[0], 0).value;
      r == Parsed(Trim(s[m.bodyStart..m.bodyEnd]), Trim(ReplaceAll(s, Patterns[0], 0)),
                  Includes(s[m.start..m.end], ThinkClose))
    ensures r.thinkingContent != "" ==> r == ParseContent(s)
  {
    OnlyFirstPatternsCount(s);
    FirstPass(s)
  }

  /** With the intended split, an answer after an empty block is the answer shown, and the block counts as complete. */
  lemma EmptyBlockKeepsAnswer(answer: string)
    requires FirstTag(answer, 0, ThinkName) == -1
    ensures ParseContentIntended(EmptyBlock + answer) == Parsed("", Trim(answer), true)
  {
    var s := EmptyBlock + answer;
    EmptyBlockMatch(answer);
    EmptyBlockRemoved(answer);
    assert s[0..15] == EmptyBlock;
    assert MatchesAt(EmptyBlock, 7, ThinkClose);
    assert s[7..7] == "";
  }

  lemma EmptyBlockRemoved(answer: string)
    requires FirstTag(answer, 0, ThinkName) == -1
    ensures ReplaceAll(EmptyBlock + answer, Patterns[0], 0) == answer
  {
    var s := EmptyBlock + answer;
    EmptyBlockMatch(answer);
    FirstTagShift(EmptyBlock, answer, 0, ThinkName);
    assert s[15..] == answer;
    assert ReplaceAll(s, Patterns[0], 0) == s[0..0] + ReplaceAll(s, Patterns[0], 15);
  }
}
