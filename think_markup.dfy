/**
 * The grammar of the model's reasoning markup: an opening tag `<think…>` (the
 * name in any ASCII case, then anything up to the first `>`) and the closing
 * tag `</think>`. Both the title generator and the message view recognise it
 * with regular expressions; this module gives the pieces those expressions
 * are built from.
 */
module ThinkMarkup {
  import opened Text

  const ThinkName: string := "<think"
  const ThinkClose: string := "</think>"

  /** `s.indexOf(c, from)`: the first index `>= from` holding `c`, or -1. */
  function IndexOf(s: string, c: char, from: nat): (r: int)
    ensures r == -1 || (from <= r < |s| && s[r] == c)
    ensures forall k :: from <= k < |s| && (r == -1 || k < r) ==> s[k] != c
    decreases |s| - from
  {
    if from >= |s| then -1 else if s[from] == c then from else IndexOf(s, c, from + 1)
  }

  /** The first index `>= from` where `tag` starts, ASCII case ignored, or -1. */
  function IndexOfCI(s: string, tag: string, from: nat): (r: int)
    ensures r == -1 || (from <= r && MatchesAtCI(s, r, tag))
    ensures forall k :: from <= k && (r == -1 || k < r) ==> !MatchesAtCI(s, k, tag)
    decreases |s| - from
  {
    if from + |tag| > |s| then -1
    else if MatchesAtCI(s, from, tag) then from
    else IndexOfCI(s, tag, from + 1)
  }

  /**
   * `<name[^>]*>` tried at index `i`: one past the closing `>` of the opening
   * tag, or -1 when there is none. The `>` is the first one after the name,
   * because `[^>]*` cannot step over a `>`.
   */
  function OpenTagEnd(s: string, i: nat, name: string): (r: int)
    ensures r == -1 || (i + |name| < r <= |s| && s[r - 1] == '>')
  {
    if MatchesAtCI(s, i, name) then
      var g := IndexOf(s, '>', i + |name|);
      if g < 0 then -1 else g + 1
    else -1
  }

  /** An opening tag recognised inside a piece of `s` is an opening tag of `s`. */
  lemma {:induction false} OpenTagInInfix(s: string, a: nat, b: nat, i: nat, name: string)
    requires a <= b <= |s|
    requires OpenTagEnd(s[a..b], i, name) >= 0
    ensures OpenTagEnd(s, a + i, name) >= 0
  {
    var t := s[a..b];
    var g := IndexOf(t, '>', i + |name|);
    assert t[g] == s[a + g];
    forall k | 0 <= k < |name| ensures Lower(s[a + i + k]) == name[k] {
      assert t[i + k] == s[a + i + k];
    }
    assert MatchesAtCI(s, a + i, name);
  }

  /** The first index `>= from` where an opening `<think…>` tag is recognised, or -1. */
  function FirstOpenTag(s: string, from: nat): (r: int)
    ensures r == -1 || (from <= r < |s| && OpenTagEnd(s, r, ThinkName) >= 0)
    ensures forall k :: from <= k && (r == -1 || k < r) ==> OpenTagEnd(s, k, ThinkName) < 0
    decreases |s| - from
  {
    if from >= |s| then -1
    else if OpenTagEnd(s, from, ThinkName) >= 0 then from
    else FirstOpenTag(s, from + 1)
  }

  /**
   * `s.replace(/<think[^>]*>[\s\S]*?<\/think>/gi, '')` scanning from index
   * `i`: each opening tag together with everything up to the nearest closing
   * tag after it is removed; a character that starts no such block is kept.
   */
  function RemoveClosedBlocks(s: string, i: nat): string
    decreases |s| - i
  {
    if i >= |s| then ""
    else
      var e := OpenTagEnd(s, i, ThinkName);
      var c := if e < 0 then -1 else IndexOfCI(s, ThinkClose, e);
      if c >= 0 then RemoveClosedBlocks(s, c + |ThinkClose|)
      else [s[i]] + RemoveClosedBlocks(s, i + 1)
  }

  /** `s.replace(/<think[^>]*>[\s\S]*$/gi, '')`: cut at the first opening tag. */
  function CutUnclosed(s: string): (r: string)
    ensures r == s || (|r| < |s| && r == s[..|r|] && OpenTagEnd(s, |r|, ThinkName) >= 0)
  {
    var p := FirstOpenTag(s, 0);
    if p < 0 then s else s[..p]
  }

  /** What the title generator does first to any text: drop the markup, then `trim`. */
  function StripThinking(s: string): string {
    Trim(CutUnclosed(RemoveClosedBlocks(s, 0)))
  }

  /** After the cut no opening tag is left. */
  lemma CutLeavesNoOpenTag(s: string, i: nat)
    ensures OpenTagEnd(CutUnclosed(s), i, ThinkName) < 0
  {
    var p := FirstOpenTag(s, 0);
    if p >= 0 && OpenTagEnd(s[..p], i, ThinkName) >= 0 {
      OpenTagInInfix(s, 0, p, i, ThinkName);
      assert false;
    }
  }

  /** Stripped text holds no complete opening tag anywhere: all markup is gone. */
  lemma StripLeavesNoOpenTag(s: string, i: nat)
    ensures OpenTagEnd(StripThinking(s), i, ThinkName) < 0
  {
    TrimmedCutLeavesNoOpenTag(RemoveClosedBlocks(s, 0), i);
  }

  lemma TrimmedCutLeavesNoOpenTag(x: string, i: nat)
    ensures OpenTagEnd(Trim(CutUnclosed(x)), i, ThinkName) < 0
  {
    var c := CutUnclosed(x);
    forall k: nat ensures OpenTagEnd(c, k, ThinkName) < 0 {
      CutLeavesNoOpenTag(x, k);
    }
    TrimAddsNoOpenTag(c, i);
  }

  /** Trimming text that holds no opening tag cannot make one. */
  lemma TrimAddsNoOpenTag(c: string, i: nat)
    requires forall k: nat :: OpenTagEnd(c, k, ThinkName) < 0
    ensures OpenTagEnd(Trim(c), i, ThinkName) < 0
  {
    TrimInfix(c);
    var a := TrimmedLead(c);
    var t := Trim(c);
    if OpenTagEnd(t, i, ThinkName) >= 0 {
      OpenTagInInfix(c, a, a + |t|, i, ThinkName);
      assert false;
    }
  }
}
