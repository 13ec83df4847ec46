/**
 * Session titles: a heuristic title taken from the first user message, a
 * model-written title that falls back to the heuristic, and the validation
 * and normalisation applied to titles a user sets.
 */
module TitleGenerator {
  import opened Wrappers
  import opened Text
  import opened Types
  import opened ThinkMarkup
  import opened OllamaService

  const Placeholder: string := "新对话"
  const Ellipsis: string := "..."

  /** `s.length <= max ? s : s.substring(0, keep) + '...'`. */
  function Shorten(s: string, max: nat, keep: nat): (r: string)
    requires keep + 3 <= max
    ensures |r| <= max
    ensures s != [] ==> r != []
  {
    if |s| <= max then s else s[..keep] + Ellipsis
  }

  /** `t` is a piece of `s`, or a piece of `s` followed by `...`. */
  predicate Fragment(t: string, s: string) {
    Includes(s, t) || (|t| >= 3 && t[|t| - 3..] == Ellipsis && Includes(s, t[..|t| - 3]))
  }

  lemma IncludesInfix(s: string, a: nat, b: nat, t: string)
    requires a <= b <= |s| && Includes(s[a..b], t)
    ensures Includes(s, t)
  {
    var i :| 0 <= i <= b - a - |t| && MatchesAt(s[a..b], i, t);
    forall k | 0 <= k < |t| ensures s[a + i..a + i + |t|][k] == t[k] {
      assert s[a..b][i..i + |t|][k] == t[k];
    }
    assert MatchesAt(s, a + i, t);
  }

  lemma FragmentInfix(s: string, a: nat, b: nat, t: string)
    requires a <= b <= |s| && Fragment(t, s[a..b])
    ensures Fragment(t, s)
  {
    if Includes(s[a..b], t) {
      IncludesInfix(s, a, b, t);
    } else {
      IncludesInfix(s, a, b, t[..|t| - 3]);
    }
  }

  lemma ShortenIsFragment(s: string, max: nat, keep: nat)
    requires keep + 3 <= max
    ensures Fragment(Shorten(s, max, keep), s)
  {
    var r := Shorten(s, max, keep);
    if |s| <= max {
      assert MatchesAt(s, 0, r);
    } else {
      assert r[..|r| - 3] == s[..keep] && r[|r| - 3..] == Ellipsis;
      assert MatchesAt(s, 0, s[..keep]);
    }
  }

  lemma TrimIsFragment(s: string)
    ensures Includes(s, Trim(s))
  {
    TrimInfix(s);
    assert MatchesAt(s, TrimmedLead(s), Trim(s));
  }

  /** A fragment of `Trim(s)` is a fragment of `s`. */
  lemma FragmentOfTrim(s: string, t: string)
    requires Fragment(t, Trim(s))
    ensures Fragment(t, s)
  {
    TrimInfix(s);
    FragmentInfix(s, TrimmedLead(s), TrimmedLead(s) + |Trim(s)|, t);
  }

  // ---------------------------------------------------------------------------
  // Strategy 2: request phrases

  /** The three `^(verb|verb|…)(.*)` patterns, as their lists of alternatives. */
  const ActionPatterns: seq<seq<string>> := [
    ["请", "帮我", "帮忙", "能否", "可以", "如何", "怎么", "怎样"],
    ["写", "创建", "生成", "制作", "设计", "开发"],
    ["翻译", "转换", "转化"]
  ]

  /** `^(a|b|…)`: which alternative, tried in order, `s` starts with. */
  function LeadingAlternative(s: string, alts: seq<string>): (r: Option<nat>)
    ensures r.Some? ==> r.value < |alts| && MatchesAt(s, 0, alts[r.value])
    ensures forall j :: 0 <= j < |alts| && (r.None? || j < r.value) ==> !MatchesAt(s, 0, alts[j])
  {
    if alts == [] then None
    else if MatchesAt(s, 0, alts[0]) then Some(0)
    else match LeadingAlternative(s, alts[1..])
      case Some(j) => Some(j + 1)
      case None => None
  }

  /** The first line terminator at or after `from`, or `|s|`. */
  function LineEnd(s: string, from: nat): (r: nat)
    requires from <= |s|
    ensures from <= r <= |s|
    ensures r < |s| ==> IsLineTerminator(s[r])
    ensures NoLineTerminator(s[from..r])
    decreases |s| - from
  {
    if from == |s| || IsLineTerminator(s[from]) then from else LineEnd(s, from + 1)
  }

  /** The request-phrase strategy over `patterns` in order: the title it gives, if any. */
  function ActionTitle(cleaned: string, patterns: seq<seq<string>>): (r: Option<string>)
    ensures r.Some? ==> 0 < |r.value| <= 30
    ensures r.Some? ==> Fragment(r.value, cleaned)
  {
    if patterns == [] then None
    else match LeadingAlternative(cleaned, patterns[0])
      case None => ActionTitle(cleaned, patterns[1..])
      case Some(j) =>
        var k := |patterns[0][j]|;
        var group := cleaned[k..LineEnd(cleaned, k)];
        var extracted := Trim(group);
        if extracted == [] then ActionTitle(cleaned, patterns[1..])
        else if |extracted| < 3 then
          ShortenIsFragment(cleaned, 30, 27);
          Some(Shorten(cleaned, 30, 27))
        else
          ShortenIsFragment(extracted, 25, 22);
          FragmentOfTrim(group, Shorten(extracted, 25, 22));
          FragmentInfix(cleaned, k, LineEnd(cleaned, k), Shorten(extracted, 25, 22));
          Some(Shorten(extracted, 25, 22))
  }

  // ---------------------------------------------------------------------------
  // Strategies 3 and 4: first sentence, then a cut at a break point

  predicate IsSentenceEnd(c: char) {
    c == '。' || c == '！' || c == '？' || c == '.' || c == '!' || c == '?'
  }

  /** The first sentence terminator at or after `from`, or -1. */
  function SentenceEnd(s: string, from: nat): (r: int)
    ensures r == -1 || (from <= r < |s| && IsSentenceEnd(s[r]))
    ensures forall k :: from <= k < |s| && (r == -1 || k < r) ==> !IsSentenceEnd(s[k])
    decreases |s| - from
  {
    if from >= |s| then -1 else if IsSentenceEnd(s[from]) then from else SentenceEnd(s, from + 1)
  }

  const FallbackBreaks: seq<char> := [' ', '，', ',', '、']

  /**
   * Where a long text is cut: for the first break character, in list order,
   * whose last occurrence at or before index 27 lies beyond index 10, that
   * occurrence; otherwise 27.
   */
  function BreakCut(s: string, breaks: seq<char>): (r: nat)
    requires |s| > 27
    ensures 10 < r <= 27
    ensures r != 27 ==> exists j :: 0 <= j < |breaks| && s[r] == breaks[j]
  {
    if breaks == [] then 27
    else
      var i := LastIndexOf(s, breaks[0], 27);
      if i > 10 then i else BreakCut(s, breaks[1..])
  }

  /** `generateTitleFromMessage`, as a function of the message. */
  function TitleFromMessage(content: string): (r: string)
    ensures 0 < |r| <= 30
  {
    TitleOfText(StripThinking(content))
  }

  /** The title chosen for the text left once the markup is stripped. */
  function TitleOfText(cleaned: string): (r: string)
    requires cleaned == [] || !IsSpace(cleaned[0])
    ensures 0 < |r| <= 30
  {
    if cleaned == [] then Placeholder
    else if Contains(cleaned, '?') || Contains(cleaned, '？') then Shorten(cleaned, 30, 27)
    else match ActionTitle(cleaned, ActionPatterns)
      case Some(t) => t
      case None =>
        var e := SentenceEnd(cleaned, 0);
        if e > 0 then
          assert cleaned[..e][0] == cleaned[0];
          Shorten(Trim(cleaned[..e]), 30, 27)
        else if |cleaned| <= 30 then cleaned
        else cleaned[..BreakCut(cleaned, FallbackBreaks)] + Ellipsis
  }

  /**
   * The heuristic never invents text: the title is the placeholder (exactly
   * when nothing is left after stripping the markup) or a piece of the
   * stripped text, possibly followed by `...`.
   */
  lemma TitleIsDrawnFromMessage(content: string)
    ensures StripThinking(content) == [] ==> TitleFromMessage(content) == Placeholder
    ensures StripThinking(content) != [] ==> Fragment(TitleFromMessage(content), StripThinking(content))
  {
    TextTitleIsDrawn(StripThinking(content));
  }

  lemma TextTitleIsDrawn(cleaned: string)
    requires cleaned == [] || !IsSpace(cleaned[0])
    ensures cleaned == [] ==> TitleOfText(cleaned) == Placeholder
    ensures cleaned != [] ==> Fragment(TitleOfText(cleaned), cleaned)
  {
    var r := TitleOfText(cleaned);
    if cleaned != [] {
      if Contains(cleaned, '?') || Contains(cleaned, '？') {
        ShortenIsFragment(cleaned, 30, 27);
      } else if ActionTitle(cleaned, ActionPatterns).None? {
        var e := SentenceEnd(cleaned, 0);
        if e > 0 {
          ShortenIsFragment(Trim(cleaned[..e]), 30, 27);
          FragmentOfTrim(cleaned[..e], r);
          FragmentInfix(cleaned, 0, e, r);
        } else if |cleaned| <= 30 {
          assert MatchesAt(cleaned, 0, r);
        } else {
          var b := BreakCut(cleaned, FallbackBreaks);
          assert r[..|r| - 3] == cleaned[..b];
          assert MatchesAt(cleaned, 0, cleaned[..b]);
        }
      }
    }
  }

  /** A question is kept whole when it fits, else cut to 27 characters plus `...`. */
  lemma QuestionTitle(content: string)
    requires var c := StripThinking(content); Contains(c, '?') || Contains(c, '？')
    ensures var c := StripThinking(content);
      TitleFromMessage(content) == if |c| <= 30 then c else c[..27] + Ellipsis
  {
  }

  /** Text of 30 characters or fewer with no question, request phrase or sentence end is its own title. */
  lemma ShortPlainTitle(content: string)
    requires var c := StripThinking(content);
      c != [] && |c| <= 30 && !Contains(c, '?') && !Contains(c, '？')
      && ActionTitle(c, ActionPatterns).None? && SentenceEnd(c, 0) <= 0
    ensures TitleFromMessage(content) == StripThinking(content)
  {
  }

  /** The imperative form: strip, then try the strategies in order with early returns. */
  method GenerateTitleFromMessage(content: string) returns (title: string)
    ensures title == TitleFromMessage(content)
  {
    var cleaned := RemoveClosedBlocks(content, 0);
    cleaned := CutUnclosed(cleaned);
    cleaned := Trim(cleaned);
    if cleaned == [] {
      return Placeholder;
    }
    if Contains(cleaned, '?') || Contains(cleaned, '？') {
      return Shorten(cleaned, 30, 27);
    }
    var action := MatchActionPatterns(cleaned);
    if action.Some? {
      return action.value;
    }
    var e := SentenceEnd(cleaned, 0);
    if e > 0 {
      var firstSentence := Trim(cleaned[..e]);
      return Shorten(firstSentence, 30, 27);
    }
    if |cleaned| <= 30 {
      return cleaned;
    }
    title := CutAtBreak(cleaned, FallbackBreaks);
  }

  /** The pattern loop of `generateTitleFromMessage`: the first request phrase that gives a title. */
  method MatchActionPatterns(cleaned: string) returns (title: Option<string>)
    ensures title == ActionTitle(cleaned, ActionPatterns)
  {
    var p := 0;
    while p < |ActionPatterns|
      invariant 0 <= p <= |ActionPatterns|
      invariant ActionTitle(cleaned, ActionPatterns) == ActionTitle(cleaned, ActionPatterns[p..])
    {
      var alt := LeadingAlternative(cleaned, ActionPatterns[p]);
      if alt.Some? {
        var k := |ActionPatterns[p][alt.value]|;
        var group := cleaned[k..LineEnd(cleaned, k)];
        if group != [] {
          var extracted := Trim(group);
          if |extracted| > 0 {
            if |extracted| < 3 {
              return Some(Shorten(cleaned, 30, 27));
            }
            return Some(Shorten(extracted, 25, 22));
          }
        }
      }
      assert ActionPatterns[p..][1..] == ActionPatterns[p + 1..];
      p := p + 1;
    }
    return None;
  }

  /** The break-point loop: cut before the first usable break character and add `...`. */
  method CutAtBreak(title: string, breaks: seq<char>) returns (r: string)
    requires |title| > 27
    ensures r == title[..BreakCut(title, breaks)] + Ellipsis
  {
    var bestBreak := 27;
    var b := 0;
    while b < |breaks|
      invariant 0 <= b <= |breaks|
      invariant BreakCut(title, breaks) == BreakCut(title, breaks[b..])
    {
      var index := LastIndexOf(title, breaks[b], 27);
      if index > 10 {
        bestBreak := index;
        break;
      }
      assert breaks[b..][1..] == breaks[b + 1..];
      b := b + 1;
    }
    r := title[..bestBreak] + Ellipsis;
  }

  // ---------------------------------------------------------------------------
  // The model-written title

  const AiBreaks: seq<char> := [' ', '，', ',', '、', '的', '了', '？', '?']

  /** The instruction sent to the model, before and after the stripped message. */
  const PromptHead: string :=
    "Generate a concise title (10-30 characters) for this conversation based on the user's message:\n\n"
    + "User message: "
  const PromptTail: string :=
    "\n\n"
    + "Requirements:\n"
    + "- Keep it short and descriptive\n"
    + "- No quotes or special symbols\n"
    + "- Extract the main topic or intent\n"
    + "- Chinese response preferred\n\n"
    + "Title:"

  function TitlePrompt(cleaned: string): string {
    PromptHead + cleaned + PromptTail
  }

  /** `replace(/^(标题：|Title:\s*|答：|回答：)/i, '')`: drop one leading answer label. */
  function StripReplyPrefix(s: string): (r: string)
    ensures |r| <= |s| && r == s[|s| - |r|..]
  {
    if MatchesAt(s, 0, "标题：") then s[3..]
    else if MatchesAtCI(s, 0, "title:") then TrimStart(s[6..])
    else if MatchesAt(s, 0, "答：") then s[2..]
    else if MatchesAt(s, 0, "回答：") then s[3..]
    else s
  }

  predicate IsQuote(c: char) {
    c == '"' || c == '\''
  }

  /** `replace(/^["']|["']$/g, '')`: drop one quote at each end (a lone quote goes once). */
  function StripQuotes(t: string): (r: string)
    ensures var a := if |t| > 0 && IsQuote(t[0]) then 1 else 0;
      a + |r| <= |t| && r == t[a..a + |r|] && |t| - 2 <= |r|
    ensures |r| == |t| ==> t == [] || (!IsQuote(t[0]) && !IsQuote(t[|t| - 1]))
  {
    var a := if |t| > 0 && IsQuote(t[0]) then 1 else 0;
    var b := if |t| > a && IsQuote(t[|t| - 1]) then |t| - 1 else |t|;
    t[a..b]
  }

  /** `split('\n')[0]`: everything before the first newline. */
  function FirstLine(s: string): (r: string)
    ensures |r| <= |s| && r == s[..|r|]
    ensures '\n' !in r
    ensures |r| < |s| ==> s[|r|] == '\n'
  {
    if s == [] || s[0] == '\n' then [] else [s[0]] + FirstLine(s[1..])
  }

  /** The reply after the cleaning steps, before the length rules. */
  function CleanReply(response: string): string {
    var t := CutUnclosed(RemoveClosedBlocks(Trim(response), 0));
    Trim(FirstLine(Trim(StripQuotes(Trim(StripReplyPrefix(t))))))
  }

  /** The completion request for a title: one user message, temperature 0.3, at most 50 tokens. */
  function TitleRequestMessage(cleaned: string, now: int): Message {
    Message("temp", "temp", User, TitlePrompt(cleaned), now, None)
  }

  const TitleOptions: ChatOptions := ChatOptions(Some(0.3), Some(50.0), None, None, None, None)

  /**
   * The length rule for a model-written title: over 30 characters, cut at a
   * break point (now also after `的`, `了` and question marks) and add `...`.
   */
  function BoundAiTitle(title: string): (r: string)
    ensures |title| <= 30 ==> r == title
    ensures |title| > 30 ==> 14 <= |r| <= 30 && r[|r| - 3..] == Ellipsis && r[..|r| - 3] <= title
  {
    if |title| > 30 then title[..BreakCut(title, AiBreaks)] + Ellipsis else title
  }

  /**
   * What becomes of the cleaned answer: the answer bounded to 30 characters,
   * or the fallback title when nothing or too little is left.
   */
  function AiTitleOr(fallback: string, title: string): (r: string)
    ensures r == fallback || 3 <= |r| <= 30
    ensures title == [] ==> r == fallback
    ensures 3 <= |title| <= 30 ==> r == title
  {
    if title == [] then fallback
    else
      var bounded := BoundAiTitle(title);
      if |bounded| < 3 then fallback else bounded
  }

  /**
   * `generateTitleWithAI`, as a function: ask the model about the stripped
   * message, unless nothing is left of it; a failed call falls back.
   */
  function TitleWithAI(content: string, model: string, backend: Backend, now: int): (r: string)
    ensures StripThinking(content) == [] ==> r == TitleFromMessage(content)
    ensures GenerateCompletion(model, [TitleRequestMessage(StripThinking(content), now)], TitleOptions, backend).Err?
            ==> r == TitleFromMessage(content)
    ensures r == TitleFromMessage(content) || 3 <= |r| <= 30
    ensures 0 < |r| <= 30
  {
    var cleaned := StripThinking(content);
    if cleaned == [] then TitleFromMessage(content)
    else match GenerateCompletion(model, [TitleRequestMessage(cleaned, now)], TitleOptions, backend)
      case Err(_) => TitleFromMessage(content)
      case Ok(response) => AiTitleOr(TitleFromMessage(content), CleanReply(response))
  }

  /** A clean answer of 3 to 30 characters is the title as it stands. */
  lemma CleanAnswerKept(content: string, model: string, backend: Backend, now: int)
    requires StripThinking(content) != []
    requires var reply := GenerateCompletion(model, [TitleRequestMessage(StripThinking(content), now)], TitleOptions, backend);
      reply.Ok? && 3 <= |CleanReply(reply.value)| <= 30
    ensures TitleWithAI(content, model, backend, now)
      == CleanReply(GenerateCompletion(model, [TitleRequestMessage(StripThinking(content), now)], TitleOptions, backend).value)
  {
  }

  /** The imperative form, step by step as the source reassigns `title`. */
  method GenerateTitleWithAI(content: string, model: string, backend: Backend, now: int) returns (title: string)
    ensures title == TitleWithAI(content, model, backend, now)
  {
    var cleanedContent := RemoveClosedBlocks(content, 0);
    cleanedContent := CutUnclosed(cleanedContent);
    cleanedContent := Trim(cleanedContent);
    if cleanedContent == [] {
      title := GenerateTitleFromMessage(content);
      return;
    }
    var prompt := TitlePrompt(cleanedContent);
    var response := GenerateCompletion(model, [Message("temp", "temp", User, prompt, now, None)], TitleOptions, backend);
    if response.Err? {
      title := GenerateTitleFromMessage(content);
      return;
    }
    title := Trim(response.value);
    title := RemoveClosedBlocks(title, 0);
    title := CutUnclosed(title);
    title := Trim(StripReplyPrefix(title));
    title := Trim(StripQuotes(title));
    title := Trim(FirstLine(title));
    title := BoundOrFallBack(content, title);
  }

  /** The end of `generateTitleWithAI`: fall back on an empty answer, cut a long one, fall back on a short one. */
  method BoundOrFallBack(content: string, cleaned: string) returns (title: string)
    ensures title == AiTitleOr(TitleFromMessage(content), cleaned)
  {
    title := cleaned;
    if title == [] {
      title := GenerateTitleFromMessage(content);
      return;
    }
    if |title| > 30 {
      title := CutAtBreak(title, AiBreaks);
    }
    if |title| < 3 {
      title := GenerateTitleFromMessage(content);
      return;
    }
  }

  // ---------------------------------------------------------------------------
  // Titles set by the user

  datatype TitleCheck = Accepted | Rejected(message: string)

  /** `validateTitle`: non-blank, and at most 100 characters once trimmed. */
  function ValidateTitle(title: string): (r: TitleCheck)
    ensures r.Accepted? <==> !AllSpace(title) && |Trim(title)| <= 100
    ensures AllSpace(title) ==> r == Rejected("Title cannot be empty")
    ensures !AllSpace(title) && |Trim(title)| > 100 ==> r == Rejected("Title must be less than 100 characters")
  {
    var trimmed := Trim(title);
    if trimmed == [] then Rejected("Title cannot be empty")
    else if |trimmed| > 100 then Rejected("Title must be less than 100 characters")
    else Accepted
  }

  /** `replace(/\s+/g, ' ')`: every run of whitespace becomes one space. */
  function CollapseSpaces(s: string): (r: string)
    ensures |r| <= |s| && (r == [] <==> s == [])
    ensures r != [] ==> (IsSpace(r[0]) <==> IsSpace(s[0]))
    decreases |s|
  {
    if s == [] then []
    else if IsSpace(s[0]) then [' '] + CollapseSpaces(TrimStart(s[1..]))
    else [s[0]] + CollapseSpaces(s[1..])
  }

  /** Whitespace only as single plain spaces. */
  predicate Collapsed(t: string) {
    && (forall k :: 0 <= k < |t| && IsSpace(t[k]) ==> t[k] == ' ')
    && (forall k :: 0 <= k < |t| - 1 ==> !IsSpace(t[k]) || !IsSpace(t[k + 1]))
  }

  /** The collapse leaves no whitespace but single plain spaces. */
  lemma {:induction false} CollapseIsCollapsed(s: string)
    ensures Collapsed(CollapseSpaces(s))
    decreases |s|
  {
    if s != [] {
      if IsSpace(s[0]) {
        CollapseIsCollapsed(TrimStart(s[1..]));
      } else {
        CollapseIsCollapsed(s[1..]);
      }
    }
  }

  /** What `trimStart` leaves ends like its input; when it leaves nothing, the input ended in whitespace. */
  lemma TrimStartLast(x: string)
    requires x != []
    ensures var t := TrimStart(x);
      (t != [] ==> t[|t| - 1] == x[|x| - 1]) && (t == [] ==> IsSpace(x[|x| - 1]))
  {
    var t := TrimStart(x);
    if t == [] {
      assert x[..|x|][|x| - 1] == x[|x| - 1];
    }
  }

  /** The collapse ends in whitespace exactly when its input does. */
  lemma {:induction false} CollapseLast(s: string)
    requires s != []
    ensures var r := CollapseSpaces(s); IsSpace(r[|r| - 1]) <==> IsSpace(s[|s| - 1])
    decreases |s|
  {
    if IsSpace(s[0]) {
      if |s| > 1 {
        var t := TrimStart(s[1..]);
        TrimStartLast(s[1..]);
        if t != [] {
          CollapseLast(t);
        }
      }
    } else if |s| > 1 {
      CollapseLast(s[1..]);
    }
  }

  /** `normalizeTitle`: trim, then collapse the inner whitespace. */
  function NormalizeTitle(title: string): string {
    CollapseSpaces(Trim(title))
  }

  /** The shape of a normalised title: no whitespace at the ends, only single plain spaces inside. */
  predicate IsNormalTitle(t: string) {
    (t != [] ==> !IsSpace(t[0]) && !IsSpace(t[|t| - 1])) && Collapsed(t)
  }

  lemma NormalizeTitleIsNormal(title: string)
    ensures IsNormalTitle(NormalizeTitle(title))
  {
    CollapseIsCollapsed(Trim(title));
    if Trim(title) != [] {
      CollapseLast(Trim(title));
    }
  }

  /** Text already in collapsed form is left alone by the collapse. */
  lemma {:induction false} CollapseFixpoint(s: string)
    requires Collapsed(s)
    ensures CollapseSpaces(s) == s
  {
    if s != [] {
      var u := s[1..];
      assert Collapsed(u) by {
        forall k | 0 <= k < |u| && IsSpace(u[k]) ensures u[k] == ' ' {
          assert u[k] == s[k + 1];
        }
        forall k | 0 <= k < |u| - 1 ensures !IsSpace(u[k]) || !IsSpace(u[k + 1]) {
          assert u[k] == s[k + 1] && u[k + 1] == s[k + 2];
        }
      }
      CollapseFixpoint(u);
      if IsSpace(s[0]) {
        assert TrimStart(u) == u;
      }
      assert [s[0]] + u == s;
    }
  }

  /** A title is normal exactly when normalising leaves it unchanged. */
  lemma NormalIffFixed(t: string)
    ensures IsNormalTitle(t) <==> NormalizeTitle(t) == t
  {
    NormalizeTitleIsNormal(t);
    if IsNormalTitle(t) {
      TrimIdentity(t);
      CollapseFixpoint(t);
    }
  }

  /** `normalizeTitle` is idempotent. */
  lemma NormalizeIdempotent(title: string)
    ensures NormalizeTitle(NormalizeTitle(title)) == NormalizeTitle(title)
  {
    NormalizeTitleIsNormal(title);
    NormalIffFixed(NormalizeTitle(title));
  }
}
