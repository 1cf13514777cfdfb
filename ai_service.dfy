/**
 * The reply generator behind the chat endpoint (`AIService`): the system
 * prompt, the history window, the message list, the transcript sent to
 * Anthropic, the provider dispatch and the stock fallback replies. The two
 * provider SDK calls are parameters: functions from what is sent to what
 * comes back, where `ProviderError` stands for any exception they raise.
 */
module AiService {
  import opened Wrappers
  import opened TextMatch
  import opened SeqUtil

  /** One `{"role": ..., "content": ...}` dict of a message list. */
  datatype ChatTurn = ChatTurn(role: string, content: string)

  // ---------------------------------------------------------- system prompt

  const BaseHead: string :=
    "You are MindEase, a warm, thoughtful AI mental wellness companion. Your goal is to help users feel heard, understood, and supported.\n"
    + "\n"
    + "Guidelines:\n"
    + "- Always mirror their emotions with empathy: \"Sounds like you've been holding a lot today.\"\n"
    + "- Avoid direct advice. Use reflective prompts: \"What do you think helped you get through that moment?\"\n"
    + "- Keep your tone casual, sincere, and encouraging\n"
    + "- Be non-judgmental and supportive\n"
    + "- Help users explore their feelings without pushing them\n"
    + "- If they seem to be in crisis, acknowledge their pain and gently suggest professional help\n"
  const BaseLast: string := "- Keep responses conversational and not too long (2-3 sentences typically)"
  const BasePrompt: string := BaseHead + BaseLast

  const EmotionLead: string := "\n\nUser's current emotional state: "
  const EmotionTail: string := ". Acknowledge this feeling and respond accordingly."
  const TopicClause: string := "\n\nThis is a topic-based conversation. Focus on the specific topic area."

  function EmotionClause(emotion: string): string {
    EmotionLead + emotion + EmotionTail
  }

  /** The condition under which the topic clause is added. */
  predicate TopicRequested(sessionType: string, topicId: Option<string>) {
    sessionType == "topic_based" && Truthy(topicId)
  }

  predicate EndsWith(s: string, suffix: string) {
    |suffix| <= |s| && s[|s| - |suffix|..] == suffix
  }

  lemma LastTwo(a: string, b: string)
    requires |b| >= 2
    ensures |a + b| >= 2 && (a + b)[|a + b| - 2] == b[|b| - 2]
  {
  }

  /** `_build_system_prompt`. */
  function BuildSystemPrompt(sessionType: string, emotion: Option<string>, topicId: Option<string>): string {
    var withEmotion := if Truthy(emotion) then BasePrompt + EmotionClause(emotion.value) else BasePrompt;
    if TopicRequested(sessionType, topicId) then withEmotion + TopicClause else withEmotion
  }

  lemma ClosingCharacters()
    ensures |TopicClause| >= 2 && TopicClause[|TopicClause| - 2] == 'a'
    ensures |EmotionTail| >= 2 && EmotionTail[|EmotionTail| - 2] == 'y'
    ensures |BasePrompt| >= 2 && BasePrompt[|BasePrompt| - 2] == 'y'
  {
    LastTwo(BaseHead, BaseLast);
  }

  /** Any text followed by an emotion clause ends like the clause does. */
  lemma EmotionClauseEnding(base: string, emotion: string)
    ensures var w := base + EmotionClause(emotion);
      |w| >= 2 && w[|w| - 2] == EmotionTail[|EmotionTail| - 2]
  {
    assert base + EmotionClause(emotion) == (base + EmotionLead + emotion) + EmotionTail;
    LastTwo(base + EmotionLead + emotion, EmotionTail);
  }

  /** The part before any topic clause ends in "y." or "y)", never in the topic clause's "a.". */
  lemma WithEmotionEnding(emotion: Option<string>)
    ensures var w := if Truthy(emotion) then BasePrompt + EmotionClause(emotion.value) else BasePrompt;
      |w| >= 2 && w[|w| - 2] == 'y'
  {
    ClosingCharacters();
    if Truthy(emotion) {
      EmotionClauseEnding(BasePrompt, emotion.value);
    }
  }

  /** The prompt ends with the topic clause exactly when a topic was requested. */
  lemma TopicClauseIffRequested(sessionType: string, emotion: Option<string>, topicId: Option<string>)
    ensures EndsWith(BuildSystemPrompt(sessionType, emotion, topicId), TopicClause) <==> TopicRequested(sessionType, topicId)
  {
    var r := BuildSystemPrompt(sessionType, emotion, topicId);
    ClosingCharacters();
    WithEmotionEnding(emotion);
    if !TopicRequested(sessionType, topicId) && EndsWith(r, TopicClause) {
      assert false;
    }
  }

  lemma PrefixThenInfix(a: string, c: string, d: string)
    ensures |a| <= |a + c + d| && (a + c + d)[..|a|] == a
    ensures LitAt(c, a + c + d, |a|)
  {
    assert (a + c + d)[|a|..|a| + |c|] == c;
  }

  lemma EmptyParts(a: string, c: string, d: string)
    ensures c == "" ==> a + c == a
    ensures d == "" ==> a + c + d == a + c
  {
  }

  /** The prompt starts with the base prompt; the emotion clause, holding the emotion
      verbatim, follows it when an emotion is given; the prompt ends with the topic clause
      exactly when a topic was requested; with neither it is the base prompt alone. */
  lemma SystemPromptShape(sessionType: string, emotion: Option<string>, topicId: Option<string>)
    ensures var r := BuildSystemPrompt(sessionType, emotion, topicId);
      && |BasePrompt| <= |r| && r[..|BasePrompt|] == BasePrompt
      && (Truthy(emotion) ==> LitAt(EmotionClause(emotion.value), r, |BasePrompt|))
      && (EndsWith(r, TopicClause) <==> TopicRequested(sessionType, topicId))
      && (!Truthy(emotion) && !TopicRequested(sessionType, topicId) ==> r == BasePrompt)
  {
    TopicClauseIffRequested(sessionType, emotion, topicId);
    var c := if Truthy(emotion) then EmotionClause(emotion.value) else "";
    var d := if TopicRequested(sessionType, topicId) then TopicClause else "";
    PrefixThenInfix(BasePrompt, c, d);
    EmptyParts(BasePrompt, c, d);
  }

  /** The prompt does not depend on the topic id, which is never interpolated:
      any two non-empty ids give the same prompt. */
  lemma TopicIdNotInPrompt(sessionType: string, emotion: Option<string>, a: string, b: string)
    requires a != "" && b != ""
    ensures BuildSystemPrompt(sessionType, emotion, Some(a)) == BuildSystemPrompt(sessionType, emotion, Some(b))
  {
  }

  /** The prompt determines the context it was built from: whether a topic clause was
      requested, whether an emotion was given and, if so, which one. */
  lemma PromptDeterminesContext(st1: string, e1: Option<string>, t1: Option<string>,
                                st2: string, e2: Option<string>, t2: Option<string>)
    requires BuildSystemPrompt(st1, e1, t1) == BuildSystemPrompt(st2, e2, t2)
    ensures TopicRequested(st1, t1) == TopicRequested(st2, t2)
    ensures Truthy(e1) == Truthy(e2)
    ensures Truthy(e1) ==> e1.value == e2.value
  {
    var r := BuildSystemPrompt(st1, e1, t1);
    TopicClauseIffRequested(st1, e1, t1);
    TopicClauseIffRequested(st2, e2, t2);
    var w1 := if Truthy(e1) then BasePrompt + EmotionClause(e1.value) else BasePrompt;
    var w2 := if Truthy(e2) then BasePrompt + EmotionClause(e2.value) else BasePrompt;
    if TopicRequested(st1, t1) {
      assert r == w1 + TopicClause && r == w2 + TopicClause;
      assert w1 == r[..|r| - |TopicClause|] == w2;
    } else {
      assert w1 == r == w2;
    }
    if Truthy(e1) && Truthy(e2) {
      var c1 := EmotionClause(e1.value);
      var c2 := EmotionClause(e2.value);
      assert c1 == w1[|BasePrompt|..] == c2;
      assert e1.value == c1[|EmotionLead|..|c1| - |EmotionTail|];
      assert e2.value == c2[|EmotionLead|..|c2| - |EmotionTail|];
    }
  }

  // ---------------------------------------------------------- message list

  /** The list `_prepare_messages` builds. */
  function PreparedMessages(prompt: string, history: seq<ChatTurn>, message: string): seq<ChatTurn> {
    [ChatTurn("system", prompt)] + history + [ChatTurn("user", message)]
  }

  /** The system turn comes first, the history follows in order, the current message comes last. */
  lemma PreparedMessagesShape(prompt: string, history: seq<ChatTurn>, message: string)
    ensures var r := PreparedMessages(prompt, history, message);
      |r| == |history| + 2 && r[0] == ChatTurn("system", prompt)
      && r[1..|r| - 1] == history && r[|r| - 1] == ChatTurn("user", message)
  {
    var r := PreparedMessages(prompt, history, message);
    assert r[1..|r| - 1] == history;
  }

  /** `_prepare_messages`: a system turn, a copy of each history turn, the user turn. */
  method PrepareMessages(prompt: string, history: seq<ChatTurn>, message: string) returns (messages: seq<ChatTurn>)
    ensures messages == PreparedMessages(prompt, history, message)
  {
    messages := [ChatTurn("system", prompt)];
    var i := 0;
    while i < |history|
      invariant 0 <= i <= |history|
      invariant messages == [ChatTurn("system", prompt)] + history[..i]
    {
      messages := messages + [ChatTurn(history[i].role, history[i].content)];
      i := i + 1;
    }
    assert history[..i] == history;
    messages := messages + [ChatTurn("user", message)];
  }

  // ---------------------------------------------------------- history window

  /** The turns of a list of sessions, session after session. */
  function Flatten(sessions: seq<seq<ChatTurn>>): seq<ChatTurn> {
    if sessions == [] then [] else Flatten(sessions[..|sessions| - 1]) + sessions[|sessions| - 1]
  }

  /** The slice `s[-n:]`: the last min(n, |s|) elements of `s`. */
  function LastN<T>(s: seq<T>, n: nat): (r: seq<T>)
    ensures |r| == Min(n, |s|) && s[|s| - |r|..] == r
    ensures |s| <= n ==> r == s
  {
    if |s| <= n then s else s[|s| - n..]
  }

  /** `history[-10:]` over the messages of the three newest sessions, each in timestamp order;
      `sessions` is the user's sessions, newest first. */
  function HistoryWindow(sessions: seq<seq<ChatTurn>>): seq<ChatTurn> {
    LastN(Flatten(sessions[..Min(3, |sessions|)]), 10)
  }

  lemma {:induction false} FlattenMember(sessions: seq<seq<ChatTurn>>, t: ChatTurn)
    requires t in Flatten(sessions)
    ensures exists k :: 0 <= k < |sessions| && t in sessions[k]
    decreases |sessions|
  {
    var last := |sessions| - 1;
    if t !in sessions[last] {
      FlattenMember(sessions[..last], t);
      var k :| 0 <= k < last && t in sessions[..last][k];
      assert sessions[..last][k] == sessions[k];
    }
  }

  lemma {:induction false} FlattenLength(sessions: seq<seq<ChatTurn>>, k: nat)
    requires k < |sessions|
    ensures |sessions[k]| <= |Flatten(sessions)|
    decreases |sessions|
  {
    var last := |sessions| - 1;
    if k < last {
      FlattenLength(sessions[..last], k);
    }
  }

  /** The window is the last min(10, n) of the n turns of the three newest sessions,
      the whole of them when they number ten or fewer; and every turn in it comes from
      one of those sessions. */
  lemma HistoryWindowProperties(sessions: seq<seq<ChatTurn>>)
    ensures var all := Flatten(sessions[..Min(3, |sessions|)]);
      var w := HistoryWindow(sessions);
      |w| == Min(10, |all|) && all[|all| - |w|..] == w && (|all| <= 10 ==> w == all)
    ensures forall t :: t in HistoryWindow(sessions) ==> exists k :: 0 <= k < Min(3, |sessions|) && t in sessions[k]
  {
    var recent := sessions[..Min(3, |sessions|)];
    var all := Flatten(recent);
    forall t | t in HistoryWindow(sessions)
      ensures exists k :: 0 <= k < Min(3, |sessions|) && t in sessions[k]
    {
      assert t in all;
      FlattenMember(recent, t);
      var k :| 0 <= k < |recent| && t in recent[k];
      assert recent[k] == sessions[k];
    }
  }

  /** A single session of ten or fewer turns is taken whole. */
  lemma NewestSessionWhole(sessions: seq<seq<ChatTurn>>)
    requires |sessions| >= 1 && |sessions[0]| <= 10
    requires forall k :: 1 <= k < |sessions| ==> sessions[k] == []
    ensures HistoryWindow(sessions) == sessions[0]
  {
    var recent := sessions[..Min(3, |sessions|)];
    assert Flatten(recent[..1]) == Flatten(recent[..1][..0]) + recent[0] == sessions[0];
    if |recent| >= 2 {
      assert recent[..2][..1] == recent[..1];
      assert Flatten(recent[..2]) == Flatten(recent[..1]) + recent[1] == sessions[0];
    }
    if |recent| == 3 {
      assert recent[..3][..2] == recent[..2];
      assert Flatten(recent[..3]) == Flatten(recent[..2]) + recent[2] == sessions[0];
    }
    assert recent == recent[..|recent|];
  }

  /** With a single session the window ends where that session ends. */
  lemma SingleSessionWindowEnd(sessions: seq<seq<ChatTurn>>)
    requires |sessions| == 1 && |sessions[0]| > 0
    ensures var w := HistoryWindow(sessions);
      w != [] && w[|w| - 1] == sessions[0][|sessions[0]| - 1]
  {
    assert sessions[..Min(3, |sessions|)] == sessions;
    assert Flatten(sessions) == Flatten(sessions[..0]) + sessions[0] == sessions[0];
  }

  /** The sessions come newest first and the window keeps the end of their concatenation,
      so once the third newest session holds ten turns the window is its last ten turns
      and holds nothing of the two newer sessions. */
  lemma WindowFromOldestOfThree(sessions: seq<seq<ChatTurn>>)
    requires |sessions| >= 3 && |sessions[2]| >= 10
    ensures HistoryWindow(sessions) == sessions[2][|sessions[2]| - 10..]
  {
    var recent := sessions[..3];
    assert recent[..2] == sessions[..2];
    var all := Flatten(recent);
    assert all == Flatten(sessions[..2]) + sessions[2];
    assert all[|all| - 10..] == sessions[2][|sessions[2]| - 10..];
  }

  /** `_get_conversation_history`: a nested loop appending each message of the three newest
      sessions, then the last ten. */
  method ConversationHistory(sessions: seq<seq<ChatTurn>>) returns (history: seq<ChatTurn>)
    ensures history == HistoryWindow(sessions)
  {
    var recent := sessions[..Min(3, |sessions|)];
    var all: seq<ChatTurn> := [];
    var k := 0;
    while k < |recent|
      invariant 0 <= k <= |recent|
      invariant all == Flatten(recent[..k])
    {
      var j := 0;
      while j < |recent[k]|
        invariant 0 <= j <= |recent[k]|
        invariant all == Flatten(recent[..k]) + recent[k][..j]
      {
        all := all + [ChatTurn(recent[k][j].role, recent[k][j].content)];
        j := j + 1;
      }
      assert recent[k][..j] == recent[k];
      assert recent[..k + 1][..k] == recent[..k];
      k := k + 1;
    }
    assert recent[..k] == recent;
    history := if |all| <= 10 then all else all[|all| - 10..];
  }

  // ---------------------------------------------------- Anthropic transcript

  /** One turn of the flattened transcript; roles other than the three known ones add nothing. */
  const SystemLabel: string := "System: "
  const HumanLabel: string := "Human: "
  const AssistantLabel: string := "Assistant: "
  const TurnEnd: string := "\n\n"
  /** What the transcript ends with, for the model to continue. */
  const ReplyCue: string := "Assistant:"

  function TurnLine(t: ChatTurn): string {
    if t.role == "system" then SystemLabel + t.content + TurnEnd
    else if t.role == "user" then HumanLabel + t.content + TurnEnd
    else if t.role == "assistant" then AssistantLabel + t.content + TurnEnd
    else ""
  }

  predicate KnownRole(t: ChatTurn) {
    t.role == "system" || t.role == "user" || t.role == "assistant"
  }

  function Transcript(ms: seq<ChatTurn>): string {
    ConcatMap(ms, TurnLine)
  }

  /** Only turns with a known role leave a trace in the transcript. */
  function Speaking(ms: seq<ChatTurn>): (r: seq<ChatTurn>)
    ensures forall t :: t in r <==> t in ms && KnownRole(t)
  {
    if ms == [] then []
    else Speaking(ms[..|ms| - 1]) + (if KnownRole(ms[|ms| - 1]) then [ms[|ms| - 1]] else [])
  }

  lemma {:induction false} TranscriptIgnoresUnknownRoles(ms: seq<ChatTurn>)
    ensures Transcript(ms) == Transcript(Speaking(ms))
    decreases |ms|
  {
    if ms != [] {
      var init := ms[..|ms| - 1];
      var last := ms[|ms| - 1];
      TranscriptIgnoresUnknownRoles(init);
      assert Transcript(ms) == Transcript(init) + TurnLine(last);
      if KnownRole(last) {
        assert Speaking(ms) == Speaking(init) + [last];
        ConcatMapAppend(Speaking(init), [last], TurnLine);
        assert Transcript([last]) == Transcript([]) + TurnLine(last);
      } else {
        assert Speaking(ms) == Speaking(init) + [];
        assert Speaking(init) + [] == Speaking(init);
        assert TurnLine(last) == "";
        assert Transcript(ms) == Transcript(init);
      }
    }
  }

  lemma TranscriptSingle(t: ChatTurn)
    ensures Transcript([t]) == TurnLine(t)
  {
    assert [t][..0] == [];
    assert ConcatMap([t], TurnLine) == ConcatMap([], TurnLine) + TurnLine(t);
  }

  /** The transcript of a prepared message list: the system prompt, the history, the user message. */
  lemma TranscriptOfPrepared(prompt: string, history: seq<ChatTurn>, message: string)
    ensures Transcript(PreparedMessages(prompt, history, message))
         == SystemLabel + prompt + TurnEnd + Transcript(history) + HumanLabel + message + TurnEnd
  {
    var sys := ChatTurn("system", prompt);
    var usr := ChatTurn("user", message);
    var sysLine := TurnLine(sys);
    var usrLine := TurnLine(usr);
    assert PreparedMessages(prompt, history, message) == ([sys] + history) + [usr];
    ConcatMapAppend([sys] + history, [usr], TurnLine);
    ConcatMapAppend([sys], history, TurnLine);
    TranscriptSingle(sys);
    TranscriptSingle(usr);
    assert Transcript(([sys] + history) + [usr]) == (sysLine + Transcript(history)) + usrLine;
    assert sysLine == SystemLabel + prompt + TurnEnd;
    assert usrLine == HumanLabel + message + TurnEnd;
  }

  /** The loop of `_generate_anthropic_response` that builds the single prompt string. */
  method AnthropicPrompt(ms: seq<ChatTurn>) returns (prompt: string)
    ensures prompt == Transcript(ms) + ReplyCue
  {
    prompt := "";
    var i := 0;
    while i < |ms|
      invariant 0 <= i <= |ms|
      invariant prompt == Transcript(ms[..i])
    {
      assert ms[..i + 1][..i] == ms[..i];
      if ms[i].role == "system" {
        prompt := prompt + SystemLabel + ms[i].content + TurnEnd;
      } else if ms[i].role == "user" {
        prompt := prompt + HumanLabel + ms[i].content + TurnEnd;
      } else if ms[i].role == "assistant" {
        prompt := prompt + AssistantLabel + ms[i].content + TurnEnd;
      }
      i := i + 1;
    }
    assert ms[..i] == ms;
    prompt := prompt + ReplyCue;
  }

  // ---------------------------------------------------------------- strip

  /** `str.lstrip()`. */
  function TrimLeft(s: string): string
    decreases |s|
  {
    if s != [] && IsSpace(s[0]) then TrimLeft(s[1..]) else s
  }

  /** `str.rstrip()`. */
  function TrimRight(s: string): string
    decreases |s|
  {
    if s != [] && IsSpace(s[|s| - 1]) then TrimRight(s[..|s| - 1]) else s
  }

  /** `str.strip()`. */
  function Strip(s: string): string {
    TrimRight(TrimLeft(s))
  }

  /** `lstrip` drops a run of leading whitespace, all of it: the first `i` characters. */
  lemma {:induction false} TrimLeftSpec(s: string) returns (i: nat)
    ensures i <= |s| && TrimLeft(s) == s[i..] && AllSpace(s[..i])
    ensures TrimLeft(s) == [] || !IsSpace(TrimLeft(s)[0])
    decreases |s|
  {
    if s != [] && IsSpace(s[0]) {
      var k := TrimLeftSpec(s[1..]);
      i := k + 1;
      assert s[1..][k..] == s[i..];
      assert s[..i] == [s[0]] + s[1..][..k];
    } else {
      i := 0;
    }
  }

  /** `rstrip` drops a run of trailing whitespace, all of it: everything from position `j`. */
  lemma {:induction false} TrimRightSpec(s: string) returns (j: nat)
    ensures j <= |s| && TrimRight(s) == s[..j] && AllSpace(s[j..])
    ensures TrimRight(s) == [] || !IsSpace(TrimRight(s)[|TrimRight(s)| - 1])
    decreases |s|
  {
    if s != [] && IsSpace(s[|s| - 1]) {
      var init := s[..|s| - 1];
      j := TrimRightSpec(init);
      assert init[..j] == s[..j];
      assert s[j..] == init[j..] + [s[|s| - 1]];
    } else {
      j := |s|;
      assert s[..j] == s;
    }
  }

  /** `strip` keeps the text between the leading and the trailing whitespace, `s[i..j]`,
      and what it keeps neither starts nor ends with whitespace. */
  lemma StripSpec(s: string) returns (i: nat, j: nat)
    ensures i <= j <= |s| && Strip(s) == s[i..j] && AllSpace(s[..i]) && AllSpace(s[j..])
    ensures Strip(s) == [] || (!IsSpace(Strip(s)[0]) && !IsSpace(Strip(s)[|Strip(s)| - 1]))
  {
    var left := TrimLeft(s);
    i := TrimLeftSpec(s);
    var r := TrimRight(left);
    var k := TrimRightSpec(left);
    j := i + k;
    assert r == s[i..j];
    assert s[j..] == left[k..];
    if r != [] {
      assert r[0] == left[0];
    }
  }

  lemma TrimLeftKeeps(s: string)
    requires s == [] || !IsSpace(s[0])
    ensures TrimLeft(s) == s
  {
  }

  lemma TrimRightKeeps(s: string)
    requires s == [] || !IsSpace(s[|s| - 1])
    ensures TrimRight(s) == s
  {
  }

  /** Stripping twice is stripping once. */
  lemma StripIdempotent(s: string)
    ensures Strip(Strip(s)) == Strip(s)
  {
    var r := Strip(s);
    var i, j := StripSpec(s);
    TrimLeftKeeps(r);
    TrimRightKeeps(r);
  }

  // -------------------------------------------------------------- fallback

  const FallbackResponses: seq<string> := [
    "I hear you, and I want you to know that your feelings are valid. Would you like to tell me more about what's on your mind?",
    "Thank you for sharing that with me. It sounds like you're going through a challenging time. How are you feeling right now?",
    "I appreciate you opening up to me. Sometimes just talking about our feelings can help. What do you think might be helpful for you right now?",
    "I'm here to listen. Your experiences matter, and I want to understand what you're going through. Can you tell me more?",
    "It sounds like you're dealing with a lot. Remember that it's okay to feel this way. What would be most helpful for you right now?"
  ]

  /** There are exactly five stock replies, all different and none empty. */
  lemma FallbackResponsesDistinct()
    ensures |FallbackResponses| == 5
    ensures forall i, j :: 0 <= i < j < 5 ==> FallbackResponses[i] != FallbackResponses[j]
    ensures forall r :: r in FallbackResponses ==> r != ""
  {
    // the lengths tell them apart, except for the first two, which end differently
    assert |FallbackResponses[0]| == 122 && FallbackResponses[0][120] == 'd';
    assert |FallbackResponses[1]| == 122 && FallbackResponses[1][120] == 'w';
    assert |FallbackResponses[2]| == 140;
    assert |FallbackResponses[3]| == 118;
    assert |FallbackResponses[4]| == 129;
  }

  /** `_generate_fallback_response`: `random.choice` among the stock replies; the message is not looked at. */
  method FallbackResponse(message: string) returns (reply: string)
    ensures reply in FallbackResponses
  {
    assert FallbackResponses[0] in FallbackResponses;
    reply :| reply in FallbackResponses;
  }

  // -------------------------------------------------------------- dispatch

  /** What a provider SDK call comes back with; `ProviderError` is any exception it raises,
      including a reply without text. */
  datatype ProviderResult = Completion(text: string) | ProviderError

  datatype ReplySource = AnthropicReply | OpenAIReply | FallbackReply

  datatype Reply = Reply(text: string, source: ReplySource)

  datatype Route = ViaAnthropic | ViaOpenAI | ViaFallback

  /** The branch of `generate_response` taken for a provider setting and the clients that exist. */
  function RouteFor(aiProvider: string, hasAnthropic: bool, hasOpenAI: bool): (r: Route)
    ensures r == ViaAnthropic <==> aiProvider == "anthropic" && hasAnthropic
    ensures r == ViaOpenAI <==> !(aiProvider == "anthropic" && hasAnthropic) && hasOpenAI
    ensures r == ViaFallback <==> !(aiProvider == "anthropic" && hasAnthropic) && !hasOpenAI
  {
    if aiProvider == "anthropic" && hasAnthropic then ViaAnthropic
    else if hasOpenAI then ViaOpenAI
    else ViaFallback
  }

  /** The reply text a route can give for a message list: the provider's completion,
      stripped, when the provider answers; a stock reply otherwise. */
  predicate Generated(text: string, route: Route, ms: seq<ChatTurn>,
                      openAICall: seq<ChatTurn> -> ProviderResult, anthropicCall: string -> ProviderResult)
  {
    match route
    case ViaAnthropic =>
      var answer := anthropicCall(Transcript(ms) + ReplyCue);
      if answer.Completion? then text == Strip(answer.text) else text in FallbackResponses
    case ViaOpenAI =>
      var answer := openAICall(ms);
      if answer.Completion? then text == Strip(answer.text) else text in FallbackResponses
    case ViaFallback => text in FallbackResponses
  }

  /** The messages `generate_response` hands to a provider. */
  function MessagesFor(message: string, sessionType: string, emotion: Option<string>, topicId: Option<string>,
                       userId: Option<nat>, sessions: seq<seq<ChatTurn>>): seq<ChatTurn>
  {
    PreparedMessages(BuildSystemPrompt(sessionType, emotion, topicId),
                     if userId.Some? then HistoryWindow(sessions) else [], message)
  }

  /** With a single history session that ends in the current message, the prepared list
      carries that message twice, as the last history turn and as the user turn. */
  lemma MessagesForRepeatsLastTurn(message: string, sessionType: string, emotion: Option<string>,
                                   topicId: Option<string>, userId: nat, sessions: seq<seq<ChatTurn>>)
    requires |sessions| == 1 && |sessions[0]| > 0
    requires sessions[0][|sessions[0]| - 1] == ChatTurn("user", message)
    ensures var ms := MessagesFor(message, sessionType, emotion, topicId, Some(userId), sessions);
      |ms| >= 3 && ms[|ms| - 2] == ms[|ms| - 1] == ChatTurn("user", message)
  {
    SingleSessionWindowEnd(sessions);
    var w := HistoryWindow(sessions);
    PreparedMessagesShape(BuildSystemPrompt(sessionType, emotion, topicId), w, message);
  }

  class AIService {
    /** Whether each client was created: its key was set and its constructor did not raise. */
    const hasOpenAI: bool
    const hasAnthropic: bool
    /** `settings.AI_PROVIDER`, "openai" unless configured otherwise. */
    const aiProvider: string

    constructor(openAIKey: Option<string>, anthropicKey: Option<string>, aiProvider: string,
                openAIInitRaises: bool, anthropicInitRaises: bool)
      ensures hasOpenAI == (Truthy(openAIKey) && !openAIInitRaises)
      ensures hasAnthropic == (Truthy(anthropicKey) && !anthropicInitRaises)
      ensures this.aiProvider == aiProvider
    {
      hasOpenAI := Truthy(openAIKey) && !openAIInitRaises;
      hasAnthropic := Truthy(anthropicKey) && !anthropicInitRaises;
      this.aiProvider := aiProvider;
    }

    /** `generate_response`. The user's sessions are read (newest first) only when a user id
        is given; `sessions` is that read, `None` when it raises, which is the one failure
        that escapes. Provider failures never escape: they end in a stock reply. */
    method GenerateResponse(message: string, sessionType: string, emotion: Option<string>, topicId: Option<string>,
                            userId: Option<nat>, sessions: Option<seq<seq<ChatTurn>>>,
                            openAICall: seq<ChatTurn> -> ProviderResult, anthropicCall: string -> ProviderResult)
      returns (r: Result<Reply, string>)
      ensures r.Failure? <==> userId.Some? && sessions.None?
      ensures r.Success? ==>
        var ms := MessagesFor(message, sessionType, emotion, topicId, userId, if sessions.Some? then sessions.value else []);
        var route := RouteFor(aiProvider, hasAnthropic, hasOpenAI);
        var viaAnthropic := anthropicCall(Transcript(ms) + ReplyCue);
        var viaOpenAI := openAICall(ms);
        && (r.value.source == AnthropicReply <==> route == ViaAnthropic && viaAnthropic.Completion?)
        && (r.value.source == AnthropicReply ==> r.value.text == Strip(viaAnthropic.text))
        && (r.value.source == OpenAIReply <==> route == ViaOpenAI && viaOpenAI.Completion?)
        && (r.value.source == OpenAIReply ==> r.value.text == Strip(viaOpenAI.text))
        && (r.value.source == FallbackReply ==> r.value.text in FallbackResponses)
        && Generated(r.value.text, route, ms, openAICall, anthropicCall)
    {
      var prompt := BuildSystemPrompt(sessionType, emotion, topicId);
      var history: seq<ChatTurn> := [];
      if userId.Some? {
        if sessions.None? {
          return Failure("error reading the conversation history");
        }
        history := ConversationHistory(sessions.value);
      }
      var messages := PrepareMessages(prompt, history, message);
      if aiProvider == "anthropic" && hasAnthropic {
        var transcript := AnthropicPrompt(messages);
        var answer := anthropicCall(transcript);
        if answer.Completion? {
          return Success(Reply(Strip(answer.text), AnthropicReply));
        }
      } else if hasOpenAI {
        var answer := openAICall(messages);
        if answer.Completion? {
          return Success(Reply(Strip(answer.text), OpenAIReply));
        }
      }
      var text := FallbackResponse(message);
      return Success(Reply(text, FallbackReply));
    }
  }
}
