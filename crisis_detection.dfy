/**
 * The crisis classifier (`CrisisDetectionService`): a boolean detector, a
 * severity tier and the resource block chosen by tier. Every pattern is
 * `\b(alt1|...|altn)\b`, written here as its list of alternatives.
 */
module CrisisDetection {
  import opened TextMatch
  import opened Wrappers

  // ------------------------------------------------------------ configuration

  const CrisisKeywords: seq<string> := [
    "suicide", "kill myself", "want to die", "end it all",
    "self-harm", "cut myself", "hurt myself", "no reason to live"
  ]

  const CrisisHotline: string := "988"
  const CrisisText: string := "Text HOME to 741741"

  const CrisisPatterns: seq<Pattern> := [
    // \b(kill\s+myself|end\s+it\s+all|want\s+to\s+die)\b
    [[Lit("kill"), Spaces1, Lit("myself")],
     [Lit("end"), Spaces1, Lit("it"), Spaces1, Lit("all")],
     [Lit("want"), Spaces1, Lit("to"), Spaces1, Lit("die")]],
    // \b(suicide|self\s*[-]?\s*harm)\b
    [[Lit("suicide")],
     [Lit("self"), Spaces0, OptHyphen, Spaces0, Lit("harm")]],
    // \b(cut\s+myself|hurt\s+myself)\b
    [[Lit("cut"), Spaces1, Lit("myself")],
     [Lit("hurt"), Spaces1, Lit("myself")]],
    // \b(no\s+reason\s+to\s+live|better\s+off\s+dead)\b
    [[Lit("no"), Spaces1, Lit("reason"), Spaces1, Lit("to"), Spaces1, Lit("live")],
     [Lit("better"), Spaces1, Lit("off"), Spaces1, Lit("dead")]],
    // \b(can\'t\s+take\s+it\s+anymore|give\s+up)\b
    [[Lit("can't"), Spaces1, Lit("take"), Spaces1, Lit("it"), Spaces1, Lit("anymore")],
     [Lit("give"), Spaces1, Lit("up")]]
  ]

  const DistressIndicators: seq<Pattern> := [
    // \b(hopeless|helpless|worthless)\b
    [[Lit("hopeless")], [Lit("helpless")], [Lit("worthless")]],
    // \b(can\'t\s+go\s+on|can\'t\s+handle\s+this)\b
    [[Lit("can't"), Spaces1, Lit("go"), Spaces1, Lit("on")],
     [Lit("can't"), Spaces1, Lit("handle"), Spaces1, Lit("this")]],
    // \b(everyone\s+would\s+be\s+better\s+off)\b
    [[Lit("everyone"), Spaces1, Lit("would"), Spaces1, Lit("be"), Spaces1, Lit("better"), Spaces1, Lit("off")]]
  ]

  const HighSeverity: seq<Pattern> := [
    // \b(kill\s+myself|suicide|end\s+it\s+all)\b
    [[Lit("kill"), Spaces1, Lit("myself")],
     [Lit("suicide")],
     [Lit("end"), Spaces1, Lit("it"), Spaces1, Lit("all")]],
    // \b(plan\s+to\s+die|going\s+to\s+end\s+it)\b
    [[Lit("plan"), Spaces1, Lit("to"), Spaces1, Lit("die")],
     [Lit("going"), Spaces1, Lit("to"), Spaces1, Lit("end"), Spaces1, Lit("it")]]
  ]

  const MediumSeverity: seq<Pattern> := [
    // \b(want\s+to\s+die|better\s+off\s+dead)\b
    [[Lit("want"), Spaces1, Lit("to"), Spaces1, Lit("die")],
     [Lit("better"), Spaces1, Lit("off"), Spaces1, Lit("dead")]],
    // \b(self\s*[-]?\s*harm|cut\s+myself)\b
    [[Lit("self"), Spaces0, OptHyphen, Spaces0, Lit("harm")],
     [Lit("cut"), Spaces1, Lit("myself")]]
  ]

  // ------------------------------------------------------------- detection

  /** The keyword loop: each keyword is lower-cased and looked for as a plain substring. */
  predicate AnyKeyword(keywords: seq<string>, text: string)
    decreases |keywords|
  {
    keywords != [] && (Contains(text, Lower(keywords[0])) || AnyKeyword(keywords[1..], text))
  }

  /** A loop of `re.search` calls over a list of patterns; the first hit ends it. */
  predicate AnyPattern(patterns: seq<Pattern>, text: string)
    decreases |patterns|
  {
    patterns != [] && (Search(patterns[0], text) || AnyPattern(patterns[1..], text))
  }

  lemma {:induction false} AnyKeywordMeans(keywords: seq<string>, text: string)
    ensures AnyKeyword(keywords, text) <==> exists k :: k in keywords && Contains(text, Lower(k))
    decreases |keywords|
  {
    if keywords != [] {
      AnyKeywordMeans(keywords[1..], text);
      assert forall k :: k in keywords <==> k == keywords[0] || k in keywords[1..];
    }
  }

  lemma {:induction false} AnyPatternMeans(patterns: seq<Pattern>, text: string)
    ensures AnyPattern(patterns, text) <==> exists p :: p in patterns && Search(p, text)
    decreases |patterns|
  {
    if patterns != [] {
      AnyPatternMeans(patterns[1..], text);
      assert forall p :: p in patterns <==> p == patterns[0] || p in patterns[1..];
    }
  }

  lemma KeywordsAreLowerCase()
    ensures forall k :: k in CrisisKeywords ==> Lower(k) == k
  {
    forall k | k in CrisisKeywords {
      LowerKeepsLower(k);
    }
  }

  lemma PatternsWellFormed()
    ensures forall p :: p in CrisisPatterns + DistressIndicators ==> WellFormed(p)
  {
  }

  /** The classifier's verdict, stated without any evaluation order: some keyword
      occurs as a substring of the lower-cased message, or some crisis or distress
      pattern matches it. */
  ghost predicate Flagged(message: string) {
    (exists k :: k in CrisisKeywords && Contains(Lower(message), k))
    || (exists p :: p in CrisisPatterns + DistressIndicators && Search(p, Lower(message)))
  }

  /** Nothing matches in empty text: every keyword and every leading word is non-empty. */
  lemma EmptyNotFlagged()
    ensures !Flagged("")
  {
    assert Lower("") == "";
    forall k | k in CrisisKeywords
      ensures !Contains("", k)
    {
    }
    PatternsWellFormed();
    forall p | p in CrisisPatterns + DistressIndicators
      ensures !Search(p, "")
    {
      forall k | 0 <= k < |p|
        ensures !MatchTail(p[k], "", 0)
      {
        var a: Alternative := p[k];
        assert a[0].Lit? && a[0].text != [];
      }
    }
  }

  /** `detect_crisis`: the keyword loop, then the crisis patterns, then the distress patterns. */
  function DetectCrisis(message: string): (r: bool)
    ensures r <==> Flagged(message)
  {
    if message == "" then
      EmptyNotFlagged();
      false
    else
      var lower := Lower(message);
      AnyKeywordMeans(CrisisKeywords, lower);
      KeywordsAreLowerCase();
      AnyPatternMeans(CrisisPatterns, lower);
      AnyPatternMeans(DistressIndicators, lower);
      AnyKeyword(CrisisKeywords, lower) || AnyPattern(CrisisPatterns, lower) || AnyPattern(DistressIndicators, lower)
  }

  /** Any configured keyword, in any letter case, anywhere inside a longer text trips
      the detector, including inside a longer word. */
  lemma KeywordAnywhereDetected(before: string, message: string, after: string, k: string)
    requires k in CrisisKeywords && Contains(Lower(message), k)
    ensures DetectCrisis(before + message + after)
  {
    LowerConcat(before + message, after);
    LowerConcat(before, message);
    ContainsInExtension(Lower(before), Lower(message), Lower(after), k);
  }

  // -------------------------------------------------------------- severity

  ghost predicate HighRisk(message: string) {
    exists p :: p in HighSeverity && Search(p, Lower(message))
  }

  ghost predicate MediumRisk(message: string) {
    exists p :: p in MediumSeverity && Search(p, Lower(message))
  }

  /** `get_crisis_severity`. */
  function CrisisSeverity(message: string): (r: string)
    ensures r in {"none", "low", "medium", "high"}
    ensures r == "none" <==> !Flagged(message)
    ensures r == "high" <==> Flagged(message) && HighRisk(message)
    ensures r == "medium" <==> Flagged(message) && !HighRisk(message) && MediumRisk(message)
  {
    if !DetectCrisis(message) then "none"
    else
      var lower := Lower(message);
      AnyPatternMeans(HighSeverity, lower);
      AnyPatternMeans(MediumSeverity, lower);
      if AnyPattern(HighSeverity, lower) then "high"
      else if AnyPattern(MediumSeverity, lower) then "medium"
      else "low"
  }

  /** Detection and severity ignore letter case. */
  lemma CaseInsensitive(message: string)
    ensures DetectCrisis(Lower(message)) == DetectCrisis(message)
    ensures CrisisSeverity(Lower(message)) == CrisisSeverity(message)
  {
    LowerIdempotent(message);
  }

  // ------------------------------------------------------------- resources

  /** A resource dict; `urgent` is absent from the block the chat router builds. */
  datatype CrisisResources = CrisisResources(hotline: string, textLine: string, message: string, urgent: Option<bool>)

  const SelfHarmMessage: string :=
    "If you're having thoughts of self-harm, please reach out for help immediately."
  const UrgentMessage: string :=
    "I'm very concerned about what you're sharing. Please call 988 immediately or go to the nearest emergency room. You're not alone, and help is available."
  const SupportMessage: string :=
    "I hear that you're in a lot of pain right now. Please consider reaching out to a crisis counselor at 988 or text HOME to 741741. You deserve support."
  const GentleMessage: string :=
    "It sounds like you're going through a difficult time. Remember that help is available if you need it. You can call 988 or text HOME to 741741 anytime."

  /** `get_crisis_resources`. */
  function GetCrisisResources(severity: string := "medium"): (r: CrisisResources)
    ensures r.hotline == "988" && r.textLine == "Text HOME to 741741"
    ensures r.urgent == Some(severity == "high")
    ensures r.message == UrgentMessage <==> severity == "high"
    ensures r.message == SupportMessage <==> severity == "medium"
    ensures severity != "high" && severity != "medium" ==> r.message == GentleMessage
  {
    var resources := CrisisResources(CrisisHotline, CrisisText, SelfHarmMessage, None);
    if severity == "high" then
      resources.(message := UrgentMessage, urgent := Some(true))
    else if severity == "medium" then
      resources.(message := SupportMessage, urgent := Some(false))
    else
      resources.(message := GentleMessage, urgent := Some(false))
  }
}
