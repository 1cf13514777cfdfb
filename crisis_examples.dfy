/**
 * Worked inputs for the crisis classifier, including its quirks: a keyword
 * inside a longer word trips detection, a near miss such as "suicidal" trips
 * nothing, and a severity-only phrase such as "plan to die" does not flag a
 * message by itself.
 */
module CrisisExamples {
  import opened TextMatch
  import opened CrisisDetection

  // ----------------------------------------------------------------- tools

  /** The leading words of the alternatives of the high, the medium, and the
      crisis and distress patterns. */
  const HighLeads: seq<string> := ["kill", "suicide", "end", "plan", "going"]
  const MediumLeads: seq<string> := ["want", "better", "self", "cut"]
  const FlagLeads: seq<string> := [
    "kill", "end", "want", "suicide", "self", "cut", "hurt", "no", "better",
    "can't", "give", "hopeless", "helpless", "worthless", "everyone"
  ]

  lemma LowerOf(m: string, l: string)
    requires |m| == |l| && forall i :: 0 <= i < |m| ==> LowerChar(m[i]) == l[i]
    ensures Lower(m) == l
  {
  }

  /** A list of patterns finds nothing when none of their leading words starts at a word boundary. */
  lemma NoPatternSearch(ps: seq<Pattern>, leads: seq<string>, t: string)
    requires forall p :: p in ps ==> WellFormed(p)
    requires forall p: Pattern, k :: p in ps && 0 <= k < |p| && p[k] != [] && p[k][0].Lit? ==> p[k][0].text in leads
    requires forall w :: w in leads ==> NowhereAtBoundary(w, t)
    ensures forall p :: p in ps ==> !Search(p, t)
  {
    forall p | p in ps
      ensures !Search(p, t)
    {
      NoSearch(p, t);
    }
  }

  /** A message is not flagged when its lower-cased form holds no keyword and no
      leading word of a crisis or distress pattern at a word boundary. */
  lemma NotFlaggedWhen(m: string, t: string)
    requires Lower(m) == t
    requires forall k :: k in CrisisKeywords ==> !Contains(t, k)
    requires forall w :: w in FlagLeads ==> NowhereAtBoundary(w, t)
    ensures !DetectCrisis(m) && CrisisSeverity(m) == "none"
  {
    PatternsWellFormed();
    NoPatternSearch(CrisisPatterns + DistressIndicators, FlagLeads, t);
  }

  /** No high pattern matches when none of their leading words starts at a word boundary. */
  lemma NotHighWhen(m: string, t: string)
    requires Lower(m) == t
    requires forall w :: w in HighLeads ==> NowhereAtBoundary(w, t)
    ensures !HighRisk(m)
  {
    NoPatternSearch(HighSeverity, HighLeads, t);
  }

  /** No medium pattern matches when none of their leading words starts at a word boundary. */
  lemma NotMediumWhen(m: string, t: string)
    requires Lower(m) == t
    requires forall w :: w in MediumLeads ==> NowhereAtBoundary(w, t)
    ensures !MediumRisk(m)
  {
    NoPatternSearch(MediumSeverity, MediumLeads, t);
  }

  /** Where the three example messages contain a configured keyword as a raw substring. */
  lemma ExampleKeywords()
    ensures Contains("i want to kill myself", "kill myself")
    ensures Contains("i want to cut myself", "cut myself")
    ensures Contains("skill myself", "kill myself")
  {
    assert LitAt("kill myself", "i want to kill myself", 10);
    assert LitAt("cut myself", "i want to cut myself", 10);
    assert LitAt("kill myself", "skill myself", 1);
  }

  // --------------------------------------------- "I want to kill myself": high

  lemma KillMyselfLower()
    ensures Lower("I want to kill myself") == "i want to kill myself"
  {
    LowerOf("I want to kill myself", "i want to kill myself");
  }

  lemma KillMyselfMatch()
    ensures Search(HighSeverity[0], "i want to kill myself")
  {
    var t := "i want to kill myself";
    assert MatchTail([], t, 21);
    LitThen("myself", [], t, 15);
    SpaceThen([Lit("myself")], t, 14);
    LitThen("kill", [Spaces1, Lit("myself")], t, 10);
    assert [Lit("kill")] + [Spaces1, Lit("myself")] == HighSeverity[0][0];
    assert MatchAt(HighSeverity[0], t, 10);
  }

  lemma KillMyselfIsHigh()
    ensures DetectCrisis("I want to kill myself")
    ensures CrisisSeverity("I want to kill myself") == "high"
  {
    KillMyselfLower();
    ExampleKeywords();
    KillMyselfMatch();
    assert CrisisKeywords[1] == "kill myself";
    assert HighRisk("I want to kill myself");
  }

  // --------------------------------------------- "I want to cut myself": medium

  lemma CutMyselfLower()
    ensures Lower("I want to cut myself") == "i want to cut myself"
  {
    LowerOf("I want to cut myself", "i want to cut myself");
  }

  lemma CutMyselfMatch()
    ensures Search(MediumSeverity[1], "i want to cut myself")
  {
    var t := "i want to cut myself";
    assert MatchTail([], t, 20);
    LitThen("myself", [], t, 14);
    SpaceThen([Lit("myself")], t, 13);
    LitThen("cut", [Spaces1, Lit("myself")], t, 10);
    assert [Lit("cut")] + [Spaces1, Lit("myself")] == MediumSeverity[1][1];
    assert MatchAt(MediumSeverity[1], t, 10);
  }

  lemma CutMyselfHighLeads()
    ensures forall w :: w in HighLeads ==> NowhereAtBoundary(w, "i want to cut myself")
  {
    var t := "i want to cut myself";
    var cs := {'k', 's', 'e', 'p', 'g'};
    assert NoneAtWordStart(t, cs);
    forall w | w in HighLeads
      ensures NowhereAtBoundary(w, t)
    {
      NotAtBoundaryByFirst(w, t, cs);
    }
  }

  lemma CutMyselfIsMedium()
    ensures DetectCrisis("I want to cut myself")
    ensures CrisisSeverity("I want to cut myself") == "medium"
  {
    CutMyselfLower();
    ExampleKeywords();
    CutMyselfMatch();
    CutMyselfHighLeads();
    assert CrisisKeywords[5] == "cut myself";
    assert MediumRisk("I want to cut myself");
    NotHighWhen("I want to cut myself", "i want to cut myself");
  }

  // ------------------------------------ "I feel hopeless and can't go on": low

  lemma HopelessLower()
    ensures Lower("I feel hopeless and can't go on") == "i feel hopeless and can't go on"
  {
    LowerOf("I feel hopeless and can't go on", "i feel hopeless and can't go on");
  }

  lemma HopelessMatch()
    ensures Search(DistressIndicators[0], "i feel hopeless and can't go on")
  {
    var t := "i feel hopeless and can't go on";
    assert t == "i feel " + "hopeless" + " and can't go on";
    assert MatchTail([], t, 15);
    assert LitAt("hopeless", t, 7);
    LitThen("hopeless", [], t, 7);
    assert [Lit("hopeless")] + [] == DistressIndicators[0][0];
    assert MatchAt(DistressIndicators[0], t, 7);
  }

  lemma HopelessStartsA()
    ensures NoneAtWordStart("i feel hopeless and can't go on", {'k', 's', 'e'})
  {
  }

  lemma HopelessStartsB()
    ensures NoneAtWordStart("i feel hopeless and can't go on", {'p', 'w', 'b'})
  {
  }

  /** "go" opens a word here, so "going" is ruled out by its third letter. */
  lemma HopelessNoGoing()
    ensures NowhereAtBoundary("going", "i feel hopeless and can't go on")
  {
    NotAtBoundary("going", "i feel hopeless and can't go on", 2);
  }

  /** "can't" opens a word here, so "cut" is ruled out by its second letter. */
  lemma HopelessNoCut()
    ensures NowhereAtBoundary("cut", "i feel hopeless and can't go on")
  {
    NotAtBoundary("cut", "i feel hopeless and can't go on", 1);
  }

  lemma HopelessLeads()
    ensures forall w :: w in HighLeads + MediumLeads ==> NowhereAtBoundary(w, "i feel hopeless and can't go on")
  {
    var t := "i feel hopeless and can't go on";
    HopelessStartsA();
    HopelessStartsB();
    HopelessNoGoing();
    HopelessNoCut();
    NotAtBoundaryByFirst("kill", t, {'k', 's', 'e'});
    NotAtBoundaryByFirst("suicide", t, {'k', 's', 'e'});
    NotAtBoundaryByFirst("end", t, {'k', 's', 'e'});
    NotAtBoundaryByFirst("self", t, {'k', 's', 'e'});
    NotAtBoundaryByFirst("plan", t, {'p', 'w', 'b'});
    NotAtBoundaryByFirst("want", t, {'p', 'w', 'b'});
    NotAtBoundaryByFirst("better", t, {'p', 'w', 'b'});
  }

  lemma HopelessIsLow()
    ensures DetectCrisis("I feel hopeless and can't go on")
    ensures CrisisSeverity("I feel hopeless and can't go on") == "low"
  {
    var m := "I feel hopeless and can't go on";
    var t := "i feel hopeless and can't go on";
    HopelessLower();
    HopelessMatch();
    HopelessLeads();
    NotHighWhen(m, t);
    NotMediumWhen(m, t);
  }

  // --------------------------------------------- "I feel suicidal": not flagged

  lemma SuicidalLower()
    ensures Lower("I feel suicidal") == "i feel suicidal"
  {
    LowerOf("I feel suicidal", "i feel suicidal");
  }

  lemma SuicidalKeywordsAbsentLetters()
    ensures !Contains("i feel suicidal", "kill myself") && !Contains("i feel suicidal", "want to die")
    ensures !Contains("i feel suicidal", "hurt myself") && !Contains("i feel suicidal", "no reason to live")
  {
    var t := "i feel suicidal";
    var cs := {'k', 'w', 'h', 'n'};
    assert NoneAnywhere(t, cs);
    NotContainedByFirst("kill myself", t, cs);
    NotContainedByFirst("want to die", t, cs);
    NotContainedByFirst("hurt myself", t, cs);
    NotContainedByFirst("no reason to live", t, cs);
  }

  /** The keywords whose first letter does occur in the text, each ruled out by a later letter. */
  lemma SuicidalKeywordsSharedLetters()
    ensures !Contains("i feel suicidal", "suicide") && !Contains("i feel suicidal", "end it all")
    ensures !Contains("i feel suicidal", "self-harm") && !Contains("i feel suicidal", "cut myself")
  {
    var t := "i feel suicidal";
    NotContained("suicide", t, 6);
    NotContained("end it all", t, 1);
    NotContained("self-harm", t, 1);
    NotContained("cut myself", t, 1);
  }

  lemma SuicidalStarts()
    ensures NoneAtWordStart("i feel suicidal", {'k', 'e', 'w', 'c', 'h', 'n', 'b', 'g'})
  {
  }

  lemma SuicidalSharedLeads()
    ensures NowhereAtBoundary("suicide", "i feel suicidal") && NowhereAtBoundary("self", "i feel suicidal")
  {
    NotAtBoundary("suicide", "i feel suicidal", 6);
    NotAtBoundary("self", "i feel suicidal", 1);
  }

  lemma SuicidalLeads()
    ensures forall w :: w in FlagLeads ==> NowhereAtBoundary(w, "i feel suicidal")
  {
    var t := "i feel suicidal";
    var cs := {'k', 'e', 'w', 'c', 'h', 'n', 'b', 'g'};
    SuicidalStarts();
    SuicidalSharedLeads();
    forall w | w in FlagLeads && w != "suicide" && w != "self"
      ensures NowhereAtBoundary(w, t)
    {
      NotAtBoundaryByFirst(w, t, cs);
    }
  }

  /** "suicide" is neither a substring of "suicidal" nor a whole word in it. */
  lemma SuicidalNotDetected()
    ensures !DetectCrisis("I feel suicidal")
    ensures CrisisSeverity("I feel suicidal") == "none"
  {
    SuicidalLower();
    SuicidalKeywordsAbsentLetters();
    SuicidalKeywordsSharedLetters();
    SuicidalLeads();
    NotFlaggedWhen("I feel suicidal", "i feel suicidal");
  }

  // ------------------------------------------------ "skill myself": low

  lemma SkillMyselfFlagged()
    ensures Lower("skill myself") == "skill myself" && DetectCrisis("skill myself")
  {
    LowerKeepsLower("skill myself");
    ExampleKeywords();
    assert CrisisKeywords[1] == "kill myself";
  }

  lemma SkillMyselfStarts()
    ensures NoneAtWordStart("skill myself", {'k', 'e', 'p', 'g', 'w', 'b', 'c'})
  {
  }

  lemma SkillMyselfSharedLeads()
    ensures NowhereAtBoundary("suicide", "skill myself") && NowhereAtBoundary("self", "skill myself")
  {
    NotAtBoundary("suicide", "skill myself", 1);
    NotAtBoundary("self", "skill myself", 1);
  }

  lemma SkillMyselfLeads()
    ensures forall w :: w in HighLeads + MediumLeads ==> NowhereAtBoundary(w, "skill myself")
  {
    var t := "skill myself";
    var cs := {'k', 'e', 'p', 'g', 'w', 'b', 'c'};
    SkillMyselfStarts();
    SkillMyselfSharedLeads();
    forall w | w in HighLeads + MediumLeads && w != "suicide" && w != "self"
      ensures NowhereAtBoundary(w, t)
    {
      NotAtBoundaryByFirst(w, t, cs);
    }
  }

  /** The keyword test is a raw substring test, while the severity patterns need
      word boundaries: "skill myself" is flagged, but only as "low". */
  lemma SkillMyselfIsLow()
    ensures DetectCrisis("skill myself")
    ensures CrisisSeverity("skill myself") == "low"
  {
    SkillMyselfFlagged();
    SkillMyselfLeads();
    NotHighWhen("skill myself", "skill myself");
    NotMediumWhen("skill myself", "skill myself");
  }

  // ------------------------------------------------ "give up": flagged

  lemma GiveUpMatch()
    ensures Search(CrisisPatterns[4], "give up")
  {
    var t := "give up";
    assert MatchTail([], t, 7);
    LitThen("up", [], t, 5);
    SpaceThen([Lit("up")], t, 4);
    LitThen("give", [Spaces1, Lit("up")], t, 0);
    assert [Lit("give")] + [Spaces1, Lit("up")] == CrisisPatterns[4][1];
    assert MatchAt(CrisisPatterns[4], t, 0);
  }

  /** "give up" on its own is enough to flag a message. */
  lemma GiveUpDetected()
    ensures DetectCrisis("give up")
  {
    LowerKeepsLower("give up");
    GiveUpMatch();
  }

  // ------------------------------------------ "plan to die": not flagged alone

  lemma PlanToDieKeywords()
    ensures forall k :: k in CrisisKeywords ==> !Contains("plan to die", k)
  {
    var t := "plan to die";
    var cs := {'s', 'k', 'w', 'c', 'h'};
    assert NoneAnywhere(t, cs);
    NotContainedByFirst("suicide", t, cs);
    NotContainedByFirst("kill myself", t, cs);
    NotContainedByFirst("want to die", t, cs);
    NotContainedByFirst("self-harm", t, cs);
    NotContainedByFirst("cut myself", t, cs);
    NotContainedByFirst("hurt myself", t, cs);
    NotContained("end it all", t, 1);
    NotContained("no reason to live", t, 1);
  }

  lemma PlanToDieLeads()
    ensures forall w :: w in FlagLeads ==> NowhereAtBoundary(w, "plan to die")
  {
    var t := "plan to die";
    var cs := {'k', 'e', 'w', 's', 'c', 'h', 'n', 'b', 'g'};
    assert NoneAtWordStart(t, cs);
    forall w | w in FlagLeads
      ensures NowhereAtBoundary(w, t)
    {
      NotAtBoundaryByFirst(w, t, cs);
    }
  }

  /** "plan to die" is only a severity pattern: on its own it flags nothing. */
  lemma PlanToDieAloneNotDetected()
    ensures !DetectCrisis("plan to die")
    ensures CrisisSeverity("plan to die") == "none"
  {
    LowerKeepsLower("plan to die");
    PlanToDieKeywords();
    PlanToDieLeads();
    NotFlaggedWhen("plan to die", "plan to die");
  }

  lemma HopelessPlanFlagged()
    ensures Lower("hopeless, plan to die") == "hopeless, plan to die"
    ensures Search(DistressIndicators[0], "hopeless, plan to die")
  {
    var t := "hopeless, plan to die";
    LowerKeepsLower(t);
    assert MatchTail([], t, 8);
    LitThen("hopeless", [], t, 0);
    assert [Lit("hopeless")] + [] == DistressIndicators[0][0];
    assert MatchAt(DistressIndicators[0], t, 0);
  }

  lemma HopelessPlanMatch()
    ensures Search(HighSeverity[1], "hopeless, plan to die")
  {
    var t := "hopeless, plan to die";
    assert MatchTail([], t, 21);
    LitThen("die", [], t, 18);
    SpaceThen([Lit("die")], t, 17);
    LitThen("to", [Spaces1, Lit("die")], t, 15);
    SpaceThen([Lit("to"), Spaces1, Lit("die")], t, 14);
    LitThen("plan", [Spaces1, Lit("to"), Spaces1, Lit("die")], t, 10);
    assert [Lit("plan")] + [Spaces1, Lit("to"), Spaces1, Lit("die")] == HighSeverity[1][0];
    assert MatchAt(HighSeverity[1], t, 10);
  }

  /** Once another rule has flagged the message, "plan to die" makes it "high". */
  lemma PlanToDieRaisesFlaggedToHigh()
    ensures DetectCrisis("hopeless, plan to die")
    ensures CrisisSeverity("hopeless, plan to die") == "high"
  {
    HopelessPlanFlagged();
    HopelessPlanMatch();
    assert HighRisk("hopeless, plan to die");
  }

  // ---------------------------------------------- spellings of "self-harm"

  const SelfHarmTail: Alternative := [Spaces0, OptHyphen, Spaces0, Lit("harm")]

  lemma SelfHarmRunTogether()
    ensures Search(CrisisPatterns[1], "selfharm")
  {
    var t := "selfharm";
    var rest := SelfHarmTail;
    assert rest[1..] == [OptHyphen, Spaces0, Lit("harm")];
    assert rest[2..] == [Spaces0, Lit("harm")];
    assert rest[3..] == [Lit("harm")];
    assert MatchTail([], t, 8);
    LitThen("harm", [], t, 4);
    LitThen("self", rest, t, 0);
    assert [Lit("self")] + rest == CrisisPatterns[1][1];
    assert MatchAt(CrisisPatterns[1], t, 0);
  }

  lemma SelfHarmSpaced()
    ensures Search(CrisisPatterns[1], "self harm")
  {
    var t := "self harm";
    var rest := SelfHarmTail;
    assert rest[1..] == [OptHyphen, Spaces0, Lit("harm")];
    assert rest[2..] == [Spaces0, Lit("harm")];
    assert rest[3..] == [Lit("harm")];
    assert MatchTail([], t, 9);
    LitThen("harm", [], t, 5);
    assert MatchTail(rest, t, 5);
    assert MatchTail(rest, t, 4);
    LitThen("self", rest, t, 0);
    assert [Lit("self")] + rest == CrisisPatterns[1][1];
    assert MatchAt(CrisisPatterns[1], t, 0);
  }

  lemma SelfHarmHyphenated()
    ensures Search(CrisisPatterns[1], "self-harm")
  {
    var t := "self-harm";
    var rest := SelfHarmTail;
    assert rest[1..] == [OptHyphen, Spaces0, Lit("harm")];
    assert rest[2..] == [Spaces0, Lit("harm")];
    assert rest[3..] == [Lit("harm")];
    assert MatchTail([], t, 9);
    LitThen("harm", [], t, 5);
    assert MatchTail(rest[2..], t, 5);
    assert MatchTail(rest[1..], t, 4);
    LitThen("self", rest, t, 0);
    assert [Lit("self")] + rest == CrisisPatterns[1][1];
    assert MatchAt(CrisisPatterns[1], t, 0);
  }
}
