/**
 * The topics router: the constant catalogue of daily conversation topics, its
 * category filter, the random pick, the category list and the lookup by id, and
 * the two admin endpoints over the stored topics with their guard.
 */
module Topics {
  import opened Wrappers
  import opened Http
  import opened SeqUtil
  import opened Database

  /** An entry of the constant catalogue. */
  datatype SampleTopic = SampleTopic(id: string, title: string, subtitle: string, description: string,
                                     category: string, isActive: bool)

  const Workplace: string := "workplace"
  const Social: string := "social"
  const Personal: string := "personal"

  const Title1: string := "Monday Motivation"
  const Subtitle1: string := "How are you starting your week?"
  const Description1: string :=
    "Share your thoughts on starting a new week and any goals or challenges you're facing."

  const Title2: string := "Workplace Stress"
  const Subtitle2: string := "Dealing with deadline pressure"
  const Description2: string :=
    "Let's talk about managing stress and pressure in the workplace."

  const Title3: string := "Social Connections"
  const Subtitle3: string := "Feeling isolated lately?"
  const Description3: string :=
    "Discuss the importance of social connections and how to maintain them."

  const Title4: string := "Self-Care Sunday"
  const Subtitle4: string := "What does self-care mean to you?"
  const Description4: string :=
    "Explore different ways to practice self-care and prioritize your well-being."

  const Title5: string := "Digital Wellness"
  const Subtitle5: string := "Balancing screen time and mental health"
  const Description5: string :=
    "How do you manage your relationship with technology and social media?"

  /** `SAMPLE_TOPICS`, in declaration order. */
  const SampleTopics: seq<SampleTopic> := [
    SampleTopic("topic_1", Title1, Subtitle1, Description1, Workplace, true),
    SampleTopic("topic_2", Title2, Subtitle2, Description2, Workplace, true),
    SampleTopic("topic_3", Title3, Subtitle3, Description3, Social, true),
    SampleTopic("topic_4", Title4, Subtitle4, Description4, Personal, true),
    SampleTopic("topic_5", Title5, Subtitle5, Description5, Personal, true)
  ]

  // ------------------------------------------------------------- daily topics

  /** The test `topic["category"] == category`. */
  function InCategory(category: string): SampleTopic -> bool {
    (t: SampleTopic) => t.category == category
  }

  /** `get_daily_topics`: the whole catalogue, or only the topics of the category when
      one is given (an empty category counts as none). */
  function DailyTopics(category: Option<string>): seq<SampleTopic> {
    if Truthy(category) then Filter(SampleTopics, InCategory(category.value))
    else SampleTopics
  }

  /** With a category, the listing holds the topics of that category and no other. */
  lemma DailyTopicsMembers(category: Option<string>)
    requires Truthy(category)
    ensures var r := DailyTopics(category);
      && (forall i :: 0 <= i < |r| ==> r[i] in SampleTopics && r[i].category == category.value)
      && (forall i :: 0 <= i < |SampleTopics| && SampleTopics[i].category == category.value ==> SampleTopics[i] in r)
  {
  }

  /** The listing for each category, in catalogue order: all five topics without a
      category, two for workplace, one for social, two for personal, none otherwise. */
  lemma DailyTopicsByCategory(category: Option<string>)
    ensures !Truthy(category) ==> DailyTopics(category) == SampleTopics && |DailyTopics(category)| == 5
    ensures category == Some(Workplace) ==> DailyTopics(category) == [SampleTopics[0], SampleTopics[1]]
    ensures category == Some(Social) ==> DailyTopics(category) == [SampleTopics[2]]
    ensures category == Some(Personal) ==> DailyTopics(category) == [SampleTopics[3], SampleTopics[4]]
    ensures Truthy(category) && category.value !in {Workplace, Social, Personal} ==> DailyTopics(category) == []
  {
    if Truthy(category) {
      FilterOfFive(SampleTopics, InCategory(category.value));
    }
  }

  /** `get_random_daily_topic`: 404 when the filtered catalogue is empty, otherwise one
      of its topics; `random.choice` is an arbitrary choice. */
  method GetRandomDailyTopic(category: Option<string>) returns (r: Result<SampleTopic, HttpError>)
    ensures r.Failure? <==> DailyTopics(category) == []
    ensures r.Failure? ==> r.error == NotFound
    ensures r.Success? ==> r.value in DailyTopics(category)
  {
    var topics := DailyTopics(category);
    if topics == [] {
      return Failure(NotFound);
    }
    assert topics[0] in topics;
    var topic :| topic in topics;
    r := Success(topic);
  }

  // --------------------------------------------------------------- categories

  /** `set(topic["category"] for topic in SAMPLE_TOPICS)`. */
  function CategorySet(): set<string> {
    set t | t in SampleTopics :: t.category
  }

  /** The catalogue has exactly three categories. */
  lemma CategorySetValue()
    ensures CategorySet() == {Workplace, Social, Personal}
  {
    var s := SampleTopics;
    assert s[0].category == Workplace && s[2].category == Social && s[3].category == Personal;
    assert forall t :: t in s ==> t.category in {Workplace, Social, Personal};
  }

  /** `get_topic_categories`: `list(set(...))`, which lists each category once in an
      order the set decides. */
  method GetTopicCategories() returns (categories: seq<string>)
    ensures forall i, j :: 0 <= i < j < |categories| ==> categories[i] != categories[j]
    ensures forall c :: c in categories <==> c in {Workplace, Social, Personal}
    ensures |categories| == 3
  {
    categories := ListOfSet(CategorySet());
    CategorySetValue();
  }

  // ---------------------------------------------------------------- lookup

  /** `next((t for t in topics if t["id"] == topicId), None)`, as an index. */
  function FindTopic(topics: seq<SampleTopic>, topicId: string): (r: Option<nat>)
    ensures r.Some? ==> r.value < |topics| && topics[r.value].id == topicId
    ensures r.Some? ==> forall k :: 0 <= k < r.value ==> topics[k].id != topicId
    ensures r.None? <==> forall k :: 0 <= k < |topics| ==> topics[k].id != topicId
    decreases |topics|
  {
    if topics == [] then None
    else if topics[0].id == topicId then Some(0)
    else
      match FindTopic(topics[1..], topicId)
      case None => None
      case Some(k) => Some(k + 1)
  }

  /** `get_topic_by_id`: the catalogue topic with that id, or 404. */
  function GetTopicById(topicId: string): (r: Result<SampleTopic, HttpError>)
    ensures r.Success? <==> exists k :: 0 <= k < |SampleTopics| && SampleTopics[k].id == topicId
    ensures r.Success? ==> r.value in SampleTopics && r.value.id == topicId
    ensures r.Failure? ==> r.error == NotFound
  {
    match FindTopic(SampleTopics, topicId)
    case None => Failure(NotFound)
    case Some(k) => Success(SampleTopics[k])
  }

  /** The catalogue ids are distinct, so the lookup gives back each topic by its own
      id. */
  lemma GetTopicByIdFindsEach(k: nat)
    requires k < |SampleTopics|
    ensures GetTopicById(SampleTopics[k].id) == Success(SampleTopics[k])
  {
    var s := SampleTopics;
    assert s[0].id == "topic_1" && s[1].id == "topic_2" && s[2].id == "topic_3";
    assert s[3].id == "topic_4" && s[4].id == "topic_5";
    assert forall a, b :: 0 <= a < b < |s| ==> s[a].id != s[b].id;
  }

  // ------------------------------------------------------------------- admin

  /** The admin guard: a signed-in user with a truthy e-mail address. Whether the user is
      really an administrator is not checked. */
  predicate IsAdmin(currentUser: Option<UserRow>) {
    currentUser.Some? && Truthy(currentUser.value.email)
  }

  /** `create_topic`: 401 unless the guard passes; otherwise one stored topic, active. */
  method CreateTopic(db: Store, currentUser: Option<UserRow>, title: string, subtitle: string,
                     description: string, category: string)
    returns (r: Result<TopicRow, HttpError>)
    requires db.Valid()
    modifies db
    ensures db.Valid()
    ensures r.Failure? <==> !IsAdmin(currentUser)
    ensures r.Failure? ==> r.error == Unauthorized && unchanged(db)
    ensures r.Success? ==>
      && db.topics == old(db.topics) + [r.value]
      && r.value.title == title && r.value.subtitle == subtitle && r.value.description == description
      && r.value.category == category && r.value.isActive
    ensures db.users == old(db.users) && db.sessions == old(db.sessions) && db.messages == old(db.messages)
    ensures db.moods == old(db.moods) && db.activities == old(db.activities)
  {
    if !IsAdmin(currentUser) {
      return Failure(Unauthorized);
    }
    var row := db.AddTopic(title, subtitle, description, category);
    r := Success(row);
  }

  /** `get_all_topics`: 401 unless the guard passes; otherwise the active stored topics in
      table order. */
  function GetAllTopics(db: Store, currentUser: Option<UserRow>): (r: Result<seq<TopicRow>, HttpError>)
    reads db
    ensures r.Failure? <==> !IsAdmin(currentUser)
    ensures r.Failure? ==> r.error == Unauthorized
  {
    if !IsAdmin(currentUser) then Failure(Unauthorized)
    else Success(Filter(db.topics, (t: TopicRow) => t.isActive))
  }

  /** The admin listing holds the active topics, all of them and no other. */
  lemma GetAllTopicsSpec(db: Store, currentUser: Option<UserRow>)
    requires IsAdmin(currentUser)
    ensures var r := GetAllTopics(db, currentUser).value;
      && (forall i :: 0 <= i < |r| ==> r[i] in db.topics && r[i].isActive)
      && (forall i :: 0 <= i < |db.topics| && db.topics[i].isActive ==> db.topics[i] in r)
  {
  }
}
