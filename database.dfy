/**
 * The rows of the ORM models and the store that holds them. Each table is a
 * sequence in insertion order. Primary keys, which are random UUID strings in
 * the program, are numbers drawn from a counter. The server-side `now()`
 * default is a logical clock that ticks on every insert, so a table listed in
 * insertion order is listed by ascending timestamp.
 */
module Database {
  import opened Wrappers
  import opened SeqUtil

  type Id = nat

  datatype UserRow = UserRow(id: Id, anonymousId: Option<string>, email: Option<string>, isActive: bool, createdAt: nat)

  datatype SessionRow = SessionRow(id: Id, userId: Id, sessionType: string, emotionContext: Option<string>,
                                   topicId: Option<string>, createdAt: nat, endedAt: Option<nat>)

  datatype MessageRow = MessageRow(id: Id, sessionId: Id, content: string, role: string, timestamp: nat, crisisDetected: bool)

  datatype TopicRow = TopicRow(id: Id, title: string, subtitle: string, description: string, category: string,
                               isActive: bool, createdAt: nat)

  datatype MoodRow = MoodRow(id: Id, userId: Id, emotion: string, intensity: int, notes: Option<string>, createdAt: nat)

  datatype ActivityRow = ActivityRow(id: Id, userId: Id, activityType: string, duration: int, completed: bool,
                                     feedbackRating: Option<int>, createdAt: nat)

  /** Every key of `rows` was drawn before `nextId` and every timestamp before `clock`,
      and the rows are listed by strictly ascending key and timestamp. */
  ghost predicate Stamped<R>(rows: seq<R>, key: R -> Id, stamp: R -> nat, nextId: nat, clock: nat) {
    && (forall i :: 0 <= i < |rows| ==> key(rows[i]) < nextId && stamp(rows[i]) < clock)
    && IncreasingBy(rows, key)
    && IncreasingBy(rows, stamp)
  }

  class Store {
    var users: seq<UserRow>
    var sessions: seq<SessionRow>
    var messages: seq<MessageRow>
    var topics: seq<TopicRow>
    var moods: seq<MoodRow>
    var activities: seq<ActivityRow>
    /** The next timestamp the server would hand out. */
    var clock: nat
    /** The next primary key. */
    var nextId: nat

    /** Every table's keys and timestamps were handed out in insertion order. */
    ghost predicate Valid()
      reads this
    {
      && Stamped(users, (u: UserRow) => u.id, (u: UserRow) => u.createdAt, nextId, clock)
      && Stamped(sessions, (s: SessionRow) => s.id, (s: SessionRow) => s.createdAt, nextId, clock)
      && Stamped(messages, (m: MessageRow) => m.id, (m: MessageRow) => m.timestamp, nextId, clock)
      && Stamped(topics, (t: TopicRow) => t.id, (t: TopicRow) => t.createdAt, nextId, clock)
      && Stamped(moods, (m: MoodRow) => m.id, (m: MoodRow) => m.createdAt, nextId, clock)
      && Stamped(activities, (a: ActivityRow) => a.id, (a: ActivityRow) => a.createdAt, nextId, clock)
    }

    constructor()
      ensures Valid()
      ensures users == [] && sessions == [] && messages == [] && topics == [] && moods == [] && activities == []
    {
      users, sessions, messages, topics, moods, activities := [], [], [], [], [], [];
      clock, nextId := 0, 0;
    }

    /** The key and the timestamp of a row about to be inserted. */
    method NewKeys() returns (id: Id, now: nat)
      modifies this
      ensures id == old(nextId) && now == old(clock)
      ensures nextId == id + 1 && clock == now + 1
      ensures users == old(users) && sessions == old(sessions) && messages == old(messages)
      ensures topics == old(topics) && moods == old(moods) && activities == old(activities)
    {
      id, now := nextId, clock;
      nextId, clock := nextId + 1, clock + 1;
    }

    /** `db.add(User(...)); db.commit()`: `is_active` defaults to true. */
    method AddUser(anonymousId: Option<string>, email: Option<string>) returns (row: UserRow)
      requires Valid()
      modifies this
      ensures Valid()
      ensures users == old(users) + [row]
      ensures row.anonymousId == anonymousId && row.email == email && row.isActive
      ensures forall u :: u in old(users) ==> u.id != row.id
      ensures sessions == old(sessions) && messages == old(messages) && topics == old(topics)
      ensures moods == old(moods) && activities == old(activities)
    {
      var id, now := NewKeys();
      row := UserRow(id, anonymousId, email, true, now);
      users := users + [row];
    }

    /** `db.add(Session(...)); db.commit()`: a new session has not ended. */
    method AddSession(userId: Id, sessionType: string, emotionContext: Option<string>, topicId: Option<string>)
      returns (row: SessionRow)
      requires Valid()
      modifies this
      ensures Valid()
      ensures sessions == old(sessions) + [row]
      ensures row.userId == userId && row.sessionType == sessionType && row.emotionContext == emotionContext
      ensures row.topicId == topicId && row.endedAt == None
      ensures forall s :: s in old(sessions) ==> s.id != row.id && s.createdAt < row.createdAt
      ensures users == old(users) && messages == old(messages) && topics == old(topics)
      ensures moods == old(moods) && activities == old(activities)
    {
      var id, now := NewKeys();
      row := SessionRow(id, userId, sessionType, emotionContext, topicId, now, None);
      sessions := sessions + [row];
    }

    /** `db.add(Message(...)); db.commit()`: nothing checks that the session exists. */
    method AddMessage(sessionId: Id, content: string, role: string, crisisDetected: bool) returns (row: MessageRow)
      requires Valid()
      modifies this
      ensures Valid()
      ensures messages == old(messages) + [row]
      ensures row.sessionId == sessionId && row.content == content && row.role == role
      ensures row.crisisDetected == crisisDetected
      ensures forall m :: m in old(messages) ==> m.id != row.id && m.timestamp < row.timestamp
      ensures users == old(users) && sessions == old(sessions) && topics == old(topics)
      ensures moods == old(moods) && activities == old(activities)
    {
      var id, now := NewKeys();
      row := MessageRow(id, sessionId, content, role, now, crisisDetected);
      messages := messages + [row];
    }

    /** `db.add(Topic(...)); db.commit()`: `is_active` defaults to true. */
    method AddTopic(title: string, subtitle: string, description: string, category: string) returns (row: TopicRow)
      requires Valid()
      modifies this
      ensures Valid()
      ensures topics == old(topics) + [row]
      ensures row.title == title && row.subtitle == subtitle && row.description == description
      ensures row.category == category && row.isActive
      ensures users == old(users) && sessions == old(sessions) && messages == old(messages)
      ensures moods == old(moods) && activities == old(activities)
    {
      var id, now := NewKeys();
      row := TopicRow(id, title, subtitle, description, category, true, now);
      topics := topics + [row];
    }

    /** `db.add(MoodEntry(...)); db.commit()`. */
    method AddMood(userId: Id, emotion: string, intensity: int, notes: Option<string>) returns (row: MoodRow)
      requires Valid()
      modifies this
      ensures Valid()
      ensures moods == old(moods) + [row]
      ensures row.userId == userId && row.emotion == emotion && row.intensity == intensity && row.notes == notes
      ensures users == old(users) && sessions == old(sessions) && messages == old(messages)
      ensures topics == old(topics) && activities == old(activities)
    {
      var id, now := NewKeys();
      row := MoodRow(id, userId, emotion, intensity, notes, now);
      moods := moods + [row];
    }

    /** `db.add(WellnessActivity(...)); db.commit()`: `completed` defaults to false and
        the rating to null. */
    method AddActivity(userId: Id, activityType: string, duration: int) returns (row: ActivityRow)
      requires Valid()
      modifies this
      ensures Valid()
      ensures activities == old(activities) + [row]
      ensures row.userId == userId && row.activityType == activityType && row.duration == duration
      ensures !row.completed && row.feedbackRating == None
      ensures users == old(users) && sessions == old(sessions) && messages == old(messages)
      ensures topics == old(topics) && moods == old(moods)
    {
      var id, now := NewKeys();
      row := ActivityRow(id, userId, activityType, duration, false, None, now);
      activities := activities + [row];
    }

    /** An attribute assignment on a loaded session followed by `db.commit()`. */
    method UpdateSession(i: nat, row: SessionRow)
      requires Valid() && i < |sessions|
      requires row.id == sessions[i].id && row.createdAt == sessions[i].createdAt
      modifies this
      ensures Valid()
      ensures sessions == old(sessions)[i := row]
      ensures users == old(users) && messages == old(messages) && topics == old(topics)
      ensures moods == old(moods) && activities == old(activities)
      ensures clock == old(clock) && nextId == old(nextId)
    {
      sessions := sessions[i := row];
    }

    /** An attribute assignment on a loaded activity followed by `db.commit()`. */
    method UpdateActivity(i: nat, row: ActivityRow)
      requires Valid() && i < |activities|
      requires row.id == activities[i].id && row.createdAt == activities[i].createdAt
      modifies this
      ensures Valid()
      ensures activities == old(activities)[i := row]
      ensures users == old(users) && sessions == old(sessions) && messages == old(messages)
      ensures topics == old(topics) && moods == old(moods)
      ensures clock == old(clock) && nextId == old(nextId)
    {
      activities := activities[i := row];
    }
  }

  // ------------------------------------------------------------------ queries

  /** `query(...).filter(id == key, user_id == owner).first()`, as an index: the first row
      with that primary key and that owner. */
  function FirstOwned<R>(rows: seq<R>, key: Id, owner: Id, keyOf: R -> Id, ownerOf: R -> Id): (r: Option<nat>)
    ensures r.Some? ==> r.value < |rows| && keyOf(rows[r.value]) == key && ownerOf(rows[r.value]) == owner
    ensures r.Some? ==> forall k :: 0 <= k < r.value ==> !(keyOf(rows[k]) == key && ownerOf(rows[k]) == owner)
    ensures r.None? <==> forall k :: 0 <= k < |rows| ==> !(keyOf(rows[k]) == key && ownerOf(rows[k]) == owner)
    decreases |rows|
  {
    if |rows| == 0 then None
    else if keyOf(rows[0]) == key && ownerOf(rows[0]) == owner then Some(0)
    else
      match FirstOwned(rows[1..], key, owner, keyOf, ownerOf)
      case None => None
      case Some(k) => Some(k + 1)
  }

  /** The session `sessionId` when it belongs to `userId`. */
  function OwnedSession(sessions: seq<SessionRow>, sessionId: Id, userId: Id): Option<nat> {
    FirstOwned(sessions, sessionId, userId, (s: SessionRow) => s.id, (s: SessionRow) => s.userId)
  }

  /** The activity `activityId` when it belongs to `userId`. */
  function OwnedActivity(activities: seq<ActivityRow>, activityId: Id, userId: Id): Option<nat> {
    FirstOwned(activities, activityId, userId, (a: ActivityRow) => a.id, (a: ActivityRow) => a.userId)
  }

  /** In a valid store no two rows of a table share a primary key, as the primary-key
      constraint of every table demands. */
  lemma KeysUnique(db: Store)
    requires db.Valid()
    ensures forall i, j :: 0 <= i < j < |db.users| ==> db.users[i].id != db.users[j].id
    ensures forall i, j :: 0 <= i < j < |db.sessions| ==> db.sessions[i].id != db.sessions[j].id
    ensures forall i, j :: 0 <= i < j < |db.messages| ==> db.messages[i].id != db.messages[j].id
    ensures forall i, j :: 0 <= i < j < |db.topics| ==> db.topics[i].id != db.topics[j].id
    ensures forall i, j :: 0 <= i < j < |db.moods| ==> db.moods[i].id != db.moods[j].id
    ensures forall i, j :: 0 <= i < j < |db.activities| ==> db.activities[i].id != db.activities[j].id
  {
  }

  /** The intensities of mood entries added up. */
  function IntensitySum(ms: seq<MoodRow>): int {
    if ms == [] then 0 else IntensitySum(ms[..|ms| - 1]) + ms[|ms| - 1].intensity
  }

  /** `[a for a in activities if a.completed]`. */
  function CompletedOnly(activities: seq<ActivityRow>): seq<ActivityRow> {
    Filter(activities, (a: ActivityRow) => a.completed)
  }

  /** `query(Message).filter(session_id == sessionId).order_by(timestamp)`. */
  function SessionMessages(messages: seq<MessageRow>, sessionId: Id): seq<MessageRow> {
    Filter(messages, (m: MessageRow) => m.sessionId == sessionId)
  }

  /** A session's messages come in ascending timestamp order when the table does. */
  lemma SessionMessagesInOrder(messages: seq<MessageRow>, sessionId: Id)
    requires IncreasingBy(messages, (m: MessageRow) => m.timestamp)
    ensures IncreasingBy(SessionMessages(messages, sessionId), (m: MessageRow) => m.timestamp)
  {
    FilterIncreasing(messages, (m: MessageRow) => m.sessionId == sessionId, (m: MessageRow) => m.timestamp);
  }

  /** `query(Session).filter(user_id == userId).order_by(created_at.desc())`. */
  function UserSessionsNewestFirst(sessions: seq<SessionRow>, userId: Id): seq<SessionRow> {
    Reverse(Filter(sessions, (s: SessionRow) => s.userId == userId))
  }

  /** The user's sessions, all of them and no other, newest first. */
  lemma UserSessionsNewestFirstSpec(sessions: seq<SessionRow>, userId: Id)
    requires IncreasingBy(sessions, (s: SessionRow) => s.createdAt)
    ensures var r := UserSessionsNewestFirst(sessions, userId);
      && DecreasingBy(r, (s: SessionRow) => s.createdAt)
      && (forall i :: 0 <= i < |r| ==> r[i] in sessions && r[i].userId == userId)
      && (forall i :: 0 <= i < |sessions| && sessions[i].userId == userId ==> sessions[i] in r)
  {
    var p := (s: SessionRow) => s.userId == userId;
    FilterIncreasing(sessions, p, (s: SessionRow) => s.createdAt);
    ReverseDecreasing(Filter(sessions, p), (s: SessionRow) => s.createdAt);
    ReverseSameElements(Filter(sessions, p));
  }
}
