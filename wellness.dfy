/**
 * The wellness router: mood entries with their intensity check, wellness
 * activities with their type check, completing an activity with its feedback
 * rule, the two listings, and the statistics over the last days.
 *
 * A time window `created_at >= utcnow() - timedelta(days=...)` is the logical
 * timestamp `start` it reduces to.
 */
module Wellness {
  import opened Wrappers
  import opened Http
  import opened SeqUtil
  import opened Database
  import opened Metrics
  import opened Tally

  // ------------------------------------------------------------- mood entries

  /** The intensity scale of a mood entry. */
  predicate ValidIntensity(intensity: int) {
    1 <= intensity <= 10
  }

  /** `create_mood_entry`: 401 without a user, checked before the range; 400 for an
      intensity outside 1..10; otherwise one stored row for the caller. */
  method CreateMoodEntry(db: Store, currentUser: Option<UserRow>, emotion: string, intensity: int,
                         notes: Option<string>)
    returns (r: Result<MoodRow, HttpError>)
    requires db.Valid()
    modifies db
    ensures db.Valid()
    ensures r == Failure(Unauthorized) <==> currentUser.None?
    ensures r == Failure(BadRequest) <==> currentUser.Some? && !ValidIntensity(intensity)
    ensures r.Failure? ==> unchanged(db)
    ensures r.Success? ==>
      && db.moods == old(db.moods) + [r.value]
      && r.value.userId == currentUser.value.id && r.value.emotion == emotion
      && r.value.intensity == intensity && r.value.notes == notes
    ensures db.users == old(db.users) && db.sessions == old(db.sessions) && db.messages == old(db.messages)
    ensures db.topics == old(db.topics) && db.activities == old(db.activities)
  {
    if currentUser.None? {
      return Failure(Unauthorized);
    }
    if !ValidIntensity(intensity) {
      return Failure(BadRequest);
    }
    var row := db.AddMood(currentUser.value.id, emotion, intensity, notes);
    r := Success(row);
  }

  /** The caller's mood entries created at or after `start`, in table order. */
  function UserMoods(moods: seq<MoodRow>, userId: Id, start: nat): seq<MoodRow> {
    Filter(moods, (m: MoodRow) => m.userId == userId && m.createdAt >= start)
  }

  /** `get_mood_entries`: the caller's entries in the window, newest first. */
  function GetMoodEntries(db: Store, currentUser: Option<UserRow>, start: nat): (r: Result<seq<MoodRow>, HttpError>)
    reads db
    ensures r.Failure? <==> currentUser.None?
    ensures r.Failure? ==> r.error == Unauthorized
  {
    if currentUser.None? then Failure(Unauthorized)
    else Success(Reverse(UserMoods(db.moods, currentUser.value.id, start)))
  }

  /** The mood listing holds the caller's entries in the window, all of them and no
      others, newest first. */
  lemma MoodEntriesSpec(db: Store, currentUser: Option<UserRow>, start: nat)
    requires db.Valid() && currentUser.Some?
    ensures var r := GetMoodEntries(db, currentUser, start).value;
      var uid := currentUser.value.id;
      && DecreasingBy(r, (m: MoodRow) => m.createdAt)
      && (forall i :: 0 <= i < |r| ==> r[i] in db.moods && r[i].userId == uid && r[i].createdAt >= start)
      && (forall i :: 0 <= i < |db.moods| && db.moods[i].userId == uid && db.moods[i].createdAt >= start ==>
            db.moods[i] in r)
  {
    var uid := currentUser.value.id;
    NewestFirstSpec(db.moods, (m: MoodRow) => m.userId == uid && m.createdAt >= start, (m: MoodRow) => m.createdAt);
  }

  // --------------------------------------------------------------- activities

  /** The activity types `create_wellness_activity` accepts. */
  const ValidActivities: seq<string> := ["breathing", "affirmations", "reframing"]

  /** `create_wellness_activity`: 401 without a user; 400 for a type outside the three;
      the duration is stored as given, without a check. */
  method CreateWellnessActivity(db: Store, currentUser: Option<UserRow>, activityType: string, duration: int)
    returns (r: Result<ActivityRow, HttpError>)
    requires db.Valid()
    modifies db
    ensures db.Valid()
    ensures r == Failure(Unauthorized) <==> currentUser.None?
    ensures r == Failure(BadRequest) <==> currentUser.Some? && activityType !in ValidActivities
    ensures r.Failure? ==> unchanged(db)
    ensures r.Success? ==>
      && db.activities == old(db.activities) + [r.value]
      && r.value.userId == currentUser.value.id && r.value.activityType == activityType
      && r.value.duration == duration && !r.value.completed && r.value.feedbackRating == None
    ensures db.users == old(db.users) && db.sessions == old(db.sessions) && db.messages == old(db.messages)
    ensures db.topics == old(db.topics) && db.moods == old(db.moods)
  {
    if currentUser.None? {
      return Failure(Unauthorized);
    }
    if activityType !in ValidActivities {
      return Failure(BadRequest);
    }
    var row := db.AddActivity(currentUser.value.id, activityType, duration);
    r := Success(row);
  }

  /** Python truthiness of an optional integer: present and not 0. */
  predicate RatingGiven(rating: Option<int>) {
    rating.Some? && rating.value != 0
  }

  /** The completion of one activity: it becomes completed; a given rating must lie in
      1..5 and replaces the stored one; an absent or zero rating leaves it alone. */
  function Complete(a: ActivityRow, rating: Option<int>): (r: Result<ActivityRow, HttpError>)
    ensures r.Failure? <==> RatingGiven(rating) && !(1 <= rating.value <= 5)
    ensures r.Failure? ==> r.error == BadRequest
    ensures r.Success? ==> r.value.completed
    ensures r.Success? ==> r.value.id == a.id && r.value.userId == a.userId && r.value.createdAt == a.createdAt
                           && r.value.activityType == a.activityType && r.value.duration == a.duration
  {
    if RatingGiven(rating) then
      if 1 <= rating.value <= 5 then Success(a.(completed := true, feedbackRating := rating))
      else Failure(BadRequest)
    else Success(a.(completed := true))
  }

  /** The rating rule: none or 0 keeps the stored rating, 1..5 is stored, anything else
      is refused. */
  lemma CompleteRating(a: ActivityRow, rating: Option<int>)
    ensures !RatingGiven(rating) ==> Complete(a, rating) == Success(a.(completed := true))
    ensures RatingGiven(rating) && 1 <= rating.value <= 5 ==> Complete(a, rating).Success?
                                                              && Complete(a, rating).value.feedbackRating == rating
    ensures RatingGiven(rating) && !(1 <= rating.value <= 5) ==> Complete(a, rating) == Failure(BadRequest)
  {
  }

  /** Completing twice with the same rating changes nothing the second time, and a
      completed activity stays completed whatever accepted rating follows. */
  lemma CompleteIdempotent(a: ActivityRow, rating: Option<int>, later: Option<int>)
    requires Complete(a, rating).Success?
    ensures Complete(Complete(a, rating).value, rating) == Complete(a, rating)
    ensures Complete(Complete(a, rating).value, later).Success? ==> Complete(Complete(a, rating).value, later).value.completed
  {
  }

  /** `complete_wellness_activity`: 401 without a user, 404 unless the activity is the
      caller's, 400 for a given rating outside 1..5 (nothing is committed then);
      otherwise the activity is completed in place. */
  method CompleteWellnessActivity(db: Store, currentUser: Option<UserRow>, activityId: Id, rating: Option<int>)
    returns (r: Result<ActivityRow, HttpError>)
    requires db.Valid()
    modifies db
    ensures db.Valid()
    ensures r == Failure(Unauthorized) <==> currentUser.None?
    ensures r == Failure(NotFound) <==>
      currentUser.Some? && OwnedActivity(old(db.activities), activityId, currentUser.value.id).None?
    ensures r == Failure(BadRequest) <==>
      currentUser.Some? && OwnedActivity(old(db.activities), activityId, currentUser.value.id).Some?
      && RatingGiven(rating) && !(1 <= rating.value <= 5)
    ensures r.Failure? ==> unchanged(db)
    ensures r.Success? ==>
      var i := OwnedActivity(old(db.activities), activityId, currentUser.value.id).value;
      && Complete(old(db.activities)[i], rating) == Success(r.value)
      && db.activities == old(db.activities)[i := r.value]
    ensures db.users == old(db.users) && db.sessions == old(db.sessions) && db.messages == old(db.messages)
    ensures db.topics == old(db.topics) && db.moods == old(db.moods)
  {
    if currentUser.None? {
      return Failure(Unauthorized);
    }
    var found := OwnedActivity(db.activities, activityId, currentUser.value.id);
    if found.None? {
      return Failure(NotFound);
    }
    var i := found.value;
    var done := Complete(db.activities[i], rating);
    if done.Failure? {
      return done;
    }
    db.UpdateActivity(i, done.value);
    r := done;
  }

  /** The caller's activities created at or after `start`, in table order. */
  function UserActivities(activities: seq<ActivityRow>, userId: Id, start: nat): seq<ActivityRow> {
    Filter(activities, (a: ActivityRow) => a.userId == userId && a.createdAt >= start)
  }

  /** `get_wellness_activities`: the caller's activities in the window, newest first. */
  function GetWellnessActivities(db: Store, currentUser: Option<UserRow>, start: nat)
    : (r: Result<seq<ActivityRow>, HttpError>)
    reads db
    ensures r.Failure? <==> currentUser.None?
    ensures r.Failure? ==> r.error == Unauthorized
  {
    if currentUser.None? then Failure(Unauthorized)
    else Success(Reverse(UserActivities(db.activities, currentUser.value.id, start)))
  }

  /** The activity listing holds the caller's activities in the window, all of them and
      no others, newest first. */
  lemma WellnessActivitiesSpec(db: Store, currentUser: Option<UserRow>, start: nat)
    requires db.Valid() && currentUser.Some?
    ensures var r := GetWellnessActivities(db, currentUser, start).value;
      var uid := currentUser.value.id;
      && DecreasingBy(r, (a: ActivityRow) => a.createdAt)
      && (forall i :: 0 <= i < |r| ==> r[i] in db.activities && r[i].userId == uid && r[i].createdAt >= start)
      && (forall i :: 0 <= i < |db.activities| && db.activities[i].userId == uid && db.activities[i].createdAt >= start ==>
            db.activities[i] in r)
  {
    var uid := currentUser.value.id;
    NewestFirstSpec(db.activities, (a: ActivityRow) => a.userId == uid && a.createdAt >= start,
                    (a: ActivityRow) => a.createdAt);
  }

  // ---------------------------------------------------------------- statistics

  function Emotions(ms: seq<MoodRow>): (r: seq<string>)
    ensures |r| == |ms|
  {
    seq(|ms|, i requires 0 <= i < |ms| => ms[i].emotion)
  }

  datatype WellnessStats = WellnessStats(totalEntries: nat, averageIntensity: real, mostCommonEmotion: Option<string>,
                                         totalActivities: nat, completedActivities: nat, completionRate: real)

  /** `get_wellness_stats` over the caller's rows created at or after `start`. */
  method GetWellnessStats(db: Store, currentUser: Option<UserRow>, start: nat) returns (r: Result<WellnessStats, HttpError>)
    ensures r.Failure? <==> currentUser.None?
    ensures r.Failure? ==> r.error == Unauthorized
    ensures r.Success? ==>
      var moods := UserMoods(db.moods, currentUser.value.id, start);
      var acts := UserActivities(db.activities, currentUser.value.id, start);
      var s := r.value;
      && s.totalEntries == |moods| && s.averageIntensity == Mean(IntensitySum(moods), |moods|)
      && (s.mostCommonEmotion.None? <==> moods == [])
      && (s.mostCommonEmotion.Some? ==> IsMostCommon(Emotions(moods), s.mostCommonEmotion.value))
      && s.totalActivities == |acts| && s.completedActivities == |CompletedOnly(acts)|
      && s.completedActivities <= s.totalActivities
      && s.completionRate == Percent(s.completedActivities, s.totalActivities)
      && 0.0 <= s.completionRate <= 100.0
  {
    if currentUser.None? {
      return Failure(Unauthorized);
    }
    var moods := UserMoods(db.moods, currentUser.value.id, start);
    var acts := UserActivities(db.activities, currentUser.value.id, start);
    var common := MostCommon(Emotions(moods));
    var completed := |CompletedOnly(acts)|;
    PercentBounds(completed, |acts|);
    r := Success(WellnessStats(|moods|, Mean(IntensitySum(moods), |moods|), common,
                               |acts|, completed, Percent(completed, |acts|)));
  }
}
