/**
 * The analytics router: the insights summary over the caller's recent rows and
 * the per-type progress of wellness activities.
 *
 * The clock is not modelled. A time window `created_at >= utcnow() - timedelta(days=...)`
 * is the logical timestamp `start` it reduces to; `today` is the calendar day of
 * `utcnow()`, `dateOf` gives the calendar day of a timestamp (`.date()`) and
 * `dayOf` its day of the week (`strftime("%A")`), days being numbered so that
 * `today - i` is `i` days before today.
 */
module Analytics {
  import opened Wrappers
  import opened Http
  import opened SeqUtil
  import opened Database
  import opened Metrics
  import opened Tally
  import opened Wellness

  // ---------------------------------------------------------------- week days

  datatype Weekday = Monday | Tuesday | Wednesday | Thursday | Friday | Saturday | Sunday

  /** What `most_active_day` holds when there is no session. */
  const NoActivity: string := "No activity"

  /** The English day name `strftime("%A")` writes; never the no-session marker. */
  function WeekdayName(d: Weekday): (name: string)
    ensures name != NoActivity
    ensures 6 <= |name| <= 9
  {
    match d
    case Monday => "Monday"
    case Tuesday => "Tuesday"
    case Wednesday => "Wednesday"
    case Thursday => "Thursday"
    case Friday => "Friday"
    case Saturday => "Saturday"
    case Sunday => "Sunday"
  }

  // ------------------------------------------------------------------ queries

  /** The caller's sessions created at or after `start`. */
  function UserSessionsSince(sessions: seq<SessionRow>, userId: Id, start: nat): seq<SessionRow> {
    Filter(sessions, (s: SessionRow) => s.userId == userId && s.createdAt >= start)
  }

  /** The keys of the caller's sessions, whenever they were created. */
  function OwnSessionIds(sessions: seq<SessionRow>, userId: Id): set<Id> {
    set s | s in sessions && s.userId == userId :: s.id
  }

  /** `query(Message).join(Session).filter(Session.user_id == userId, Message.timestamp >= start)`:
      the window applies to the message, not to its session. */
  function UserMessagesSince(sessions: seq<SessionRow>, messages: seq<MessageRow>, userId: Id, start: nat)
    : seq<MessageRow>
  {
    var own := OwnSessionIds(sessions, userId);
    Filter(messages, (m: MessageRow) => m.sessionId in own && m.timestamp >= start)
  }

  /** `[msg for msg in messages if msg.crisis_detected]`. */
  function CrisisMessages(messages: seq<MessageRow>): seq<MessageRow> {
    Filter(messages, (m: MessageRow) => m.crisisDetected)
  }

  /** The insights count exactly the caller's messages in the window: each counted one
      sits in a session of theirs, and each of theirs in the window is counted. */
  lemma UserMessagesSinceSpec(sessions: seq<SessionRow>, messages: seq<MessageRow>, userId: Id, start: nat)
    ensures var r := UserMessagesSince(sessions, messages, userId, start);
      && (forall i :: 0 <= i < |r| ==>
            (r[i] in messages && r[i].timestamp >= start
             && exists s :: s in sessions && s.userId == userId && s.id == r[i].sessionId))
      && (forall i, j ::
            (0 <= i < |messages| && 0 <= j < |sessions| && sessions[j].userId == userId
             && sessions[j].id == messages[i].sessionId && messages[i].timestamp >= start) ==>
            messages[i] in r)
  {
    var own := OwnSessionIds(sessions, userId);
    var r := UserMessagesSince(sessions, messages, userId, start);
    forall i | 0 <= i < |r|
      ensures exists s :: s in sessions && s.userId == userId && s.id == r[i].sessionId
    {
      assert r[i].sessionId in own;
    }
    forall i, j | 0 <= i < |messages| && 0 <= j < |sessions| && sessions[j].userId == userId
      && sessions[j].id == messages[i].sessionId && messages[i].timestamp >= start
      ensures messages[i] in r
    {
      assert sessions[j] in sessions;
    }
  }

  // ---------------------------------------------------------- most active day

  /** The day name of each session, in table order. */
  function DayNames(sessions: seq<SessionRow>, dayOf: nat -> Weekday): (names: seq<string>)
    ensures |names| == |sessions|
  {
    seq(|sessions|, i requires 0 <= i < |sessions| => WeekdayName(dayOf(sessions[i].createdAt)))
  }

  /** The day-counting loop and `max(day_counts.items(), key=...)[0] if day_counts else
      "No activity"`. */
  method MostActiveDay(sessions: seq<SessionRow>, dayOf: nat -> Weekday) returns (day: string)
    ensures day == NoActivity <==> sessions == []
    ensures sessions != [] ==> IsMostCommon(DayNames(sessions, dayOf), day)
  {
    var names := DayNames(sessions, dayOf);
    var common := MostCommon(names);
    if common.None? {
      day := NoActivity;
    } else {
      day := common.value;
      var i :| 0 <= i < |names| && names[i] == day;
      assert day == WeekdayName(dayOf(sessions[i].createdAt));
    }
  }

  // --------------------------------------------------------------- mood trend

  /** One point of the mood trend: a day, the intensities of its entries added up and
      their number. The reported `average_intensity` is derived from the two. */
  datatype TrendPoint = TrendPoint(date: int, intensitySum: int, entriesCount: nat) {
    /** `sum(entry.intensity for entry in day_entries) / len(day_entries)`. */
    function AverageIntensity(): real {
      Mean(intensitySum, entriesCount)
    }
  }

  /** `[entry for entry in mood_entries if entry.created_at.date() == date]`. */
  function EntriesOn(moods: seq<MoodRow>, dateOf: nat -> int, date: int): seq<MoodRow> {
    if moods == [] then []
    else
      var last := moods[|moods| - 1];
      EntriesOn(moods[..|moods| - 1], dateOf, date) + (if dateOf(last.createdAt) == date then [last] else [])
  }

  /** The entries of a day are entries of that day, and every entry of that day is one. */
  lemma {:induction false} EntriesOnSpec(moods: seq<MoodRow>, dateOf: nat -> int, date: int)
    ensures forall i :: 0 <= i < |EntriesOn(moods, dateOf, date)| ==>
      EntriesOn(moods, dateOf, date)[i] in moods && dateOf(EntriesOn(moods, dateOf, date)[i].createdAt) == date
    ensures forall i :: 0 <= i < |moods| && dateOf(moods[i].createdAt) == date ==> moods[i] in EntriesOn(moods, dateOf, date)
    decreases |moods|
  {
    if moods != [] {
      var init := moods[..|moods| - 1];
      EntriesOnSpec(init, dateOf, date);
      var es := EntriesOn(moods, dateOf, date);
      assert moods == init + [moods[|moods| - 1]];
      forall i | 0 <= i < |moods| && dateOf(moods[i].createdAt) == date
        ensures moods[i] in es
      {
        if i < |init| {
          assert moods[i] == init[i];
        }
      }
    }
  }

  /** The point of one day: none when the day has no entry, else the day with the mean
      intensity and the number of its entries. */
  function DayPoint(moods: seq<MoodRow>, dateOf: nat -> int, date: int): (r: seq<TrendPoint>)
    ensures |r| <= 1
    ensures |r| == 1 <==> |EntriesOn(moods, dateOf, date)| > 0
    ensures |r| == 1 ==> var es := EntriesOn(moods, dateOf, date);
      r[0] == TrendPoint(date, IntensitySum(es), |es|)
  {
    var es := EntriesOn(moods, dateOf, date);
    if |es| == 0 then [] else [TrendPoint(date, IntensitySum(es), |es|)]
  }

  /** The trend over the `n` days ending today, today first. */
  function MoodTrend(moods: seq<MoodRow>, dateOf: nat -> int, today: int, n: nat): seq<TrendPoint> {
    DaysBack(DayPoints(moods, dateOf), today, n)
  }

  /** The point of each day. */
  function DayPoints(moods: seq<MoodRow>, dateOf: nat -> int): int -> seq<TrendPoint> {
    (date: int) => DayPoint(moods, dateOf, date)
  }

  /** The number of days the insights trend covers. */
  const TrendDays: nat := 7

  /** The loop `for i in range(7)` collecting a point for each of the last seven days
      that has entries. */
  method ComputeMoodTrend(moods: seq<MoodRow>, dateOf: nat -> int, today: int) returns (trend: seq<TrendPoint>)
    ensures trend == MoodTrend(moods, dateOf, today, TrendDays)
  {
    trend := [];
    for i := 0 to TrendDays
      invariant trend == MoodTrend(moods, dateOf, today, i)
    {
      var date := today - i;
      var dayEntries := EntriesOn(moods, dateOf, date);
      if |dayEntries| > 0 {
        trend := trend + [TrendPoint(date, IntensitySum(dayEntries), |dayEntries|)];
      }
    }
  }

  /** Each point of the trend over `n` days is a day of the window with entries, with
      their mean and their number. */
  lemma MoodTrendPoints(moods: seq<MoodRow>, dateOf: nat -> int, today: int, n: nat)
    ensures var p := MoodTrend(moods, dateOf, today, n);
      && |p| <= n
      && forall k :: 0 <= k < |p| ==>
           && today - n < p[k].date <= today
           && var es := EntriesOn(moods, dateOf, p[k].date);
           && p[k].entriesCount == |es| > 0
           && p[k].intensitySum == IntensitySum(es)
  {
    var f := DayPoints(moods, dateOf);
    DaysBackLength(f, today, n);
    var p := MoodTrend(moods, dateOf, today, n);
    forall k | 0 <= k < |p|
      ensures today - n < p[k].date <= today
      ensures var es := EntriesOn(moods, dateOf, p[k].date);
        p[k].entriesCount == |es| > 0 && p[k].intensitySum == IntensitySum(es)
    {
      var d := DaysBackSource(f, today, n, k);
    }
  }

  /** The trend lists its days newest first, so no day twice. */
  lemma {:induction false} MoodTrendNewestFirst(moods: seq<MoodRow>, dateOf: nat -> int, today: int, n: nat)
    ensures var p := MoodTrend(moods, dateOf, today, n);
      forall a, b :: 0 <= a < b < |p| ==> p[a].date > p[b].date
    decreases n
  {
    if n > 0 {
      MoodTrendNewestFirst(moods, dateOf, today, n - 1);
      MoodTrendPoints(moods, dateOf, today, n - 1);
    }
  }

  /** Every day of the window that has entries has its point in the trend. */
  lemma MoodTrendComplete(moods: seq<MoodRow>, dateOf: nat -> int, today: int, n: nat, d: int) returns (k: nat)
    requires today - n < d <= today
    requires |EntriesOn(moods, dateOf, d)| > 0
    ensures k < |MoodTrend(moods, dateOf, today, n)| && MoodTrend(moods, dateOf, today, n)[k].date == d
  {
    k := DaysBackComplete(DayPoints(moods, dateOf), today, n, d);
  }

  /** The intensities of entries that all lie in a range add up to between the bounds
      times their number. */
  lemma {:induction false} IntensitySumBounds(ms: seq<MoodRow>, lo: int, hi: int)
    requires forall i :: 0 <= i < |ms| ==> lo <= ms[i].intensity <= hi
    ensures lo * |ms| <= IntensitySum(ms) <= hi * |ms|
    decreases |ms|
  {
    if |ms| > 0 {
      var init := ms[..|ms| - 1];
      var n := |init|;
      assert forall i :: 0 <= i < n ==> init[i] == ms[i];
      IntensitySumBounds(init, lo, hi);
      assert IntensitySum(ms) == IntensitySum(init) + ms[n].intensity;
      MulSucc(lo, n);
      MulSucc(hi, n);
    }
  }

  lemma MulSucc(a: int, n: nat)
    ensures a * (n + 1) == a * n + a
  {
  }

  /** When every entry keeps to the 1..10 scale that `create_mood_entry` enforces, every
      point of the trend has a mean on that scale. */
  lemma TrendAveragesOnScale(moods: seq<MoodRow>, dateOf: nat -> int, today: int)
    requires forall i :: 0 <= i < |moods| ==> ValidIntensity(moods[i].intensity)
    ensures var p := MoodTrend(moods, dateOf, today, TrendDays);
      forall k :: 0 <= k < |p| ==> 1.0 <= p[k].AverageIntensity() <= 10.0
  {
    MoodTrendPoints(moods, dateOf, today, TrendDays);
    var p := MoodTrend(moods, dateOf, today, TrendDays);
    forall k | 0 <= k < |p|
      ensures 1.0 <= p[k].AverageIntensity() <= 10.0
    {
      var es := EntriesOn(moods, dateOf, p[k].date);
      EntriesOnSpec(moods, dateOf, p[k].date);
      forall i | 0 <= i < |es|
        ensures 1 <= es[i].intensity <= 10
      {
        var j :| 0 <= j < |moods| && moods[j] == es[i];
      }
      IntensitySumBounds(es, 1, 10);
      MeanBounds(IntensitySum(es), |es|, 1, 10);
    }
  }

  // ----------------------------------------------------------------- insights

  datatype UserInsights = UserInsights(totalSessions: nat, totalMessages: nat, averageSessionLength: real,
                                       mostActiveDay: string, moodTrend: seq<TrendPoint>,
                                       wellnessCompletionRate: real, crisisDetections: nat)

  /** `get_user_insights` over the caller's rows in the window: 401 without a user. */
  method GetUserInsights(db: Store, currentUser: Option<UserRow>, start: nat, today: int,
                         dayOf: nat -> Weekday, dateOf: nat -> int)
    returns (r: Result<UserInsights, HttpError>)
    ensures r.Failure? <==> currentUser.None?
    ensures r.Failure? ==> r.error == Unauthorized
    ensures r.Success? ==>
      var uid := currentUser.value.id;
      var sessions := UserSessionsSince(db.sessions, uid, start);
      var messages := UserMessagesSince(db.sessions, db.messages, uid, start);
      var acts := UserActivities(db.activities, uid, start);
      var s := r.value;
      && s.totalSessions == |sessions| && s.totalMessages == |messages|
      && s.averageSessionLength == Mean(|messages|, |sessions|)
      && (s.mostActiveDay == NoActivity <==> sessions == [])
      && (sessions != [] ==> IsMostCommon(DayNames(sessions, dayOf), s.mostActiveDay))
      && s.moodTrend == MoodTrend(UserMoods(db.moods, uid, start), dateOf, today, TrendDays)
      && s.wellnessCompletionRate == Percent(|CompletedOnly(acts)|, |acts|)
      && 0.0 <= s.wellnessCompletionRate <= 100.0
      && s.crisisDetections == |CrisisMessages(messages)| <= s.totalMessages
  {
    if currentUser.None? {
      return Failure(Unauthorized);
    }
    var uid := currentUser.value.id;
    var sessions := UserSessionsSince(db.sessions, uid, start);
    var messages := UserMessagesSince(db.sessions, db.messages, uid, start);
    var moods := UserMoods(db.moods, uid, start);
    var acts := UserActivities(db.activities, uid, start);
    var day := MostActiveDay(sessions, dayOf);
    var trend := ComputeMoodTrend(moods, dateOf, today);
    var completed := |CompletedOnly(acts)|;
    PercentBounds(completed, |acts|);
    r := Success(UserInsights(|sessions|, |messages|, Mean(|messages|, |sessions|), day, trend,
                              Percent(completed, |acts|), |CrisisMessages(messages)|));
  }

  // --------------------------------------------------------- wellness progress

  /** One entry of the progress listing. */
  datatype TypeProgress = TypeProgress(activityType: string, total: nat, completed: nat, completionRate: real)

  /** The `{"total": ..., "completed": ...}` kept per activity type. */
  datatype Tallies = Tallies(total: nat, completed: nat)

  /** The activity type of each activity, in order. */
  function Types(acts: seq<ActivityRow>): (types: seq<string>)
    ensures |types| == |acts|
  {
    seq(|acts|, i requires 0 <= i < |acts| => acts[i].activityType)
  }

  /** The number of completed activities of type `t`. */
  function CompletedOf(acts: seq<ActivityRow>, t: string): nat {
    if acts == [] then 0
    else CompletedOf(acts[..|acts| - 1], t) + (if acts[|acts| - 1].activityType == t && acts[|acts| - 1].completed then 1 else 0)
  }

  /** The entry for type `t`: all its activities, the completed ones and their share. */
  function ProgressOf(acts: seq<ActivityRow>, t: string): TypeProgress {
    var total := Count(Types(acts), t);
    var done := CompletedOf(acts, t);
    TypeProgress(t, total, done, Percent(done, total))
  }

  /** The entries for the types `ts`, in that order. */
  function Entries(acts: seq<ActivityRow>, ts: seq<string>): (r: seq<TypeProgress>)
    ensures |r| == |ts|
  {
    if ts == [] then [] else Entries(acts, ts[..|ts| - 1]) + [ProgressOf(acts, ts[|ts| - 1])]
  }

  /** The entry at each position is the one for the type at that position. */
  lemma {:induction false} EntriesAt(acts: seq<ActivityRow>, ts: seq<string>)
    ensures forall k :: 0 <= k < |ts| ==> Entries(acts, ts)[k] == ProgressOf(acts, ts[k])
    decreases |ts|
  {
    if ts != [] {
      var init := ts[..|ts| - 1];
      EntriesAt(acts, init);
      assert forall k :: 0 <= k < |init| ==> ts[k] == init[k];
    }
  }

  /** The listing: one entry per type, in the order the types are first met. */
  function Progress(acts: seq<ActivityRow>): seq<TypeProgress> {
    Entries(acts, Distinct(Types(acts)))
  }

  /** Adding an activity adds its type at the end. */
  lemma TypesAppend(acts: seq<ActivityRow>, a: ActivityRow)
    ensures Types(acts + [a]) == Types(acts) + [a.activityType]
  {
    var t := Types(acts + [a]);
    assert forall i :: 0 <= i < |acts| ==> t[i] == acts[i].activityType;
  }

  /** `stats` and `order` hold the grouping of `acts`: its types in first-seen order, and
      per type the number of activities and of completed ones. */
  ghost predicate Grouped(acts: seq<ActivityRow>, stats: map<string, Tallies>, order: seq<string>) {
    && order == Distinct(Types(acts))
    && (forall t :: t in stats <==> t in Types(acts))
    && (forall t :: t in stats ==> stats[t] == Tallies(Count(Types(acts), t), CompletedOf(acts, t)))
  }

  /** The loop body on the dictionary: the entry of the activity's type, created at zero
      when the type is new, counts the activity and, when it is completed, counts it as
      completed too. */
  function Counted(stats: map<string, Tallies>, a: ActivityRow): (r: map<string, Tallies>)
    ensures r.Keys == stats.Keys + {a.activityType}
    ensures r[a.activityType].total > 0
  {
    var entry := if a.activityType in stats then stats[a.activityType] else Tallies(0, 0);
    stats[a.activityType := Tallies(entry.total + 1, if a.completed then entry.completed + 1 else entry.completed)]
  }

  /** One more activity adds one to its type's count and, when completed, to its
      type's completed count, and leaves the other types' counts alone. */
  lemma TalliesStep(acts: seq<ActivityRow>, a: ActivityRow, t: string)
    ensures Count(Types(acts + [a]), t) == Count(Types(acts), t) + (if a.activityType == t then 1 else 0)
    ensures CompletedOf(acts + [a], t) ==
            CompletedOf(acts, t) + (if a.activityType == t && a.completed then 1 else 0)
  {
    var after := Types(acts + [a]);
    TypesAppend(acts, a);
    assert after[..|after| - 1] == Types(acts);
    assert (acts + [a])[..|acts|] == acts;
  }

  /** The dictionary after the loop body holds the tallies of the longer list. */
  lemma CountedTallies(acts: seq<ActivityRow>, a: ActivityRow, stats: map<string, Tallies>)
    requires forall t :: t in stats ==> stats[t] == Tallies(Count(Types(acts), t), CompletedOf(acts, t))
    requires forall t :: t in stats <==> t in Types(acts)
    ensures var next := Counted(stats, a);
      forall t :: t in next ==> next[t] == Tallies(Count(Types(acts + [a]), t), CompletedOf(acts + [a], t))
  {
    var next := Counted(stats, a);
    forall t | t in next
      ensures next[t] == Tallies(Count(Types(acts + [a]), t), CompletedOf(acts + [a], t))
    {
      TalliesStep(acts, a, t);
      if t != a.activityType {
        assert next[t] == stats[t];
      } else if t !in stats {
        assert Count(Types(acts), t) == 0;
        assert CompletedOf(acts, t) <= Count(Types(acts), t) by {
          CompletedAtMostTotal(acts, t);
        }
      }
    }
  }

  /** Counting one more activity keeps the grouping exact. */
  lemma GroupedStep(acts: seq<ActivityRow>, a: ActivityRow, stats: map<string, Tallies>, order: seq<string>)
    requires Grouped(acts, stats, order)
    ensures Grouped(acts + [a], Counted(stats, a), if a.activityType in stats then order else order + [a.activityType])
  {
    var before := Types(acts);
    var after := before + [a.activityType];
    TypesAppend(acts, a);
    assert after[..|after| - 1] == before;
    CountedTallies(acts, a, stats);
  }

  /** The loop's step, on the prefixes of the list. */
  lemma GroupedPrefixStep(acts: seq<ActivityRow>, i: nat, stats: map<string, Tallies>, order: seq<string>)
    requires i < |acts| && Grouped(acts[..i], stats, order)
    ensures var t := acts[i].activityType;
      Grouped(acts[..i + 1], Counted(stats, acts[i]), if t in stats then order else order + [t])
  {
    assert acts[..i + 1] == acts[..i] + [acts[i]];
    GroupedStep(acts[..i], acts[i], stats, order);
  }

  /** The grouping loop: per type the number of activities and of completed ones, the
      types in the order they are first met. */
  method GroupByType(acts: seq<ActivityRow>) returns (stats: map<string, Tallies>, order: seq<string>)
    ensures Grouped(acts, stats, order)
  {
    stats, order := map[], [];
    var i := 0;
    while i < |acts|
      invariant 0 <= i <= |acts|
      invariant Grouped(acts[..i], stats, order)
    {
      var a := acts[i];
      GroupedPrefixStep(acts, i, stats, order);
      if a.activityType !in stats {
        order := order + [a.activityType];
      }
      stats := Counted(stats, a);
      i := i + 1;
    }
    assert acts[..i] == acts;
  }

  /** Each type of the grouping's order has its tallies in the dictionary. */
  lemma GroupedLookup(acts: seq<ActivityRow>, stats: map<string, Tallies>, order: seq<string>, j: nat)
    requires Grouped(acts, stats, order) && j < |order|
    ensures order[j] in stats && stats[order[j]] == Tallies(Count(Types(acts), order[j]), CompletedOf(acts, order[j]))
  {
    assert order[j] in Distinct(Types(acts));
  }

  /** One entry of the listing, from the tallies of its type: the completion rate is the
      percentage of completed activities, 0 when the type has none. */
  method ProgressEntry(acts: seq<ActivityRow>, t: string, s: Tallies) returns (entry: TypeProgress)
    requires s == Tallies(Count(Types(acts), t), CompletedOf(acts, t))
    ensures entry == ProgressOf(acts, t)
  {
    var rate := 0.0;
    if s.total > 0 {
      rate := s.completed as real / s.total as real * 100.0;
    }
    entry := TypeProgress(t, s.total, s.completed, rate);
  }

  /** `get_wellness_progress`: 401 without a user; any failure inside the query becomes
      a 500 (`queryFails` stands for it); otherwise the listing of the caller's
      activities in the window. */
  method GetWellnessProgress(db: Store, currentUser: Option<UserRow>, start: nat, queryFails: bool)
    returns (r: Result<seq<TypeProgress>, HttpError>)
    ensures r == Failure(Unauthorized) <==> currentUser.None?
    ensures r == Failure(InternalServerError) <==> currentUser.Some? && queryFails
    ensures r.Success? <==> currentUser.Some? && !queryFails
    ensures r.Success? ==> r.value == Progress(UserActivities(db.activities, currentUser.value.id, start))
  {
    if currentUser.None? {
      return Failure(Unauthorized);
    }
    if queryFails {
      return Failure(InternalServerError);
    }
    var acts := UserActivities(db.activities, currentUser.value.id, start);
    var stats, order := GroupByType(acts);
    var result := ListEntries(acts, stats, order);
    r := Success(result);
  }

  /** The listing loop over the grouped dictionary, in its key order. */
  method ListEntries(acts: seq<ActivityRow>, stats: map<string, Tallies>, order: seq<string>)
    returns (result: seq<TypeProgress>)
    requires Grouped(acts, stats, order)
    ensures result == Progress(acts)
  {
    result := [];
    for j := 0 to |order|
      invariant result == Entries(acts, order[..j])
    {
      GroupedLookup(acts, stats, order, j);
      var entry := ProgressEntry(acts, order[j], stats[order[j]]);
      assert order[..j + 1][..j] == order[..j];
      result := result + [entry];
    }
    assert order[..|order|] == order;
  }

  /** Of the activities of one type, at most all are completed. */
  lemma {:induction false} CompletedAtMostTotal(acts: seq<ActivityRow>, t: string)
    ensures CompletedOf(acts, t) <= Count(Types(acts), t)
    decreases |acts|
  {
    if acts != [] {
      var init := acts[..|acts| - 1];
      assert acts == init + [acts[|acts| - 1]];
      TypesAppend(init, acts[|acts| - 1]);
      CompletedAtMostTotal(init, t);
    }
  }

  /** The totals of the entries added up. */
  function TotalOf(ps: seq<TypeProgress>): nat {
    if ps == [] then 0 else TotalOf(ps[..|ps| - 1]) + ps[|ps| - 1].total
  }

  /** Entries whose totals are the counts of the listed keys add up to the sum of
      those counts. */
  lemma {:induction false} TotalsAreCounts(ps: seq<TypeProgress>, d: seq<string>, types: seq<string>)
    requires |ps| == |d|
    requires forall k :: 0 <= k < |d| ==> ps[k].total == Count(types, d[k])
    ensures TotalOf(ps) == SumCounts(d, types)
    decreases |d|
  {
    if d != [] {
      TotalsAreCounts(ps[..|ps| - 1], d[..|d| - 1], types);
    }
  }

  /** Each entry of the progress listing is for a type met, counts at least one activity,
      no more completed ones than there are, and has a rate between 0 and 100. */
  lemma ProgressEntries(acts: seq<ActivityRow>)
    ensures var p := Progress(acts);
      forall k :: 0 <= k < |p| ==>
        && p[k] == ProgressOf(acts, p[k].activityType)
        && p[k].activityType in Types(acts)
        && 0 < p[k].total && p[k].completed <= p[k].total
        && 0.0 <= p[k].completionRate <= 100.0
  {
    var d := Distinct(Types(acts));
    var p := Progress(acts);
    EntriesAt(acts, d);
    forall k | 0 <= k < |p|
      ensures p[k] == ProgressOf(acts, p[k].activityType) && p[k].activityType in Types(acts)
      ensures 0 < p[k].total && p[k].completed <= p[k].total && 0.0 <= p[k].completionRate <= 100.0
    {
      assert p[k] == ProgressOf(acts, d[k]) && d[k] in d;
      CompletedAtMostTotal(acts, d[k]);
      PercentBounds(p[k].completed, p[k].total);
    }
  }

  /** Every activity's type has its entry. */
  lemma ProgressCovers(acts: seq<ActivityRow>, i: nat) returns (k: nat)
    requires i < |acts|
    ensures k < |Progress(acts)| && Progress(acts)[k].activityType == acts[i].activityType
  {
    var types := Types(acts);
    var d := Distinct(types);
    assert types[i] == acts[i].activityType && types[i] in types;
    EntriesAt(acts, d);
    k :| k < |d| && d[k] == types[i];
  }

  /** The entries list each type once, in the order the types are first met. */
  lemma ProgressOrder(acts: seq<ActivityRow>)
    ensures var p := Progress(acts);
      && (forall a, b :: 0 <= a < b < |p| ==> p[a].activityType != p[b].activityType)
      && (forall a, b :: 0 <= a < b < |p| ==> SeenBefore(Types(acts), p[a].activityType, p[b].activityType))
  {
    var types := Types(acts);
    var d := Distinct(types);
    var p := Progress(acts);
    DistinctOrder(types);
    DistinctNoDuplicates(types);
    EntriesAt(acts, d);
    assert forall k :: 0 <= k < |p| ==> p[k].activityType == d[k];
  }

  /** The totals of the entries add up to the number of activities: grouping loses none
      and counts none twice. */
  lemma ProgressTotals(acts: seq<ActivityRow>)
    ensures TotalOf(Progress(acts)) == |acts|
  {
    var types := Types(acts);
    EntriesAt(acts, Distinct(types));
    TotalsAreCounts(Progress(acts), Distinct(types), types);
    CountsAddUp(types);
  }
}
