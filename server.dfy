/** The decision logic of the back end (backend/server.js): the mood scale, the
    weekday/weekend insight engine behind `GET /api/insights`, the Bearer-header
    check of the authentication middleware and the field builder of
    `PUT /api/profile`. Routing, storage, hashing and token signing are not
    part of this module. */
module Server {
  import opened Wrappers
  import opened JsStrings

  // ---------------------------------------------------------------------------
  // Mood scale

  /** An ordinal mood value. */
  type MoodValue = v: int | 1 <= v <= 5 witness 3

  /** `moodToValue`: the five scored labels map to 1..5; every other label,
      among them "Mixed" and "Journal Entry", is neutral (3). */
  function MoodToValue(mood: string): (v: MoodValue)
    ensures v == 1 <==> mood == "Terrible"
    ensures v == 2 <==> mood == "Down"
    ensures v == 4 <==> mood == "Good"
    ensures v == 5 <==> mood == "Amazing"
    ensures mood == "Okay" || mood == "Mixed" || mood == "Journal Entry" ==> v == 3
  {
    match mood
    case "Terrible" => 1
    case "Down" => 2
    case "Okay" => 3
    case "Good" => 4
    case "Amazing" => 5
    case _ => 3
  }

  // ---------------------------------------------------------------------------
  // Mood records and the weekday/weekend buckets

  /** A day of the week as `Date.prototype.getDay` numbers it: 0 is Sunday,
      6 is Saturday. */
  type DayOfWeek = d: int | 0 <= d <= 6

  /** A stored mood log as the insight engine sees it; the day of the week of
      its creation time is given directly instead of a timestamp. */
  datatype MoodRecord = MoodRecord(mood: string, notes: Option<string>, dayOfWeek: DayOfWeek)

  /** Sunday and Saturday; Monday to Friday are weekdays. */
  predicate IsWeekend(d: DayOfWeek): (weekend: bool)
    ensures weekend <==> !(1 <= d <= 5)
  {
    d == 0 || d == 6
  }

  /** All the engine uses of one record: its value and its bucket. */
  datatype Observation = Observation(value: MoodValue, weekend: bool)

  function Observe(r: MoodRecord): (o: Observation)
    ensures o.weekend <==> !(1 <= r.dayOfWeek <= 5)
    ensures o.value == 3 <==> r.mood != "Terrible" && r.mood != "Down" && r.mood != "Good" && r.mood != "Amazing"
  {
    Observation(MoodToValue(r.mood), IsWeekend(r.dayOfWeek))
  }

  function Observations(history: seq<MoodRecord>): seq<Observation> {
    seq(|history|, i requires 0 <= i < |history| => Observe(history[i]))
  }

  /** The four accumulators of the engine. */
  datatype Buckets = Buckets(weekdayTotal: int, weekendTotal: int, weekdayCount: nat, weekendCount: nat)

  const NoBuckets := Buckets(0, 0, 0, 0)

  /** One step of the accumulation: the observation goes into the weekend
      bucket or the weekday bucket. */
  function Add(b: Buckets, o: Observation): (r: Buckets)
    ensures r.weekdayCount + r.weekendCount == b.weekdayCount + b.weekendCount + 1
    ensures r.weekdayTotal + r.weekendTotal == b.weekdayTotal + b.weekendTotal + o.value
    ensures o.weekend ==> r.weekdayTotal == b.weekdayTotal && r.weekdayCount == b.weekdayCount
    ensures !o.weekend ==> r.weekendTotal == b.weekendTotal && r.weekendCount == b.weekendCount
  {
    if o.weekend then
      b.(weekendTotal := b.weekendTotal + o.value, weekendCount := b.weekendCount + 1)
    else
      b.(weekdayTotal := b.weekdayTotal + o.value, weekdayCount := b.weekdayCount + 1)
  }

  /** The accumulators after the observations have been added in order. */
  function Tally(obs: seq<Observation>): (b: Buckets)
    ensures b.weekdayCount + b.weekendCount == |obs|
    decreases |obs|
  {
    if |obs| == 0 then NoBuckets else Add(Tally(obs[..|obs| - 1]), obs[|obs| - 1])
  }

  /** Every observation lands in one bucket, and each bucket's total lies
      between its count and five times its count. */
  lemma {:induction false} TallyBounds(obs: seq<Observation>)
    ensures Tally(obs).weekdayCount + Tally(obs).weekendCount == |obs|
    ensures Tally(obs).weekdayCount <= Tally(obs).weekdayTotal <= 5 * Tally(obs).weekdayCount
    ensures Tally(obs).weekendCount <= Tally(obs).weekendTotal <= 5 * Tally(obs).weekendCount
    decreases |obs|
  {
    if |obs| > 0 {
      TallyBounds(obs[..|obs| - 1]);
    }
  }

  /** Bucket-wise sum of two sets of accumulators. */
  function Merge(a: Buckets, b: Buckets): Buckets {
    Buckets(a.weekdayTotal + b.weekdayTotal, a.weekendTotal + b.weekendTotal,
            a.weekdayCount + b.weekdayCount, a.weekendCount + b.weekendCount)
  }

  /** The mean of a bucket, 0 for an empty bucket. Division is exact here. */
  function Average(total: int, count: nat): (r: real)
    ensures count == 0 ==> r == 0.0
    ensures count > 0 ==> r * count as real == total as real
  {
    if count > 0 then total as real / count as real else 0.0
  }

  function WeekdayAverage(b: Buckets): real {
    Average(b.weekdayTotal, b.weekdayCount)
  }

  function WeekendAverage(b: Buckets): real {
    Average(b.weekendTotal, b.weekendCount)
  }

  // ---------------------------------------------------------------------------
  // Classification and texts

  /** Fewer records than this give no insight. */
  const MinRecords: nat := 3

  /** The margin by which one bucket's mean must exceed the other's. */
  const Margin: real := 0.5

  datatype Pattern = WeekdaysHigher | WeekendsHigher | Stable

  /** The if / else-if / else of the engine: exactly one outcome, the first
      two only when the gap is strictly more than the margin. */
  function Classify(avgWeekday: real, avgWeekend: real): (p: Pattern)
    ensures p == WeekdaysHigher <==> avgWeekday > avgWeekend + Margin
    ensures p == WeekendsHigher <==> avgWeekend > avgWeekday + Margin
    ensures p == Stable <==> -Margin <= avgWeekday - avgWeekend <= Margin
  {
    if avgWeekday > avgWeekend + Margin then WeekdaysHigher
    else if avgWeekend > avgWeekday + Margin then WeekendsHigher
    else Stable
  }

  datatype Insight = Insight(insightText: string, patternText: string)

  /** The values `insightText` and `patternText` start with; every branch
      overwrites them. */
  const InitialInsight := Insight("Focus on consistency this week!", "Try a 5-minute break around 3 PM.")

  const WeekdaysHigherInsight := Insight(
    "You thrive on structure! Weekday moods are higher. Try to plan activities on weekends.",
    "Your mood dips on the weekend. Plan a social call on Saturday!")

  const WeekendsHigherInsight := Insight(
    "You love relaxation! Weekend moods are highest. Look for quick ways to de-stress during the week.",
    "Your mood dips during the workweek. Take a short walk at lunch.")

  const StableInsight := Insight(
    "Your mood is stable! Keep up the good work and log those notes.",
    "Focus on logging notes to find micro-patterns!")

  /** The texts of each outcome; each pair belongs to exactly one outcome. */
  function PatternInsight(p: Pattern): (r: Insight)
    ensures r == WeekdaysHigherInsight <==> p == WeekdaysHigher
    ensures r == WeekendsHigherInsight <==> p == WeekendsHigher
    ensures r == StableInsight <==> p == Stable
  {
    OutcomesDistinct();
    match p
    case WeekdaysHigher => WeekdaysHigherInsight
    case WeekendsHigher => WeekendsHigherInsight
    case Stable => StableInsight
  }

  /** No outcome is the initial pair: every branch overwrites both texts
      with texts of other lengths. */
  lemma PatternInsightNotInitial(p: Pattern)
    ensures PatternInsight(p).insightText != InitialInsight.insightText
    ensures PatternInsight(p).patternText != InitialInsight.patternText
  {
  }

  /** The three outcomes carry three different pairs of texts, so the text
      the engine returns tells which outcome was chosen. */
  lemma OutcomesDistinct()
    ensures WeekdaysHigherInsight != WeekendsHigherInsight
    ensures WeekdaysHigherInsight != StableInsight
    ensures WeekendsHigherInsight != StableInsight
  {
    assert |WeekdaysHigherInsight.patternText| != |WeekendsHigherInsight.patternText|;
    assert |WeekdaysHigherInsight.patternText| != |StableInsight.patternText|;
    assert |WeekendsHigherInsight.patternText| != |StableInsight.patternText|;
  }

  // ---------------------------------------------------------------------------
  // The engine

  /** What `generateDynamicInsights` returns, as a function of the history:
      nothing below three records, otherwise the texts of the pattern the two
      bucket means select. */
  function InsightsOf(history: seq<MoodRecord>): (r: Option<Insight>)
    ensures r.None? <==> |history| < MinRecords
    ensures r.Some? ==> r.value != InitialInsight
  {
    if |history| < MinRecords then None
    else
      var b := Tally(Observations(history));
      PatternInsightNotInitial(Classify(WeekdayAverage(b), WeekendAverage(b)));
      Some(PatternInsight(Classify(WeekdayAverage(b), WeekendAverage(b))))
  }

  /** `generateDynamicInsights`: one pass over the history accumulating the
      weekday and weekend totals and counts, then the classification of the
      two means. The history is a value and is not changed. */
  method GenerateDynamicInsights(history: seq<MoodRecord>) returns (r: Option<Insight>)
    ensures r == InsightsOf(history)
  {
    if |history| < MinRecords {
      return None;
    }
    ghost var obs := Observations(history);
    var totalWeekdayMood: int, totalWeekendMood: int := 0, 0;
    var weekdayCount: nat, weekendCount: nat := 0, 0;
    var i := 0;
    while i < |history|
      invariant 0 <= i <= |history|
      invariant Buckets(totalWeekdayMood, totalWeekendMood, weekdayCount, weekendCount) == Tally(obs[..i])
    {
      var value := MoodToValue(history[i].mood);
      var dayOfWeek := history[i].dayOfWeek;
      TallyStep(history, i);
      if dayOfWeek == 0 || dayOfWeek == 6 {
        totalWeekendMood := totalWeekendMood + value;
        weekendCount := weekendCount + 1;
      } else {
        totalWeekdayMood := totalWeekdayMood + value;
        weekdayCount := weekdayCount + 1;
      }
      i := i + 1;
    }
    assert obs[..|history|] == obs;
    var avgWeekday := Average(totalWeekdayMood, weekdayCount);
    var avgWeekend := Average(totalWeekendMood, weekendCount);
    InsightsOfUnfold(history);
    var insightText := InitialInsight.insightText;
    var patternText := InitialInsight.patternText;
    if avgWeekday > avgWeekend + Margin {
      insightText, patternText := WeekdaysHigherInsight.insightText, WeekdaysHigherInsight.patternText;
    } else if avgWeekend > avgWeekday + Margin {
      insightText, patternText := WeekendsHigherInsight.insightText, WeekendsHigherInsight.patternText;
    } else {
      insightText, patternText := StableInsight.insightText, StableInsight.patternText;
    }
    r := Some(Insight(insightText, patternText));
  }

  /** `InsightsOf` for a long enough history, spelled out over the means. */
  lemma InsightsOfUnfold(history: seq<MoodRecord>)
    requires |history| >= MinRecords
    ensures var b := Tally(Observations(history));
      var p := Classify(Average(b.weekdayTotal, b.weekdayCount), Average(b.weekendTotal, b.weekendCount));
      InsightsOf(history) == Some(PatternInsight(p))
  {
  }

  /** For a long enough history, each text is returned exactly under the
      condition of its branch: the weekday text when the weekday mean is more
      than 0.5 above the weekend mean, the weekend text in the mirror case,
      and the stable text when the gap is within 0.5 either way. */
  lemma InsightTexts(history: seq<MoodRecord>)
    requires |history| >= MinRecords
    ensures var b := Tally(Observations(history));
      InsightsOf(history) == Some(WeekdaysHigherInsight) <==> WeekdayAverage(b) > WeekendAverage(b) + Margin
    ensures var b := Tally(Observations(history));
      InsightsOf(history) == Some(WeekendsHigherInsight) <==> WeekendAverage(b) > WeekdayAverage(b) + Margin
    ensures var b := Tally(Observations(history));
      InsightsOf(history) == Some(StableInsight) <==> -Margin <= WeekdayAverage(b) - WeekendAverage(b) <= Margin
  {
    OutcomesDistinct();
  }

  /** One more record of the history adds its observation to the
      accumulators. */
  lemma TallyStep(history: seq<MoodRecord>, i: nat)
    requires i < |history|
    ensures Tally(Observations(history)[..i + 1]) ==
      Add(Tally(Observations(history)[..i]), Observation(MoodToValue(history[i].mood), IsWeekend(history[i].dayOfWeek)))
  {
    var obs := Observations(history);
    assert obs[..i + 1][..i] == obs[..i];
  }

  // ---------------------------------------------------------------------------
  // Properties of the engine

  /** Accumulating a concatenation is merging the accumulators of its parts. */
  lemma {:induction false} TallyAppend(s: seq<Observation>, t: seq<Observation>)
    ensures Tally(s + t) == Merge(Tally(s), Tally(t))
    decreases |t|
  {
    if |t| == 0 {
      assert s + t == s;
    } else {
      var t' := t[..|t| - 1];
      var x := t[|t| - 1];
      var u := s + t;
      assert Tally(u) == Add(Tally(s + t'), x) by {
        assert u[..|u| - 1] == s + t';
        assert u[|u| - 1] == x;
      }
      TallyAppend(s, t');
      AddMerge(Tally(s), Tally(t'), x);
    }
  }

  /** Adding an observation after a merge adds it to the second part. */
  lemma AddMerge(a: Buckets, b: Buckets, x: Observation)
    ensures Add(Merge(a, b), x) == Merge(a, Add(b, x))
  {
  }

  /** The accumulators depend only on the multiset of observations. */
  lemma {:induction false} TallyPermutation(a: seq<Observation>, b: seq<Observation>)
    requires multiset(a) == multiset(b)
    ensures Tally(a) == Tally(b)
    decreases |a|
  {
    if |a| == 0 {
      assert |b| == |multiset(b)| == 0;
    } else {
      var x := a[|a| - 1];
      var a' := a[..|a| - 1];
      assert a == a' + [x];
      assert x in multiset(b);
      var j :| 0 <= j < |b| && b[j] == x;
      var b' := b[..j] + b[j + 1..];
      assert b == b[..j] + [x] + b[j + 1..];
      assert multiset(b') == multiset(b) - multiset{x};
      assert multiset(a') == multiset(a) - multiset{x};
      TallyPermutation(a', b');
      TallyAppend(b[..j], [x]);
      TallyAppend(b[..j] + [x], b[j + 1..]);
      TallyAppend(b[..j], b[j + 1..]);
      assert Tally([x]) == Add(NoBuckets, x) by {
        assert [x][..0] == [];
      }
      var front, back := Tally(b[..j]), Tally(b[j + 1..]);
      assert Tally(b) == Merge(Merge(front, Add(NoBuckets, x)), back);
      assert Tally(a) == Add(Merge(front, back), x);
      AddAnywhere(front, back, x);
    }
  }

  /** Where in a sequence an observation is added does not matter. */
  lemma AddAnywhere(a: Buckets, b: Buckets, x: Observation)
    ensures Merge(Merge(a, Add(NoBuckets, x)), b) == Add(Merge(a, b), x)
  {
  }

  /** Reordering the history, or changing anything of a record other than
      its value and bucket, does not change the insight. */
  lemma InsightsOrderIndependent(h1: seq<MoodRecord>, h2: seq<MoodRecord>)
    requires multiset(Observations(h1)) == multiset(Observations(h2))
    ensures InsightsOf(h1) == InsightsOf(h2)
  {
    assert |h1| == |Observations(h1)| == |multiset(Observations(h1))|;
    assert |h2| == |Observations(h2)| == |multiset(Observations(h2))|;
    TallyPermutation(Observations(h1), Observations(h2));
  }

  /** Indices of the records created on a Saturday or a Sunday. */
  function WeekendIndices(history: seq<MoodRecord>): set<int> {
    set i | 0 <= i < |history| && IsWeekend(history[i].dayOfWeek)
  }

  /** The weekend count is the number of weekend records, and so the weekday
      count is the number of the others. */
  lemma {:induction false} WeekendCountMatchesRecords(history: seq<MoodRecord>)
    ensures Tally(Observations(history)).weekendCount == |WeekendIndices(history)|
    ensures Tally(Observations(history)).weekdayCount == |history| - |WeekendIndices(history)|
    decreases |history|
  {
    if |history| > 0 {
      var n := |history| - 1;
      var h' := history[..n];
      WeekendCountMatchesRecords(h');
      assert Observations(history)[..n] == Observations(h');
      assert WeekendIndices(history) ==
        WeekendIndices(h') + (if IsWeekend(history[n].dayOfWeek) then {n} else {});
    }
  }

  /** Only weekend observations: the weekday bucket stays empty. */
  lemma {:induction false} AllWeekendTally(obs: seq<Observation>)
    requires forall i :: 0 <= i < |obs| ==> obs[i].weekend
    ensures Tally(obs).weekdayCount == 0 && Tally(obs).weekendCount == |obs|
    decreases |obs|
  {
    if |obs| > 0 {
      AllWeekendTally(obs[..|obs| - 1]);
    }
  }

  /** Only weekday observations: the weekend bucket stays empty. */
  lemma {:induction false} AllWeekdayTally(obs: seq<Observation>)
    requires forall i :: 0 <= i < |obs| ==> !obs[i].weekend
    ensures Tally(obs).weekendCount == 0 && Tally(obs).weekdayCount == |obs|
    decreases |obs|
  {
    if |obs| > 0 {
      AllWeekdayTally(obs[..|obs| - 1]);
    }
  }

  /** The mean of a non-empty bucket is at least 1. */
  lemma AverageAtLeastOne(total: int, count: nat)
    requires 0 < count <= total
    ensures Average(total, count) >= 1.0
  {
  }

  /** A history of weekend records only always gives the weekend text: the
      empty weekday bucket averages 0, and every value is at least 1. */
  lemma OnlyWeekendRecords(history: seq<MoodRecord>)
    requires |history| >= MinRecords
    requires forall i :: 0 <= i < |history| ==> IsWeekend(history[i].dayOfWeek)
    ensures InsightsOf(history) == Some(PatternInsight(WeekendsHigher))
  {
    var obs := Observations(history);
    AllWeekendTally(obs);
    TallyBounds(obs);
    var b := Tally(obs);
    AverageAtLeastOne(b.weekendTotal, b.weekendCount);
  }

  /** Symmetrically, weekday records only always give the weekday text. */
  lemma OnlyWeekdayRecords(history: seq<MoodRecord>)
    requires |history| >= MinRecords
    requires forall i :: 0 <= i < |history| ==> !IsWeekend(history[i].dayOfWeek)
    ensures InsightsOf(history) == Some(PatternInsight(WeekdaysHigher))
  {
    var obs := Observations(history);
    AllWeekdayTally(obs);
    TallyBounds(obs);
    var b := Tally(obs);
    AverageAtLeastOne(b.weekdayTotal, b.weekdayCount);
  }

  // ---------------------------------------------------------------------------
  // GET /api/insights

  /** The JSON body of a 200 answer: `{hasData:false}` or
      `{hasData:true, insightText, patternText}`. */
  datatype InsightsBody = NoData | WithData(insightText: string, patternText: string) {
    predicate HasData() {
      WithData?
    }
  }

  /** The handler, after the history has been read from storage. */
  method InsightsHandler(history: seq<MoodRecord>) returns (body: InsightsBody)
    ensures !body.HasData() <==> |history| < MinRecords
    ensures body.HasData() ==> InsightsOf(history) == Some(Insight(body.insightText, body.patternText))
  {
    var insights := GenerateDynamicInsights(history);
    if insights.None? {
      return NoData;
    }
    body := WithData(insights.value.insightText, insights.value.patternText);
  }

  // ---------------------------------------------------------------------------
  // Authentication middleware

  /** An error answer: HTTP status and message. */
  datatype HttpError = HttpError(status: int, message: string)

  const BearerPrefix := "Bearer "

  /** The token of an `Authorization` header: absent when the header is
      missing or does not start with "Bearer "; otherwise the second
      space-separated field, that is the characters after the prefix up to
      the next space or the end. */
  function BearerToken(header: Option<string>): (token: Option<string>)
    ensures token.None? <==> header.None? || !StartsWith(header.value, BearerPrefix)
    ensures token.Some? ==>
      var rest := header.value[|BearerPrefix|..];
      ' ' !in token.value && StartsWith(rest, token.value) &&
      (|rest| == |token.value| || rest[|token.value|] == ' ')
  {
    match header
    case None => None
    case Some(h) =>
      if h == "" || !StartsWith(h, BearerPrefix) then None
      else
        BearerSplit(h);
        FirstPiece(h[|BearerPrefix|..], ' ');
        Some(Split(h, ' ')[1])
  }

  /** A header that starts with "Bearer " splits into "Bearer" and the
      pieces of what follows. */
  lemma BearerSplit(h: string)
    requires StartsWith(h, BearerPrefix)
    ensures |Split(h, ' ')| >= 2
    ensures Split(h, ' ')[1] == Split(h[|BearerPrefix|..], ' ')[0]
  {
    var rest := h[|BearerPrefix|..];
    assert h == "Bearer" + [' '] + rest;
    SplitAfterField("Bearer", ' ', rest);
    FirstPiece(rest, ' ');
  }

  /** `authenticateUser`: 401 without a Bearer header, otherwise the token
      is handed to the token verifier (`jwt.verify`, a parameter here), whose
      failure answers 400 and whose success yields the user id. */
  function Authenticate(header: Option<string>, verify: string -> Option<string>): (r: Result<string, HttpError>)
    ensures r.Failure? && r.error.status == 401 <==> BearerToken(header).None?
    ensures r.Success? <==> BearerToken(header).Some? && verify(BearerToken(header).value).Some?
    ensures r.Success? ==> r.value == verify(BearerToken(header).value).value
    ensures r.Failure? ==> r.error.status == 401 || r.error.status == 400
  {
    match BearerToken(header)
    case None => Failure(HttpError(401, "Access denied. No token provided."))
    case Some(token) =>
      match verify(token)
      case None => Failure(HttpError(400, "Invalid token or session expired."))
      case Some(userId) => Success(userId)
  }

  // ---------------------------------------------------------------------------
  // PUT /api/profile

  /** JavaScript truthiness of an optional string body field: present and
      non-empty. */
  predicate Truthy(field: Option<string>): (truthy: bool)
    ensures !truthy <==> field == None || field == Some("")
  {
    field.Some? && field.value != ""
  }

  /** The `updateFields` object of `PUT /api/profile`: exactly the truthy
      fields among `fullName` and `phoneNumber`, each with its value; 400 when
      there is none. */
  method BuildUpdateFields(fullName: Option<string>, phoneNumber: Option<string>)
    returns (r: Result<map<string, string>, HttpError>)
    ensures r.Failure? <==> !Truthy(fullName) && !Truthy(phoneNumber)
    ensures r.Failure? ==> r.error.status == 400
    ensures r.Success? ==> forall key :: key in r.value <==>
      (key == "fullName" && Truthy(fullName)) || (key == "phoneNumber" && Truthy(phoneNumber))
    ensures r.Success? && Truthy(fullName) ==> r.value["fullName"] == fullName.value
    ensures r.Success? && Truthy(phoneNumber) ==> r.value["phoneNumber"] == phoneNumber.value
  {
    var updateFields: map<string, string> := map[];
    if Truthy(fullName) {
      updateFields := updateFields["fullName" := fullName.value];
    }
    if Truthy(phoneNumber) {
      updateFields := updateFields["phoneNumber" := phoneNumber.value];
    }
    if |updateFields| == 0 {
      return Failure(HttpError(400, "No fields provided for update."));
    }
    r := Success(updateFields);
  }
}
