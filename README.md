# AuraCare decision logic in Dafny

AuraCare is a mental-health check-in application: users log moods, read an
insight about their mood pattern, do a box-breathing exercise and keep a
support circle. This project models the parts of it that make decisions and
proves properties of them.

- **Mood insights** (`backend/server.js`), in module `Server`:
  - the mood scale `moodToValue`;
  - the weekday/weekend insight engine `generateDynamicInsights`;
  - the `{hasData}` wrapping of `GET /api/insights`;
  - the Bearer-header check of the `authenticateUser` middleware;
  - the `updateFields` builder of `PUT /api/profile`.

  The JavaScript `startsWith` and `split` that the Bearer check uses are in
  module `JsStrings`, with a `Join` that serves only to state that `split`
  loses nothing. `Option` and `Result` are in module `Wrappers`.
- **Box breathing** (`src/BreathingExercise.jsx`), in module `Breathing`.
  It has the phase successor and its duration, the countdown tick, the phase
  labels, and a class `BreathingExercise` holding the `phase` and `count`
  state.
- **Mood check-in form** (`src/MoodLog.jsx`), in module `MoodLog`. A class
  `MoodForm` holds `selectedMood` and `notes`. Its methods are the mood
  selection, note editing and saving. Saving returns the request sent, the
  alert shown and the route navigated to.

The insight engine is a method with a loop, like the source's `forEach` with
four accumulators. It is proved equal to `InsightsOf`, a function defined by
the recursive accumulation `Tally`. The properties of the engine are proved
about `InsightsOf`: the three-record gate, one bucket per record, order
independence, the 0.5 margin, and the fact that the initial texts are never
returned.

A history is a `seq` of records. It is a value, so the engine cannot change
it. Each record carries the day of the week of its creation time (0 = Sunday,
6 = Saturday) instead of a timestamp. Bucket means are exact `real`
divisions.

In `backend/server.js` the weekday/weekend comparison is the whole insight
engine: there is no trend comparison over recent records, no keyword
spotting in notes and no generative-text adapter.

## Model

| member | source | states |
|---|---|---|
| `Server.MoodToValue` | backend/server.js:52-61 | Terrible, Down, Good and Amazing score 1, 2, 4 and 5, each exactly for that label. Okay, Mixed and Journal Entry score 3. Every result lies in 1..5, so every other label scores 3. |
| `Server.IsWeekend` | backend/server.js:77 | A day is a weekend day exactly when it is not Monday to Friday (1..5). |
| `Server.Observe` | backend/server.js:74-75 | A record goes to the weekend bucket exactly when its day is not Monday to Friday. Its value is the neutral 3 exactly when its mood is none of Terrible, Down, Good and Amazing. |
| `Server.Add` | backend/server.js:77-83 | One step adds one to the total count and the record's value to the total of all moods. The bucket the record does not go into is left unchanged. |
| `Server.Tally` | backend/server.js:73-84 | After the accumulation the two counts add up to the number of observations. |
| `Server.Average` | backend/server.js:86-87 | An empty bucket averages 0. Otherwise the mean times the count is the total. |
| `Server.TallyBounds` | backend/server.js:68-84 | Every observation lands in exactly one bucket, so the two counts add up to the length. Each bucket total lies between its count and five times its count. |
| `Server.Classify` | backend/server.js:92-101 | The weekday outcome holds iff the weekday mean exceeds the weekend mean by more than 0.5. The weekend outcome is the mirror case. Stable holds iff the gap is within ±0.5, so a gap of exactly 0.5 is stable. |
| `Server.PatternInsightNotInitial` | backend/server.js:89-101 | No outcome carries the initial "Focus on consistency this week!" or "Try a 5-minute break around 3 PM." text. |
| `Server.PatternInsight` | backend/server.js:92-101 | Each outcome has its own pair of texts: a pair is the weekday, weekend or stable pair exactly for that outcome. |
| `Server.OutcomesDistinct` | backend/server.js:92-101 | The weekday, weekend and stable outcomes carry three different pairs of texts. |
| `Server.InsightTexts` | backend/server.js:86-101 | With 3 or more records, the weekday text is returned exactly when the weekday mean exceeds the weekend mean by more than 0.5, the weekend text exactly in the mirror case, and the stable text exactly when the gap is within ±0.5. |
| `Server.InsightsOf` | backend/server.js:63-104 | No insight exactly when the history has fewer than 3 records. An insight is never the initial pair of texts. |
| `Server.GenerateDynamicInsights` | backend/server.js:63-104 | The one-pass loop with four accumulators returns exactly `InsightsOf(history)`. |
| `Server.TallyAppend` | backend/server.js:73-84 | Accumulating a concatenation gives the bucket-wise sum of accumulating its parts. |
| `Server.TallyPermutation` | backend/server.js:73-84 | Sequences of observations with equal multisets give equal accumulators. |
| `Server.InsightsOrderIndependent` | backend/server.js:73-87 | Two histories with the same multiset of (value, weekend) pairs give the same insight. Record order, notes and the exact mood label do not matter. |
| `Server.WeekendCountMatchesRecords` | backend/server.js:75-83 | The weekend count is the number of records whose day is 0 or 6. The weekday count is the number of the others. |
| `Server.AllWeekendTally` | backend/server.js:77-79 | With only weekend observations, the weekday bucket stays empty. |
| `Server.AllWeekdayTally` | backend/server.js:80-83 | With only weekday observations, the weekend bucket stays empty. |
| `Server.AverageAtLeastOne` | backend/server.js:86-87 | The mean of a non-empty bucket whose total is at least its count is at least 1. |
| `Server.OnlyWeekendRecords` | backend/server.js:86-97 | With 3 or more records and none on a weekday, the result is the "weekend moods are highest" text. The empty weekday bucket averages 0 and every value is at least 1. |
| `Server.OnlyWeekdayRecords` | backend/server.js:86-94 | With 3 or more records and none on a weekend, the result is the "weekday moods are higher" text. |
| `Server.InsightsHandler` | backend/server.js:200-204 | The body has no data exactly when the history has fewer than 3 records. Otherwise it carries the texts of `InsightsOf(history)`. |
| `Server.BearerToken` | backend/server.js:110-116 | No token exactly when the header is missing or does not start with "Bearer ". Otherwise the token has no space, comes right after the prefix and runs to the next space or to the end. |
| `Server.BearerSplit` | backend/server.js:116 | A header starting with "Bearer " splits into at least two fields. The second field is the first field of what follows the prefix. |
| `Server.Authenticate` | backend/server.js:109-125 | 401 exactly when there is no Bearer token. Success exactly when the token verifier accepts the token, and then the result is the verifier's user id. Every other failure is 400. |
| `Server.Truthy` | backend/server.js:228-229 | An optional string field is falsy exactly when it is absent or the empty string. |
| `Server.BuildUpdateFields` | backend/server.js:226-231 | 400 exactly when neither `fullName` nor `phoneNumber` is a non-empty string. Otherwise the keys are exactly the non-empty fields, each with its given value. |
| `JsStrings.StartsWith` | backend/server.js:112 | A string starts with a prefix exactly when it is at least as long and agrees with it character by character; it is then the prefix followed by the rest. |
| `JsStrings.Split` | backend/server.js:116 | A split has at least one piece and no piece contains the separator. There is one piece more than there are separators. |
| `JsStrings.JoinSplit` | backend/server.js:116 | Joining the pieces of a split with the separator gives back the string. |
| `JsStrings.SplitJoin` | backend/server.js:116 | Splitting a join of separator-free pieces gives back the pieces. |
| `JsStrings.FirstPiece` | backend/server.js:116 | The first piece is a prefix of the string and ends at the first separator or at the end of the string. |
| `JsStrings.SplitAfterField` | backend/server.js:116 | A separator-free field followed by a separator is split off as the first piece. |
| `JsStrings.SplitFree` | backend/server.js:116 | A string without the separator splits into itself alone. |
| `Breathing.PlanFor` | src/BreathingExercise.jsx:17-29 | The successor is always one of the four named phases and the duration is always 4. A phase other than breathe in, hold and breathe out goes to breathe in. |
| `Breathing.NextPhase` | src/BreathingExercise.jsx:17-29 | The successor of any phase is one of the four named phases and differs from the phase itself. |
| `Breathing.NextPhaseFollowsCycle` | src/BreathingExercise.jsx:17-29 | The successor of the i-th phase of breathe in, hold, breathe out, hold out is phase i+1 mod 4. |
| `Breathing.FourPhasesReturn` | src/BreathingExercise.jsx:17-29 | Four successors bring each named phase back to itself. |
| `Breathing.Step` | src/BreathingExercise.jsx:34-43 | A tick keeps a named phase with a count in 1..4. The phase changes only on a tick at count 1, and the new count is then 4. |
| `Breathing.RunAdditive` | src/BreathingExercise.jsx:34-43 | a ticks followed by b ticks are a+b ticks. |
| `Breathing.ReachableStatesValid` | src/BreathingExercise.jsx:34-43 | From a valid state, any number of ticks leaves a named phase and a count in 1..4. |
| `Breathing.PhaseLastsFourTicks` | src/BreathingExercise.jsx:34-43 | From a full countdown, the phase shows 3, 2 and 1 and then gives way to its successor with 4. |
| `Breathing.FullBox` | src/BreathingExercise.jsx:13-43 | Sixteen ticks from a named phase with a full countdown return to that exact state. |
| `Breathing.PhaseLabel` | src/BreathingExercise.jsx:51-56 | A phase has a display label exactly when it is one of the four named phases. |
| `Breathing.BreathingExercise.constructor` | src/BreathingExercise.jsx:6-7 | The exercise starts at breathe in with count 4. |
| `Breathing.BreathingExercise.Tick` | src/BreathingExercise.jsx:34-43 | The new state is `Step` of the old one, and a valid state stays valid. |
| `Breathing.BreathingExercise.Label` | src/BreathingExercise.jsx:66 | A valid exercise always has a label for its phase. |
| `MoodLog.MoodToSave` | src/MoodLog.jsx:69 | The stored mood is "Journal Entry" exactly when the selection is Mixed (or already "Journal Entry"). Otherwise it is the selection unchanged. |
| `MoodLog.RouteAfterSave` | src/MoodLog.jsx:84-88 | The route is /resources/journaling exactly when the selection is Mixed, and /dashboard otherwise. |
| `MoodLog.SavedMoodScore` | src/MoodLog.jsx:69 | Storing a mood never changes its score in the insight engine: Mixed is stored as "Journal Entry", and both score the neutral 3. |
| `MoodLog.AuthorizationRoundTrip` | src/MoodLog.jsx:76 | The server extracts back exactly the token that the form put into its "Bearer " header, for any token without a space. |
| `MoodLog.MoodForm.constructor` | src/MoodLog.jsx:10-11 | The form starts with no selection and empty notes. |
| `MoodLog.MoodForm.SelectMood` | src/MoodLog.jsx:46-54 | The selection becomes the label. Mixed installs the reflection template. Leaving Mixed clears the notes. Any other change keeps them. |
| `MoodLog.MoodForm.EditNotes` | src/MoodLog.jsx:129 | The notes become the typed text and nothing else changes. |
| `MoodLog.MoodForm.Save` | src/MoodLog.jsx:56-95 | No request without a selection or without a token. A missing token leads to /login with the session-expired alert. A sent request carries "Bearer " plus the token, the stored mood and the notes. Navigation happens exactly when the server accepts, and goes to `RouteAfterSave`. Each outcome shows its own alert. |

## Left out

- Express routing, Mongoose queries (`find`, `sort`, `limit(7)`), bcrypt, signup, login, `GET /api/profile/:userId`, `POST /api/support-circle`, `POST /api/moodlog` persistence and the 500 answers: these are I/O and foreign libraries.
- `jwt.verify` is a function parameter of `Server.Authenticate`. It returns the user id or nothing, and nothing stands for a thrown exception.
- Timestamps and time zones: each record carries its day of the week directly, in place of `new Date(createdAt).getDay()`.
- IEEE floating point: bucket means are exact `real` divisions, so rounding of JavaScript numbers near the 0.5 margin is not modelled.
- Request body fields are optional strings. Truthiness of non-string JSON values (numbers, booleans, objects) is not modelled.
- Breathing timing: `setInterval`, `clearInterval`, effect cleanup and React's ordering of the nested `setCount` calls are not modelled. A tick is one abstract step. At count 1 the model moves straight to the next phase with count 4. The updater returns 0 after its nested `setCount(4)`. Which of the two values React keeps is not modelled.
- The CSS class name built from `phase.replace(' ', '-')` and all rendering are left out.
- `MoodLog.MoodForm.Save`: `fetch` is a function parameter from the request to its outcome (accepted, refused, connection failed), and alerts are returned as strings.
- The user-name fetch in `MoodLog`'s effect is left out, because nothing decides on it.
- `backend/emailService.js` and the other screens are not part of this model: they are transport configuration and UI plumbing.
