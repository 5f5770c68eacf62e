/** The mood check-in form (src/MoodLog.jsx): choosing a mood, the notes that
    go with it, and what saving does. The network request and its answer are
    parameters; alerts and navigation are returned as values. */
module MoodLog {
  import opened Wrappers
  import opened JsStrings
  import Server

  const Mixed := "Mixed"
  const JournalEntry := "Journal Entry"

  /** The labels the form offers, in display order. */
  const MoodOptions: seq<string> := ["Terrible", "Down", "Okay", "Good", "Amazing", Mixed]

  /** The reflection prompt that choosing "Mixed" puts into the notes. */
  const MixedTemplate := "I feel mixed because:\n\nGood thing 1: \nBad thing 1: \n\nI need to focus on:"

  const JournalingRoute := "/resources/journaling"
  const DashboardRoute := "/dashboard"
  const LoginRoute := "/login"

  /** `moodToSave`: a "Mixed" check-in is stored as a journal entry, every
      other label as itself. */
  function MoodToSave(selected: string): (saved: string)
    ensures saved == JournalEntry <==> selected == Mixed || selected == JournalEntry
    ensures selected != Mixed ==> saved == selected
  {
    if selected == Mixed then JournalEntry else selected
  }

  /** Where a successful save leads: to journaling after a "Mixed" check-in,
      to the dashboard otherwise. */
  function RouteAfterSave(selected: string): (route: string)
    ensures route == JournalingRoute <==> selected == Mixed
    ensures route != JournalingRoute ==> route == DashboardRoute
  {
    if selected == Mixed then JournalingRoute else DashboardRoute
  }

  /** The `POST /api/moodlog` request: its `Authorization` header and its
      JSON body `{mood, notes}`. */
  datatype MoodLogRequest = MoodLogRequest(authorization: string, mood: string, notes: string)

  /** How the request ended: `response.ok`, a non-ok answer, or `fetch`
      throwing. */
  datatype PostOutcome = Accepted | Refused | ConnectionFailed

  /** What a save did: the request it sent, if any, the alert it showed and
      the route it navigated to, if any. */
  datatype SaveEffect = SaveEffect(sent: Option<MoodLogRequest>, alert: string, navigate: Option<string>)

  /** Storing a mood never changes its score in the insights: "Mixed" and
      "Journal Entry" both count as the neutral 3. */
  lemma SavedMoodScore(choice: string)
    ensures Server.MoodToValue(MoodToSave(choice)) == Server.MoodToValue(choice)
  {
  }

  /** The header the form sends carries a token back to the server intact,
      provided the token has no space in it. */
  lemma {:induction false} AuthorizationRoundTrip(token: string)
    requires ' ' !in token
    ensures Server.BearerToken(Some(Server.BearerPrefix + token)) == Some(token)
  {
    var h := Server.BearerPrefix + token;
    assert StartsWith(h, Server.BearerPrefix) by {
      assert h[..|Server.BearerPrefix|] == Server.BearerPrefix;
    }
    assert h[|Server.BearerPrefix|..] == token;
    Server.BearerSplit(h);
    SplitFree(token, ' ');
  }

  /** The form's state: the chosen label and the notes text. */
  class MoodForm {
    var selectedMood: string
    var notes: string

    constructor ()
      ensures selectedMood == "" && notes == ""
    {
      selectedMood := "";
      notes := "";
    }

    /** `handleSelectMood`: choosing "Mixed" installs the reflection prompt,
        leaving "Mixed" for another label clears the notes, and any other
        change keeps them. */
    method SelectMood(choice: string)
      modifies this
      ensures selectedMood == choice
      ensures choice == Mixed ==> notes == MixedTemplate
      ensures choice != Mixed && old(selectedMood) == Mixed ==> notes == ""
      ensures choice != Mixed && old(selectedMood) != Mixed ==> notes == old(notes)
    {
      var previous := selectedMood;
      selectedMood := choice;
      if choice == Mixed {
        notes := MixedTemplate;
      } else if previous == Mixed {
        notes := "";
      }
    }

    /** Typing into the notes field. */
    method EditNotes(text: string)
      modifies this`notes
      ensures notes == text
    {
      notes := text;
    }

    /** `handleSave`, given the stored session token (absent or empty counts
        as none) and what the server
        would answer to a request. Nothing is sent without a chosen mood or
        without a token; a sent request carries the token, the stored mood
        and the notes; only an accepted request navigates, to the route the
        chosen mood calls for. The form itself does not change. */
    method Save(token: Option<string>, post: MoodLogRequest -> PostOutcome) returns (effect: SaveEffect)
      ensures effect.sent.None? <==> selectedMood == "" || !Server.Truthy(token)
      ensures selectedMood == "" ==> effect == SaveEffect(None, "Please select your current mood.", None)
      ensures selectedMood != "" && !Server.Truthy(token) ==>
        effect == SaveEffect(None, "Session expired. Please log in.", Some(LoginRoute))
      ensures effect.sent.Some? ==>
        effect.sent.value == MoodLogRequest(Server.BearerPrefix + token.value, MoodToSave(selectedMood), notes)
      ensures effect.sent.Some? ==>
        (effect.navigate.Some? <==> post(effect.sent.value) == Accepted) &&
        (effect.navigate.Some? ==> effect.navigate.value == RouteAfterSave(selectedMood))
      ensures effect.sent.Some? ==>
        effect.alert == match post(effect.sent.value)
          case Accepted => "Mood logged successfully!"
          case Refused => "Failed to save mood. Check server logs."
          case ConnectionFailed => "Could not connect to the server."
    {
      if selectedMood == "" {
        return SaveEffect(None, "Please select your current mood.", None);
      }
      if !Server.Truthy(token) {
        return SaveEffect(None, "Session expired. Please log in.", Some(LoginRoute));
      }
      var moodToSave := if selectedMood == Mixed then JournalEntry else selectedMood;
      var request := MoodLogRequest(Server.BearerPrefix + token.value, moodToSave, notes);
      var outcome := post(request);
      if outcome == Accepted {
        var route := if selectedMood == Mixed then JournalingRoute else DashboardRoute;
        effect := SaveEffect(Some(request), "Mood logged successfully!", Some(route));
      } else if outcome == Refused {
        effect := SaveEffect(Some(request), "Failed to save mood. Check server logs.", None);
      } else {
        effect := SaveEffect(Some(request), "Could not connect to the server.", None);
      }
    }
  }
}
