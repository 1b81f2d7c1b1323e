/** The call-provider client's pure half: the context text the voice
    assistant is primed with, and the assistant configuration around it. */
module Caller {
  import opened Wrappers
  import opened Text
  import opened Records

  /** An entry of the `game_data` list: a candidate game as the search index
      returns it, or a matched-game entry as the analyst returns it (the
      orchestrator passes the latter). */
  datatype PromoItem = CandidateItem(game: Game) | MatchedItem(matched: MatchedGame)

  /** `game.get("properties", {})`: a matched-game entry has no top-level
      `properties` key, so every lookup in it falls back to its default. */
  function PromoProperties(item: PromoItem): (p: GameProperties)
    ensures item.MatchedItem? ==> p == GameProperties(None, None, None)
  {
    match item
    case CandidateItem(g) => g.properties
    case MatchedItem(_) => GameProperties(None, None, None)
  }

  const Banner := "TICKET SALES AGENT CONTEXT"
  const ClosingLine := "Remember: This is a real customer call. Be natural and conversational!"
  const PreferencesHeading := "PREFERENCES:"
  const AttendanceHeading := "RECENT GAME ATTENDANCE:"
  const GamesHeading := "AVAILABLE GAMES TO PROMOTE:"

  /** The seven lines every context opens with. */
  function HeaderLines(): (r: seq<string>)
    ensures |r| == 7 && r[0] == Banner && r[1] == Repeat('=', 30)
  {
    [Banner, Repeat('=', 30), "",
     "ROLE: You are a friendly and knowledgeable ticket sales agent calling to offer",
     "game tickets based on the customer's interests and history.",
     "",
     "USER INFORMATION:"]
  }

  /** The ten lines every context closes with. */
  function FooterLines(): (r: seq<string>)
    ensures |r| == 10 && r[9] == ClosingLine
  {
    ["",
     "CONVERSATION GUIDELINES:",
     "- Be warm, friendly, and professional",
     "- Reference their past attendance and preferences",
     "- Focus on games that match their interests",
     "- Ask about their availability and preferences",
     "- Handle objections gracefully",
     "- Always end with a clear next step",
     "",
     ClosingLine]
  }

  /** Name, email and phone, with their defaults, when there is a profile. */
  function ProfileLines(profile: Option<Profile>): (r: seq<string>)
    ensures |r| == if profile.Some? then 3 else 0
    ensures profile.Some? ==> r[0] == "- Name: " + profile.value.name.GetOr("Customer")
    ensures profile.Some? ==> r[1] == "- Email: " + profile.value.email.GetOr("N/A")
    ensures profile.Some? ==> r[2] == "- Phone: " + profile.value.phone.GetOr("N/A")
  {
    match profile
    case None => []
    case Some(p) =>
      ["- Name: " + p.name.GetOr("Customer"),
       "- Email: " + p.email.GetOr("N/A"),
       "- Phone: " + p.phone.GetOr("N/A")]
  }

  /** The preferences section, present when the preferences dictionary is non-empty. */
  function PreferenceLines(p: Preferences): (r: seq<string>)
    ensures |r| == if PreferencesTruthy(p) then 4 else 0
    ensures PreferencesTruthy(p) ==> r[1] == PreferencesHeading
    ensures PreferencesTruthy(p) ==> r[2] == "- Favorite Teams: " + Join(Teams(p), ", ")
    ensures PreferencesTruthy(p) ==> r[3] == "- Favorite Sports: " + Join(Sports(p), ", ")
  {
    if PreferencesTruthy(p) then
      ["", PreferencesHeading,
       "- Favorite Teams: " + Join(Teams(p), ", "),
       "- Favorite Sports: " + Join(Sports(p), ", ")]
    else []
  }

  /** One line of the attendance section. */
  function AttendanceLine(e: HistoryEntry): string {
    "- " + e.gameTitle.GetOr("Game") + " at " + e.venue.GetOr("N/A") + " (" + e.gameDate.GetOr("N/A") + ")"
  }

  /** One line of the games section. */
  function GameLine(item: PromoItem): string {
    var p := PromoProperties(item);
    "- " + p.title.GetOr("Game") + " on " + p.date.GetOr("TBD") + " at " + p.venue.GetOr("TBD")
  }

  function Min(a: nat, b: nat): nat {
    if a <= b then a else b
  }

  /** One attendance line per entry, in order. */
  function AttendanceEntries(shown: seq<HistoryEntry>): (r: seq<string>)
    ensures |r| == |shown|
    ensures forall i | 0 <= i < |shown| :: r[i] == AttendanceLine(shown[i])
  {
    if shown == [] then [] else AttendanceEntries(shown[..|shown| - 1]) + [AttendanceLine(shown[|shown| - 1])]
  }

  /** One game line per item, in order. */
  function GameEntries(shown: seq<PromoItem>): (r: seq<string>)
    ensures |r| == |shown|
    ensures forall i | 0 <= i < |shown| :: r[i] == GameLine(shown[i])
  {
    if shown == [] then [] else GameEntries(shown[..|shown| - 1]) + [GameLine(shown[|shown| - 1])]
  }

  /** The attendance section: a heading and the first three entries, in
      order, when there is any history. */
  function AttendanceLines(history: seq<HistoryEntry>): (r: seq<string>)
    ensures history == [] ==> r == []
    ensures history != [] ==>
      && |r| == 2 + Min(3, |history|)
      && r[..2] == ["", AttendanceHeading]
      && forall i | 0 <= i < Min(3, |history|) :: r[2 + i] == AttendanceLine(history[i])
  {
    if history == [] then [] else ["", AttendanceHeading] + AttendanceEntries(Take3(history))
  }

  /** The games section: a heading and the first two items, in order, when
      the list is non-empty. */
  function GameLines(items: seq<PromoItem>): (r: seq<string>)
    ensures items == [] ==> r == []
    ensures items != [] ==>
      && |r| == 2 + Min(2, |items|)
      && r[..2] == ["", GamesHeading]
      && forall i | 0 <= i < Min(2, |items|) :: r[2 + i] == GameLine(items[i])
  {
    if items == [] then [] else ["", GamesHeading] + GameEntries(Take2(items))
  }

  /** The list of lines `create_call_context` joins. */
  function ContextParts(userData: UserData, items: seq<PromoItem>): seq<string> {
    HeaderLines() + ProfileLines(userData.profile) + PreferenceLines(userData.preferences)
      + AttendanceLines(userData.history) + GameLines(items) + FooterLines()
  }

  /** The context `create_call_context` returns: its lines joined with
      newlines. */
  function CallContext(userData: UserData, items: seq<PromoItem>): string {
    Join(ContextParts(userData, items), "\n")
  }

  /** `create_call_context`: grows the list of lines section by section,
      appending one line per shown history entry and game, then joins them
      with newlines. */
  method CreateCallContext(userData: UserData, items: seq<PromoItem>) returns (context: string)
    ensures context == CallContext(userData, items)
  {
    var parts := HeaderLines();
    if userData.profile.Some? {
      var p := userData.profile.value;
      parts := parts + ["- Name: " + p.name.GetOr("Customer"), "- Email: " + p.email.GetOr("N/A"), "- Phone: " + p.phone.GetOr("N/A")];
    }
    assert parts == HeaderLines() + ProfileLines(userData.profile);
    if PreferencesTruthy(userData.preferences) {
      var prefs := userData.preferences;
      parts := parts + ["", PreferencesHeading, "- Favorite Teams: " + Join(Teams(prefs), ", "), "- Favorite Sports: " + Join(Sports(prefs), ", ")];
    }
    assert parts == HeaderLines() + ProfileLines(userData.profile) + PreferenceLines(userData.preferences);
    if userData.history != [] {
      parts := AppendAttendance(parts, userData.history);
    }
    ghost var upToAttendance := HeaderLines() + ProfileLines(userData.profile) + PreferenceLines(userData.preferences) + AttendanceLines(userData.history);
    assert parts == upToAttendance;
    if items != [] {
      parts := AppendGames(parts, items);
    }
    assert parts == upToAttendance + GameLines(items);
    parts := parts + FooterLines();
    context := Join(parts, "\n");
  }

  /** The attendance section of `create_call_context`: the heading pair,
      then one appended line per entry of `history[:3]`. */
  method AppendAttendance(parts: seq<string>, history: seq<HistoryEntry>) returns (r: seq<string>)
    requires history != []
    ensures r == parts + AttendanceLines(history)
  {
    r := parts + ["", AttendanceHeading];
    ghost var head := r;
    var shown := Take3(history);
    for i := 0 to |shown|
      invariant r == head + AttendanceEntries(shown[..i])
    {
      assert shown[..i + 1][..i] == shown[..i];
      ghost var entries := AttendanceEntries(shown[..i]);
      assert AttendanceEntries(shown[..i + 1]) == entries + [AttendanceLine(shown[i])];
      AppendAssoc(head, entries, [AttendanceLine(shown[i])]);
      r := r + [AttendanceLine(shown[i])];
    }
    assert shown[..|shown|] == shown;
    AppendAssoc(parts, ["", AttendanceHeading], AttendanceEntries(shown));
  }

  /** The games section of `create_call_context`: the heading pair, then one
      appended line per item of `game_data[:2]`. */
  method AppendGames(parts: seq<string>, items: seq<PromoItem>) returns (r: seq<string>)
    requires items != []
    ensures r == parts + GameLines(items)
  {
    r := parts + ["", GamesHeading];
    var shown := Take2(items);
    for i := 0 to |shown|
      invariant r == parts + ["", GamesHeading] + GameEntries(shown[..i])
    {
      assert shown[..i + 1][..i] == shown[..i];
      r := r + [GameLine(shown[i])];
    }
    assert shown[..|shown|] == shown;
  }

  /** `history[:3]` */
  function Take3(history: seq<HistoryEntry>): (r: seq<HistoryEntry>)
    ensures |r| == Min(3, |history|) && r == history[..|r|]
  {
    if |history| <= 3 then history else history[..3]
  }

  /** `game_data[:2]` */
  function Take2(items: seq<PromoItem>): (r: seq<PromoItem>)
    ensures |r| == Min(2, |items|) && r == items[..|r|]
  {
    if |items| <= 2 then items else items[..2]
  }

  /** The context opens with the banner line and the rule of thirty `=`,
      and closes with the reminder line. */
  lemma ContextFrame(userData: UserData, items: seq<PromoItem>)
    ensures var context := Join(ContextParts(userData, items), "\n");
      && StartsWith(context, Banner + "\n" + Repeat('=', 30) + "\n")
      && EndsWith(context, ClosingLine)
  {
    var parts := ContextParts(userData, items);
    assert parts[0] == Banner && parts[1] == Repeat('=', 30);
    assert parts[1..][0] == parts[1];
    var rest := Join(parts[2..], "\n");
    assert parts[1..][1..] == parts[2..];
    assert Join(parts, "\n") == (Banner + "\n" + Repeat('=', 30) + "\n") + rest;
    assert parts[|parts| - 1] == ClosingLine;
    JoinEndsWith(parts, "\n");
  }

  /** How many lines the context has: seventeen fixed ones, plus three for a
      profile, four for preferences, and a heading pair with at most three
      attendance lines and at most two game lines when there are any. */
  lemma ContextLineCount(userData: UserData, items: seq<PromoItem>)
    ensures |ContextParts(userData, items)|
         == 17
          + (if userData.profile.Some? then 3 else 0)
          + (if PreferencesTruthy(userData.preferences) then 4 else 0)
          + (if userData.history == [] then 0 else 2 + Min(3, |userData.history|))
          + (if items == [] then 0 else 2 + Min(2, |items|))
  {
  }

  /** The preferences heading is a line of the context exactly when the
      preferences dictionary is non-empty; likewise for the games heading
      and a non-empty game list. */
  lemma SectionHeadings(userData: UserData, items: seq<PromoItem>)
    ensures PreferencesHeading in ContextParts(userData, items) <==> PreferencesTruthy(userData.preferences)
    ensures GamesHeading in ContextParts(userData, items) <==> items != []
  {
    assert ContextParts(userData, items) ==
      HeaderLines() + ProfileLines(userData.profile) + PreferenceLines(userData.preferences)
      + AttendanceLines(userData.history) + GameLines(items) + FooterLines();
    FixedLinesHaveNoHeading();
    ProfileLinesHaveNoHeading(userData.profile);
    AttendanceLinesHaveNoHeading(userData.history);
    PreferenceSectionHeading(userData.preferences);
    GameSectionHeading(items);
  }

  /** The preferences section holds its own heading exactly when it is shown,
      and never the games heading. */
  lemma PreferenceSectionHeading(preferences: Preferences)
    ensures PreferencesHeading in PreferenceLines(preferences) <==> PreferencesTruthy(preferences)
    ensures GamesHeading !in PreferenceLines(preferences)
  {
    var pf := PreferenceLines(preferences);
    if pf != [] {
      assert pf[1] == PreferencesHeading;
      assert GamesHeading !in pf by {
        assert pf == ["", PreferencesHeading, pf[2], pf[3]];
        assert pf[2][0] == '-' && pf[3][0] == '-';
      }
    }
  }

  /** The games section holds its own heading exactly when there are games,
      and never the preferences heading. */
  lemma GameSectionHeading(items: seq<PromoItem>)
    ensures GamesHeading in GameLines(items) <==> items != []
    ensures PreferencesHeading !in GameLines(items)
  {
    var gm := GameLines(items);
    if gm != [] {
      assert gm[1] == GamesHeading;
      assert PreferencesHeading !in gm by {
        forall k | 2 <= k < |gm| ensures gm[k][0] == '-' {
          assert gm[k] == GameLine(items[k - 2]);
        }
      }
    }
  }

  /** `x` is non-empty and its first character is '-', as every content
      line of a section is; no heading starts that way. */
  predicate Dashed(x: string) {
    |x| > 0 && x[0] == '-'
  }

  lemma FixedLinesHaveNoHeading()
    ensures PreferencesHeading !in HeaderLines() && GamesHeading !in HeaderLines()
    ensures PreferencesHeading !in FooterLines() && GamesHeading !in FooterLines()
  {
  }

  lemma ProfileLinesHaveNoHeading(profile: Option<Profile>)
    ensures PreferencesHeading !in ProfileLines(profile) && GamesHeading !in ProfileLines(profile)
  {
    var pr := ProfileLines(profile);
    forall k | 0 <= k < |pr| ensures Dashed(pr[k]) {
    }
  }

  lemma AttendanceLinesHaveNoHeading(history: seq<HistoryEntry>)
    ensures PreferencesHeading !in AttendanceLines(history) && GamesHeading !in AttendanceLines(history)
  {
    var at := AttendanceLines(history);
    forall k | 0 <= k < |at| ensures at[k] != PreferencesHeading && at[k] != GamesHeading {
      if k < 2 {
        assert at[k] == at[..2][k];
        assert |at[k]| != |PreferencesHeading| && |at[k]| != |GamesHeading|;
      } else {
        assert at[k] == AttendanceLine(history[k - 2]);
        assert at[k][0] == '-';
      }
    }
  }

  /** Through the orchestrator the games are matched-game entries, whose
      lines all show the defaults. */
  lemma MatchedItemsShowDefaults(m: MatchedGame)
    ensures GameLine(MatchedItem(m)) == "- Game on TBD at TBD"
  {
  }

  datatype ModelConfig = ModelConfig(provider: string, model: string, systemMessage: string, temperatureTenths: int, maxTokens: int)
  datatype VoiceConfig = VoiceConfig(provider: string, voiceId: string)
  datatype TranscriberConfig = TranscriberConfig(provider: string, model: string, language: string)

  /** The assistant configuration map; its temperature is in tenths (0.7 is 7). */
  datatype AssistantConfig = AssistantConfig(
    model: ModelConfig,
    voice: VoiceConfig,
    transcriber: TranscriberConfig,
    firstMessage: string,
    endCallMessage: string,
    recordingEnabled: bool,
    endCallPhrases: seq<string>,
    maxDurationSeconds: int)

  /** `create_assistant` */
  function CreateAssistant(context: string): (r: AssistantConfig)
    ensures r.model.systemMessage == context
    ensures r.recordingEnabled && r.maxDurationSeconds == 300
    ensures r.model.temperatureTenths == 7 && r.model.maxTokens == 300
    ensures r.endCallPhrases == ["goodbye", "hang up", "end call"]
  {
    AssistantConfig(
      ModelConfig("openai", "gpt-4o-realtime-preview", context, 7, 300),
      VoiceConfig("openai", "alloy"),
      TranscriberConfig("deepgram", "nova-2", "en-US"),
      "Hi! This is calling from the ticket office. I hope you're having a great day!",
      "Thank you for your time! Have a wonderful day!",
      true,
      ["goodbye", "hang up", "end call"],
      300)
  }

  /** Two configurations differ in the system message and nowhere else. */
  lemma AssistantDependsOnlyOnContext(c1: string, c2: string)
    ensures CreateAssistant(c1) == CreateAssistant(c2).(model := CreateAssistant(c2).model.(systemMessage := c1))
  {
  }
}
