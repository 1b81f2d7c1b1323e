/** The data analyst agent: segmentation, engagement, spending and risk
    scoring of a user's history and preferences, game matching, and the
    conversation insights built from them, dispatched by task type. */
module DataAnalyst {
  import opened Wrappers
  import opened Text
  import opened Records
  import opened BaseAgent

  const AgentId := "data_analyst"
  const AgentName := "Data Analyst Agent"

  /** `str(e)` of the ZeroDivisionError raised by `/` on a zero divisor. */
  const DivisionByZero := "division by zero"

  /** `s[:n]` */
  function Take<T>(s: seq<T>, n: nat): (r: seq<T>)
    ensures |r| == if |s| <= n then |s| else n
    ensures r == s[..|r|]
  {
    if |s| <= n then s else s[..n]
  }

  // ---------------------------------------------------------------------
  // Segment

  /** `preferences.get("favorite_teams") or preferences.get("favorite_sports")` is truthy. */
  predicate HasTeamsOrSports(p: Preferences) {
    Teams(p) != [] || Sports(p) != []
  }

  /** `_determine_user_segment`: thresholds on the history length, checked
      from the top, then the presence of teams or sports. */
  function UserSegment(history: seq<HistoryEntry>, preferences: Preferences): (r: string)
    ensures r == "VIP_Fan" <==> |history| >= 10
    ensures r == "Regular_Attendee" <==> 5 <= |history| < 10
    ensures r == "Occasional_Fan" <==> 2 <= |history| < 5
    ensures r == "Interested_Prospect" <==> |history| < 2 && HasTeamsOrSports(preferences)
    ensures r == "New_Prospect" <==> |history| < 2 && !HasTeamsOrSports(preferences)
  {
    if |history| >= 10 then "VIP_Fan"
    else if |history| >= 5 then "Regular_Attendee"
    else if |history| >= 2 then "Occasional_Fan"
    else if HasTeamsOrSports(preferences) then "Interested_Prospect"
    else "New_Prospect"
  }

  /** The segment sees nothing of the history but its length, and nothing of
      the preferences but whether teams or sports are listed. */
  lemma SegmentDependsOnlyOnLengthAndPresence(h1: seq<HistoryEntry>, p1: Preferences, h2: seq<HistoryEntry>, p2: Preferences)
    requires |h1| == |h2| && HasTeamsOrSports(p1) == HasTeamsOrSports(p2)
    ensures UserSegment(h1, p1) == UserSegment(h2, p2)
  {
  }

  // ---------------------------------------------------------------------
  // Engagement

  /** `g.get("attended_date")` is truthy. */
  predicate HasAttendedDate(e: HistoryEntry) {
    e.attendedDate.Some? && e.attendedDate.value != ""
  }

  /** `[g for g in history if g.get("attended_date")]` */
  function Dated(history: seq<HistoryEntry>): (r: seq<HistoryEntry>)
    ensures |r| <= |history|
    ensures forall e | e in r :: e in history && HasAttendedDate(e)
  {
    if history == [] then []
    else (if HasAttendedDate(history[0]) then [history[0]] else []) + Dated(history[1..])
  }

  /** Filtering distributes over concatenation. */
  lemma {:induction false} DatedAppend(a: seq<HistoryEntry>, b: seq<HistoryEntry>)
    ensures Dated(a + b) == Dated(a) + Dated(b)
    decreases |a|
  {
    if a != [] {
      assert (a + b)[1..] == a[1..] + b;
      DatedAppend(a[1..], b);
    } else {
      assert a + b == b;
    }
  }

  /** `g.get("satisfaction_rating", 3)` */
  function Rating(e: HistoryEntry): int {
    e.satisfactionRating.GetOr(3)
  }

  /** `sum(g.get("satisfaction_rating", 3) for g in entries)` */
  function RatingSum(entries: seq<HistoryEntry>): int {
    if entries == [] then 0 else Rating(entries[0]) + RatingSum(entries[1..])
  }

  /** The entries the engagement average is taken over: the first five dated ones. */
  function RecentDated(history: seq<HistoryEntry>): seq<HistoryEntry> {
    Take(Dated(history), 5)
  }

  /** `_calculate_engagement_level`: the average rating of the first five
      dated entries, compared with 4.5 and 3.5 by cross-multiplication. A
      non-empty history without a dated entry divides by zero. */
  function EngagementLevel(history: seq<HistoryEntry>): (r: Outcome<string>)
    ensures history == [] ==> r == Returned("Low")
    ensures history != [] && Dated(history) == [] ==> r == Raised(DivisionByZero)
    ensures r.Raised? ==> r == Raised(DivisionByZero) && history != [] && Dated(history) == []
    ensures r.Returned? ==> r.value in {"High", "Medium", "Low"}
    ensures history != [] && Dated(history) != [] ==>
      var n, sum := |RecentDated(history)|, RatingSum(RecentDated(history));
      && (r == Returned("High") <==> 2 * sum >= 9 * n)
      && (r == Returned("Medium") <==> 7 * n <= 2 * sum < 9 * n)
      && (r == Returned("Low") <==> 2 * sum < 7 * n)
  {
    if history == [] then Returned("Low")
    else
      var recent := RecentDated(history);
      if |recent| == 0 then Raised(DivisionByZero)
      else
        var sum := RatingSum(recent);
        if 2 * sum >= 9 * |recent| then Returned("High")
        else if 2 * sum >= 7 * |recent| then Returned("Medium")
        else Returned("Low")
  }

  /** Once five dated entries have been seen, later entries have no effect
      on the engagement level. */
  lemma EngagementIgnoresLaterEntries(history: seq<HistoryEntry>, later: seq<HistoryEntry>)
    requires |Dated(history)| >= 5
    ensures EngagementLevel(history + later) == EngagementLevel(history)
  {
    DatedAppend(history, later);
    assert Take(Dated(history) + Dated(later), 5) == Take(Dated(history), 5);
  }

  /** Entries without a `satisfaction_rating` key all count as 3. */
  lemma {:induction false} StoreRowsRateThree(entries: seq<HistoryEntry>)
    requires forall e | e in entries :: IsStoreRow(e)
    ensures RatingSum(entries) == 3 * |entries|
    decreases |entries|
  {
    if entries != [] {
      assert entries[0] in entries;
      StoreRowsRateThree(entries[1..]);
    }
  }

  /** Over rows as the graph store returns them (the rating sits under
      `rating`, which the analyst never reads) the engagement level is never
      High or Medium. */
  lemma StoreHistoryIsNeverEngaged(history: seq<HistoryEntry>)
    requires forall e | e in history :: IsStoreRow(e)
    ensures EngagementLevel(history) != Returned("High")
    ensures EngagementLevel(history) != Returned("Medium")
  {
    var recent := RecentDated(history);
    forall e | e in recent ensures IsStoreRow(e) {
      assert e in Dated(history);
    }
    StoreRowsRateThree(recent);
  }

  // ---------------------------------------------------------------------
  // Preferred categories

  function TeamCategory(team: string): string {
    "Team: " + team
  }

  function SportCategory(sport: string): string {
    "Sport: " + sport
  }

  /** The set `_extract_preferred_categories` builds (it returns it as a list
      in set order, which is not modelled). */
  function PreferredCategories(p: Preferences): set<string> {
    (set t | t in Teams(p) :: TeamCategory(t)) + (set s | s in Sports(p) :: SportCategory(s))
  }

  /** A team category names exactly one team and is never a sport category. */
  lemma CategoriesAreDistinct(t: string, u: string, s: string)
    ensures TeamCategory(t) == TeamCategory(u) ==> t == u
    ensures TeamCategory(t) != SportCategory(s)
  {
    assert TeamCategory(t)[0] != SportCategory(s)[0];
    if TeamCategory(t) == TeamCategory(u) {
      assert t == TeamCategory(t)[6..] && u == TeamCategory(u)[6..];
    }
  }

  /** A team shows up among the categories exactly when it is a favourite
      team, and likewise for sports. */
  lemma PreferredCategoriesExact(p: Preferences, team: string, sport: string)
    ensures TeamCategory(team) in PreferredCategories(p) <==> team in Teams(p)
    ensures SportCategory(sport) in PreferredCategories(p) <==> sport in Sports(p)
  {
    if TeamCategory(team) in PreferredCategories(p) {
      if s :| s in Sports(p) && SportCategory(s) == TeamCategory(team) {
        CategoriesAreDistinct(team, team, s);
      }
      var t :| t in Teams(p) && TeamCategory(t) == TeamCategory(team);
      CategoriesAreDistinct(t, team, "");
    }
    if SportCategory(sport) in PreferredCategories(p) {
      if t :| t in Teams(p) && TeamCategory(t) == SportCategory(sport) {
        CategoriesAreDistinct(t, t, sport);
      }
      var s :| s in Sports(p) && SportCategory(s) == SportCategory(sport);
      assert s == SportCategory(s)[7..] && sport == SportCategory(sport)[7..];
    }
  }

  /** `_extract_preferred_categories`: adds one category per team, then one
      per sport. */
  method ExtractPreferredCategories(p: Preferences) returns (categories: set<string>)
    ensures categories == PreferredCategories(p)
  {
    categories := {};
    var teams, sports := Teams(p), Sports(p);
    for i := 0 to |teams|
      invariant categories == set t | t in teams[..i] :: TeamCategory(t)
    {
      assert teams[..i + 1] == teams[..i] + [teams[i]];
      categories := categories + {TeamCategory(teams[i])};
    }
    assert teams[..|teams|] == teams;
    ghost var fromTeams := categories;
    for j := 0 to |sports|
      invariant categories == fromTeams + set s | s in sports[..j] :: SportCategory(s)
    {
      assert sports[..j + 1] == sports[..j] + [sports[j]];
      categories := categories + {SportCategory(sports[j])};
    }
    assert sports[..|sports|] == sports;
  }

  // ---------------------------------------------------------------------
  // Spending pattern

  /** `[g.get("ticket_type", "Standard") for g in history]` */
  function TicketTypes(history: seq<HistoryEntry>): (r: seq<string>)
    ensures |r| == |history|
    ensures forall i | 0 <= i < |history| :: r[i] == history[i].ticketType.GetOr("Standard")
  {
    if history == [] then [] else [history[0].ticketType.GetOr("Standard")] + TicketTypes(history[1..])
  }

  /** `"Premium" in t or "VIP" in t` */
  predicate IsPremiumTier(t: string) {
    Contains(t, "Premium") || Contains(t, "VIP")
  }

  /** How many tiers are premium. */
  function PremiumCount(tiers: seq<string>): (n: nat)
    ensures n <= |tiers|
  {
    if tiers == [] then 0 else (if IsPremiumTier(tiers[0]) then 1 else 0) + PremiumCount(tiers[1..])
  }

  /** `tiers.count(t)` */
  function Count(tiers: seq<string>, t: string): nat {
    if tiers == [] then 0 else (if tiers[0] == t then 1 else 0) + Count(tiers[1..], t)
  }

  /** The scan behind `max(..., key=tiers.count)`: keeps the first tier seen
      with the highest count. */
  function ModalFrom(tiers: seq<string>, i: nat, best: string): (r: string)
    requires i <= |tiers| && best in tiers
    requires forall j | 0 <= j < i :: Count(tiers, tiers[j]) <= Count(tiers, best)
    ensures r in tiers
    ensures forall j | 0 <= j < |tiers| :: Count(tiers, tiers[j]) <= Count(tiers, r)
    decreases |tiers| - i
  {
    if i == |tiers| then best
    else if Count(tiers, tiers[i]) > Count(tiers, best) then ModalFrom(tiers, i + 1, tiers[i])
    else ModalFrom(tiers, i + 1, best)
  }

  /** `max(set(tiers), key=tiers.count)`: a tier with the highest count. */
  function ModalTier(tiers: seq<string>): (r: string)
    requires tiers != []
    ensures r in tiers && forall t | t in tiers :: Count(tiers, t) <= Count(tiers, r)
  {
    ModalFrom(tiers, 1, tiers[0])
  }

  /** `_analyze_spending_pattern`: the share of premium tiers, compared with
      0.3 by cross-multiplication, and a most frequent tier. */
  function Spending(history: seq<HistoryEntry>): (r: SpendingPattern)
    ensures history == [] ==> r == SpendingPattern("Unknown", "Standard", None)
    ensures history != [] ==>
      var tiers := TicketTypes(history);
      && r.premiumPreference == Some(Fraction(PremiumCount(tiers), |history|))
      && r.premiumPreference.value.num <= r.premiumPreference.value.den
      && r.pattern in {"High-Value", "Value-Conscious"}
      && (r.pattern == "High-Value" <==> 10 * PremiumCount(tiers) > 3 * |history|)
      && r.averageTicketType in tiers
      && forall t | t in tiers :: Count(tiers, t) <= Count(tiers, r.averageTicketType)
  {
    if history == [] then SpendingPattern("Unknown", "Standard", None)
    else
      var tiers := TicketTypes(history);
      var premium := PremiumCount(tiers);
      SpendingPattern(
        if 10 * premium > 3 * |tiers| then "High-Value" else "Value-Conscious",
        ModalTier(tiers),
        Some(Fraction(premium, |tiers|)))
  }

  // ---------------------------------------------------------------------
  // Last activity

  /** `x.get("attended_date", "")` */
  function DateKey(e: HistoryEntry): string {
    e.attendedDate.GetOr("")
  }

  /** The scan behind `max(history, key=...)`: keeps the first entry whose
      date key is largest. */
  function LatestFrom(history: seq<HistoryEntry>, i: nat, best: nat): (r: nat)
    requires best < i <= |history|
    requires forall k | 0 <= k < i :: LexLe(DateKey(history[k]), DateKey(history[best]))
    requires forall k | 0 <= k < best :: LexLt(DateKey(history[k]), DateKey(history[best]))
    ensures r < |history|
    ensures forall k | 0 <= k < |history| :: LexLe(DateKey(history[k]), DateKey(history[r]))
    ensures forall k | 0 <= k < r :: LexLt(DateKey(history[k]), DateKey(history[r]))
    decreases |history| - i
  {
    if i == |history| then best
    else
      var b, c := DateKey(history[best]), DateKey(history[i]);
      if LexLt(b, c) then
        LatestStep(history, i, best);
        LatestFrom(history, i + 1, i)
      else
        LexLeTotal(b, c);
        LexLeRefl(b);
        LatestFrom(history, i + 1, best)
  }

  /** When entry `i` beats the best so far, it beats every earlier entry. */
  lemma LatestStep(history: seq<HistoryEntry>, i: nat, best: nat)
    requires best < i < |history|
    requires forall k | 0 <= k < i :: LexLe(DateKey(history[k]), DateKey(history[best]))
    requires LexLt(DateKey(history[best]), DateKey(history[i]))
    ensures forall k | 0 <= k < i + 1 :: LexLe(DateKey(history[k]), DateKey(history[i]))
    ensures forall k | 0 <= k < i :: LexLt(DateKey(history[k]), DateKey(history[i]))
  {
    var b, c := DateKey(history[best]), DateKey(history[i]);
    LexLeRefl(c);
    forall k | 0 <= k < i
      ensures LexLt(DateKey(history[k]), c)
    {
      var a := DateKey(history[k]);
      LexLeTrans(a, b, c);
      if a == c {
        LexLeAntisym(b, c);
      }
    }
  }

  /** The index `max(history, key=lambda x: x.get("attended_date", ""))`
      picks: a largest date string, the first one among equals. */
  function LatestIndex(history: seq<HistoryEntry>): (r: nat)
    requires history != []
    ensures r < |history|
    ensures forall k | 0 <= k < |history| :: LexLe(DateKey(history[k]), DateKey(history[r]))
    ensures forall k | 0 <= k < r :: LexLt(DateKey(history[k]), DateKey(history[r]))
  {
    LexLeRefl(DateKey(history[0]));
    LatestFrom(history, 1, 0)
  }

  /** `_get_last_activity` */
  function LastActivityOf(history: seq<HistoryEntry>): (r: LastActivity)
    ensures history == [] <==> r == NoPriorActivity
    ensures history != [] ==> exists i | 0 <= i < |history| ::
      && (forall k | 0 <= k < |history| :: LexLe(DateKey(history[k]), DateKey(history[i])))
      && (forall k | 0 <= k < i :: LexLt(DateKey(history[k]), DateKey(history[i])))
      && r == LastGame(history[i].gameTitle.GetOr("Unknown"), history[i].attendedDate.GetOr("Unknown"), Rating(history[i]))
  {
    if history == [] then NoPriorActivity
    else
      var e := history[LatestIndex(history)];
      LastGame(e.gameTitle.GetOr("Unknown"), e.attendedDate.GetOr("Unknown"), Rating(e))
  }

  // ---------------------------------------------------------------------
  // Contact preferences and risk factors

  /** `_determine_contact_preferences`: fixed, whatever the profile. */
  function ContactPreferencesFor(profile: Option<Profile>): (r: ContactPreferences)
    ensures r.preferredMethod == "phone" && r.bestTime == "evening" && r.tone == "friendly"
  {
    ContactPreferences("phone", "evening", "friendly")
  }

  const NoPurchaseHistory := "No purchase history"
  const RecentLowSatisfaction := "Recent low satisfaction"

  /** `_identify_risk_factors`: the mean rating of the first three entries
      is compared with 3 by cross-multiplication. */
  function RiskFactors(history: seq<HistoryEntry>, preferences: Preferences): (r: seq<string>)
    ensures NoPurchaseHistory in r <==> history == []
    ensures RecentLowSatisfaction in r <==> history != [] && RatingSum(Take(history, 3)) < 3 * |Take(history, 3)|
    ensures |r| <= 1
    ensures forall x | x in r :: x in {NoPurchaseHistory, RecentLowSatisfaction}
  {
    if history == [] then [NoPurchaseHistory]
    else
      var recent := Take(history, 3);
      if RatingSum(recent) < 3 * |recent| then [RecentLowSatisfaction] else []
  }

  /** Rows as the graph store returns them never raise the low-satisfaction
      flag, however low their `rating` values are. */
  lemma StoreHistoryNeverLowSatisfaction(history: seq<HistoryEntry>, preferences: Preferences)
    requires forall e | e in history :: IsStoreRow(e)
    ensures RecentLowSatisfaction !in RiskFactors(history, preferences)
  {
    var recent := Take(history, 3);
    forall e | e in recent ensures IsStoreRow(e) {
      assert e in history;
    }
    StoreRowsRateThree(recent);
  }

  // ---------------------------------------------------------------------
  // Profile analysis

  /** The analysis dictionary, or the exception raised while building it. */
  function AnalyzeUser(userData: UserData): (r: Outcome<UserAnalysis>)
    ensures r.Raised? <==> EngagementLevel(userData.history).Raised?
    ensures r.Returned? ==>
      && r.value.userSegment == UserSegment(userData.history, userData.preferences)
      && Returned(r.value.engagementLevel) == EngagementLevel(userData.history)
      && r.value.riskFactors == RiskFactors(userData.history, userData.preferences)
      && r.value.preferredCategories == PreferredCategories(userData.preferences)
      && r.value.spendingPattern == Spending(userData.history)
      && r.value.lastActivity == LastActivityOf(userData.history)
      && r.value.contactPreferences == ContactPreferencesFor(userData.profile)
  {
    match EngagementLevel(userData.history)
    case Raised(message) => Raised(message)
    case Returned(level) =>
      Returned(UserAnalysis(
        UserSegment(userData.history, userData.preferences),
        level,
        PreferredCategories(userData.preferences),
        Spending(userData.history),
        LastActivityOf(userData.history),
        ContactPreferencesFor(userData.profile),
        RiskFactors(userData.history, userData.preferences)))
  }

  // ---------------------------------------------------------------------
  // Game matching

  /** `_calculate_game_match_score`, in tenths: `min(0.5 + 0.3, 1.0)`. */
  function GameMatchScore(game: Game, analysis: AnalysisArg): (r: int)
    ensures 0 <= r <= 10
    ensures r == 8
  {
    var base := 5;
    if base + 3 < 10 then base + 3 else 10
  }

  /** The score does not depend on the game or on the analysis, so it is
      trivially monotone in the analysis. */
  lemma MatchScoreIgnoresInputs(g1: Game, a1: AnalysisArg, g2: Game, a2: AnalysisArg)
    ensures GameMatchScore(g1, a1) == GameMatchScore(g2, a2)
  {
  }

  const MatchReasonsList := ["Matches your favorite sport", "Similar to games you've enjoyed before"]

  /** `_generate_match_reasons`: the same two reasons for every game. */
  function MatchReasons(game: Game, analysis: AnalysisArg): (r: seq<string>)
    ensures r == MatchReasonsList
  {
    ["Matches your favorite sport"] + ["Similar to games you've enjoyed before"]
  }

  /** `"high" if score > 0.8 else "medium" if score > 0.6 else "low"`, in tenths. */
  function Priority(score: int): (r: string)
    ensures r == "high" <==> score > 8
    ensures r == "medium" <==> 6 < score <= 8
    ensures r == "low" <==> score <= 6
  {
    if score > 8 then "high" else if score > 6 then "medium" else "low"
  }

  /** The entry appended for one game. */
  function MatchOf(game: Game, analysis: AnalysisArg): (m: MatchedGame)
    ensures m.game == game && m.matchScore == 8 && m.priority == "medium"
    ensures m.reasons == MatchReasonsList
  {
    var score := GameMatchScore(game, analysis);
    MatchedGame(game, score, MatchReasons(game, analysis), Priority(score))
  }

  /** The entries appended for a list of games, in order. */
  function MatchAll(games: seq<Game>, analysis: AnalysisArg): (r: seq<MatchedGame>)
    ensures |r| == |games|
    ensures forall i | 0 <= i < |games| :: r[i] == MatchOf(games[i], analysis)
  {
    if games == [] then [] else [MatchOf(games[0], analysis)] + MatchAll(games[1..], analysis)
  }

  predicate SortedByScore(ms: seq<MatchedGame>) {
    forall i, j | 0 <= i < j < |ms| :: ms[i].matchScore >= ms[j].matchScore
  }

  /** The entries with one score, in their order. */
  function WithScore(ms: seq<MatchedGame>, score: int): seq<MatchedGame> {
    if ms == [] then [] else (if ms[0].matchScore == score then [ms[0]] else []) + WithScore(ms[1..], score)
  }

  /** Inserts `m` before the first entry that does not score higher. */
  function InsertByScore(m: MatchedGame, sorted: seq<MatchedGame>): (r: seq<MatchedGame>)
    ensures multiset(r) == multiset(sorted) + multiset{m}
    ensures |r| == |sorted| + 1
    ensures forall x | x in r :: x == m || x in sorted
  {
    if sorted == [] || sorted[0].matchScore <= m.matchScore then [m] + sorted
    else
      assert sorted == [sorted[0]] + sorted[1..];
      [sorted[0]] + InsertByScore(m, sorted[1..])
  }

  /** `list.sort(key=lambda x: x["match_score"], reverse=True)`: a stable
      sort, highest score first. */
  function SortByScore(ms: seq<MatchedGame>): (r: seq<MatchedGame>)
    ensures multiset(r) == multiset(ms)
  {
    if ms == [] then []
    else
      assert ms == [ms[0]] + ms[1..];
      InsertByScore(ms[0], SortByScore(ms[1..]))
  }

  lemma {:induction false} InsertKeepsSorted(m: MatchedGame, sorted: seq<MatchedGame>)
    requires SortedByScore(sorted)
    ensures SortedByScore(InsertByScore(m, sorted))
    decreases |sorted|
  {
    var r := InsertByScore(m, sorted);
    if sorted == [] || sorted[0].matchScore <= m.matchScore {
      forall i, j | 0 <= i < j < |r| ensures r[i].matchScore >= r[j].matchScore {
        if i > 0 {
          assert r[i] == sorted[i - 1] && r[j] == sorted[j - 1];
        }
      }
    } else {
      InsertKeepsSorted(m, sorted[1..]);
      var rest := InsertByScore(m, sorted[1..]);
      assert r == [sorted[0]] + rest;
      forall j | 0 <= j < |rest| ensures rest[j].matchScore <= sorted[0].matchScore {
        assert rest[j] in rest;
        if rest[j] != m {
          var k :| 0 <= k < |sorted[1..]| && sorted[1..][k] == rest[j];
          assert sorted[k + 1] == rest[j];
        }
      }
      forall i, j | 0 <= i < j < |r| ensures r[i].matchScore >= r[j].matchScore {
        if i == 0 {
          assert r[j] == rest[j - 1];
        } else {
          assert r[i] == rest[i - 1] && r[j] == rest[j - 1];
        }
      }
    }
  }

  /** The sort's output is ordered by non-increasing score. */
  lemma {:induction false} SortIsSorted(ms: seq<MatchedGame>)
    ensures SortedByScore(SortByScore(ms))
    decreases |ms|
  {
    if ms != [] {
      SortIsSorted(ms[1..]);
      InsertKeepsSorted(ms[0], SortByScore(ms[1..]));
    }
  }

  lemma {:induction false} WithScoreAppend(a: seq<MatchedGame>, b: seq<MatchedGame>, score: int)
    ensures WithScore(a + b, score) == WithScore(a, score) + WithScore(b, score)
    decreases |a|
  {
    if a == [] {
      assert a + b == b;
    } else {
      var head := if a[0].matchScore == score then [a[0]] else [];
      assert (a + b)[0] == a[0] && (a + b)[1..] == a[1..] + b;
      WithScoreAppend(a[1..], b, score);
      assert WithScore(a + b, score) == head + WithScore(a[1..] + b, score);
      AppendAssoc(head, WithScore(a[1..], score), WithScore(b, score));
    }
  }

  lemma {:induction false} InsertIsStable(m: MatchedGame, sorted: seq<MatchedGame>, score: int)
    ensures WithScore(InsertByScore(m, sorted), score)
         == (if m.matchScore == score then [m] else []) + WithScore(sorted, score)
    decreases |sorted|
  {
    if sorted == [] || sorted[0].matchScore <= m.matchScore {
      WithScoreAppend([m], sorted, score);
    } else {
      InsertIsStable(m, sorted[1..], score);
      WithScoreAppend([sorted[0]], InsertByScore(m, sorted[1..]), score);
      assert sorted == [sorted[0]] + sorted[1..];
      WithScoreAppend([sorted[0]], sorted[1..], score);
    }
  }

  /** The sort is stable: the entries of any one score keep their order. */
  lemma {:induction false} SortIsStable(ms: seq<MatchedGame>, score: int)
    ensures WithScore(SortByScore(ms), score) == WithScore(ms, score)
    decreases |ms|
  {
    if ms != [] {
      SortIsStable(ms[1..], score);
      InsertIsStable(ms[0], SortByScore(ms[1..]), score);
    }
  }

  lemma {:induction false} WithScoreAll(ms: seq<MatchedGame>, score: int)
    requires forall m | m in ms :: m.matchScore == score
    ensures WithScore(ms, score) == ms
    decreases |ms|
  {
    if ms != [] {
      assert ms[0] in ms;
      WithScoreAll(ms[1..], score);
    }
  }

  /** When every entry has the same score, the stable sort changes nothing. */
  lemma SortOfEqualScores(ms: seq<MatchedGame>, score: int)
    requires forall m | m in ms :: m.matchScore == score
    ensures SortByScore(ms) == ms
  {
    SortIsStable(ms, score);
    WithScoreAll(ms, score);
    forall m | m in SortByScore(ms) ensures m.matchScore == score {
      assert m in multiset(SortByScore(ms));
    }
    WithScoreAll(SortByScore(ms), score);
  }

  /** The `matched_games[:5]` that `_match_games_to_user` returns. */
  function RankMatches(games: seq<Game>, analysis: AnalysisArg): seq<MatchedGame> {
    Take(SortByScore(MatchAll(games, analysis)), 5)
  }

  /** The ranked list keeps the first five games in input order, each with
      score 0.8, priority "medium" and the two fixed reasons, and is sorted. */
  lemma RankMatchesShape(games: seq<Game>, analysis: AnalysisArg)
    ensures var r := RankMatches(games, analysis);
      && |r| == (if |games| < 5 then |games| else 5)
      && SortedByScore(r)
      && forall i | 0 <= i < |r| :: r[i] == MatchOf(games[i], analysis)
    ensures var r := RankMatches(games, analysis);
      forall i | 0 <= i < |r| ::
        r[i].game == games[i] && r[i].priority == "medium" && r[i].reasons == MatchReasonsList
  {
    var all := MatchAll(games, analysis);
    forall m | m in all ensures m.matchScore == 8 {
      var i :| 0 <= i < |all| && all[i] == m;
      assert all[i] == MatchOf(games[i], analysis);
    }
    SortOfEqualScores(all, 8);
    var r := Take(all, 5);
    assert r == all[..|r|];
    forall i | 0 <= i < |r| ensures r[i] == MatchOf(games[i], analysis) && r[i].matchScore == 8 {
      assert r[i] == all[i];
    }
  }

  /** The loop of `_match_games_to_user`: one entry per game, appended in
      input order. */
  method BuildMatches(games: seq<Game>, analysis: AnalysisArg) returns (all: seq<MatchedGame>)
    ensures all == MatchAll(games, analysis)
  {
    all := [];
    for i := 0 to |games|
      invariant |all| == i
      invariant forall k | 0 <= k < i :: all[k] == MatchOf(games[k], analysis)
    {
      all := all + [MatchOf(games[i], analysis)];
    }
    ghost var spec := MatchAll(games, analysis);
    assert forall k | 0 <= k < |games| :: all[k] == spec[k];
  }

  /** `_match_games_to_user`: builds one entry per game, sorts them and keeps
      the top five. */
  method MatchGamesToUser(games: seq<Game>, analysis: AnalysisArg) returns (matched: seq<MatchedGame>)
    ensures matched == RankMatches(games, analysis)
    ensures |matched| == (if |games| < 5 then |games| else 5)
    ensures SortedByScore(matched)
    ensures forall i | 0 <= i < |matched| ::
      matched[i].game == games[i] && matched[i].priority == "medium" && matched[i].reasons == MatchReasonsList
  {
    var all := BuildMatches(games, analysis);
    matched := Take(SortByScore(all), 5);
    RankMatchesShape(games, analysis);
  }

  // ---------------------------------------------------------------------
  // Conversation insights

  const VipOpening := "Reference their loyalty and offer exclusive opportunities"
  const RegularOpening := "Mention their attendance history and suggest similar games"
  const DefaultOpening := "Focus on introducing the experience and building interest"

  /** `_suggest_opening_approach`, from `user_analysis.get("user_segment", "New_Prospect")`. */
  function OpeningApproach(segment: Option<string>): (r: string)
    ensures segment == Some("VIP_Fan") <==> r == VipOpening
    ensures segment == Some("Regular_Attendee") <==> r == RegularOpening
    ensures segment.None? ==> r == DefaultOpening
    ensures segment != Some("VIP_Fan") && segment != Some("Regular_Attendee") ==> r == DefaultOpening
  {
    var s := segment.GetOr("New_Prospect");
    if s == "VIP_Fan" then VipOpening
    else if s == "Regular_Attendee" then RegularOpening
    else DefaultOpening
  }

  /** The title a talking point highlights: `properties.title`, or "upcoming game". */
  function HighlightTitle(game: Game): string {
    game.properties.title.GetOr("upcoming game")
  }

  /** `_generate_talking_points` */
  function TalkingPoints(matched: seq<MatchedGame>): (r: seq<string>)
    ensures |r| == if matched == [] then 2 else 3
    ensures matched != [] ==> r[0] == "Highlight the " + HighlightTitle(matched[0].game)
    ensures r[|r| - 2..] == ["Emphasize the unique atmosphere and experience", "Mention any special promotions or deals"]
  {
    (if matched != [] then ["Highlight the " + HighlightTitle(matched[0].game)] else [])
      + ["Emphasize the unique atmosphere and experience", "Mention any special promotions or deals"]
  }

  /** `_predict_objections`: two fixed objections. */
  function PredictedObjections(analysis: AnalysisArg): (r: seq<Objection>)
    ensures |r| == 2 && r[0].objection == "Price concerns" && r[1].objection == "Schedule conflicts"
    ensures r[0].response == "Emphasize value and payment options"
    ensures r[1].response == "Offer alternative dates or flexible options"
  {
    [Objection("Price concerns", "Emphasize value and payment options"),
     Objection("Schedule conflicts", "Offer alternative dates or flexible options")]
  }

  function OfferFor(m: MatchedGame): Offer {
    Offer(m.game, "Standard discount", "Limited time")
  }

  /** The offers `_suggest_offers` builds: one per game among the first two. */
  function Offers(matched: seq<MatchedGame>): (r: seq<Offer>)
    ensures |r| == if |matched| < 2 then |matched| else 2
    ensures forall i | 0 <= i < |r| :: r[i] == OfferFor(matched[i])
  {
    var firstTwo := Take(matched, 2);
    seq(|firstTwo|, i requires 0 <= i < |firstTwo| => OfferFor(firstTwo[i]))
  }

  /** `_suggest_offers`: appends an offer for each of the first two games. */
  method SuggestOffers(matched: seq<MatchedGame>) returns (offers: seq<Offer>)
    ensures offers == Offers(matched)
  {
    offers := [];
    var firstTwo := Take(matched, 2);
    for i := 0 to |firstTwo|
      invariant |offers| == i
      invariant forall k | 0 <= k < i :: offers[k] == OfferFor(matched[k])
    {
      offers := offers + [OfferFor(firstTwo[i])];
    }
  }

  /** `_recommend_conversation_style`, from `user_analysis.get("engagement_level", "Medium")`. */
  function ConversationStyle(engagement: Option<string>): (r: string)
    ensures engagement == Some("High") <==> r == "Enthusiastic and knowledgeable"
    ensures engagement.None? || engagement == Some("Medium") <==> r == "Friendly and informative"
    ensures engagement.Some? && engagement.value != "High" && engagement.value != "Medium" ==> r == "Educational and patient"
  {
    var e := engagement.GetOr("Medium");
    if e == "High" then "Enthusiastic and knowledgeable"
    else if e == "Medium" then "Friendly and informative"
    else "Educational and patient"
  }

  /** `_suggest_contact_time` and `_plan_follow_up_strategy`: fixed values. */
  const ContactTime := "Early evening (6-8 PM)"
  const FollowUp := FollowUpStrategy(
    "24-48 hours if interested, 1 week if undecided",
    "Phone call followed by email with details",
    "Personalized game recommendations based on conversation")

  /** The insights dictionary `_generate_conversation_insights` builds. */
  function ConversationInsights(analysis: AnalysisArg, matched: seq<MatchedGame>): (r: Insights)
    ensures r.openingApproach == OpeningApproach(SegmentKey(analysis))
    ensures r.conversationStyle == ConversationStyle(EngagementKey(analysis))
    ensures r.keyTalkingPoints == TalkingPoints(matched) && r.recommendedOffers == Offers(matched)
    ensures r.potentialObjections == PredictedObjections(analysis)
    ensures r.bestContactTime == ContactTime && r.followUpStrategy == FollowUp
  {
    Insights(
      OpeningApproach(SegmentKey(analysis)),
      TalkingPoints(matched),
      PredictedObjections(analysis),
      Offers(matched),
      ConversationStyle(EngagementKey(analysis)),
      ContactTime,
      FollowUp)
  }

  /** Handed a whole result payload, as the orchestrator does, the helpers
      find no `user_segment` or `engagement_level` key and use their defaults. */
  lemma NestedAnalysisUsesDefaults(payload: ResultData, matched: seq<MatchedGame>)
    ensures ConversationInsights(Nested(payload), matched).openingApproach
         == DefaultOpening
    ensures ConversationInsights(Nested(payload), matched).conversationStyle == "Friendly and informative"
  {
  }

  // ---------------------------------------------------------------------
  // Dispatch

  const AnalyzeUserProfileTask := "analyze_user_profile"
  const MatchGamesTask := "match_games_to_user"
  const InsightsTask := "generate_conversation_insights"

  /** `_analyze_user_profile` */
  function AnalyzeUserProfile(task: AgentTask): (r: AgentResult)
    ensures r.taskId == task.id && r.agentId == AgentId
    ensures var history := task.data.userData.GetOr(EmptyUserData).history;
      && (r.status == Error <==> history != [] && Dated(history) == [])
      && (r.status == Error ==> r == ErrorResult(task.id, AgentId, DivisionByZero))
      && (r.status == Completed ==> r.data.AnalysisData? && r.error == None)
    ensures r.status == Completed ==> r.data == AnalysisData(AnalyzeUser(task.data.userData.GetOr(EmptyUserData)).value)
  {
    var userData := task.data.userData.GetOr(EmptyUserData);
    match AnalyzeUser(userData)
    case Raised(message) => ErrorResult(task.id, AgentId, message)
    case Returned(analysis) => CompletedResult(task.id, AgentId, AnalysisData(analysis))
  }

  /** `_match_games_to_user` as a result: `{"matched_games": top five}`. */
  function MatchGamesResult(task: AgentTask): (r: AgentResult)
    ensures r == CompletedResult(task.id, AgentId,
      MatchesData(RankMatches(task.data.availableGames.GetOr([]), task.data.userAnalysis.GetOr(Nested(NoData)))))
  {
    var games := task.data.availableGames.GetOr([]);
    var analysis := task.data.userAnalysis.GetOr(Nested(NoData));
    CompletedResult(task.id, AgentId, MatchesData(RankMatches(games, analysis)))
  }

  /** `_generate_conversation_insights` as a result. */
  function InsightsResult(task: AgentTask): (r: AgentResult)
    ensures r.taskId == task.id && r.status == Completed && r.data.InsightsData?
    ensures r == CompletedResult(task.id, AgentId, InsightsData(ConversationInsights(
      task.data.userAnalysis.GetOr(Nested(NoData)), task.data.matchedGames.GetOr([]))))
  {
    var analysis := task.data.userAnalysis.GetOr(Nested(NoData));
    var matched := task.data.matchedGames.GetOr([]);
    CompletedResult(task.id, AgentId, InsightsData(ConversationInsights(analysis, matched)))
  }

  /** `process_task`: dispatch on the task type. It never raises: an unknown
      type is an ERROR result, and every COMPLETED result carries a payload. */
  function ProcessTask(task: AgentTask): (r: AgentResult)
    ensures r.taskId == task.id && r.agentId == AgentId
    ensures r.status == Completed || r.status == Error
    ensures r.status == Completed ==> DataTruthy(r.data) && r.error == None
    ensures r.status == Error ==> r.error.Some? && r.data == NoData
  {
    if task.taskType == AnalyzeUserProfileTask then AnalyzeUserProfile(task)
    else if task.taskType == MatchGamesTask then MatchGamesResult(task)
    else if task.taskType == InsightsTask then InsightsResult(task)
    else ErrorResult(task.id, AgentId, "Unknown task type: " + task.taskType)
  }

  /** An unknown task type is an ERROR result naming the type, not an
      exception; matching and insights always complete. */
  lemma ProcessTaskRouting(task: AgentTask)
    ensures task.taskType !in {AnalyzeUserProfileTask, MatchGamesTask, InsightsTask} ==>
      ProcessTask(task) == ErrorResult(task.id, AgentId, "Unknown task type: " + task.taskType)
    ensures task.taskType in {MatchGamesTask, InsightsTask} ==> ProcessTask(task).status == Completed
  {
  }
}
