/** The orchestrator: gathers a user's data and candidate games, runs the
    analyst's three tasks, places the call and records it, stopping at the
    first stage that yields nothing; and runs a batch of such calls. */
module Orchestrator {
  import opened Wrappers
  import opened Text
  import opened Records
  import opened BaseAgent
  import opened DataAnalyst
  import opened Caller

  /** What the call provider answers: the created call's body, whose `id`
      may be missing, or the `{"error": ...}` map it returns on a non-201
      answer or an exception (it never raises). */
  datatype CallData = CallCreated(id: Option<string>) | CallRejected(error: string)

  /** The collaborators: the graph store, the game search index, the call
      client (its context builder, its assistant builder and the call
      provider behind `make_call`), and the analyst agent's `process_task`.
      The orchestrator builds its env with the call client's `CallContext`
      and `CreateAssistant` and the data analyst's `ProcessTask`; the
      pipeline is stated for any, and the lemmas that need the analyst's
      behaviour say so. */
  datatype Env = Env(
    store: GraphStore,
    searchGames: (string, int) -> Outcome<seq<Game>>,
    createContext: (UserData, seq<PromoItem>) -> string,
    createAssistant: string -> AssistantConfig,
    makeCall: (string, AssistantConfig) -> CallData,
    processTask: AgentTask -> AgentResult)

  /** The task ids the three analyst stages use (the source derives them from
      the event loop's clock). */
  datatype TaskIds = TaskIds(analyze: string, matchGames: string, insights: string)

  // ---------------------------------------------------------------------
  // Gathering

  /** `_gather_user_data`: None when the profile is missing or empty or any
      store call raises; otherwise the four pieces, with the history limited
      to 20 and the similar users to 5. */
  function GatherUserData(store: GraphStore, userId: string): (r: Option<UserData>)
    ensures r.None? <==>
      || store.getUserProfile(userId).Raised?
      || store.getUserProfile(userId).value.None?
      || store.getUserGameHistory(userId, 20).Raised?
      || store.getUserPreferences(userId).Raised?
      || store.getSimilarUsers(userId, 5).Raised?
    ensures r.Some? ==>
      && r.value.profile == store.getUserProfile(userId).value
      && r.value.history == store.getUserGameHistory(userId, 20).value
      && r.value.preferences == store.getUserPreferences(userId).value
      && r.value.similarUsers == store.getSimilarUsers(userId, 5).value
  {
    match store.getUserProfile(userId)
    case Raised(_) => None
    case Returned(profile) =>
      if profile.None? then None
      else
        match store.getUserGameHistory(userId, 20)
        case Raised(_) => None
        case Returned(history) =>
          match store.getUserPreferences(userId)
          case Raised(_) => None
          case Returned(preferences) =>
            match store.getSimilarUsers(userId, 5)
            case Raised(_) => None
            case Returned(similar) => Some(UserData(profile, history, preferences, similar))
  }

  const UpcomingQuery := "upcoming games schedule"

  function TeamQuery(team: string): string {
    "games " + team
  }

  function SportQuery(sport: string): string {
    sport + " games tickets"
  }

  /** The search queries of `_gather_game_data`, in order: one per team among
      the first three, one per sport among the first two, then the upcoming
      games query. */
  function SearchQueries(preferences: Preferences): (r: seq<string>)
    ensures var nt, ns := |Take(Teams(preferences), 3)|, |Take(Sports(preferences), 2)|;
      && |r| == nt + ns + 1
      && (forall i | 0 <= i < nt :: r[i] == TeamQuery(Teams(preferences)[i]))
      && (forall i | 0 <= i < ns :: r[nt + i] == SportQuery(Sports(preferences)[i]))
      && r[|r| - 1] == UpcomingQuery
  {
    var teams, sports := Take(Teams(preferences), 3), Take(Sports(preferences), 2);
    seq(|teams|, i requires 0 <= i < |teams| => TeamQuery(teams[i]))
      + seq(|sports|, i requires 0 <= i < |sports| => SportQuery(sports[i]))
      + [UpcomingQuery]
  }

  /** There are between one and six queries. */
  lemma SearchQueryCount(preferences: Preferences)
    ensures 1 <= |SearchQueries(preferences)| <= 6
  {
  }

  /** Runs the queries in order, each with limit 5, concatenating the hits;
      the first query that raises stops the run. */
  function SearchAll(search: (string, int) -> Outcome<seq<Game>>, queries: seq<string>): (r: Outcome<seq<Game>>)
    decreases |queries|
  {
    if queries == [] then Returned([])
    else
      match SearchAll(search, queries[..|queries| - 1])
      case Raised(m) => Raised(m)
      case Returned(before) =>
        match search(queries[|queries| - 1], 5)
        case Raised(m) => Raised(m)
        case Returned(hits) => Returned(before + hits)
  }

  /** A concatenated hit list came from the searches: every game in it was
      returned by the search for one of the queries. */
  lemma {:induction false} SearchAllFromSearches(search: (string, int) -> Outcome<seq<Game>>, queries: seq<string>)
    requires SearchAll(search, queries).Returned?
    ensures forall g | g in SearchAll(search, queries).value ::
      exists q | q in queries :: search(q, 5).Returned? && g in search(q, 5).value
    decreases |queries|
  {
    if queries != [] {
      var front := queries[..|queries| - 1];
      var last := queries[|queries| - 1];
      SearchAllFromSearches(search, front);
      forall g | g in SearchAll(search, queries).value
        ensures exists q | q in queries :: search(q, 5).Returned? && g in search(q, 5).value
      {
        if g in SearchAll(search, front).value {
          var q :| q in front && search(q, 5).Returned? && g in search(q, 5).value;
          assert q in queries;
        } else {
          assert last in queries;
        }
      }
    }
  }

  /** The ids of a game list, in order. */
  function Ids(games: seq<Game>): (r: seq<string>)
    ensures |r| == |games| && forall i | 0 <= i < |games| :: r[i] == games[i].id
  {
    seq(|games|, i requires 0 <= i < |games| => games[i].id)
  }

  /** Where an id first occurs. */
  function FirstIndex(games: seq<Game>, id: string): (r: nat)
    requires id in Ids(games)
    ensures r < |games| && games[r].id == id
    decreases |games|
  {
    var n := |games| - 1;
    assert Ids(games[..n]) == Ids(games)[..n];
    if id in Ids(games[..n]) then FirstIndex(games[..n], id) else n
  }

  /** The game an id's last occurrence holds. */
  function LastWithId(games: seq<Game>, id: string): (r: Game)
    requires id in Ids(games)
    ensures r in games && r.id == id
    ensures exists p | 0 <= p < |games| :: games[p] == r && forall k | p < k < |games| :: games[k].id != id
    decreases |games|
  {
    var n := |games| - 1;
    assert Ids(games[..n]) == Ids(games)[..n];
    if games[n].id == id then games[n]
    else
      var r := LastWithId(games[..n], id);
      var p :| 0 <= p < n && games[..n][p] == r && forall k | p < k < n :: games[..n][k].id != id;
      assert games[p] == r && forall k | p < k < |games| :: games[k].id != id;
      r
  }

  /** A Python dictionary: its keys in insertion order and its mapping. */
  datatype GameIndex = GameIndex(keys: seq<string>, values: map<string, Game>)

  /** Python's `d[k] = v` on an insertion-ordered dictionary. */
  function Insert(d: GameIndex, g: Game): GameIndex {
    if g.id in d.values then GameIndex(d.keys, d.values[g.id := g])
    else GameIndex(d.keys + [g.id], d.values[g.id := g])
  }

  /** `{game["id"]: game for game in games}`: a key keeps the position of its
      first insertion and takes the value of its last. */
  function IndexById(games: seq<Game>): (d: GameIndex)
    ensures forall i, j | 0 <= i < j < |d.keys| :: d.keys[i] != d.keys[j]
    ensures forall k :: k in d.keys <==> k in d.values
    ensures forall k :: k in d.values <==> k in Ids(games)
    decreases |games|
  {
    if games == [] then GameIndex([], map[])
    else
      var n := |games| - 1;
      assert Ids(games) == Ids(games[..n]) + [games[n].id];
      Insert(IndexById(games[..n]), games[n])
  }

  /** Each key holds the game of its id's last occurrence. */
  lemma {:induction false} IndexHoldsLast(games: seq<Game>)
    ensures forall k | k in IndexById(games).values :: IndexById(games).values[k] == LastWithId(games, k)
    decreases |games|
  {
    if games != [] {
      var n := |games| - 1;
      IndexHoldsLast(games[..n]);
      assert Ids(games) == Ids(games[..n]) + [games[n].id];
    }
  }

  /** No earlier game has the id. */
  lemma {:induction false} FirstIndexIsFirst(games: seq<Game>, id: string)
    requires id in Ids(games)
    ensures forall k | 0 <= k < FirstIndex(games, id) :: games[k].id != id
    decreases |games|
  {
    var n := |games| - 1;
    assert Ids(games[..n]) == Ids(games)[..n];
    if id in Ids(games[..n]) {
      FirstIndexIsFirst(games[..n], id);
    } else {
      forall k | 0 <= k < n ensures games[k].id != id {
        assert Ids(games[..n])[k] == games[k].id;
      }
    }
  }

  /** Where an id first occurs does not change when games are appended. */
  lemma {:induction false} FirstIndexOfPrefix(games: seq<Game>, n: nat, id: string)
    requires n <= |games| && id in Ids(games[..n])
    ensures id in Ids(games) && FirstIndex(games, id) == FirstIndex(games[..n], id) < n
    decreases |games| - n
  {
    var k := FirstIndex(games[..n], id);
    assert games[k].id == id;
    var m := |games| - 1;
    if n <= m {
      assert games[..m][..n] == games[..n];
      assert Ids(games[..m])[k] == id;
      FirstIndexOfPrefix(games[..m], n, id);
      assert Ids(games[..m]) == Ids(games)[..m];
    } else {
      assert games[..n] == games;
    }
  }

  /** One instance of the ordering, for an index pair. */
  lemma {:induction false} KeysOrdered(games: seq<Game>, i: nat, j: nat)
    requires i < j < |IndexById(games).keys|
    ensures IndexById(games).keys[i] in Ids(games) && IndexById(games).keys[j] in Ids(games)
    ensures FirstIndex(games, IndexById(games).keys[i]) < FirstIndex(games, IndexById(games).keys[j])
    decreases |games|, 1
  {
    var d := IndexById(games);
    assert d.keys[i] in d.values && d.keys[j] in d.values;
    IndexKeepsFirstOrder(games);
  }

  /** The keys come in the order in which the ids first occur. */
  lemma {:induction false} IndexKeepsFirstOrder(games: seq<Game>)
    ensures var d := IndexById(games);
      forall i, j | 0 <= i < j < |d.keys| :: FirstIndex(games, d.keys[i]) < FirstIndex(games, d.keys[j])
    decreases |games|, 0
  {
    if games != [] {
      var n := |games| - 1;
      var g := games[n];
      var before := IndexById(games[..n]);
      var d := IndexById(games);
      assert Ids(games) == Ids(games[..n]) + [g.id];
      assert d == Insert(before, g);
      forall i | 0 <= i < |before.keys|
        ensures before.keys[i] in Ids(games[..n])
        ensures FirstIndex(games, before.keys[i]) == FirstIndex(games[..n], before.keys[i]) < n
      {
        assert before.keys[i] in before.values;
        FirstIndexOfPrefix(games, n, before.keys[i]);
      }
      if g.id in before.values {
        assert d.keys == before.keys;
        forall i, j | 0 <= i < j < |d.keys|
          ensures d.keys[i] in Ids(games) && d.keys[j] in Ids(games)
          ensures FirstIndex(games, d.keys[i]) < FirstIndex(games, d.keys[j])
        {
          KeysOrdered(games[..n], i, j);
        }
      } else {
        assert d.keys == before.keys + [g.id];
        assert g.id !in Ids(games[..n]);
        assert FirstIndex(games, g.id) == n;
        forall i, j | 0 <= i < j < |d.keys|
          ensures d.keys[i] in Ids(games) && d.keys[j] in Ids(games)
          ensures FirstIndex(games, d.keys[i]) < FirstIndex(games, d.keys[j])
        {
          if j < |before.keys| {
            KeysOrdered(games[..n], i, j);
          }
        }
      }
    }
  }

  /** `list(unique_games.values())` */
  function IndexValues(d: GameIndex): (r: seq<Game>)
    requires forall k :: k in d.keys ==> k in d.values
    ensures |r| == |d.keys| && forall i | 0 <= i < |r| :: r[i] == d.values[d.keys[i]]
  {
    seq(|d.keys|, i requires 0 <= i < |d.keys| => d.values[d.keys[i]])
  }

  /** `list({game["id"]: game for game in games}.values())[:10]` */
  function MergeGames(games: seq<Game>): seq<Game> {
    Take(IndexValues(IndexById(games)), 10)
  }

  /** The merged list has pairwise-distinct ids and at most ten games; each
      is the last game the hits hold under its id, and they come in the
      order in which their ids first occur. */
  lemma MergeGamesProperties(games: seq<Game>)
    ensures var r := MergeGames(games);
      && |r| <= 10
      && (forall i | 0 <= i < |r| :: r[i].id in Ids(games) && r[i] == LastWithId(games, r[i].id))
      && (forall i, j | 0 <= i < j < |r| :: r[i].id != r[j].id)
      && (forall i, j | 0 <= i < j < |r| :: FirstIndex(games, r[i].id) < FirstIndex(games, r[j].id))
      && (forall g | g in r :: g in games)
  {
    var d := IndexById(games);
    var r := MergeGames(games);
    MergedAreKeys(games);
    forall i, j | 0 <= i < j < |r|
      ensures r[i].id != r[j].id && FirstIndex(games, r[i].id) < FirstIndex(games, r[j].id)
    {
      KeysOrdered(games, i, j);
    }
    forall g | g in r ensures g in games {
      var i :| 0 <= i < |r| && r[i] == g;
    }
  }

  /** The merged games carry the keys, in order, each with its last value. */
  lemma MergedAreKeys(games: seq<Game>)
    ensures var r := MergeGames(games);
      forall i | 0 <= i < |r| ::
        && r[i].id == IndexById(games).keys[i]
        && r[i].id in Ids(games)
        && r[i] == LastWithId(games, r[i].id)
  {
    IndexHoldsLast(games);
    var d := IndexById(games);
    var r := MergeGames(games);
    forall i | 0 <= i < |r| ensures r[i].id == d.keys[i] && r[i].id in Ids(games) && r[i] == LastWithId(games, r[i].id) {
      assert d.keys[i] in d.values;
    }
  }

  /** No id is lost below the cap of ten: with at most ten distinct ids every
      one of them is in the merged list. */
  lemma MergeGamesKeepsEveryIdUnderCap(games: seq<Game>, id: string)
    requires id in Ids(games) && |IndexById(games).keys| <= 10
    ensures exists g | g in MergeGames(games) :: g.id == id
  {
    var d := IndexById(games);
    var i :| 0 <= i < |d.keys| && d.keys[i] == id;
    MergedAreKeys(games);
    assert MergeGames(games)[i] == LastWithId(games, id);
  }

  /** What `_gather_game_data` returns: the merged hits, or the empty list if
      a search raised. */
  function GameData(search: (string, int) -> Outcome<seq<Game>>, preferences: Preferences): seq<Game> {
    match SearchAll(search, SearchQueries(preferences))
    case Raised(_) => []
    case Returned(all) => MergeGames(all)
  }

  /** Every candidate game was returned by the search for one of the queries. */
  lemma GameDataFromSearches(search: (string, int) -> Outcome<seq<Game>>, preferences: Preferences)
    ensures |GameData(search, preferences)| <= 10
    ensures forall g | g in GameData(search, preferences) ::
      exists q | q in SearchQueries(preferences) :: search(q, 5).Returned? && g in search(q, 5).value
  {
    var queries := SearchQueries(preferences);
    match SearchAll(search, queries)
    case Raised(_) =>
    case Returned(all) =>
      MergeGamesProperties(all);
      SearchAllFromSearches(search, queries);
  }

  /** Builds the query list by appending, as `_gather_game_data` does. */
  method BuildSearchQueries(preferences: Preferences) returns (queries: seq<string>)
    ensures queries == SearchQueries(preferences)
  {
    queries := [];
    var teams := Take(Teams(preferences), 3);
    for i := 0 to |teams|
      invariant queries == seq(i, k requires 0 <= k < i => TeamQuery(teams[k]))
    {
      queries := queries + [TeamQuery(teams[i])];
    }
    ghost var fromTeams := queries;
    var sports := Take(Sports(preferences), 2);
    for i := 0 to |sports|
      invariant queries == fromTeams + seq(i, k requires 0 <= k < i => SportQuery(sports[k]))
    {
      queries := queries + [SportQuery(sports[i])];
    }
    queries := queries + [UpcomingQuery];
  }

  // ---------------------------------------------------------------------
  // The pipeline

  /** `result.data` when the result is COMPLETED, otherwise None. */
  function StageData(r: AgentResult): (d: Option<ResultData>)
    ensures d.Some? <==> r.status == Completed
  {
    if r.status == Completed then Some(r.data) else None
  }

  /** The check `if not stage_result` lets the pipeline go on. */
  predicate StagePassed(d: Option<ResultData>) {
    d.Some? && DataTruthy(d.value)
  }

  /** `payload.get("matched_games", [])` */
  function MatchedGamesOf(d: ResultData): seq<MatchedGame> {
    if d.MatchesData? then d.matchedGames else []
  }

  /** `payload.get("analysis", {}).get("user_segment")` */
  function AnalysisSegment(d: ResultData): Option<string> {
    if d.AnalysisData? then Some(d.analysis.userSegment) else None
  }

  function AnalyzeTaskFor(ids: TaskIds, userData: UserData): AgentTask {
    NewTask(ids.analyze, AnalyzeUserProfileTask, TaskData(Some(userData), None, None, None))
  }

  /** The match task gets the whole analysis payload as `user_analysis`. */
  function MatchTaskFor(ids: TaskIds, analysis: ResultData, games: seq<Game>): AgentTask {
    NewTask(ids.matchGames, MatchGamesTask, TaskData(None, Some(Nested(analysis)), Some(games), None))
  }

  /** The insights task gets the whole analysis payload as `user_analysis`. */
  function InsightsTaskFor(ids: TaskIds, analysis: ResultData, matches: ResultData): AgentTask {
    NewTask(ids.insights, InsightsTask, TaskData(None, Some(Nested(analysis)), None, Some(MatchedGamesOf(matches))))
  }

  /** The matched games as the context builder receives them. */
  function PromoItems(matched: seq<MatchedGame>): (r: seq<PromoItem>)
    ensures |r| == |matched| && forall i | 0 <= i < |r| :: r[i] == MatchedItem(matched[i])
  {
    seq(|matched|, i requires 0 <= i < |matched| => MatchedItem(matched[i]))
  }

  /** The map `_make_sales_call` returns (its exception branch cannot be
      reached: nothing it calls raises). */
  datatype CallResult = CallResult(callData: CallData, contextUsed: nat, gamesPromoted: nat, userSegment: Option<string>)

  /** `call_result.get("call_data", {}).get("id")` */
  function CallIdOf(c: CallResult): Option<string> {
    match c.callData
    case CallCreated(id) => id
    case CallRejected(_) => None
  }

  /** The details `_record_interaction` stores (without the timestamp). */
  function DetailsOf(c: CallResult): (d: InteractionDetails)
    ensures d.callId == CallIdOf(c) && d.gamesPromoted == c.gamesPromoted
    ensures d.userSegment == c.userSegment && d.contextSize == c.contextUsed
  {
    InteractionDetails(CallIdOf(c), c.gamesPromoted, c.userSegment, c.contextUsed)
  }

  datatype Summary = Summary(userSegment: Option<string>, gamesRecommended: nat, callInitiated: bool)

  /** What `process_sales_call` returns: the success map or `{"error": ...}`. */
  datatype SalesCallResult =
    | SalesCallSucceeded(userId: string, callResult: CallResult, summary: Summary)
    | SalesCallFailed(error: string)

  /** A call on a collaborator that changes the world. */
  datatype Effect =
    | PlacedCall(phoneNumber: string, config: AssistantConfig)
    | RecordedInteraction(userId: string, interactionType: string, details: InteractionDetails)

  /** One run of the pipeline: its result, the analyst tasks it executed,
      and the effects it caused, in order. */
  datatype Run = Run(result: SalesCallResult, tasks: seq<AgentTask>, effects: seq<Effect>)

  const AnalysisFailed := "Failed to analyze user profile"
  const MatchFailed := "Failed to match games to user"
  const InsightsFailed := "Failed to generate conversation insights"

  function NoUserData(userId: string): string {
    "Could not retrieve data for user " + userId
  }

  /** The context the pipeline sends: built from the user data and the
      matched games. */
  function PipelineContext(env: Env, userData: UserData, matches: ResultData): string {
    env.createContext(userData, PromoItems(MatchedGamesOf(matches)))
  }

  /** The assistant the pipeline places the call with. */
  function PipelineAssistant(env: Env, userData: UserData, matches: ResultData): AssistantConfig {
    env.createAssistant(PipelineContext(env, userData, matches))
  }

  /** The analysis stage: its task runs on the user data. */
  lemma AnalysisStageOutcome(ids: TaskIds, userData: UserData)
    ensures var analysis := StageData(ProcessTask(AnalyzeTaskFor(ids, userData)));
      && (StagePassed(analysis) <==> !(userData.history != [] && Dated(userData.history) == []))
      && (StagePassed(analysis) ==>
          analysis.value.AnalysisData? && analysis.value.analysis.userSegment == UserSegment(userData.history, userData.preferences))
  {
  }

  /** The match stage always passes, with the ranked candidates. */
  lemma MatchStageOutcome(ids: TaskIds, analysis: ResultData, games: seq<Game>)
    ensures StageData(ProcessTask(MatchTaskFor(ids, analysis, games))) == Some(MatchesData(RankMatches(games, Nested(analysis))))
  {
  }

  /** The insights stage always passes; the payload it gets is the whole
      analysis result, so the opening approach and style are always the
      defaults. */
  lemma InsightsStageOutcome(ids: TaskIds, analysis: ResultData, matches: ResultData)
    ensures var insights := StageData(ProcessTask(InsightsTaskFor(ids, analysis, matches)));
      && StagePassed(insights)
      && insights.value.InsightsData?
      && insights.value.insights.openingApproach == DefaultOpening
      && insights.value.insights.conversationStyle == "Friendly and informative"
  {
    NestedAnalysisUsesDefaults(analysis, MatchedGamesOf(matches));
  }

  /** `_make_sales_call`: the map it returns for the provider's answer. */
  function PlaceCall(env: Env, phone: string, userData: UserData, analysis: ResultData, matches: ResultData): CallResult {
    CallResult(env.makeCall(phone, PipelineAssistant(env, userData, matches)), |PipelineContext(env, userData, matches)|, |MatchedGamesOf(matches)|, AnalysisSegment(analysis))
  }

  /** The call stage: build the context and the assistant, place the call,
      record it, and report success whatever the provider answered. */
  function CallStage(env: Env, userId: string, phone: string, userData: UserData, analysis: ResultData,
                     matches: ResultData, tasks: seq<AgentTask>): (run: Run)
    ensures run.tasks == tasks && run.result.SalesCallSucceeded?
    ensures run.effects == [PlacedCall(phone, PipelineAssistant(env, userData, matches)),
      RecordedInteraction(userId, "sales_call", DetailsOf(run.result.callResult))]
  {
    var call := PlaceCall(env, phone, userData, analysis, matches);
    Run(
      SalesCallSucceeded(userId, call, Summary(AnalysisSegment(analysis), |MatchedGamesOf(matches)|, CallIdOf(call).Some?)),
      tasks,
      [PlacedCall(phone, PipelineAssistant(env, userData, matches)), RecordedInteraction(userId, "sales_call", DetailsOf(call))])
  }

  /** What a run promises about its effects: a run that stops early stops
      with one of the four stage messages and has neither placed a call nor
      recorded anything; a run that succeeds has placed exactly one call, to
      the given number, and then recorded it. */
  predicate ShortCircuits(run: Run, userId: string, phone: string) {
    && (run.result.SalesCallFailed? ==>
        && run.effects == []
        && run.result.error in {NoUserData(userId), AnalysisFailed, MatchFailed, InsightsFailed})
    && (run.result.SalesCallSucceeded? ==>
        && |run.effects| == 2
        && run.effects[0].PlacedCall? && run.effects[0].phoneNumber == phone
        && run.effects[1] == RecordedInteraction(userId, "sales_call", DetailsOf(run.result.callResult)))
  }

  /** A run that stopped at a stage: nothing placed, nothing recorded. */
  function Stopped(error: string, tasks: seq<AgentTask>): (run: Run)
    ensures run.result == SalesCallFailed(error) && run.tasks == tasks && run.effects == []
  {
    Run(SalesCallFailed(error), tasks, [])
  }

  /** From the insights stage on. */
  function InsightsStage(env: Env, ids: TaskIds, userId: string, phone: string, userData: UserData,
                         t1: AgentTask, t2: AgentTask, analysis: ResultData, matches: ResultData): (run: Run)
    ensures run.tasks == [t1, t2, InsightsTaskFor(ids, analysis, matches)]
  {
    var t3 := InsightsTaskFor(ids, analysis, matches);
    var insights := StageData(env.processTask(t3));
    if !StagePassed(insights) then Stopped(InsightsFailed, [t1, t2, t3])
    else CallStage(env, userId, phone, userData, analysis, matches, [t1, t2, t3])
  }

  /** From the match stage on. */
  function MatchStage(env: Env, ids: TaskIds, userId: string, phone: string, userData: UserData,
                      t1: AgentTask, analysis: ResultData): (run: Run)
  {
    var t2 := MatchTaskFor(ids, analysis, GameData(env.searchGames, userData.preferences));
    var matches := StageData(env.processTask(t2));
    if !StagePassed(matches) then Stopped(MatchFailed, [t1, t2])
    else InsightsStage(env, ids, userId, phone, userData, t1, t2, analysis, matches.value)
  }

  /** From the analysis stage on. */
  function AnalysisStage(env: Env, ids: TaskIds, userId: string, phone: string, userData: UserData): (run: Run)
  {
    var t1 := AnalyzeTaskFor(ids, userData);
    var analysis := StageData(env.processTask(t1));
    if !StagePassed(analysis) then Stopped(AnalysisFailed, [t1])
    else MatchStage(env, ids, userId, phone, userData, t1, analysis.value)
  }

  /** `process_sales_call`, stage by stage. */
  function SalesCall(env: Env, ids: TaskIds, userId: string, phone: string): (run: Run)
  {
    match GatherUserData(env.store, userId)
    case None => Stopped(NoUserData(userId), [])
    case Some(userData) => AnalysisStage(env, ids, userId, phone, userData)
  }

  lemma InsightsStageShortCircuits(env: Env, ids: TaskIds, userId: string, phone: string, userData: UserData,
                                   t1: AgentTask, t2: AgentTask, analysis: ResultData, matches: ResultData)
    ensures ShortCircuits(InsightsStage(env, ids, userId, phone, userData, t1, t2, analysis, matches), userId, phone)
  {
  }

  lemma MatchStageShortCircuits(env: Env, ids: TaskIds, userId: string, phone: string, userData: UserData,
                                t1: AgentTask, analysis: ResultData)
    ensures ShortCircuits(MatchStage(env, ids, userId, phone, userData, t1, analysis), userId, phone)
  {
    var t2 := MatchTaskFor(ids, analysis, GameData(env.searchGames, userData.preferences));
    var matches := StageData(env.processTask(t2));
    if StagePassed(matches) {
      InsightsStageShortCircuits(env, ids, userId, phone, userData, t1, t2, analysis, matches.value);
    }
  }

  lemma AnalysisStageShortCircuits(env: Env, ids: TaskIds, userId: string, phone: string, userData: UserData)
    ensures ShortCircuits(AnalysisStage(env, ids, userId, phone, userData), userId, phone)
  {
    var t1 := AnalyzeTaskFor(ids, userData);
    var analysis := StageData(env.processTask(t1));
    if StagePassed(analysis) {
      MatchStageShortCircuits(env, ids, userId, phone, userData, t1, analysis.value);
    }
  }

  /** Whatever the collaborators do, a run either stops at a stage with
      that stage's message and no effect, or places exactly one call, to
      the requested number, and records it. */
  lemma SalesCallShortCircuits(env: Env, ids: TaskIds, userId: string, phone: string)
    ensures ShortCircuits(SalesCall(env, ids, userId, phone), userId, phone)
  {
    if GatherUserData(env.store, userId).Some? {
      AnalysisStageShortCircuits(env, ids, userId, phone, GatherUserData(env.store, userId).value);
    }
  }

  /** Past the analysis, the data analyst's run always reaches the call. */
  lemma MatchStageSucceeds(env: Env, ids: TaskIds, userId: string, phone: string, userData: UserData,
                           t1: AgentTask, analysis: ResultData)
    requires env.processTask == ProcessTask
    ensures MatchStage(env, ids, userId, phone, userData, t1, analysis).result.SalesCallSucceeded?
  {
    var games := GameData(env.searchGames, userData.preferences);
    MatchStageOutcome(ids, analysis, games);
    var matches := StageData(env.processTask(MatchTaskFor(ids, analysis, games)));
    InsightsStageOutcome(ids, analysis, matches.value);
  }

  /** Given user data, the run with the data analyst succeeds exactly unless
      the history is non-empty with no dated entry (the division by zero in
      the analysis), and otherwise stops at the analysis. */
  lemma AnalysisStageResult(env: Env, ids: TaskIds, userId: string, phone: string, userData: UserData)
    requires env.processTask == ProcessTask
    ensures var run := AnalysisStage(env, ids, userId, phone, userData);
      && (run.result.SalesCallSucceeded? <==> !(userData.history != [] && Dated(userData.history) == []))
      && (run.result.SalesCallFailed? ==> run.result.error == AnalysisFailed)
  {
    AnalysisStageOutcome(ids, userData);
    var t1 := AnalyzeTaskFor(ids, userData);
    var analysis := StageData(env.processTask(t1));
    if StagePassed(analysis) {
      MatchStageSucceeds(env, ids, userId, phone, userData, t1, analysis.value);
    }
  }

  /** The stage outcomes: the user data stage fails exactly when gathering
      fails; given user data, the run succeeds exactly unless the history is
      non-empty with no dated entry; the match and insights stages never
      fail, even with no candidate games. */
  lemma StageOutcomes(env: Env, ids: TaskIds, userId: string, phone: string)
    requires env.processTask == ProcessTask
    ensures var run := SalesCall(env, ids, userId, phone);
      && (run.result == SalesCallFailed(NoUserData(userId)) <==> GatherUserData(env.store, userId).None?)
      && (GatherUserData(env.store, userId).Some? ==>
          var history := GatherUserData(env.store, userId).value.history;
          (run.result.SalesCallSucceeded? <==> !(history != [] && Dated(history) == [])))
      && run.result != SalesCallFailed(MatchFailed)
      && run.result != SalesCallFailed(InsightsFailed)
  {
    match GatherUserData(env.store, userId)
    case None =>
    case Some(userData) =>
      assert NoUserData(userId)[0] == 'C';
      AnalysisStageResult(env, ids, userId, phone, userData);
  }

  /** Once the call stage is reached the run succeeds whatever the provider
      answered: the summary reports the segment the analysis found, at most
      five recommended games, and a call as initiated exactly when the
      provider's answer has an id. */
  lemma SuccessfulRunSummary(env: Env, ids: TaskIds, userId: string, phone: string)
    requires env.processTask == ProcessTask
    requires SalesCall(env, ids, userId, phone).result.SalesCallSucceeded?
    ensures GatherUserData(env.store, userId).Some?
    ensures var run := SalesCall(env, ids, userId, phone);
      var userData := GatherUserData(env.store, userId).value;
      && run.result.userId == userId
      && run.result.summary.userSegment == Some(UserSegment(userData.history, userData.preferences))
      && run.result.summary.gamesRecommended <= 5
      && (run.result.summary.callInitiated <==> run.result.callResult.callData.CallCreated? && run.result.callResult.callData.id.Some?)
  {
    var userData := GatherUserData(env.store, userId).value;
    var t1 := AnalyzeTaskFor(ids, userData);
    var analysis := StageData(env.processTask(t1));
    AnalysisStageOutcome(ids, userData);
    assert StagePassed(analysis);
    var games := GameData(env.searchGames, userData.preferences);
    var t2 := MatchTaskFor(ids, analysis.value, games);
    MatchStageOutcome(ids, analysis.value, games);
    var matches := StageData(env.processTask(t2));
    var t3 := InsightsTaskFor(ids, analysis.value, matches.value);
    InsightsStageOutcome(ids, analysis.value, matches.value);
    assert SalesCall(env, ids, userId, phone) == CallStage(env, userId, phone, userData, analysis.value, matches.value, [t1, t2, t3]);
    RankMatchesShape(games, Nested(analysis.value));
  }

  /** The analyst's cache after running the given tasks through `execute_task`. */
  function CacheAfter(process: AgentTask -> AgentResult, cache: map<string, AgentResult>, tasks: seq<AgentTask>): map<string, AgentResult>
    decreases |tasks|
  {
    if tasks == [] then cache
    else
      var r := process(tasks[0]);
      CacheAfter(process, if r.status == Completed then cache[tasks[0].id := r] else cache, tasks[1..])
  }

  lemma {:induction false} CacheAfterAppend(process: AgentTask -> AgentResult, cache: map<string, AgentResult>, a: seq<AgentTask>, b: seq<AgentTask>)
    ensures CacheAfter(process, cache, a + b) == CacheAfter(process, CacheAfter(process, cache, a), b)
    decreases |a|
  {
    if a == [] {
      assert a + b == b;
    } else {
      assert (a + b)[0] == a[0] && (a + b)[1..] == a[1..] + b;
      var r := process(a[0]);
      CacheAfterAppend(process, if r.status == Completed then cache[a[0].id := r] else cache, a[1..], b);
    }
  }

  /** The cache keeps only completed results, and only the ids of the tasks run are added. */
  lemma {:induction false} CacheAfterGrowsByTaskIds(process: AgentTask -> AgentResult, cache: map<string, AgentResult>, tasks: seq<AgentTask>)
    ensures forall id | id in CacheAfter(process, cache, tasks) :: id in cache || exists t | t in tasks :: t.id == id
    ensures forall id | id in cache :: id in CacheAfter(process, cache, tasks)
    decreases |tasks|
  {
    if tasks != [] {
      var r := process(tasks[0]);
      var next := if r.status == Completed then cache[tasks[0].id := r] else cache;
      CacheAfterGrowsByTaskIds(process, next, tasks[1..]);
      forall id | id in CacheAfter(process, cache, tasks)
        ensures id in cache || exists t | t in tasks :: t.id == id
      {
        if id !in cache {
          if id in next {
            assert tasks[0] in tasks;
          } else {
            var t :| t in tasks[1..] && t.id == id;
            assert t in tasks;
          }
        }
      }
    }
  }

  // ---------------------------------------------------------------------
  // Batches

  /** One entry of the batch input (both keys present). */
  datatype CallRequest = CallRequest(userId: string, phoneNumber: string)

  datatype FailedCall = FailedCall(userId: string, error: string)

  datatype BatchSummary = BatchSummary(total: nat, successful: nat, failed: nat)

  datatype BatchResult = BatchResult(successfulCalls: seq<SalesCallResult>, failedCalls: seq<FailedCall>, summary: BatchSummary)

  /** The results the batch gathers, in request order, call `i` using the
      task ids `ids(i)`. */
  function BatchRuns(env: Env, users: seq<CallRequest>, ids: nat -> TaskIds): (r: seq<SalesCallResult>)
    ensures |r| == |users|
    decreases |users|
  {
    if users == [] then []
    else
      var n := |users| - 1;
      BatchRuns(env, users[..n], ids) + [SalesCall(env, ids(n), users[n].userId, users[n].phoneNumber).result]
  }

  /** What the batch places and records: the runs' effects, request by request. */
  function BatchEffects(env: Env, users: seq<CallRequest>, ids: nat -> TaskIds): seq<Effect>
    decreases |users|
  {
    if users == [] then []
    else
      var n := |users| - 1;
      BatchEffects(env, users[..n], ids) + SalesCall(env, ids(n), users[n].userId, users[n].phoneNumber).effects
  }

  /** The analyst tasks the batch executes, request by request. */
  function BatchTasks(env: Env, users: seq<CallRequest>, ids: nat -> TaskIds): seq<AgentTask>
    decreases |users|
  {
    if users == [] then []
    else
      var n := |users| - 1;
      BatchTasks(env, users[..n], ids) + SalesCall(env, ids(n), users[n].userId, users[n].phoneNumber).tasks
  }

  /** Result `i` of the batch is the run for request `i`, with task ids `ids(i)`. */
  lemma {:induction false} BatchRunsPointwise(env: Env, users: seq<CallRequest>, ids: nat -> TaskIds, i: nat)
    requires i < |users|
    ensures BatchRuns(env, users, ids)[i] == SalesCall(env, ids(i), users[i].userId, users[i].phoneNumber).result
    decreases |users|
  {
    var n := |users| - 1;
    if i < n {
      BatchRunsPointwise(env, users[..n], ids, i);
      assert users[..n][i] == users[i];
    }
  }

  /** The successful results, in order. */
  function Successes(results: seq<SalesCallResult>): (r: seq<SalesCallResult>)
    ensures |r| <= |results|
    ensures forall x | x in r :: x in results && x.SalesCallSucceeded?
    decreases |results|
  {
    if results == [] then []
    else
      var n := |results| - 1;
      Successes(results[..n]) + (if results[n].SalesCallSucceeded? then [results[n]] else [])
  }

  /** The failed results, in order, each under its request's user id. */
  function Failures(users: seq<CallRequest>, results: seq<SalesCallResult>): (r: seq<FailedCall>)
    requires |users| == |results|
    decreases |results|
  {
    if results == [] then []
    else
      var n := |results| - 1;
      Failures(users[..n], results[..n])
        + (if results[n].SalesCallSucceeded? then [] else [FailedCall(users[n].userId, results[n].error)])
  }

  /** The two lists together are as long as the batch. */
  lemma {:induction false} PartitionCount(users: seq<CallRequest>, results: seq<SalesCallResult>)
    requires |users| == |results|
    ensures |Successes(results)| + |Failures(users, results)| == |results|
    decreases |results|
  {
    if results != [] {
      var n := |results| - 1;
      PartitionCount(users[..n], results[..n]);
    }
  }

  /** Every succeeded result is in the first list. */
  lemma {:induction false} SuccessesComplete(results: seq<SalesCallResult>)
    ensures forall i | 0 <= i < |results| && results[i].SalesCallSucceeded? :: results[i] in Successes(results)
    decreases |results|
  {
    if results != [] {
      var n := |results| - 1;
      var rs := results[..n];
      SuccessesComplete(rs);
      forall i | 0 <= i < |results| && results[i].SalesCallSucceeded?
        ensures results[i] in Successes(results)
      {
        if i < n {
          assert rs[i] == results[i];
        }
      }
    }
  }

  /** Every failed result is in the second list, under its request's user id. */
  lemma {:induction false} FailuresComplete(users: seq<CallRequest>, results: seq<SalesCallResult>)
    requires |users| == |results|
    ensures forall i | 0 <= i < |results| && results[i].SalesCallFailed? ::
      FailedCall(users[i].userId, results[i].error) in Failures(users, results)
    decreases |results|
  {
    if results != [] {
      var n := |results| - 1;
      var us, rs := users[..n], results[..n];
      FailuresComplete(us, rs);
      forall i | 0 <= i < |results| && results[i].SalesCallFailed?
        ensures FailedCall(users[i].userId, results[i].error) in Failures(users, results)
      {
        if i < n {
          assert rs[i] == results[i] && us[i] == users[i];
        }
      }
    }
  }

  /** Every entry of the second list names a user of the batch. */
  lemma {:induction false} FailuresNameUsers(users: seq<CallRequest>, results: seq<SalesCallResult>)
    requires |users| == |results|
    ensures forall f | f in Failures(users, results) :: exists i | 0 <= i < |users| :: users[i].userId == f.userId
    decreases |results|
  {
    if results != [] {
      var n := |results| - 1;
      var us, rs := users[..n], results[..n];
      FailuresNameUsers(us, rs);
      forall f | f in Failures(users, results)
        ensures exists i | 0 <= i < |users| :: users[i].userId == f.userId
      {
        if f in Failures(us, rs) {
          var i :| 0 <= i < |us| && us[i].userId == f.userId;
          assert users[i] == us[i];
        } else {
          assert users[n].userId == f.userId;
        }
      }
    }
  }

  /** Every request lands in exactly one of the two lists: a succeeded result
      in the first, a failed one under its user id in the second, and the
      two lengths add up to the number of requests. */
  lemma BatchPartition(users: seq<CallRequest>, results: seq<SalesCallResult>)
    requires |users| == |results|
    ensures |Successes(results)| + |Failures(users, results)| == |results|
    ensures forall i | 0 <= i < |results| && results[i].SalesCallSucceeded? :: results[i] in Successes(results)
    ensures forall i | 0 <= i < |results| && results[i].SalesCallFailed? ::
      FailedCall(users[i].userId, results[i].error) in Failures(users, results)
    ensures forall f | f in Failures(users, results) :: exists i | 0 <= i < |users| :: users[i].userId == f.userId
  {
    PartitionCount(users, results);
    SuccessesComplete(results);
    FailuresComplete(users, results);
    FailuresNameUsers(users, results);
  }

  /** The second half of `batch_process_calls`: one pass over the results,
      appending each to the successful or the failed list; a failure is
      listed under its request's user id with the run's error. */
  method SplitResults(users: seq<CallRequest>, results: seq<SalesCallResult>)
    returns (successful: seq<SalesCallResult>, failed: seq<FailedCall>)
    requires |users| == |results|
    ensures successful == Successes(results)
    ensures failed == Failures(users, results)
    ensures |successful| + |failed| == |results|
  {
    successful, failed := [], [];
    for i := 0 to |results|
      invariant successful == Successes(results[..i])
      invariant failed == Failures(users[..i], results[..i])
    {
      assert results[..i + 1][..i] == results[..i] && users[..i + 1][..i] == users[..i];
      if results[i].SalesCallSucceeded? {
        successful := successful + [results[i]];
      } else {
        failed := failed + [FailedCall(users[i].userId, results[i].error)];
      }
    }
    assert results[..|results|] == results && users[..|users|] == users;
    PartitionCount(users, results);
  }

  /** The env `AgentOrchestrator.__init__` builds: the given store, search
      index and call provider, the call client's context and assistant
      builders, and the data analyst's `process_task`. */
  function OrchestratorEnv(store: GraphStore, searchGames: (string, int) -> Outcome<seq<Game>>,
                           makeCall: (string, AssistantConfig) -> CallData): Env {
    Env(store, searchGames, CallContext, CreateAssistant, makeCall, ProcessTask)
  }

  // ---------------------------------------------------------------------
  // The orchestrator object

  class AgentOrchestrator {
    const env: Env
    const analyst: Agent
    /** The effects of every run so far, in order. */
    ghost var log: seq<Effect>

    ghost predicate Valid()
      reads this, analyst
    {
      analyst.Valid() && analyst.agentId == AgentId && analyst.name == AgentName
    }

    /** The orchestrator builds its own data analyst agent. */
    constructor (store: GraphStore, searchGames: (string, int) -> Outcome<seq<Game>>, makeCall: (string, AssistantConfig) -> CallData)
      ensures Valid() && fresh(analyst)
      ensures env == OrchestratorEnv(store, searchGames, makeCall) && log == []
      ensures analyst.status == Idle && analyst.tasksQueue == [] && analyst.resultsCache == map[]
    {
      env := OrchestratorEnv(store, searchGames, makeCall);
      analyst := new Agent(AgentId, AgentName);
      log := [];
    }

    /** `_gather_game_data`: builds the queries, runs the searches in order,
        appending their hits, and returns the merged list, or the empty list
        as soon as a search raises. */
    method GatherGameData(preferences: Preferences) returns (games: seq<Game>)
      ensures games == GameData(env.searchGames, preferences)
    {
      var queries := BuildSearchQueries(preferences);
      var all: seq<Game> := [];
      for i := 0 to |queries|
        invariant SearchAll(env.searchGames, queries[..i]) == Returned(all)
      {
        assert queries[..i + 1][..i] == queries[..i];
        var hits := env.searchGames(queries[i], 5);
        if hits.Raised? {
          SearchAllStopsAtRaise(env.searchGames, queries, i + 1);
          return [];
        }
        all := all + hits.value;
      }
      assert queries[..|queries|] == queries;
      games := MergeGames(all);
    }

    /** The three analyst wrappers (`_analyze_user_profile`,
        `_match_games_to_user`, `_generate_conversation_insights`): run the
        task through `execute_task` and hand back `result.data` when the
        result is COMPLETED, None otherwise. */
    method RunStage(task: AgentTask) returns (data: Option<ResultData>)
      requires Valid()
      modifies analyst
      ensures Valid()
      ensures data == StageData(env.processTask(task))
      ensures analyst.resultsCache == CacheAfter(env.processTask, old(analyst.resultsCache), [task])
      ensures analyst.tasksQueue == old(analyst.tasksQueue)
    {
      var process := env.processTask;
      var result := analyst.ExecuteTask(task, t => Returned(process(t)));
      data := StageData(result);
    }

    /** `_make_sales_call`: builds the context from the user data and the
        matched games, wraps it in an assistant, and places the call. */
    method MakeSalesCall(phone: string, userData: UserData, analysis: ResultData, matches: ResultData) returns (call: CallResult)
      modifies this
      ensures call == PlaceCall(env, phone, userData, analysis, matches)
      ensures log == old(log) + [PlacedCall(phone, PipelineAssistant(env, userData, matches))]
    {
      var matched := MatchedGamesOf(matches);
      var context := env.createContext(userData, PromoItems(matched));
      var config := env.createAssistant(context);
      var callData := env.makeCall(phone, config);
      log := log + [PlacedCall(phone, config)];
      call := CallResult(callData, |context|, |matched|, AnalysisSegment(analysis));
    }

    /** `_record_interaction`: best effort; the store's answer, and any
        exception it raises, is ignored. */
    method RecordInteraction(userId: string, call: CallResult)
      modifies this
      ensures log == old(log) + [RecordedInteraction(userId, "sales_call", DetailsOf(call))]
    {
      var _ := env.store.recordInteraction(userId, "sales_call", DetailsOf(call));
      log := log + [RecordedInteraction(userId, "sales_call", DetailsOf(call))];
    }

    /** `process_sales_call`: the stages in order, stopping at the first that
        yields nothing; the analyst runs the tasks of the run, and the log
        gains the run's effects. */
    method ProcessSalesCall(userId: string, phone: string, ids: TaskIds) returns (r: SalesCallResult)
      requires Valid()
      modifies this, analyst
      ensures Valid()
      ensures r == SalesCall(env, ids, userId, phone).result
      ensures log == old(log) + SalesCall(env, ids, userId, phone).effects
      ensures analyst.resultsCache == CacheAfter(env.processTask, old(analyst.resultsCache), SalesCall(env, ids, userId, phone).tasks)
      ensures analyst.tasksQueue == old(analyst.tasksQueue)
    {
      ghost var run := SalesCall(env, ids, userId, phone);
      ghost var cache0 := analyst.resultsCache;
      var userData := GatherUserData(env.store, userId);
      if userData.None? {
        return SalesCallFailed(NoUserData(userId));
      }
      assert run == AnalysisStage(env, ids, userId, phone, userData.value);
      var games := GatherGameData(userData.value.preferences);
      var t1 := AnalyzeTaskFor(ids, userData.value);
      var analysis := RunStage(t1);
      if !StagePassed(analysis) {
        return SalesCallFailed(AnalysisFailed);
      }
      assert run == MatchStage(env, ids, userId, phone, userData.value, t1, analysis.value);
      var t2 := MatchTaskFor(ids, analysis.value, games);
      var matches := RunStage(t2);
      CacheAfterAppend(env.processTask, cache0, [t1], [t2]);
      assert [t1] + [t2] == [t1, t2];
      if !StagePassed(matches) {
        return SalesCallFailed(MatchFailed);
      }
      assert run == InsightsStage(env, ids, userId, phone, userData.value, t1, t2, analysis.value, matches.value);
      var t3 := InsightsTaskFor(ids, analysis.value, matches.value);
      var insights := RunStage(t3);
      CacheAfterAppend(env.processTask, cache0, [t1, t2], [t3]);
      assert [t1, t2] + [t3] == [t1, t2, t3];
      if !StagePassed(insights) {
        return SalesCallFailed(InsightsFailed);
      }
      assert run == CallStage(env, userId, phone, userData.value, analysis.value, matches.value, [t1, t2, t3]);
      ghost var log0 := log;
      var call := MakeSalesCall(phone, userData.value, analysis.value, matches.value);
      RecordInteraction(userId, call);
      r := SalesCallSucceeded(userId, call, Summary(AnalysisSegment(analysis.value), |MatchedGamesOf(matches.value)|, CallIdOf(call).Some?));
      AppendTwo(log0, run.effects[0], run.effects[1]);
    }

    /** `batch_process_calls`: runs the calls one after another, then sorts
        the results into successful and failed ones. */
    method BatchProcessCalls(users: seq<CallRequest>, ids: nat -> TaskIds) returns (r: BatchResult)
      requires Valid()
      modifies this, analyst
      ensures Valid()
      ensures r.successfulCalls == Successes(BatchRuns(env, users, ids))
      ensures r.failedCalls == Failures(users, BatchRuns(env, users, ids))
      ensures r.summary == BatchSummary(|users|, |r.successfulCalls|, |r.failedCalls|)
      ensures r.summary.successful + r.summary.failed == r.summary.total
      ensures analyst.tasksQueue == old(analyst.tasksQueue)
      ensures log == old(log) + BatchEffects(env, users, ids)
      ensures analyst.resultsCache == CacheAfter(env.processTask, old(analyst.resultsCache), BatchTasks(env, users, ids))
    {
      var results: seq<SalesCallResult> := [];
      for i := 0 to |users|
        invariant Valid()
        invariant results == BatchRuns(env, users[..i], ids)
        invariant analyst.tasksQueue == old(analyst.tasksQueue)
        invariant log == old(log) + BatchEffects(env, users[..i], ids)
        invariant analyst.resultsCache == CacheAfter(env.processTask, old(analyst.resultsCache), BatchTasks(env, users[..i], ids))
      {
        var result := ProcessSalesCall(users[i].userId, users[i].phoneNumber, ids(i));
        assert users[..i + 1][..i] == users[..i];
        ghost var run := SalesCall(env, ids(i), users[i].userId, users[i].phoneNumber);
        CacheAfterAppend(env.processTask, old(analyst.resultsCache), BatchTasks(env, users[..i], ids), run.tasks);
        AppendAssoc(old(log), BatchEffects(env, users[..i], ids), run.effects);
        results := results + [result];
      }
      assert users[..|users|] == users;
      var successful, failed := SplitResults(users, results);
      r := BatchResult(successful, failed, BatchSummary(|users|, |successful|, |failed|));
    }
  }

  /** A search that raises makes the whole run raise. */
  lemma {:induction false} SearchAllStopsAtRaise(search: (string, int) -> Outcome<seq<Game>>, queries: seq<string>, n: nat)
    requires 0 < n <= |queries| && search(queries[n - 1], 5).Raised?
    ensures SearchAll(search, queries).Raised?
    decreases |queries|
  {
    var m := |queries| - 1;
    if n - 1 < m {
      assert queries[..m][n - 1] == queries[n - 1];
      SearchAllStopsAtRaise(search, queries[..m], n);
    }
  }
}
