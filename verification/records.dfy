/** The records the sales-call core passes around. Python dictionaries with a
    known set of keys become datatypes; a key that may be absent becomes an
    `Option` field (absent and `None` are not told apart). */
module Records {
  import opened Wrappers

  /** One attendance row. The graph store writes the rating under the key
      `rating`; the analyst reads `satisfaction_rating`; both keys are kept so
      that the mismatch can be stated. */
  datatype HistoryEntry = HistoryEntry(
    gameId: Option<string>,
    gameTitle: Option<string>,
    gameDate: Option<string>,
    venue: Option<string>,
    ticketType: Option<string>,
    satisfactionRating: Option<int>,
    rating: Option<int>,
    attendedDate: Option<string>)

  /** A row exactly as the graph store's history query returns it: it never
      has a `satisfaction_rating` key. */
  predicate IsStoreRow(e: HistoryEntry) {
    e.satisfactionRating == None
  }

  /** The preferences dictionary: the two list keys, and how many other keys
      it has (the store adds `general_preferences`). */
  datatype Preferences = Preferences(
    favoriteTeams: Option<seq<string>>,
    favoriteSports: Option<seq<string>>,
    otherKeys: nat)

  const NoPreferences := Preferences(None, None, 0)

  /** `preferences.get("favorite_teams", [])` */
  function Teams(p: Preferences): seq<string> {
    p.favoriteTeams.GetOr([])
  }

  /** `preferences.get("favorite_sports", [])` */
  function Sports(p: Preferences): seq<string> {
    p.favoriteSports.GetOr([])
  }

  /** Python truthiness of the preferences dictionary: it has some key. */
  predicate PreferencesTruthy(p: Preferences) {
    p.favoriteTeams.Some? || p.favoriteSports.Some? || p.otherKeys > 0
  }

  /** A user profile; `None` in `UserData.profile` stands for a missing or
      empty profile. */
  datatype Profile = Profile(name: Option<string>, email: Option<string>, phone: Option<string>)

  datatype SimilarUser = SimilarUser(userId: string, name: Option<string>, commonGames: nat, totalGames: nat)

  /** What the orchestrator gathers for one user. */
  datatype UserData = UserData(
    profile: Option<Profile>,
    history: seq<HistoryEntry>,
    preferences: Preferences,
    similarUsers: seq<SimilarUser>)

  /** `task.data.get("user_data", {})` when the key is absent. */
  const EmptyUserData := UserData(None, [], NoPreferences, [])

  datatype GameProperties = GameProperties(title: Option<string>, date: Option<string>, venue: Option<string>)

  /** A candidate game as the search index returns it (its float score and
      distance are not modelled). */
  datatype Game = Game(id: string, properties: GameProperties)

  /** A rational `num / den`. */
  datatype Fraction = Fraction(num: nat, den: nat)

  datatype SpendingPattern = SpendingPattern(
    pattern: string,
    averageTicketType: string,
    premiumPreference: Option<Fraction>)

  datatype LastActivity =
    | NoPriorActivity
    | LastGame(game: string, date: string, satisfaction: int)

  datatype ContactPreferences = ContactPreferences(preferredMethod: string, bestTime: string, tone: string)

  /** The dictionary built by the analyst's profile analysis. */
  datatype UserAnalysis = UserAnalysis(
    userSegment: string,
    engagementLevel: string,
    preferredCategories: set<string>,
    spendingPattern: SpendingPattern,
    lastActivity: LastActivity,
    contactPreferences: ContactPreferences,
    riskFactors: seq<string>)

  /** One matched game; `matchScore` is in tenths (0.8 is 8). */
  datatype MatchedGame = MatchedGame(game: Game, matchScore: int, reasons: seq<string>, priority: string)

  datatype Objection = Objection(objection: string, response: string)

  datatype Offer = Offer(game: Game, offerType: string, urgency: string)

  datatype FollowUpStrategy = FollowUpStrategy(timing: string, channel: string, content: string)

  datatype Insights = Insights(
    openingApproach: string,
    keyTalkingPoints: seq<string>,
    potentialObjections: seq<Objection>,
    recommendedOffers: seq<Offer>,
    conversationStyle: string,
    bestContactTime: string,
    followUpStrategy: FollowUpStrategy)

  /** The `data` dictionary of an agent result: `{}` or one of the three
      payloads `{"analysis": ...}`, `{"matched_games": ...}`, `{"insights": ...}`. */
  datatype ResultData =
    | NoData
    | AnalysisData(analysis: UserAnalysis)
    | MatchesData(matchedGames: seq<MatchedGame>)
    | InsightsData(insights: Insights)

  /** Python truthiness of a result payload: every payload but `{}` is truthy. */
  predicate DataTruthy(d: ResultData) {
    !d.NoData?
  }

  /** The dictionary a caller hands to the analyst as `user_analysis`: either
      a whole result payload (what the orchestrator passes) or the flat
      analysis dictionary (whose keys the analyst's helpers look up). */
  datatype AnalysisArg = Nested(payload: ResultData) | Flat(analysis: UserAnalysis)

  /** `user_analysis.get("user_segment")`: only the flat dictionary has the key. */
  function SegmentKey(a: AnalysisArg): (r: Option<string>)
    ensures r.Some? <==> a.Flat?
  {
    match a
    case Flat(u) => Some(u.userSegment)
    case Nested(_) => None
  }

  /** `user_analysis.get("engagement_level")` */
  function EngagementKey(a: AnalysisArg): (r: Option<string>)
    ensures r.Some? <==> a.Flat?
  {
    match a
    case Flat(u) => Some(u.engagementLevel)
    case Nested(_) => None
  }

  /** The `data` dictionary of an agent task, by the keys the analyst reads. */
  datatype TaskData = TaskData(
    userData: Option<UserData>,
    userAnalysis: Option<AnalysisArg>,
    availableGames: Option<seq<Game>>,
    matchedGames: Option<seq<MatchedGame>>)

  /** The details map the orchestrator records after a call (its timestamp is
      not modelled). */
  datatype InteractionDetails = InteractionDetails(
    callId: Option<string>,
    gamesPromoted: nat,
    userSegment: Option<string>,
    contextSize: nat)

  /** The graph store, as the operations the core calls on it. Each may raise. */
  datatype GraphStore = GraphStore(
    getUserProfile: string -> Outcome<Option<Profile>>,
    getUserGameHistory: (string, int) -> Outcome<seq<HistoryEntry>>,
    getUserPreferences: string -> Outcome<Preferences>,
    getSimilarUsers: (string, int) -> Outcome<seq<SimilarUser>>,
    recordInteraction: (string, string, InteractionDetails) -> Outcome<bool>)
}
