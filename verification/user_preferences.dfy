/**
 * The thirteen lower-case intents, the per-(task, dataset) intent
 * combinations C1..C5, the five users that pick combination CN, and the
 * guideline table that `IntentHandler` reads (src/task/user_preferences.py).
 *
 * A Python `set` of intents is a duplicate-free sequence here, in the order
 * the set display lists them.
 */
module UserPreferences {
  import GlobalIntents

  type Perspective = GlobalIntents.Perspective

  datatype AtomicIntent =
    | Formal | Casual | Technical | Simple
    | Structured | Narrative | Analytical
    | Detailed | Concise | Engaging
    | Educational | Persuasive | Informative

  function Value(i: AtomicIntent): string
  {
    match i
    case Formal => "formal"
    case Casual => "casual"
    case Technical => "technical"
    case Simple => "simple"
    case Structured => "structured"
    case Narrative => "narrative"
    case Analytical => "analytical"
    case Detailed => "detailed"
    case Concise => "concise"
    case Engaging => "engaging"
    case Educational => "educational"
    case Persuasive => "persuasive"
    case Informative => "informative"
  }

  /** The comment heading each member is declared under. */
  function PerspectiveOf(i: AtomicIntent): Perspective
  {
    match i
    case Formal | Casual | Technical | Simple => GlobalIntents.ContentStyle
    case Structured | Narrative | Analytical => GlobalIntents.Structure
    case Detailed | Concise | Engaging => GlobalIntents.Focus
    case Educational | Persuasive | Informative => GlobalIntents.Purpose
  }

  /** The thirteen values are pairwise distinct. */
  lemma ValuesDistinct()
    ensures forall i, j :: Value(i) == Value(j) ==> i == j
  {
  }

  /** One content-style, one structure and one focus-or-purpose intent, in that order. */
  predicate IsCombination(xs: seq<AtomicIntent>)
  {
    |xs| == 3
    && PerspectiveOf(xs[0]) == GlobalIntents.ContentStyle
    && PerspectiveOf(xs[1]) == GlobalIntents.Structure
    && (PerspectiveOf(xs[2]) == GlobalIntents.Focus || PerspectiveOf(xs[2]) == GlobalIntents.Purpose)
  }

  type Combinations = map<string, seq<AtomicIntent>>

  const SummarizationCnn: Combinations := map[
    "C1" := [Simple, Structured, Concise],
    "C2" := [Formal, Analytical, Detailed],
    "C3" := [Casual, Narrative, Engaging],
    "C4" := [Technical, Structured, Informative],
    "C5" := [Simple, Narrative, Educational]
  ]

  const SummarizationSlf5k: Combinations := map[
    "C1" := [Casual, Narrative, Engaging],
    "C2" := [Formal, Analytical, Detailed],
    "C3" := [Simple, Structured, Informative],
    "C4" := [Technical, Analytical, Educational],
    "C5" := [Casual, Narrative, Persuasive]
  ]

  const EmailSlf5k: Combinations := map[
    "C1" := [Formal, Structured, Persuasive],
    "C2" := [Casual, Narrative, Engaging],
    "C3" := [Technical, Analytical, Informative],
    "C4" := [Simple, Structured, Educational],
    "C5" := [Formal, Analytical, Detailed]
  ]

  const TaskIntents: map<string, map<string, Combinations>> := map[
    "summarization" := map["cnn_dailymail" := SummarizationCnn, "slf5k" := SummarizationSlf5k],
    "email_writing" := map["slf5k" := EmailSlf5k]
  ]

  /** The combination keys C1..C5, and the users that pick them, in order. */
  const ComboKeys: seq<string> := ["C1", "C2", "C3", "C4", "C5"]
  const UserIds: seq<string> := ["user1", "user2", "user3", "user4", "user5"]

  /** The (task, dataset) pairs the table registers. */
  predicate Registered(task: string, dataset: string)
  {
    (task == "summarization" && (dataset == "cnn_dailymail" || dataset == "slf5k"))
    || (task == "email_writing" && dataset == "slf5k")
  }

  /** The combinations registered for a pair, named. */
  function CombinationsOf(task: string, dataset: string): Combinations
    requires Registered(task, dataset)
  {
    if task == "email_writing" then EmailSlf5k
    else if dataset == "cnn_dailymail" then SummarizationCnn
    else SummarizationSlf5k
  }

  /** TASK_INTENTS has exactly the registered pairs. */
  lemma TaskIntentsKeys()
    ensures forall t, d :: t in TaskIntents && d in TaskIntents[t] <==> Registered(t, d)
    ensures forall t, d :: Registered(t, d) ==> TaskIntents[t][d] == CombinationsOf(t, d)
  {
    assert TaskIntents.Keys == {"summarization", "email_writing"};
    assert TaskIntents["summarization"].Keys == {"cnn_dailymail", "slf5k"};
    assert TaskIntents["email_writing"].Keys == {"slf5k"};
  }

  /** The combinations of one pair are C1..C5 and each is well formed. */
  predicate WellFormedCombinations(m: Combinations)
  {
    m.Keys == {"C1", "C2", "C3", "C4", "C5"} && forall c :: c in m ==> IsCombination(m[c])
  }

  lemma SummarizationCnnWellFormed()
    ensures WellFormedCombinations(SummarizationCnn)
  {
  }

  lemma SummarizationSlf5kWellFormed()
    ensures WellFormedCombinations(SummarizationSlf5k)
  {
  }

  lemma EmailSlf5kWellFormed()
    ensures WellFormedCombinations(EmailSlf5k)
  {
  }

  /** Every registered pair has combinations C1..C5, each with three intents: content style, structure, then focus or purpose. */
  lemma CombinationsWellFormed()
    ensures forall t, d :: t in TaskIntents && d in TaskIntents[t] ==> WellFormedCombinations(TaskIntents[t][d])
  {
    TaskIntentsKeys();
    SummarizationCnnWellFormed();
    SummarizationSlf5kWellFormed();
    EmailSlf5kWellFormed();
  }

  datatype UserPreference = UserPreference(userId: string, taskPreferences: map<string, map<string, seq<AtomicIntent>>>)

  /** The task preferences of the user that takes combination `combo` everywhere. */
  function Picks(combo: string): map<string, map<string, seq<AtomicIntent>>>
    requires combo in ComboKeys
  {
    map[
      "summarization" := map[
        "cnn_dailymail" := TaskIntents["summarization"]["cnn_dailymail"][combo],
        "slf5k" := TaskIntents["summarization"]["slf5k"][combo]
      ],
      "email_writing" := map[
        "slf5k" := TaskIntents["email_writing"]["slf5k"][combo]
      ]
    ]
  }

  /** A user taking `combo` lists exactly the registered pairs, each with that pair's `combo`. */
  lemma PicksShape(combo: string)
    requires combo in ComboKeys
    ensures Picks(combo).Keys == {"summarization", "email_writing"}
    ensures forall t, d :: t in Picks(combo) && d in Picks(combo)[t] <==> Registered(t, d)
    ensures forall t, d :: Registered(t, d) ==> Picks(combo)[t][d] == TaskIntents[t][d][combo]
  {
    TaskIntentsKeys();
    var p := Picks(combo);
    assert p.Keys == {"summarization", "email_writing"};
    assert p["summarization"].Keys == {"cnn_dailymail", "slf5k"};
    assert p["email_writing"].Keys == {"slf5k"};
  }

  const UserPreferences: map<string, UserPreference> := map[
    "user1" := UserPreference("user1", Picks("C1")),
    "user2" := UserPreference("user2", Picks("C2")),
    "user3" := UserPreference("user3", Picks("C3")),
    "user4" := UserPreference("user4", Picks("C4")),
    "user5" := UserPreference("user5", Picks("C5"))
  ]

  /** The users are user1..user5. */
  lemma UserPreferencesKeys()
    ensures UserPreferences.Keys == set u | u in UserIds
  {
  }

  /** userN is registered under its own id and takes combination CN for every pair. */
  lemma UserEntry(n: nat)
    requires n < 5
    ensures UserIds[n] in UserPreferences
    ensures UserPreferences[UserIds[n]] == UserPreference(UserIds[n], Picks(ComboKeys[n]))
  {
    if n == 0 {
      assert UserIds[0] == "user1";
    } else if n == 1 {
      assert UserIds[1] == "user2";
    } else if n == 2 {
      assert UserIds[2] == "user3";
    } else if n == 3 {
      assert UserIds[3] == "user4";
    } else {
      assert UserIds[4] == "user5";
    }
  }

  /** Each entry's user id is its key. */
  lemma UserIdsMatchKeys()
    ensures forall u :: u in UserPreferences ==> UserPreferences[u].userId == u
  {
    UserPreferencesKeys();
    forall u | u in UserPreferences ensures UserPreferences[u].userId == u {
      var n :| 0 <= n < 5 && UserIds[n] == u;
      UserEntry(n);
    }
  }

  /** userN lists exactly the registered pairs, and for each its intents are that pair's combination CN. */
  lemma UserUsesOwnCombination(n: nat)
    requires n < 5
    ensures UserIds[n] in UserPreferences
    ensures var prefs := UserPreferences[UserIds[n]].taskPreferences;
      prefs.Keys == {"summarization", "email_writing"}
      && (forall t, d :: (t in prefs && d in prefs[t]) <==> Registered(t, d))
      && (forall t, d :: Registered(t, d) ==> prefs[t][d] == TaskIntents[t][d][ComboKeys[n]])
  {
    UserEntry(n);
    PicksShape(ComboKeys[n]);
  }

  const CnnGuideline := "You are an AI assistant helping users understand news articles. Focus on clarity, accuracy, and engaging storytelling while maintaining journalistic standards."
  const Slf5kSummaryGuideline := "You are an AI assistant helping users understand personal stories. Focus on clarity and key insights while maintaining the original message."
  const Slf5kEmailGuideline := "You are an AI assistant helping users write professional emails. Focus on clarity, professionalism, and effective communication."

  const GlobalGuidelines: map<string, map<string, string>> := map[
    "summarization" := map[
      "cnn_dailymail" := CnnGuideline,
      "slf5k" := Slf5kSummaryGuideline
    ],
    "email_writing" := map[
      "slf5k" := Slf5kEmailGuideline
    ]
  ]

  /** The guideline table registers exactly the pairs TASK_INTENTS and the users use. */
  lemma GuidelinesCoverRegistered()
    ensures forall t, d :: t in GlobalGuidelines && d in GlobalGuidelines[t] <==> Registered(t, d)
  {
  }
}
