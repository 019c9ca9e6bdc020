/**
 * The sixteen stylistic intents, the five synthetic users and the
 * (task, dataset) guideline table that the dataset loader and the email
 * prompts read (global_user_intents.py).
 */
module GlobalIntents {
  import opened Outcomes
  import opened Text

  /** The comment headings the members are declared under. */
  datatype Perspective = ContentStyle | Structure | Focus | Purpose

  datatype AtomicIntent =
    | Concise | Expansive | Formal | Friendly
    | Organized | StoryLike | Bulleted | Paragraphic
    | Technical | HandsOn | Critical | Inventive
    | Teaching | Influencing | Brainstorming | DecisionMaking

  /** The member's value: the description that prompts quote verbatim. */
  function Value(i: AtomicIntent): string
  {
    match i
    case Concise => "eliminate redundancy and make the text short and direct"
    case Expansive => "expand ideas with supporting details and examples"
    case Formal => "use academic or professional tone, avoiding casual language"
    case Friendly => "use conversational tone, including contractions and approachable phrasing"
    case Organized => "clearly segment content into logical sections or headings"
    case StoryLike => "present content as a flowing narrative or sequence of events"
    case Bulleted => "convert lists or ideas into bullet points for scannability"
    case Paragraphic => "keep ideas grouped into well-developed paragraphs"
    case Technical => "emphasize precision, jargon, and specificity suitable for experts"
    case HandsOn => "prioritize examples, instructions, and direct applicability"
    case Critical => "analyze, question, or evaluate the subject rigorously"
    case Inventive => "include imaginative ideas or novel perspectives"
    case Teaching => "make content clear and educational, suitable for learning"
    case Influencing => "persuade the reader toward a viewpoint or decision"
    case Brainstorming => "encourage open-ended, inclusive, or divergent thinking"
    case DecisionMaking => "present arguments and conclude with actionable guidance"
  }

  function PerspectiveOf(i: AtomicIntent): Perspective
  {
    match i
    case Concise | Expansive | Formal | Friendly => ContentStyle
    case Organized | StoryLike | Bulleted | Paragraphic => Structure
    case Technical | HandsOn | Critical | Inventive => Focus
    case Teaching | Influencing | Brainstorming | DecisionMaking => Purpose
  }

  /** The members in declaration order. */
  const AllIntents: seq<AtomicIntent> := [
    Concise, Expansive, Formal, Friendly,
    Organized, StoryLike, Bulleted, Paragraphic,
    Technical, HandsOn, Critical, Inventive,
    Teaching, Influencing, Brainstorming, DecisionMaking
  ]

  /** The length of each value. */
  function Length(i: AtomicIntent): nat
  {
    match i
    case Concise => 55
    case Expansive => 49
    case Formal => 59
    case Friendly => 73
    case Organized => 57
    case StoryLike => 60
    case Bulleted => 58
    case Paragraphic => 49
    case Technical => 65
    case HandsOn => 59
    case Critical => 53
    case Inventive => 47
    case Teaching => 57
    case Influencing => 50
    case Brainstorming => 54
    case DecisionMaking => 55
  }

  lemma ContentStyleLengths(i: AtomicIntent)
    requires PerspectiveOf(i) == ContentStyle
    ensures |Value(i)| == Length(i)
  {
  }

  lemma StructureLengths(i: AtomicIntent)
    requires PerspectiveOf(i) == Structure
    ensures |Value(i)| == Length(i)
  {
  }

  lemma FocusLengths(i: AtomicIntent)
    requires PerspectiveOf(i) == Focus
    ensures |Value(i)| == Length(i)
  {
  }

  lemma PurposeLengths(i: AtomicIntent)
    requires PerspectiveOf(i) == Purpose
    ensures |Value(i)| == Length(i)
  {
  }

  lemma ValueLengths()
    ensures forall i :: |Value(i)| == Length(i)
  {
    forall i ensures |Value(i)| == Length(i) {
      match PerspectiveOf(i)
      case ContentStyle => ContentStyleLengths(i);
      case Structure => StructureLengths(i);
      case Focus => FocusLengths(i);
      case Purpose => PurposeLengths(i);
    }
  }

  /** Only four pairs of members share a value length. */
  lemma SameLength(i: AtomicIntent, j: AtomicIntent)
    requires i != j && Length(i) == Length(j)
    ensures {i, j} == {Concise, DecisionMaking} || {i, j} == {Expansive, Paragraphic}
         || {i, j} == {Formal, HandsOn} || {i, j} == {Organized, Teaching}
  {
  }

  lemma SameLengthValuesDifferA()
    ensures Value(Concise) != Value(DecisionMaking) && Value(Expansive) != Value(Paragraphic)
  {
  }

  lemma SameLengthValuesDifferB()
    ensures Value(Formal) != Value(HandsOn) && Value(Organized) != Value(Teaching)
  {
  }

  /** A labelling that separates the four same-length pairs separates all same-length members. */
  lemma SeparatesSameLength(f: AtomicIntent -> string)
    requires f(Concise) != f(DecisionMaking) && f(Expansive) != f(Paragraphic)
    requires f(Formal) != f(HandsOn) && f(Organized) != f(Teaching)
    ensures forall i, j :: i != j && Length(i) == Length(j) ==> f(i) != f(j)
  {
    forall i, j | i != j && Length(i) == Length(j) ensures f(i) != f(j) {
      SameLength(i, j);
    }
  }

  /** A labelling whose lengths agree with `Length` and which separates same-length members is injective. */
  lemma InjectiveByLength(f: AtomicIntent -> string)
    requires forall i :: |f(i)| == Length(i)
    requires forall i, j :: i != j && Length(i) == Length(j) ==> f(i) != f(j)
    ensures forall i, j :: f(i) == f(j) ==> i == j
  {
  }

  /** The sixteen values are pairwise distinct, so a value identifies its member. */
  lemma ValuesDistinct()
    ensures forall i, j :: Value(i) == Value(j) ==> i == j
  {
    ValueLengths();
    SameLengthValuesDifferA();
    SameLengthValuesDifferB();
    SeparatesSameLength(Value);
    InjectiveByLength(Value);
  }

  /** The four headings in declaration order. */
  const Headings: seq<Perspective> := [ContentStyle, Structure, Focus, Purpose]

  /** Exactly four intents, the k-th one under the k-th heading. */
  predicate OnePerPerspective(xs: seq<AtomicIntent>)
  {
    |xs| == 4 && forall k :: 0 <= k < 4 ==> PerspectiveOf(xs[k]) == Headings[k]
  }

  /** The sixteen members are listed once each, four under each heading in heading order. */
  lemma FourPerPerspective()
    ensures forall i :: i in AllIntents
    ensures |AllIntents| == 16
    ensures forall a, b :: 0 <= a < b < 16 ==> AllIntents[a] != AllIntents[b]
    ensures forall k :: 0 <= k < 16 ==> PerspectiveOf(AllIntents[k]) == Headings[k / 4]
  {
    forall i ensures i in AllIntents {
      match i
      case Concise => assert AllIntents[0] == i;
      case Expansive => assert AllIntents[1] == i;
      case Formal => assert AllIntents[2] == i;
      case Friendly => assert AllIntents[3] == i;
      case Organized => assert AllIntents[4] == i;
      case StoryLike => assert AllIntents[5] == i;
      case Bulleted => assert AllIntents[6] == i;
      case Paragraphic => assert AllIntents[7] == i;
      case Technical => assert AllIntents[8] == i;
      case HandsOn => assert AllIntents[9] == i;
      case Critical => assert AllIntents[10] == i;
      case Inventive => assert AllIntents[11] == i;
      case Teaching => assert AllIntents[12] == i;
      case Influencing => assert AllIntents[13] == i;
      case Brainstorming => assert AllIntents[14] == i;
      case DecisionMaking => assert AllIntents[15] == i;
    }
    forall k | 0 <= k < 16 ensures PerspectiveOf(AllIntents[k]) == Headings[k / 4] {
      assert k / 4 == 0 || k / 4 == 1 || k / 4 == 2 || k / 4 == 3;
    }
  }

  /** One entry of USER_INTENTS. */
  datatype UserIntent = UserIntent(userId: string, intents: seq<AtomicIntent>)

  /** The keys of USER_INTENTS in insertion order (what `list(USER_INTENTS.keys())` yields). */
  const UserIds: seq<string> := ["user1", "user2", "user3", "user4", "user5"]

  const UserIntents: map<string, UserIntent> := map[
    "user1" := UserIntent("user1", [Concise, Organized, Technical, Teaching]),
    "user2" := UserIntent("user2", [Expansive, StoryLike, HandsOn, Influencing]),
    "user3" := UserIntent("user3", [Formal, Bulleted, Critical, DecisionMaking]),
    "user4" := UserIntent("user4", [Friendly, Paragraphic, Inventive, Brainstorming]),
    "user5" := UserIntent("user5", [Concise, Organized, HandsOn, Teaching])
  ]

  /** The users are user1..user5 in that order, each entry's user id is its key, and no id contains `'_'`. */
  lemma UserIntentsKeys()
    ensures UserIntents.Keys == set u | u in UserIds
    ensures forall a, b :: 0 <= a < b < |UserIds| ==> UserIds[a] != UserIds[b]
    ensures forall u :: u in UserIntents ==> UserIntents[u].userId == u
    ensures forall u :: u in UserIntents ==> '_' !in u
  {
    assert UserIntents.Keys == {"user1", "user2", "user3", "user4", "user5"};
  }

  /** Each user holds four intents, one per perspective, listed in heading order. */
  lemma UserIntentsOnePerPerspective()
    ensures forall u :: u in UserIntents ==> OnePerPerspective(UserIntents[u].intents)
  {
    assert UserIntents.Keys == {"user1", "user2", "user3", "user4", "user5"};
  }

  const CnnGuideline := "style targeted to young children, storytelling, short sentences, playful language, interactive, positive"
  const Slf5kSummaryGuideline := "second person narrative, brief, show emotions, invoke personal reflection, immersive"
  const WikipediaGuideline := "bullet points, parallel structure, brief"
  const ArxivGuideline := "tweet style, simple English, inquisitive, skillful foreshadowing, with emojis"
  const ImdbGuideline := "question answering style"
  const CcbyGuideline := "structured, straight to the points, respectful, professional greeting and closing"
  const Slf5kEmailGuideline := "informal, conversational, no closing"
  const AmpereGuideline := "casual tone, positive, clear, call to action"
  const PaperTweetGuideline := "engaging, personalized, professional tone, thankful closing"

  const GlobalGuidelines: map<string, map<string, string>> := map[
    "summarization" := map[
      "cnn_dailymail" := CnnGuideline,
      "slf5k" := Slf5kSummaryGuideline,
      "wikipedia" := WikipediaGuideline,
      "CShorten/ML-ArXiv-Papers" := ArxivGuideline,
      "imdb" := ImdbGuideline
    ],
    "email_writing" := map[
      "ccby" := CcbyGuideline,
      "slf5k" := Slf5kEmailGuideline,
      "ampere" := AmpereGuideline,
      "paper_tweet" := PaperTweetGuideline
    ]
  ]

  /** `GLOBAL_GUIDELINES.get(task, {}).get(dataset, "")`; a `None` dataset is never a key. */
  function Guideline(task: string, dataset: Option<string>): string
  {
    if task == "summarization" then SummarizationGuideline(dataset)
    else if task == "email_writing" then EmailGuideline(dataset)
    else ""
  }

  function SummarizationGuideline(dataset: Option<string>): string
  {
    if dataset == Some("cnn_dailymail") then CnnGuideline
    else if dataset == Some("slf5k") then Slf5kSummaryGuideline
    else if dataset == Some("wikipedia") then WikipediaGuideline
    else if dataset == Some("CShorten/ML-ArXiv-Papers") then ArxivGuideline
    else if dataset == Some("imdb") then ImdbGuideline
    else ""
  }

  function EmailGuideline(dataset: Option<string>): string
  {
    if dataset == Some("ccby") then CcbyGuideline
    else if dataset == Some("slf5k") then Slf5kEmailGuideline
    else if dataset == Some("ampere") then AmpereGuideline
    else if dataset == Some("paper_tweet") then PaperTweetGuideline
    else ""
  }

  /** The lookup is the table's: the stored guideline for a listed pair, and "" for any other task, dataset or `None`. */
  lemma GuidelineIsLookup(task: string, dataset: Option<string>)
    ensures (task in GlobalGuidelines && dataset.Some? && dataset.value in GlobalGuidelines[task])
      ==> Guideline(task, dataset) == GlobalGuidelines[task][dataset.value]
    ensures !(task in GlobalGuidelines && dataset.Some? && dataset.value in GlobalGuidelines[task])
      ==> Guideline(task, dataset) == ""
  {
    GuidelineKeys();
  }

  /** The table has exactly these tasks and datasets. */
  lemma GuidelineKeys()
    ensures GlobalGuidelines.Keys == {"summarization", "email_writing"}
    ensures GlobalGuidelines["summarization"].Keys
      == {"cnn_dailymail", "slf5k", "wikipedia", "CShorten/ML-ArXiv-Papers", "imdb"}
    ensures GlobalGuidelines["email_writing"].Keys == {"ccby", "slf5k", "ampere", "paper_tweet"}
  {
  }

  /** The datasets the email task falls back to when none are configured. */
  const DefaultEmailDatasets: seq<string> := ["slf5k", "ccby", "ampere", "paper_tweet"]

  /** Every default email dataset has a non-empty email guideline. */
  lemma DefaultEmailDatasetsHaveGuidelines()
    ensures forall d :: d in DefaultEmailDatasets ==> Guideline("email_writing", Some(d)) != ""
  {
  }

  /** `", ".join(intent.value for intent in preference)` over the given enumeration order. */
  function PreferenceString(preference: seq<AtomicIntent>): string
  {
    Join(", ", Values(preference))
  }

  function Values(xs: seq<AtomicIntent>): (r: seq<string>)
    ensures |r| == |xs| && forall k :: 0 <= k < |xs| ==> r[k] == Value(xs[k])
  {
    if |xs| == 0 then [] else [Value(xs[0])] + Values(xs[1..])
  }
}
