/**
 * The email-writing task (src/task/email_writing.py): the per-dataset example
 * budget of `_get_dataset`, the `next` iteration, and every prompt builder.
 *
 * A preference (a Python set of intents) is a duplicate-free sequence in its
 * enumeration order; its text is `GlobalIntents.PreferenceString`. The
 * dataset type is an `Option<string>` because the builders accept `None`.
 */
module EmailWriting {
  import opened Outcomes
  import opened Text
  import GlobalIntents
  import DatasetHelpers

  type AtomicIntent = GlobalIntents.AtomicIntent

  /** The texts of an original output and the user's revision of it. */
  datatype Correction = Correction(original: string, edited: string)

  // ------------------------------------------------------------ dataset

  /** `task_config.datasets or [...]`: an absent or empty list falls back to the four default datasets. */
  function Datasets(configured: Option<seq<string>>): (r: seq<string>)
    ensures |r| > 0
    ensures configured.Some? && |configured.value| > 0 ==> r == configured.value
    ensures configured.None? || |configured.value| == 0 ==> r == GlobalIntents.DefaultEmailDatasets
  {
    if configured.Some? && |configured.value| > 0 then configured.value else GlobalIntents.DefaultEmailDatasets
  }

  /** `int(a / b)` for `b >= 1`: the quotient truncated toward zero. */
  function TruncDiv(a: int, b: int): (q: int)
    requires b >= 1
    ensures a >= 0 ==> q * b <= a < (q + 1) * b
    ensures a < 0 ==> q <= 0 && -q * b <= -a < (-q + 1) * b
  {
    if a >= 0 then a / b else -((-a) / b)
  }

  /** The number of examples kept from each dataset: -1 (all of them) for a budget of -1, otherwise the budget shared evenly but at least one. */
  function PerTypeCount(numTrainEx: int, numDocTypes: nat): (c: int)
    ensures c == -1 <==> numTrainEx == -1
    ensures c != -1 ==> c >= 1
    ensures numTrainEx != -1 && numTrainEx < numDocTypes ==> c == 1
    ensures numTrainEx >= numDocTypes >= 1 ==> c * numDocTypes <= numTrainEx < (c + 1) * numDocTypes
  {
    if numTrainEx == -1 then -1
    else
      var q := TruncDiv(numTrainEx, if numDocTypes < 1 then 1 else numDocTypes);
      if q < 1 then 1 else q
  }

  /** `islice(r, c if c > 0 else None)`: the first `c` elements, or all of them. */
  function Take(r: seq<DatasetHelpers.Example>, c: int): (t: seq<DatasetHelpers.Example>)
    ensures |t| == if 0 < c < |r| then c else |r|
    ensures t == r[..|t|]
  {
    if 0 < c < |r| then r[..c] else r
  }

  /** The chained slices of the datasets' example lists, in dataset order. */
  function Chain(loaded: seq<seq<DatasetHelpers.Example>>, c: int): seq<DatasetHelpers.Example>
  {
    if |loaded| == 0 then [] else Chain(loaded[..|loaded| - 1], c) + Take(loaded[|loaded| - 1], c)
  }

  /** How many examples a dataset of `n` contributes. */
  function Taken(n: nat, c: int): nat
  {
    if 0 < c < n then c else n
  }

  /** Examples contributed by all datasets together. */
  function TotalTaken(loaded: seq<seq<DatasetHelpers.Example>>, c: int): nat
  {
    if |loaded| == 0 then 0 else TotalTaken(loaded[..|loaded| - 1], c) + Taken(|loaded[|loaded| - 1]|, c)
  }

  /** All examples of every dataset, in order. */
  function Flatten(loaded: seq<seq<DatasetHelpers.Example>>): seq<DatasetHelpers.Example>
  {
    if |loaded| == 0 then [] else Flatten(loaded[..|loaded| - 1]) + loaded[|loaded| - 1]
  }

  /** The chained result holds min(c, size) examples of each dataset, or all of them when c is -1. */
  lemma {:induction false} ChainLength(loaded: seq<seq<DatasetHelpers.Example>>, c: int)
    ensures |Chain(loaded, c)| == TotalTaken(loaded, c)
  {
    if |loaded| > 0 {
      ChainLength(loaded[..|loaded| - 1], c);
    }
  }

  /** With a positive per-dataset count, no more than `c` examples come from each dataset. */
  lemma {:induction false} TotalTakenBudget(loaded: seq<seq<DatasetHelpers.Example>>, c: int)
    requires c >= 1
    ensures TotalTaken(loaded, c) <= c * |loaded|
  {
    if |loaded| > 0 {
      TotalTakenBudget(loaded[..|loaded| - 1], c);
    }
  }

  /** A count of -1 keeps every example of every dataset, in order. */
  lemma {:induction false} ChainAll(loaded: seq<seq<DatasetHelpers.Example>>)
    ensures Chain(loaded, -1) == Flatten(loaded)
  {
    if |loaded| > 0 {
      ChainAll(loaded[..|loaded| - 1]);
    }
  }

  /** Every chained example comes from some dataset: the result is a sub-multiset of all examples. */
  lemma {:induction false} ChainWithin(loaded: seq<seq<DatasetHelpers.Example>>, c: int)
    ensures multiset(Chain(loaded, c)) <= multiset(Flatten(loaded))
  {
    if |loaded| > 0 {
      var last := loaded[|loaded| - 1];
      ChainWithin(loaded[..|loaded| - 1], c);
      var t := Take(last, c);
      assert last == t + last[|t|..];
    }
  }

  /**
   * `_get_dataset`, given each dataset's loaded example list (already in its
   * shuffled order): the chained slices, before the final shuffle.
   */
  method GetDataset(loaded: seq<seq<DatasetHelpers.Example>>, numTrainEx: int) returns (result: seq<DatasetHelpers.Example>)
    ensures result == Chain(loaded, PerTypeCount(numTrainEx, |loaded|))
    ensures |result| == TotalTaken(loaded, PerTypeCount(numTrainEx, |loaded|))
  {
    var c := PerTypeCount(numTrainEx, |loaded|);
    result := [];
    for i := 0 to |loaded|
      invariant result == Chain(loaded[..i], c)
    {
      assert loaded[..i + 1][..i] == loaded[..i];
      result := result + Take(loaded[i], c);
    }
    assert loaded[..|loaded|] == loaded;
    ChainLength(loaded, c);
  }

  /** The task object: the examples it iterates over. */
  class EmailTask {
    var data: seq<DatasetHelpers.Example>

    /** `loaded[i]` is the example list of the i-th configured dataset. */
    constructor (loaded: seq<seq<DatasetHelpers.Example>>, numTrainEx: int)
      ensures data == Chain(loaded, PerTypeCount(numTrainEx, |loaded|))
    {
      var result := GetDataset(loaded, numTrainEx);
      data := result;
    }

    /** `next`: (article, user preference, document type) of every example, in order. */
    function Next(): (r: seq<(string, seq<AtomicIntent>, string)>)
      reads this
      ensures |r| == |data|
      ensures forall i :: 0 <= i < |r| ==> r[i] == (data[i].article, data[i].userPref, data[i].docType)
    {
      seq(|data|, i requires 0 <= i < |data| reads this => (data[i].article, data[i].userPref, data[i].docType))
    }
  }

  // ------------------------------------------------------------ clauses

  const EmailDatasets: set<string> := {"ccby", "slf5k", "ampere", "paper_tweet"}

  /** The lookup never fails; it is empty exactly for a dataset type that is absent or not registered for email writing. */
  lemma EmailGuidelineEmpty(datasetType: Option<string>)
    ensures GlobalIntents.EmailGuideline(datasetType) == GlobalIntents.Guideline("email_writing", datasetType)
    ensures GlobalIntents.EmailGuideline(datasetType) == "" <==> datasetType.None? || datasetType.value !in EmailDatasets
  {
  }

  function Notes(input: string): string { "Notes:\n" + input }
  function Guidelines(g: string): string { "Dataset guidelines: " + g }
  function Preferences(p: string): string { "User preferences: " + p }
  function BaseEmail(output: string): string { "Base email:\n" + output }
  function Email(output: string): string { "Email:\n" + output }

  const WriteInstruction := "Please write a short email based on your above notes."
  const WriteWithPreferences := "Please write a short email based on the above notes that follows both the dataset guidelines and user preferences."
  const IclInstruction := "Based on the edits and revision by this user on the original email in the above examples, please write an email based on the above notes following the dataset guidelines."
  const PreferenceListHeader := "List of user preferences successfully being used to generate emails of a similar kind:\n"
  const IclPrefInstruction := "Using the qualities most represented in the above list of preferences and following the dataset guidelines, please write an email based on the above notes."
  const InferenceQuestion := "Based on the edits and revision by this user on the original email in the above examples, what do you find about this user's generic preference in terms of writing style and formatting?"
  const InferenceAnswerHint := "Please answer in a short phrase and only recommend those preferences that are widely used."
  const MajorityInstruction := "Based on the above examples and dataset guidelines, please come up with short phrase with the most represented writing preferences of this user."
  const BaseInstruction := "Please write a short email based on the above notes following the dataset guidelines."
  const EditInstruction := "Please revise the above base email to better match both the dataset guidelines and user preferences. Focus on making the email more aligned with the user's preferred style while maintaining the key information."
  const ReviseInstruction := "Please revise the above email to meet both the dataset guidelines and user preferences."

  /** The yes/no question closing the resolution prompt. */
  function ResolutionQuestion(p: string): string
  {
    "Is the above email based on the above notes good for a user who wants the following style: " + p + "? Please answer yes or no."
  }

  // ------------------------------------------------------------ single prompts

  /** `get_task_prompt`. */
  function TaskPrompt(input: string, preference: Option<seq<AtomicIntent>>, datasetType: Option<string>): string
  {
    if preference.None? then JoinLines([Notes(input), WriteInstruction])
    else
      JoinLines([Notes(input), Guidelines(GlobalIntents.EmailGuideline(datasetType)),
                 Preferences(GlobalIntents.PreferenceString(preference.value)), WriteWithPreferences])
  }

  /** Without a preference the prompt is the notes and the plain instruction, whatever the dataset type. */
  lemma TaskPromptWithoutPreference(input: string, datasetType: Option<string>)
    ensures TaskPrompt(input, None, datasetType) == Notes(input) + "\n" + WriteInstruction
  {
    JoinLines2(Notes(input), WriteInstruction);
  }

  /** With a preference the prompt is notes, guideline, preference and instruction, one per line, in that order. */
  lemma TaskPromptWithPreference(input: string, preference: seq<AtomicIntent>, datasetType: Option<string>)
    ensures TaskPrompt(input, Some(preference), datasetType)
      == Notes(input) + "\n" + Guidelines(GlobalIntents.EmailGuideline(datasetType)) + "\n"
         + Preferences(GlobalIntents.PreferenceString(preference)) + "\n" + WriteWithPreferences
  {
    JoinLines4(Notes(input), Guidelines(GlobalIntents.EmailGuideline(datasetType)),
               Preferences(GlobalIntents.PreferenceString(preference)), WriteWithPreferences);
  }

  /** An empty preference still emits the preference line, as "User preferences: " with nothing after it. */
  lemma TaskPromptEmptyPreference(input: string, datasetType: Option<string>)
    ensures TaskPrompt(input, Some([]), datasetType)
      == Notes(input) + "\n" + Guidelines(GlobalIntents.EmailGuideline(datasetType)) + "\n" + "User preferences: " + "\n" + WriteWithPreferences
  {
    TaskPromptWithPreference(input, [], datasetType);
    assert GlobalIntents.PreferenceString([]) == "";
    assert Preferences("") == "User preferences: ";
  }

  /** `get_base_prompt`. */
  function BasePrompt(input: string, datasetType: Option<string>): string
  {
    JoinLines([Notes(input), Guidelines(GlobalIntents.EmailGuideline(datasetType)), BaseInstruction])
  }

  /**
   * The base prompt is the preference prompt without its preference line: the
   * same notes and guideline lines, then only the base instruction.
   */
  lemma BasePromptShape(input: string, preference: seq<AtomicIntent>, datasetType: Option<string>)
    ensures var head := Notes(input) + "\n" + Guidelines(GlobalIntents.EmailGuideline(datasetType)) + "\n";
      && BasePrompt(input, datasetType) == head + BaseInstruction
      && TaskPrompt(input, Some(preference), datasetType)
         == head + Preferences(GlobalIntents.PreferenceString(preference)) + "\n" + WriteWithPreferences
  {
    JoinLines3(Notes(input), Guidelines(GlobalIntents.EmailGuideline(datasetType)), BaseInstruction);
    TaskPromptWithPreference(input, preference, datasetType);
  }

  /** `get_edit_prompt`. */
  function EditPrompt(input: string, baseOutput: string, preference: seq<AtomicIntent>, datasetType: Option<string>): string
  {
    JoinLines([Notes(input), BaseEmail(baseOutput), Guidelines(GlobalIntents.EmailGuideline(datasetType)),
               Preferences(GlobalIntents.PreferenceString(preference)), EditInstruction])
  }

  /** The base email sits between the notes and the guideline; the preference follows the guideline. */
  lemma EditPromptShape(input: string, baseOutput: string, preference: seq<AtomicIntent>, datasetType: Option<string>)
    ensures EditPrompt(input, baseOutput, preference, datasetType)
      == Notes(input) + "\n" + BaseEmail(baseOutput) + "\n" + Guidelines(GlobalIntents.EmailGuideline(datasetType)) + "\n"
         + Preferences(GlobalIntents.PreferenceString(preference)) + "\n" + EditInstruction
  {
    JoinLines5(Notes(input), BaseEmail(baseOutput), Guidelines(GlobalIntents.EmailGuideline(datasetType)),
               Preferences(GlobalIntents.PreferenceString(preference)), EditInstruction);
  }

  /** `get_edit_prompts`: the resolution prompt and the edit prompt. */
  function EditPrompts(input: string, output: string, preference: seq<AtomicIntent>, datasetType: Option<string>): (string, string)
  {
    var p := GlobalIntents.PreferenceString(preference);
    var g := GlobalIntents.EmailGuideline(datasetType);
    (JoinLines([Notes(input), Email(output), Guidelines(g), Preferences(p), ResolutionQuestion(p)]),
     JoinLines([Email(output), Guidelines(g), Preferences(p), ReviseInstruction]))
  }

  /** The lines the resolution and edit prompts share: the email, the guideline and the preference. */
  function EditBody(output: string, preference: seq<AtomicIntent>, datasetType: Option<string>): string
  {
    Email(output) + "\n" + Guidelines(GlobalIntents.EmailGuideline(datasetType)) + "\n" + Preferences(GlobalIntents.PreferenceString(preference))
  }

  /** The resolution prompt puts the notes before the shared lines and a yes/no question naming the preference after them. */
  lemma ResolutionPromptShape(input: string, output: string, preference: seq<AtomicIntent>, datasetType: Option<string>)
    ensures EditPrompts(input, output, preference, datasetType).0
      == Notes(input) + "\n" + EditBody(output, preference, datasetType) + "\n"
         + ResolutionQuestion(GlobalIntents.PreferenceString(preference))
  {
    var p := GlobalIntents.PreferenceString(preference);
    var g := GlobalIntents.EmailGuideline(datasetType);
    JoinLines5(Notes(input), Email(output), Guidelines(g), Preferences(p), ResolutionQuestion(p));
  }

  /** The edit prompt is the shared lines followed by the revision request. */
  lemma EditRequestShape(input: string, output: string, preference: seq<AtomicIntent>, datasetType: Option<string>)
    ensures EditPrompts(input, output, preference, datasetType).1
      == EditBody(output, preference, datasetType) + "\n" + ReviseInstruction
  {
    var p := GlobalIntents.PreferenceString(preference);
    var g := GlobalIntents.EmailGuideline(datasetType);
    JoinLines4(Email(output), Guidelines(g), Preferences(p), ReviseInstruction);
  }

  // ------------------------------------------------------------ looped prompts

  /** One in-context example: the original and the revised email. */
  function Block(c: Correction): string
  {
    OriginalLine(c) + RevisedLine(c)
  }

  function OriginalLine(c: Correction): string { "Original email:\n" + c.original + "\n" }
  function RevisedLine(c: Correction): string { "Revised email:\n" + c.edited + "\n\n" }

  /** The example blocks of the corrections, in list order. */
  function Blocks(cs: seq<Correction>): string
  {
    if |cs| == 0 then "" else Block(cs[0]) + Blocks(cs[1..])
  }

  /** The blocks of a concatenation are the concatenated blocks. */
  lemma {:induction false} BlocksAppend(a: seq<Correction>, b: seq<Correction>)
    ensures Blocks(a + b) == Blocks(a) + Blocks(b)
  {
    if |a| == 0 {
      assert a + b == b;
    } else {
      assert (a + b)[0] == a[0];
      assert (a + b)[1..] == a[1..] + b;
      BlocksAppend(a[1..], b);
    }
  }

  /** Appending one block at the end, as the loops do. */
  lemma BlocksSnoc(cs: seq<Correction>, i: int)
    requires 0 <= i < |cs|
    ensures Blocks(cs[..i + 1]) == Blocks(cs[..i]) + OriginalLine(cs[i]) + RevisedLine(cs[i])
  {
    assert cs[..i + 1] == cs[..i] + [cs[i]];
    BlocksAppend(cs[..i], [cs[i]]);
    assert [cs[i]][1..] == [];
  }

  /** The loop shared by `get_task_prompt_icl` and `get_preference_inference_prompt`: one block per correction, appended in order. */
  method AppendBlocks(prefix: string, corrections: seq<Correction>) returns (prompt: string)
    ensures prompt == prefix + Blocks(corrections)
  {
    prompt := prefix;
    for i := 0 to |corrections|
      invariant prompt == prefix + Blocks(corrections[..i])
    {
      BlocksSnoc(corrections, i);
      AppendAssoc4(prefix, Blocks(corrections[..i]), OriginalLine(corrections[i]), RevisedLine(corrections[i]));
      prompt := prompt + ("Original email:\n" + corrections[i].original + "\n");
      prompt := prompt + ("Revised email:\n" + corrections[i].edited + "\n\n");
    }
    assert corrections[..|corrections|] == corrections;
  }

  /** `get_task_prompt_icl`. */
  method IclPrompt(input: string, corrections: seq<Correction>, datasetType: Option<string>) returns (prompt: string)
    ensures prompt == Blocks(corrections)
      + JoinLines([Notes(input), Guidelines(GlobalIntents.EmailGuideline(datasetType)), IclInstruction])
  {
    var g := GlobalIntents.EmailGuideline(datasetType);
    prompt := AppendBlocks("", corrections);
    prompt := prompt + JoinLines([Notes(input), Guidelines(g), IclInstruction]);
  }

  /** `get_preference_inference_prompt`. */
  method PreferenceInferencePrompt(corrections: seq<Correction>, datasetType: Option<string>) returns (prompt: string)
    ensures prompt == Blocks(corrections)
      + JoinLines([Guidelines(GlobalIntents.EmailGuideline(datasetType)), InferenceQuestion, InferenceAnswerHint])
  {
    var g := GlobalIntents.EmailGuideline(datasetType);
    prompt := AppendBlocks("", corrections);
    prompt := prompt + JoinLines([Guidelines(g), InferenceQuestion, InferenceAnswerHint]);
  }

  /** One line of the preference list. */
  function PrefLine(preference: seq<AtomicIntent>): string
  {
    "- " + GlobalIntents.PreferenceString(preference) + "\n"
  }

  /** The preference lines, in list order. */
  function PrefLines(prefs: seq<seq<AtomicIntent>>): string
  {
    if |prefs| == 0 then "" else PrefLine(prefs[0]) + PrefLines(prefs[1..])
  }

  /** The lines of a concatenation are the concatenated lines. */
  lemma {:induction false} PrefLinesAppend(a: seq<seq<AtomicIntent>>, b: seq<seq<AtomicIntent>>)
    ensures PrefLines(a + b) == PrefLines(a) + PrefLines(b)
  {
    if |a| == 0 {
      assert a + b == b;
    } else {
      assert (a + b)[0] == a[0];
      assert (a + b)[1..] == a[1..] + b;
      PrefLinesAppend(a[1..], b);
    }
  }

  lemma PrefLinesSnoc(prefs: seq<seq<AtomicIntent>>, i: int)
    requires 0 <= i < |prefs|
    ensures PrefLines(prefs[..i + 1]) == PrefLines(prefs[..i]) + PrefLine(prefs[i])
  {
    assert prefs[..i + 1] == prefs[..i] + [prefs[i]];
    PrefLinesAppend(prefs[..i], [prefs[i]]);
    assert [prefs[i]][1..] == [];
  }

  /** The loop shared by `get_task_prompt_icl_pref` and `get_majority_preference_prompt`: one line per preference set, appended in order. */
  method AppendPrefLines(prefix: string, preferences: seq<seq<AtomicIntent>>) returns (prompt: string)
    ensures prompt == prefix + PrefLines(preferences)
  {
    prompt := prefix;
    for i := 0 to |preferences|
      invariant prompt == prefix + PrefLines(preferences[..i])
    {
      PrefLinesSnoc(preferences, i);
      AppendAssoc(prefix, PrefLines(preferences[..i]), PrefLine(preferences[i]));
      var preferenceStr := GlobalIntents.PreferenceString(preferences[i]);
      prompt := prompt + ("- " + preferenceStr + "\n");
    }
    assert preferences[..|preferences|] == preferences;
  }

  /** `get_task_prompt_icl_pref`. */
  method IclPrefPrompt(input: string, preferences: seq<seq<AtomicIntent>>, datasetType: Option<string>) returns (prompt: string)
    ensures prompt == PreferenceListHeader + PrefLines(preferences)
      + JoinLines([Notes(input), Guidelines(GlobalIntents.EmailGuideline(datasetType)), IclPrefInstruction])
  {
    var g := GlobalIntents.EmailGuideline(datasetType);
    prompt := AppendPrefLines(PreferenceListHeader, preferences);
    prompt := prompt + JoinLines([Notes(input), Guidelines(g), IclPrefInstruction]);
  }

  /** `get_majority_preference_prompt`. */
  method MajorityPreferencePrompt(preferences: seq<seq<AtomicIntent>>, datasetType: Option<string>) returns (prompt: string)
    ensures prompt == PreferenceListHeader + PrefLines(preferences)
      + (Guidelines(GlobalIntents.EmailGuideline(datasetType)) + "\n") + MajorityInstruction
  {
    var g := GlobalIntents.EmailGuideline(datasetType);
    prompt := AppendPrefLines(PreferenceListHeader, preferences);
    prompt := prompt + ("Dataset guidelines: " + g + "\n");
    prompt := prompt + MajorityInstruction;
  }
}
