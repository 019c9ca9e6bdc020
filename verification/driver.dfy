/**
 * The synthesis driver (main.py): for each task and each of its datasets it
 * loads the examples, goes through them user by user, asks the intent
 * handler for a personalised completion of each article, keeps a record of
 * what was asked and answered, and finally saves the records of each task
 * in one JSON file per dataset.
 *
 * The driver asks the handler for `_construct_prompt`, a method the handler
 * does not define; every example then fails with AttributeError and is
 * skipped. `PromptSource` chooses between that behaviour and the intended
 * one, in which the recorded prompt is the one `process_input` sends.
 * An example whose model call answers `None` is skipped too: slicing the
 * answer raises TypeError, which the same handler swallows.
 */
module Driver {
  import opened Outcomes
  import opened Text
  import GlobalIntents
  import UP = UserPreferences
  import Grouping
  import DH = DatasetHelpers
  import IH = IntentHandler

  /** One result record, the dict appended to `results[task]`. */
  datatype Record = Record(
    dataset: string,
    userId: string,
    articleId: string,
    articlePreview: string,
    datasetGuideline: string,
    userPreference: string,
    prompt: string,
    result: string,
    model: string,
    timestamp: string)

  /** A file `save_results` writes: its path and the records dumped into it. */
  datatype SavedFile = SavedFile(name: string, records: seq<Record>)

  /** Where the recorded prompt comes from. */
  datatype PromptSource =
    | MissingMethod   // as written: `handler._construct_prompt`, which the handler lacks
    | HandlerPrompt   // as intended: the prompt `process_input` builds for the same arguments

  /** The tasks and datasets `main` processes, in order. */
  const Tasks: seq<(string, seq<string>)> := [("summarization", ["cnn_dailymail"])]

  /** `load_data` is asked for all five users. */
  const NumUsers := 5

  const OutputDir := "synthesized"

  /** `test_samples if test_mode else 100`: the example count and the `num_samples` of the file names. */
  function SampleCount(testMode: bool, testSamples: int): int
  {
    if testMode then testSamples else 100
  }

  // ------------------------------------------------------------ one record

  /** `", ".join(intent.value for intent in user_pref) if user_pref else ""`. */
  function UserPreferenceString(pref: seq<GlobalIntents.AtomicIntent>): (r: string)
    ensures r == GlobalIntents.PreferenceString(pref)
    ensures |pref| == 0 ==> r == ""
  {
    if |pref| == 0 then "" else GlobalIntents.PreferenceString(pref)
  }

  /** What stays fixed while one dataset of one task is processed. */
  datatype Env = Env(
    src: PromptSource,
    table: IH.Table,
    guidelines: map<string, map<string, string>>,
    caller: IH.Caller,
    task: string,
    datasetName: string,
    guideline: string,
    model: string,
    now: string)

  /** One example visited on behalf of one user. */
  type Visit = (string, DH.Example)

  /** The request `process_input` makes for a visit. */
  function Request(env: Env, v: Visit): Result<string>
  {
    IH.Request(env.table, env.guidelines, env.task, env.datasetName, v.1.article, v.0)
  }

  /** The prompt line 76 obtains for a visit, or the exception it raises. */
  function Prompt(env: Env, v: Visit): Result<string>
  {
    match env.src
    case MissingMethod => Err(AttributeError("_construct_prompt"))
    case HandlerPrompt => Request(env, v)
  }

  /**
   * The model calls one visit makes: `process_input` is reached only when
   * the prompt was obtained, and calls the model only when its own request
   * succeeds.
   */
  function CallsFor(env: Env, v: Visit): seq<(string, string)>
  {
    if Prompt(env, v).Err? then []
    else if Request(env, v).Err? then []
    else [(Request(env, v).value, v.1.article)]
  }

  /**
   * The record one visit appends: one when both calls return and the model
   * answers; none when either raises, or when the model answers `None`, on
   * which `result[:100]` raises TypeError before the record is built.
   */
  function RecordFor(env: Env, v: Visit): seq<Record>
  {
    var prompt := Prompt(env, v);
    var request := Request(env, v);
    if prompt.Err? || request.Err? then []
    else
      match env.caller(request.value, v.1.article)
      case None => []
      case Some(result) =>
        [Record(env.datasetName, v.0, v.1.id, Prefix(v.1.article, 100), env.guideline,
                UserPreferenceString(v.1.userPref), prompt.value, result, env.model, env.now)]
  }

  function Records(env: Env, vs: seq<Visit>): seq<Record>
  {
    if |vs| == 0 then [] else Records(env, vs[..|vs| - 1]) + RecordFor(env, vs[|vs| - 1])
  }

  function Calls(env: Env, vs: seq<Visit>): seq<(string, string)>
  {
    if |vs| == 0 then [] else Calls(env, vs[..|vs| - 1]) + CallsFor(env, vs[|vs| - 1])
  }

  /** The calls of `cs` the caller answers, in order: the ones that leave a record. */
  function Answered(caller: IH.Caller, cs: seq<(string, string)>): (r: seq<(string, string)>)
    ensures |r| <= |cs|
    ensures forall i :: 0 <= i < |r| ==> r[i] in cs && caller(r[i].0, r[i].1).Some?
  {
    if |cs| == 0 then []
    else
      var last := cs[|cs| - 1];
      var init := Answered(caller, cs[..|cs| - 1]);
      assert forall c :: c in cs[..|cs| - 1] ==> c in cs;
      init + if caller(last.0, last.1).Some? then [last] else []
  }

  /** A caller that always answers answers every call. */
  lemma {:induction false} AnsweredAll(caller: IH.Caller, cs: seq<(string, string)>)
    requires IH.AlwaysAnswers(caller)
    ensures Answered(caller, cs) == cs
  {
    if |cs| > 0 {
      AnsweredAll(caller, cs[..|cs| - 1]);
      assert cs == cs[..|cs| - 1] + [cs[|cs| - 1]];
    }
  }

  lemma RecordsSnoc(env: Env, vs: seq<Visit>, v: Visit)
    ensures Records(env, vs + [v]) == Records(env, vs) + RecordFor(env, v)
    ensures Calls(env, vs + [v]) == Calls(env, vs) + CallsFor(env, v)
  {
    assert (vs + [v])[..|vs|] == vs;
  }

  // ------------------------------------------------------- visiting order

  /** `user_examples` paired with the user they are visited for. */
  function Pairs(userId: string, es: seq<DH.Example>): (r: seq<Visit>)
    ensures |r| == |es|
    ensures forall i :: 0 <= i < |es| ==> r[i] == (userId, es[i])
  {
    seq(|es|, i requires 0 <= i < |es| => (userId, es[i]))
  }

  /** The nested loops: each user of `users` in turn, and that user's examples in dataset order. */
  function Visits(examples: seq<DH.Example>, users: seq<string>): seq<Visit>
  {
    if |users| == 0 then []
    else Pairs(users[0], Grouping.Select(examples, DH.UserOf, users[0])) + Visits(examples, users[1..])
  }

  lemma {:induction false} VisitsAppend(examples: seq<DH.Example>, a: seq<string>, b: seq<string>)
    ensures Visits(examples, a + b) == Visits(examples, a) + Visits(examples, b)
  {
    if |a| == 0 {
      assert a + b == b;
    } else {
      assert (a + b)[0] == a[0];
      assert (a + b)[1..] == a[1..] + b;
      VisitsAppend(examples, a[1..], b);
    }
  }

  lemma VisitsSnoc(examples: seq<DH.Example>, users: seq<string>, k: int)
    requires 0 <= k < |users|
    ensures Visits(examples, users[..k + 1])
      == Visits(examples, users[..k]) + Pairs(users[k], Grouping.Select(examples, DH.UserOf, users[k]))
  {
    assert users[..k + 1] == users[..k] + [users[k]];
    VisitsAppend(examples, users[..k], [users[k]]);
    assert [users[k]][1..] == [];
  }

  /** The examples visited are the examples regrouped by user. */
  lemma {:induction false} VisitsRegroup(examples: seq<DH.Example>, users: seq<string>)
    ensures var vs := Visits(examples, users);
      var xs := Grouping.Regroup(examples, DH.UserOf, users);
      |vs| == |xs| && forall i :: 0 <= i < |vs| ==> vs[i].1 == xs[i]
  {
    if |users| > 0 {
      VisitsRegroup(examples, users[1..]);
      var sel := Grouping.Select(examples, DH.UserOf, users[0]);
      var head, vr := Pairs(users[0], sel), Visits(examples, users[1..]);
      var xr := Grouping.Regroup(examples, DH.UserOf, users[1..]);
      var vs, xs := head + vr, sel + xr;
      assert Visits(examples, users) == vs;
      assert Grouping.Regroup(examples, DH.UserOf, users) == xs;
      forall i | 0 <= i < |vs| ensures vs[i].1 == xs[i] {
        if i < |head| {
          assert vs[i] == head[i] && xs[i] == sel[i];
        } else {
          assert vs[i] == vr[i - |head|] && xs[i] == xr[i - |sel|];
        }
      }
    }
  }

  /** Each example is visited for the user its id names. */
  lemma {:induction false} VisitsUsers(examples: seq<DH.Example>, users: seq<string>)
    ensures forall v :: v in Visits(examples, users) ==> v.0 == DH.UserOf(v.1)
  {
    if |users| > 0 {
      var sel := Grouping.Select(examples, DH.UserOf, users[0]);
      var head := Pairs(users[0], sel);
      VisitsUsers(examples, users[1..]);
      SelectedUser(examples, users[0]);
      forall v | v in head ensures v.0 == DH.UserOf(v.1) {
        var i :| 0 <= i < |head| && head[i] == v;
        assert sel[i] in sel;
      }
    }
  }

  /** The examples selected for a user are the ones whose ids name that user. */
  lemma SelectedUser(examples: seq<DH.Example>, userId: string)
    ensures forall e :: e in Grouping.Select(examples, DH.UserOf, userId) ==> DH.UserOf(e) == userId
  {
    Grouping.SelectMembers(examples, DH.UserOf, userId);
  }

  /** The examples of a sequence of visits, in order. */
  function VisitedExamples(vs: seq<Visit>): (r: seq<DH.Example>)
    ensures |r| == |vs| && forall i :: 0 <= i < |vs| ==> r[i] == vs[i].1
  {
    seq(|vs|, i requires 0 <= i < |vs| => vs[i].1)
  }

  /** Visiting every user of the dataset, each once, visits every example exactly once. */
  lemma VisitsEveryExample(examples: seq<DH.Example>, users: seq<string>)
    requires StrictlySorted(users) && Elements(users) == DH.UsersOf(examples)
    ensures var vs := Visits(examples, users);
      |vs| == |examples|
      && multiset(VisitedExamples(vs)) == multiset(examples)
      && forall v :: v in vs ==> v.0 == DH.UserOf(v.1) && v.1 in examples
  {
    var vs := Visits(examples, users);
    var xs := Grouping.Regroup(examples, DH.UserOf, users);
    RegroupedVisits(examples, users);
    VisitsUsers(examples, users);
    forall v | v in vs ensures v.1 in examples {
      var i :| 0 <= i < |vs| && vs[i] == v;
      assert VisitedExamples(vs)[i] == v.1;
      assert v.1 in multiset(VisitedExamples(vs));
    }
  }

  /** The examples visited are a permutation of the dataset's. */
  lemma RegroupedVisits(examples: seq<DH.Example>, users: seq<string>)
    requires StrictlySorted(users) && Elements(users) == DH.UsersOf(examples)
    ensures VisitedExamples(Visits(examples, users)) == Grouping.Regroup(examples, DH.UserOf, users)
    ensures multiset(VisitedExamples(Visits(examples, users))) == multiset(examples)
    ensures |Visits(examples, users)| == |examples|
  {
    SortedDistinct(users);
    UsersCovered(examples, users);
    Grouping.RegroupIsPermutation(examples, DH.UserOf, users);
    VisitsRegroup(examples, users);
  }

  lemma SortedDistinct(users: seq<string>)
    requires StrictlySorted(users)
    ensures forall i, j :: 0 <= i < j < |users| ==> users[i] != users[j]
  {
    forall i, j | 0 <= i < j < |users| ensures users[i] != users[j] {
      StrLessIrreflexive(users[i]);
    }
  }

  /** The unique users of a dataset name the user of every example. */
  lemma UsersCovered(examples: seq<DH.Example>, users: seq<string>)
    requires Elements(users) == DH.UsersOf(examples)
    ensures forall x :: x in examples ==> DH.UserOf(x) in users
  {
    DH.ImageMembers(examples, DH.UserOf);
  }

  // ------------------------------------------------ the two prompt sources

  /** As written, no example is recorded and the model is never called. */
  lemma {:induction false} AsWrittenRecordsNothing(env: Env, vs: seq<Visit>)
    requires env.src == MissingMethod
    ensures Records(env, vs) == [] && Calls(env, vs) == []
  {
    if |vs| > 0 {
      AsWrittenRecordsNothing(env, vs[..|vs| - 1]);
    }
  }

  /**
   * As intended, the records and the answered model calls correspond one to
   * one: each record holds the prompt the model received and the model's
   * answer to it.
   */
  lemma {:induction false} RecordedPromptIsSent(env: Env, vs: seq<Visit>)
    requires env.src == HandlerPrompt
    ensures var rs, cs := Records(env, vs), Answered(env.caller, Calls(env, vs));
      |rs| == |cs|
      && forall i :: 0 <= i < |rs| ==> rs[i].prompt == cs[i].0 && Some(rs[i].result) == env.caller(cs[i].0, cs[i].1)
  {
    if |vs| > 0 {
      var init, last := vs[..|vs| - 1], vs[|vs| - 1];
      RecordedPromptIsSent(env, init);
      var c0, one := Calls(env, init), CallsFor(env, last);
      if one == [] {
        assert c0 + one == c0;
      } else {
        assert (c0 + one)[..|c0|] == c0;
      }
    }
  }

  /** Every record carries the dataset being processed. */
  lemma {:induction false} RecordsOfDataset(env: Env, vs: seq<Visit>)
    ensures forall r :: r in Records(env, vs) ==> r.dataset == env.datasetName
  {
    if |vs| > 0 {
      RecordsOfDataset(env, vs[..|vs| - 1]);
    }
  }

  /** The prompt the handler builds for user `u`: the task guideline, the user's intents and the article. */
  function ExpectedPrompt(env: Env, users: map<string, UP.UserPreference>, v: Visit): string
    requires v.0 in users && env.task in users[v.0].taskPreferences
    requires env.datasetName in users[v.0].taskPreferences[env.task]
    requires env.task in env.guidelines && env.datasetName in env.guidelines[env.task]
  {
    env.guidelines[env.task][env.datasetName] + "\n\n"
    + (IH.TemplateHead + IH.Description(users[v.0].taskPreferences[env.task][env.datasetName])
       + IH.TemplateTail + v.1.article)
  }

  /**
   * With a table built from `users`, a registered task and dataset and a
   * user with preferences, the handler's request succeeds with the expected
   * prompt.
   */
  lemma RequestForRegistered(env: Env, users: map<string, UP.UserPreference>, v: Visit)
    requires forall u :: u in users ==> IH.ListsRegistered(users[u].taskPreferences)
    requires users != map[]
    requires IH.Built(env.table, IH.PrefsOf(users))
    requires UP.Registered(env.task, env.datasetName)
    requires IH.CoversRegistered(env.guidelines)
    requires v.0 in users
    ensures env.task in users[v.0].taskPreferences
    ensures env.datasetName in users[v.0].taskPreferences[env.task]
    ensures env.task in env.guidelines && env.datasetName in env.guidelines[env.task]
    ensures Request(env, v) == Ok(ExpectedPrompt(env, users, v))
  {
    IH.RequestOutcome(env.table, users, env.guidelines, env.task, env.datasetName, v.1.article, v.0);
  }

  /**
   * As intended, with a table built from `users`, a registered task and
   * dataset and a user with preferences, the visit calls the model once with
   * the expected prompt, and is recorded with the model's answer unless the
   * model answers `None`.
   */
  lemma RecordForRegistered(env: Env, users: map<string, UP.UserPreference>, v: Visit)
    requires env.src == HandlerPrompt
    requires forall u :: u in users ==> IH.ListsRegistered(users[u].taskPreferences)
    requires users != map[]
    requires IH.Built(env.table, IH.PrefsOf(users))
    requires UP.Registered(env.task, env.datasetName)
    requires IH.CoversRegistered(env.guidelines)
    requires v.0 in users
    ensures env.task in users[v.0].taskPreferences
    ensures env.datasetName in users[v.0].taskPreferences[env.task]
    ensures env.task in env.guidelines && env.datasetName in env.guidelines[env.task]
    ensures CallsFor(env, v) == [(ExpectedPrompt(env, users, v), v.1.article)]
    ensures env.caller(ExpectedPrompt(env, users, v), v.1.article).None? ==> RecordFor(env, v) == []
    ensures env.caller(ExpectedPrompt(env, users, v), v.1.article).Some? ==>
      RecordFor(env, v) == [Record(env.datasetName, v.0, v.1.id, Prefix(v.1.article, 100), env.guideline,
                                   UserPreferenceString(v.1.userPref), ExpectedPrompt(env, users, v),
                                   env.caller(ExpectedPrompt(env, users, v), v.1.article).value, env.model, env.now)]
  {
    RequestForRegistered(env, users, v);
    RecordForPrompt(env, v, ExpectedPrompt(env, users, v));
  }

  /** A visit whose prompt and request are both `p` calls the model on `p` and records its answer, if any. */
  lemma RecordForPrompt(env: Env, v: Visit, p: string)
    requires Prompt(env, v) == Ok(p) && Request(env, v) == Ok(p)
    ensures CallsFor(env, v) == [(p, v.1.article)]
    ensures env.caller(p, v.1.article).None? ==> RecordFor(env, v) == []
    ensures env.caller(p, v.1.article).Some? ==>
      RecordFor(env, v) == [Record(env.datasetName, v.0, v.1.id, Prefix(v.1.article, 100), env.guideline,
                                   UserPreferenceString(v.1.userPref), p, env.caller(p, v.1.article).value,
                                   env.model, env.now)]
  {
  }

  /** The visit appends exactly one record, for its own user and article. */
  predicate RecordedOnce(env: Env, v: Visit)
  {
    var r := RecordFor(env, v);
    |r| == 1 && r[0].userId == v.0 && r[0].articleId == v.1.id
  }

  /** When each visit appends exactly its own record, the records follow the visits one to one. */
  lemma {:induction false} RecordsOneEach(env: Env, vs: seq<Visit>)
    requires forall v :: v in vs ==> RecordedOnce(env, v)
    ensures |Records(env, vs)| == |vs|
    ensures forall i :: 0 <= i < |vs| ==>
      Records(env, vs)[i].userId == vs[i].0 && Records(env, vs)[i].articleId == vs[i].1.id
  {
    if |vs| > 0 {
      var init, last := vs[..|vs| - 1], vs[|vs| - 1];
      assert last in vs;
      forall v | v in init ensures RecordedOnce(env, v) {
        assert v in vs;
      }
      RecordsOneEach(env, init);
      var rs, rs0, one := Records(env, vs), Records(env, init), RecordFor(env, last);
      assert rs == rs0 + one;
      assert RecordedOnce(env, last);
      forall i | 0 <= i < |vs| ensures rs[i].userId == vs[i].0 && rs[i].articleId == vs[i].1.id {
        if i < |init| {
          assert rs[i] == rs0[i] && vs[i] == init[i];
        } else {
          assert rs[i] == one[0];
        }
      }
    }
  }

  /** The visit makes exactly one model call, on its own article. */
  predicate CalledOnce(env: Env, v: Visit)
  {
    var c := CallsFor(env, v);
    |c| == 1 && c[0].1 == v.1.article
  }

  /** When each visit makes exactly one call, the calls follow the visits one to one. */
  lemma {:induction false} CallsOneEach(env: Env, vs: seq<Visit>)
    requires forall v :: v in vs ==> CalledOnce(env, v)
    ensures |Calls(env, vs)| == |vs|
    ensures forall i :: 0 <= i < |vs| ==> Calls(env, vs)[i].1 == vs[i].1.article
  {
    if |vs| > 0 {
      var init, last := vs[..|vs| - 1], vs[|vs| - 1];
      assert last in vs;
      forall v | v in init ensures CalledOnce(env, v) {
        assert v in vs;
      }
      CallsOneEach(env, init);
      var cs, cs0, one := Calls(env, vs), Calls(env, init), CallsFor(env, last);
      assert cs == cs0 + one;
      assert CalledOnce(env, last);
      forall i | 0 <= i < |vs| ensures cs[i].1 == vs[i].1.article {
        if i < |init| {
          assert cs[i] == cs0[i] && vs[i] == init[i];
        } else {
          assert cs[i] == one[0];
        }
      }
    }
  }

  /**
   * As intended, every visit of a user with preferences to a registered
   * dataset calls the model once; with a caller that always answers, every
   * visit is recorded.
   */
  lemma EveryVisitRecorded(env: Env, users: map<string, UP.UserPreference>, vs: seq<Visit>)
    requires env.src == HandlerPrompt
    requires forall u :: u in users ==> IH.ListsRegistered(users[u].taskPreferences)
    requires users != map[]
    requires IH.Built(env.table, IH.PrefsOf(users))
    requires UP.Registered(env.task, env.datasetName)
    requires IH.CoversRegistered(env.guidelines)
    requires forall v :: v in vs ==> v.0 in users
    ensures |Calls(env, vs)| == |vs|
    ensures forall i :: 0 <= i < |vs| ==> Calls(env, vs)[i].1 == vs[i].1.article
    ensures IH.AlwaysAnswers(env.caller) ==> |Records(env, vs)| == |vs|
    ensures IH.AlwaysAnswers(env.caller) ==> forall i :: 0 <= i < |vs| ==>
      Records(env, vs)[i].userId == vs[i].0 && Records(env, vs)[i].articleId == vs[i].1.id
  {
    forall v | v in vs
      ensures CalledOnce(env, v) && (IH.AlwaysAnswers(env.caller) ==> RecordedOnce(env, v))
    {
      RecordForRegistered(env, users, v);
    }
    CallsOneEach(env, vs);
    if IH.AlwaysAnswers(env.caller) {
      RecordsOneEach(env, vs);
    }
  }

  /** The user ids `load_data` hands out all have preferences. */
  lemma LoadedUsersHavePreferences(xs: seq<DH.Example>, recs: seq<DH.Record>, idKey: string, articleKey: string,
                                   docType: string, n: int, users: map<string, UP.UserPreference>)
    requires DH.RoundRobin(xs, recs, idKey, articleKey, docType, n)
    requires forall u :: u in GlobalIntents.UserIds ==> u in users
    ensures forall e :: e in xs ==> DH.UserOf(e) in users
  {
    DH.RoundRobinUsers(xs, recs, idKey, articleKey, docType, n);
    forall e | e in xs ensures DH.UserOf(e) in users {
      var i :| 0 <= i < |xs| && xs[i] == e;
      assert GlobalIntents.UserIds[i % n] in GlobalIntents.UserIds;
    }
  }

  /**
   * The guideline saved with each record is the one of the module-level
   * guideline table, which for cnn_dailymail is not the guideline the
   * handler puts at the head of the prompt.
   */
  lemma SavedGuidelineIsNotPromptGuideline()
    ensures GlobalIntents.Guideline("summarization", Some("cnn_dailymail"))
      != UP.GlobalGuidelines["summarization"]["cnn_dailymail"]
  {
    assert |GlobalIntents.CnnGuideline| != |UP.CnnGuideline|;
  }

  // -------------------------------------------------------- the main loop

  lemma ConcatAssoc<T>(a: seq<T>, b: seq<T>, c: seq<T>)
    ensures (a + b) + c == a + (b + c)
  {
  }

  /** One more example of the current user extends the records and the calls by that visit's. */
  lemma PairsStep(env: Env, userId: string, es: seq<DH.Example>, i: int)
    requires 0 <= i < |es|
    ensures Records(env, Pairs(userId, es[..i + 1])) == Records(env, Pairs(userId, es[..i])) + RecordFor(env, (userId, es[i]))
    ensures Calls(env, Pairs(userId, es[..i + 1])) == Calls(env, Pairs(userId, es[..i])) + CallsFor(env, (userId, es[i]))
  {
    assert Pairs(userId, es[..i + 1]) == Pairs(userId, es[..i]) + [(userId, es[i])];
    RecordsSnoc(env, Pairs(userId, es[..i]), (userId, es[i]));
  }

  /** The records and calls of consecutive visits are those of each part, in order. */
  lemma RecordsAppend(env: Env, a: seq<Visit>, b: seq<Visit>)
    ensures Records(env, a + b) == Records(env, a) + Records(env, b)
    ensures Calls(env, a + b) == Calls(env, a) + Calls(env, b)
  {
    RecordsOnlyAppend(env, a, b);
    CallsAppend(env, a, b);
  }

  lemma {:induction false} RecordsOnlyAppend(env: Env, a: seq<Visit>, b: seq<Visit>)
    ensures Records(env, a + b) == Records(env, a) + Records(env, b)
  {
    if |b| == 0 {
      assert a + b == a;
    } else {
      var init, last := b[..|b| - 1], b[|b| - 1];
      RecordsOnlyAppend(env, a, init);
      assert a + b == (a + init) + [last];
      assert init + [last] == b;
      RecordsSnoc(env, a + init, last);
      RecordsSnoc(env, init, last);
      ConcatAssoc(Records(env, a), Records(env, init), RecordFor(env, last));
    }
  }

  lemma {:induction false} CallsAppend(env: Env, a: seq<Visit>, b: seq<Visit>)
    ensures Calls(env, a + b) == Calls(env, a) + Calls(env, b)
  {
    if |b| == 0 {
      assert a + b == a;
    } else {
      var init, last := b[..|b| - 1], b[|b| - 1];
      CallsAppend(env, a, init);
      assert a + b == (a + init) + [last];
      assert init + [last] == b;
      RecordsSnoc(env, a + init, last);
      RecordsSnoc(env, init, last);
      ConcatAssoc(Calls(env, a), Calls(env, init), CallsFor(env, last));
    }
  }

  /**
   * The body of the innermost loop: build the prompt, call `process_input`,
   * and return the record to append, or nothing when either raises.
   */
  method VisitExample(handler: IH.Handler, src: PromptSource, task: string, datasetName: string,
                      guideline: string, model: string, now: string, userId: string, example: DH.Example)
    returns (record: seq<Record>)
    modifies handler`calls
    ensures var env := Env(src, handler.intents, handler.guidelines, handler.modelCaller, task, datasetName, guideline, model, now);
      record == RecordFor(env, (userId, example))
      && handler.calls == old(handler.calls) + CallsFor(env, (userId, example))
  {
    record := [];
    var env := Env(src, handler.intents, handler.guidelines, handler.modelCaller, task, datasetName, guideline, model, now);
    var prompt := Prompt(env, (userId, example));
    if prompt.Ok? {
      var result := handler.ProcessInput(task, datasetName, example.article, userId);
      // On a `None` answer `result[:100]` raises TypeError and nothing is recorded.
      if result.Ok? && result.value.Some? {
        var userPref := UserPreferenceString(example.userPref);
        record := [Record(datasetName, userId, example.id, Prefix(example.article, 100), guideline,
                          userPref, prompt.value, result.value.value, model, now)];
      }
    }
  }

  /** The loop over `get_examples_by_user(user_id)`: each example of the user in turn. */
  method CollectUser(handler: IH.Handler, src: PromptSource, task: string, datasetName: string,
                     guideline: string, model: string, now: string, userId: string, userExamples: seq<DH.Example>)
    returns (records: seq<Record>)
    modifies handler`calls
    ensures var env := Env(src, handler.intents, handler.guidelines, handler.modelCaller, task, datasetName, guideline, model, now);
      records == Records(env, Pairs(userId, userExamples))
      && handler.calls == old(handler.calls) + Calls(env, Pairs(userId, userExamples))
  {
    ghost var env := Env(src, handler.intents, handler.guidelines, handler.modelCaller, task, datasetName, guideline, model, now);
    records := [];
    for i := 0 to |userExamples|
      invariant records == Records(env, Pairs(userId, userExamples[..i]))
      invariant handler.calls == old(handler.calls) + Calls(env, Pairs(userId, userExamples[..i]))
    {
      var example := userExamples[i];
      PairsStep(env, userId, userExamples, i);
      ghost var before := handler.calls;
      var record := VisitExample(handler, src, task, datasetName, guideline, model, now, userId, example);
      assert handler.calls == before + CallsFor(env, (userId, example));
      ConcatAssoc(old(handler.calls), Calls(env, Pairs(userId, userExamples[..i])), CallsFor(env, (userId, example)));
      records := records + record;
    }
    assert userExamples[..|userExamples|] == userExamples;
  }

  /**
   * The loops over `get_unique_users()` and `get_examples_by_user(user_id)`
   * for one dataset: a record is appended for an example when building the
   * prompt and `process_input` both return, and the example is skipped when
   * either raises.
   */
  method Collect(handler: IH.Handler, src: PromptSource, task: string, datasetName: string, dataset: DH.InputDataset,
                 guideline: string, model: string, now: string)
    returns (users: seq<string>, records: seq<Record>)
    modifies handler`calls
    ensures StrictlySorted(users) && Elements(users) == DH.UsersOf(dataset.examples)
    ensures var env := Env(src, handler.intents, handler.guidelines, handler.modelCaller, task, datasetName, guideline, model, now);
      records == Records(env, Visits(dataset.examples, users))
      && handler.calls == old(handler.calls) + Calls(env, Visits(dataset.examples, users))
  {
    users := dataset.GetUniqueUsers();
    ghost var env := Env(src, handler.intents, handler.guidelines, handler.modelCaller, task, datasetName, guideline, model, now);
    records := [];
    for k := 0 to |users|
      invariant records == Records(env, Visits(dataset.examples, users[..k]))
      invariant handler.calls == old(handler.calls) + Calls(env, Visits(dataset.examples, users[..k]))
    {
      var userId := users[k];
      var userExamples := dataset.ExamplesByUser(userId);
      ghost var visited := Visits(dataset.examples, users[..k]);
      ghost var before := handler.calls;
      var userRecords := CollectUser(handler, src, task, datasetName, guideline, model, now, userId, userExamples);
      assert handler.calls == before + Calls(env, Pairs(userId, userExamples));
      VisitsSnoc(dataset.examples, users, k);
      RecordsAppend(env, visited, Pairs(userId, userExamples));
      ConcatAssoc(old(handler.calls), Calls(env, visited), Calls(env, Pairs(userId, userExamples)));
      records := records + userRecords;
    }
    assert users[..|users|] == users;
  }

  /**
   * As intended, with the handler's own table, a registered task and dataset
   * and the examples `load_data` hands out, the model is called once per
   * example and at most one record is kept per example; with a caller that
   * always answers, exactly one.
   */
  lemma EveryLoadedExampleRecorded(env: Env, users: map<string, UP.UserPreference>, xs: seq<DH.Example>,
                                   loadedUsers: seq<string>, recs: seq<DH.Record>,
                                   idKey: string, articleKey: string, docType: string, n: int)
    requires env.src == HandlerPrompt
    requires Ready(env.table, users, env.guidelines)
    requires UP.Registered(env.task, env.datasetName)
    requires DH.RoundRobin(xs, recs, idKey, articleKey, docType, n)
    requires StrictlySorted(loadedUsers) && Elements(loadedUsers) == DH.UsersOf(xs)
    ensures |Calls(env, Visits(xs, loadedUsers))| == |recs|
    ensures |Records(env, Visits(xs, loadedUsers))| <= |recs|
    ensures IH.AlwaysAnswers(env.caller) ==> |Records(env, Visits(xs, loadedUsers))| == |recs|
  {
    var vs := Visits(xs, loadedUsers);
    VisitsEveryExample(xs, loadedUsers);
    LoadedUsersHavePreferences(xs, recs, idKey, articleKey, docType, n, users);
    EveryVisitRecorded(env, users, vs);
    RecordedPromptIsSent(env, vs);
  }

  /**
   * What the handler is built from: users who each list exactly the
   * registered pairs, among them every user `load_data` hands examples to,
   * and a guideline for each registered pair.
   */
  ghost predicate Ready(table: IH.Table, users: map<string, UP.UserPreference>, guidelines: map<string, map<string, string>>)
  {
    (forall u :: u in users ==> IH.ListsRegistered(users[u].taskPreferences))
    && (forall u :: u in GlobalIntents.UserIds ==> u in users)
    && users != map[]
    && IH.Built(table, IH.PrefsOf(users))
    && IH.CoversRegistered(guidelines)
  }

  /** The handler `main` builds is ready. */
  lemma ConfiguredHandlerReady(table: IH.Table)
    requires IH.Built(table, IH.PrefsOf(UP.UserPreferences))
    ensures Ready(table, UP.UserPreferences, UP.GlobalGuidelines)
  {
    IH.UserPreferencesRegistered();
    IH.GlobalGuidelinesCover();
    UP.UserPreferencesKeys();
    assert UP.UserIds == GlobalIntents.UserIds;
  }

  /** The number of examples `load_data` yields for `dataset` from its raw records. */
  function LoadedCount(dataset: string, raw: seq<DH.Record>, numEx: int): nat
  {
    |DH.Used(DH.Prepared(dataset, raw), numEx)|
  }

  /**
   * One dataset of one task: `load_data` (an unknown name raises
   * NotImplementedError, which `main` does not catch), the dataset's
   * guideline, and the records of `Collect`.
   */
  method ProcessDataset(handler: IH.Handler, src: PromptSource, task: string, datasetName: string,
                        raw: seq<DH.Record>, numEx: int, model: string, now: string)
    returns (r: Result<seq<Record>>)
    requires DH.RawShaped(datasetName, raw, numEx)
    modifies handler`calls
    ensures datasetName !in DH.Recognised <==> r.Err?
    ensures r.Err? ==> r.error == NotImplementedError && handler.calls == old(handler.calls)
    ensures r.Ok? ==> forall x :: x in r.value ==> x.dataset == datasetName
    ensures r.Ok? && src == MissingMethod ==> r.value == [] && handler.calls == old(handler.calls)
    ensures r.Ok? && src == HandlerPrompt ==>
      |handler.calls| >= |old(handler.calls)|
      && var added := Answered(handler.modelCaller, handler.calls[|old(handler.calls)|..]);
      |r.value| == |added|
      && forall i :: 0 <= i < |added| ==>
        r.value[i].prompt == added[i].0 && Some(r.value[i].result) == handler.modelCaller(added[i].0, added[i].1)
    ensures r.Ok? && src == HandlerPrompt && Ready(handler.intents, handler.users, handler.guidelines) && UP.Registered(task, datasetName) ==>
      |handler.calls| == |old(handler.calls)| + LoadedCount(datasetName, raw, numEx)
      && |r.value| <= LoadedCount(datasetName, raw, numEx)
      && (IH.AlwaysAnswers(handler.modelCaller) ==> |r.value| == LoadedCount(datasetName, raw, numEx))
  {
    var loaded := DH.LoadData(datasetName, raw, numEx, NumUsers);
    if loaded.Err? {
      return Err(loaded.error);
    }
    var dataset := loaded.value;
    var guideline := GlobalIntents.Guideline(task, Some(datasetName));
    var users, records := Collect(handler, src, task, datasetName, dataset, guideline, model, now);
    ghost var env := Env(src, handler.intents, handler.guidelines, handler.modelCaller, task, datasetName, guideline, model, now);
    ghost var vs := Visits(dataset.examples, users);
    RecordsOfDataset(env, vs);
    if src == MissingMethod {
      AsWrittenRecordsNothing(env, vs);
    } else {
      RecordedPromptIsSent(env, vs);
      assert handler.calls[|old(handler.calls)|..] == Calls(env, vs);
      if Ready(handler.intents, handler.users, handler.guidelines) && UP.Registered(task, datasetName) {
        EveryLoadedExampleRecorded(env, handler.users, dataset.examples, users, DH.Used(DH.Prepared(datasetName, raw), numEx),
          DH.IdKey(datasetName), DH.ArticleKey(datasetName), datasetName, DH.Clamp(NumUsers));
      }
    }
    r := Ok(records);
  }

  /** As intended, the number of examples `load_data` yields for the datasets of one task, together. */
  function TaskLoaded(datasets: seq<string>, raw: string -> seq<DH.Record>, numEx: int): nat
  {
    if |datasets| == 0 then 0
    else
      var last := datasets[|datasets| - 1];
      TaskLoaded(datasets[..|datasets| - 1], raw, numEx) + LoadedCount(last, raw(last), numEx)
  }

  /** Every dataset of `datasets` is registered for `task`. */
  predicate TaskRegistered(task: string, datasets: seq<string>)
  {
    forall d :: d in datasets ==> UP.Registered(task, d)
  }

  /**
   * The datasets of one task, in order, their records appended to the
   * task's list; the first unknown dataset name raises NotImplementedError
   * out of `main`.
   */
  method ProcessTask(handler: IH.Handler, src: PromptSource, task: string, datasets: seq<string>,
                     raw: string -> seq<DH.Record>, numEx: int, model: string, now: string)
    returns (r: Result<seq<Record>>)
    requires forall d :: d in datasets ==> DH.RawShaped(d, raw(d), numEx)
    modifies handler`calls
    ensures r.Ok? <==> AllRecognised(datasets)
    ensures r.Err? ==> r.error == NotImplementedError
    ensures r.Ok? ==> TaskDone(src, Ready(handler.intents, handler.users, handler.guidelines),
                               IH.AlwaysAnswers(handler.modelCaller), task, datasets, raw, numEx, r.value)
    ensures r.Ok? && src == MissingMethod ==> handler.calls == old(handler.calls)
  {
    ghost var table := handler.intents;
    ghost var built := Ready(table, handler.users, handler.guidelines);
    ghost var answers := IH.AlwaysAnswers(handler.modelCaller);
    var records: seq<Record> := [];
    for j := 0 to |datasets|
      invariant handler.intents == table
      invariant AllRecognised(datasets[..j])
      invariant TaskDone(src, built, answers, task, datasets[..j], raw, numEx, records)
      invariant src == MissingMethod ==> handler.calls == old(handler.calls)
    {
      var datasetName := datasets[j];
      var one := ProcessDataset(handler, src, task, datasetName, raw(datasetName), numEx, model, now);
      if one.Err? {
        assert datasetName in datasets;
        return Err(one.error);
      }
      DatasetStep(src, built, answers, task, datasets, j, raw, numEx, records, one.value);
      records := records + one.value;
    }
    assert datasets[..|datasets|] == datasets;
    r := Ok(records);
  }

  /** One more dataset done keeps the loop invariant of `ProcessTask`. */
  lemma DatasetStep(src: PromptSource, built: bool, answers: bool, task: string, datasets: seq<string>, j: int,
                    raw: string -> seq<DH.Record>, numEx: int, records: seq<Record>, one: seq<Record>)
    requires 0 <= j < |datasets|
    requires AllRecognised(datasets[..j]) && datasets[j] in DH.Recognised
    requires TaskDone(src, built, answers, task, datasets[..j], raw, numEx, records)
    requires forall x :: x in one ==> x.dataset == datasets[j]
    requires src == MissingMethod ==> one == []
    requires src == HandlerPrompt && built && UP.Registered(task, datasets[j]) ==>
      |one| <= LoadedCount(datasets[j], raw(datasets[j]), numEx)
      && (answers ==> |one| == LoadedCount(datasets[j], raw(datasets[j]), numEx))
    ensures AllRecognised(datasets[..j + 1])
    ensures TaskDone(src, built, answers, task, datasets[..j + 1], raw, numEx, records + one)
  {
    var pre, next := datasets[..j], datasets[..j + 1];
    assert next == pre + [datasets[j]];
    SourcesStep(pre, datasets[j], records, one);
    if src == HandlerPrompt && built && TaskRegistered(task, next) {
      assert datasets[j] in next;
      assert TaskRegistered(task, pre);
      TaskLoadedStep(datasets, j, raw, numEx);
    }
  }

  /** Records from the datasets done so far and records from the next one come from the longer list. */
  lemma SourcesStep(pre: seq<string>, d: string, records: seq<Record>, one: seq<Record>)
    requires forall x :: x in records ==> x.dataset in pre
    requires forall x :: x in one ==> x.dataset == d
    ensures forall x :: x in records + one ==> x.dataset in pre + [d]
  {
    forall x | x in records + one ensures x.dataset in pre + [d] {
      if x !in records {
        assert x in one;
      }
    }
  }

  /** One more dataset adds its loaded examples to the task's count. */
  lemma TaskLoadedStep(datasets: seq<string>, j: int, raw: string -> seq<DH.Record>, numEx: int)
    requires 0 <= j < |datasets|
    ensures TaskLoaded(datasets[..j + 1], raw, numEx)
      == TaskLoaded(datasets[..j], raw, numEx) + LoadedCount(datasets[j], raw(datasets[j]), numEx)
  {
    assert datasets[..j + 1][..j] == datasets[..j];
    assert datasets[..j + 1][j] == datasets[j];
  }

  /**
   * The loop of `main` over the tasks of `tasks`, in order, each with its
   * own list of records; an unknown dataset name ends the run with
   * NotImplementedError.
   */
  method ProcessTasks(handler: IH.Handler, src: PromptSource, tasks: seq<(string, seq<string>)>,
                      raw: string -> seq<DH.Record>, numEx: int, model: string, now: string)
    returns (r: Result<seq<(string, seq<Record>)>>)
    requires forall k, d :: 0 <= k < |tasks| && d in tasks[k].1 ==> DH.RawShaped(d, raw(d), numEx)
    modifies handler`calls
    ensures r.Ok? <==> forall k :: 0 <= k < |tasks| ==> AllRecognised(tasks[k].1)
    ensures r.Err? ==> r.error == NotImplementedError
    ensures r.Ok? ==> |r.value| == |tasks|
    ensures r.Ok? ==> forall k :: 0 <= k < |tasks| ==>
      r.value[k].0 == tasks[k].0
      && TaskDone(src, Ready(handler.intents, handler.users, handler.guidelines), IH.AlwaysAnswers(handler.modelCaller),
                  tasks[k].0, tasks[k].1, raw, numEx, r.value[k].1)
  {
    ghost var table := handler.intents;
    ghost var built := Ready(table, handler.users, handler.guidelines);
    ghost var answers := IH.AlwaysAnswers(handler.modelCaller);
    var results: seq<(string, seq<Record>)> := [];
    for k := 0 to |tasks|
      invariant handler.intents == table
      invariant |results| == k
      invariant forall i :: 0 <= i < k ==> AllRecognised(tasks[i].1)
      invariant forall i :: 0 <= i < k ==>
        results[i].0 == tasks[i].0 && TaskDone(src, built, answers, tasks[i].0, tasks[i].1, raw, numEx, results[i].1)
    {
      var task, datasets := tasks[k].0, tasks[k].1;
      var one := ProcessTask(handler, src, task, datasets, raw, numEx, model, now);
      if one.Err? {
        return Err(one.error);
      }
      TasksStep(src, built, answers, tasks, raw, numEx, results, one.value);
      results := results + [(task, one.value)];
    }
    r := Ok(results);
  }

  /** One more task done keeps the loop invariant of `ProcessTasks`. */
  lemma TasksStep(src: PromptSource, built: bool, answers: bool, tasks: seq<(string, seq<string>)>, raw: string -> seq<DH.Record>,
                  numEx: int, results: seq<(string, seq<Record>)>, one: seq<Record>)
    requires |results| < |tasks|
    requires forall i :: 0 <= i < |results| ==> AllRecognised(tasks[i].1)
    requires forall i :: 0 <= i < |results| ==>
      results[i].0 == tasks[i].0 && TaskDone(src, built, answers, tasks[i].0, tasks[i].1, raw, numEx, results[i].1)
    requires AllRecognised(tasks[|results|].1)
    requires TaskDone(src, built, answers, tasks[|results|].0, tasks[|results|].1, raw, numEx, one)
    ensures var rs := results + [(tasks[|results|].0, one)];
      (forall i :: 0 <= i < |rs| ==> AllRecognised(tasks[i].1))
      && forall i :: 0 <= i < |rs| ==>
        rs[i].0 == tasks[i].0 && TaskDone(src, built, answers, tasks[i].0, tasks[i].1, raw, numEx, rs[i].1)
  {
    var rs := results + [(tasks[|results|].0, one)];
    forall i | 0 <= i < |rs| ensures rs[i].0 == tasks[i].0 && TaskDone(src, built, answers, tasks[i].0, tasks[i].1, raw, numEx, rs[i].1) {
      if i < |results| {
        assert rs[i] == results[i];
      }
    }
  }

  /** Every dataset of `datasets` is one `load_data` knows. */
  predicate AllRecognised(datasets: seq<string>)
  {
    forall d :: d in datasets ==> d in DH.Recognised
  }

  /**
   * What the records of one task satisfy: each comes from one of its
   * datasets; there are none as written; as intended, with every user's
   * intents built and every dataset registered, there is at most one per
   * loaded example, and exactly one when the model always answers.
   */
  predicate TaskDone(src: PromptSource, built: bool, answers: bool, task: string, datasets: seq<string>,
                     raw: string -> seq<DH.Record>, numEx: int, records: seq<Record>)
  {
    (forall x :: x in records ==> x.dataset in datasets)
    && (src == MissingMethod ==> records == [])
    && (src == HandlerPrompt && built && TaskRegistered(task, datasets) ==> |records| <= TaskLoaded(datasets, raw, numEx))
    && (src == HandlerPrompt && built && answers && TaskRegistered(task, datasets) ==>
          |records| == TaskLoaded(datasets, raw, numEx))
  }

  /** Every dataset listed in `Tasks` is one `load_data` knows, registered for its task. */
  lemma TasksKnown()
    ensures forall k, d :: 0 <= k < |Tasks| && d in Tasks[k].1 ==> d in DH.Recognised
    ensures forall k :: 0 <= k < |Tasks| ==> TaskRegistered(Tasks[k].0, Tasks[k].1)
  {
    assert DH.Recognised[0] == "cnn_dailymail";
  }

  /**
   * With a ready handler, every task of `Tasks` keeps at most one record per
   * loaded example of its datasets, and exactly one when the model always
   * answers.
   */
  lemma AllTasksDone(src: PromptSource, built: bool, answers: bool, results: seq<(string, seq<Record>)>,
                     raw: string -> seq<DH.Record>, numEx: int)
    requires built && |results| == |Tasks|
    requires forall k :: 0 <= k < |Tasks| ==>
      results[k].0 == Tasks[k].0 && TaskDone(src, built, answers, Tasks[k].0, Tasks[k].1, raw, numEx, results[k].1)
    ensures forall k :: 0 <= k < |Tasks| ==> forall x :: x in results[k].1 ==> x.dataset in Tasks[k].1
    ensures src == HandlerPrompt ==>
      forall k :: 0 <= k < |Tasks| ==> |results[k].1| <= TaskLoaded(Tasks[k].1, raw, numEx)
    ensures src == HandlerPrompt && answers ==>
      forall k :: 0 <= k < |Tasks| ==> |results[k].1| == TaskLoaded(Tasks[k].1, raw, numEx)
  {
    TasksKnown();
  }

  /** `IntentHandler(model_caller)` over the module's user preferences and guidelines: a ready handler that has called nothing. */
  method NewHandler(modelCaller: IH.Caller) returns (handler: IH.Handler)
    ensures fresh(handler) && handler.modelCaller == modelCaller && handler.calls == []
    ensures Ready(handler.intents, handler.users, handler.guidelines)
  {
    handler := new IH.Handler(modelCaller, UP.UserPreferences, UP.GlobalGuidelines);
    ConfiguredHandlerReady(handler.intents);
  }

  /**
   * `main`: build the handler, run every task of `Tasks` over its datasets
   * with `test_samples if test_mode else 100` examples each, and save the
   * results. `raw(d)` stands for the records the hub serves for dataset `d`.
   */
  method Run(modelCaller: IH.Caller, src: PromptSource, testMode: bool, testSamples: int,
             model: string, raw: string -> seq<DH.Record>, now: string, stamp: string)
    returns (results: seq<(string, seq<Record>)>, files: seq<SavedFile>)
    requires forall k, d :: 0 <= k < |Tasks| && d in Tasks[k].1 ==> DH.RawShaped(d, raw(d), SampleCount(testMode, testSamples))
    ensures |results| == |Tasks|
    ensures forall k :: 0 <= k < |Tasks| ==>
      results[k].0 == Tasks[k].0 && forall x :: x in results[k].1 ==> x.dataset in Tasks[k].1
    ensures src == MissingMethod ==> files == []
    ensures src == HandlerPrompt ==>
      forall k :: 0 <= k < |Tasks| ==> |results[k].1| <= TaskLoaded(Tasks[k].1, raw, SampleCount(testMode, testSamples))
    ensures src == HandlerPrompt && IH.AlwaysAnswers(modelCaller) ==>
      forall k :: 0 <= k < |Tasks| ==> |results[k].1| == TaskLoaded(Tasks[k].1, raw, SampleCount(testMode, testSamples))
    ensures files == SavedFiles(results, OutputDir, SampleCount(testMode, testSamples), stamp)
  {
    var numEx := SampleCount(testMode, testSamples);
    var handler := NewHandler(modelCaller);
    var r := ProcessTasks(handler, src, Tasks, raw, numEx, model, now);
    TasksKnown();
    assert r.Ok?;
    results := r.value;
    AllTasksDone(src, Ready(handler.intents, handler.users, handler.guidelines), IH.AlwaysAnswers(modelCaller),
                 results, raw, numEx);
    if src == MissingMethod {
      NoRecordsNoFiles(results, OutputDir, numEx, stamp);
    }
    files := SaveResults(results, OutputDir, numEx, stamp);
  }

  // -------------------------------------------------------- save_results

  function DatasetOf(r: Record): string
  {
    r.dataset
  }

  /** `f"{output_dir}/{task}_{dataset}_samples{num_samples}_{timestamp}.json"`. */
  function FileName(outputDir: string, task: string, dataset: string, numSamples: int, stamp: string): string
  {
    outputDir + "/" + task + "_" + dataset + "_samples" + IntToString(numSamples) + "_" + stamp + ".json"
  }

  /** The files of one task: one per dataset of `datasets`, with that dataset's records. */
  function TaskFiles(outputDir: string, task: string, taskResults: seq<Record>, numSamples: int, stamp: string,
                     datasets: seq<string>): seq<SavedFile>
  {
    seq(|datasets|, i requires 0 <= i < |datasets| =>
      SavedFile(FileName(outputDir, task, datasets[i], numSamples, stamp), Grouping.Select(taskResults, DatasetOf, datasets[i])))
  }

  /** Everything `save_results` writes: for each task in order, one file per dataset in order of first appearance. */
  function SavedFiles(results: seq<(string, seq<Record>)>, outputDir: string, numSamples: int, stamp: string): seq<SavedFile>
  {
    if |results| == 0 then []
    else
      var last := results[|results| - 1];
      SavedFiles(results[..|results| - 1], outputDir, numSamples, stamp)
      + TaskFiles(outputDir, last.0, last.1, numSamples, stamp, Grouping.KeysInOrder(last.1, DatasetOf))
  }

  lemma SavedFilesSnoc(results: seq<(string, seq<Record>)>, outputDir: string, numSamples: int, stamp: string, t: int)
    requires 0 <= t < |results|
    ensures SavedFiles(results[..t + 1], outputDir, numSamples, stamp)
      == SavedFiles(results[..t], outputDir, numSamples, stamp)
         + TaskFiles(outputDir, results[t].0, results[t].1, numSamples, stamp, Grouping.KeysInOrder(results[t].1, DatasetOf))
  {
    assert results[..t + 1][..t] == results[..t];
  }

  lemma TaskFilesSnoc(outputDir: string, task: string, rs: seq<Record>, numSamples: int, stamp: string,
                      datasets: seq<string>, j: int)
    requires 0 <= j < |datasets|
    ensures TaskFiles(outputDir, task, rs, numSamples, stamp, datasets[..j + 1])
      == TaskFiles(outputDir, task, rs, numSamples, stamp, datasets[..j])
         + [SavedFile(FileName(outputDir, task, datasets[j], numSamples, stamp), Grouping.Select(rs, DatasetOf, datasets[j]))]
  {
  }

  /** The records of `files`, file after file. */
  function Contents(files: seq<SavedFile>): seq<Record>
  {
    if |files| == 0 then [] else files[0].records + Contents(files[1..])
  }

  /** The file name is a fixed prefix, the dataset, and a fixed suffix. */
  lemma FileNameSplit(outputDir: string, task: string, dataset: string, numSamples: int, stamp: string)
    ensures FileName(outputDir, task, dataset, numSamples, stamp)
      == (outputDir + "/" + task + "_") + dataset + ("_samples" + IntToString(numSamples) + "_" + stamp + ".json")
  {
  }

  /** Within one call and one task, the file name determines the dataset. */
  lemma FileNameInjective(outputDir: string, task: string, a: string, b: string, numSamples: int, stamp: string)
    ensures FileName(outputDir, task, a, numSamples, stamp) == FileName(outputDir, task, b, numSamples, stamp) ==> a == b
  {
    var p, s := outputDir + "/" + task + "_", "_samples" + IntToString(numSamples) + "_" + stamp + ".json";
    FileNameSplit(outputDir, task, a, numSamples, stamp);
    FileNameSplit(outputDir, task, b, numSamples, stamp);
    if p + a + s == p + b + s {
      assert |a| == |b|;
      assert a == (p + a + s)[|p|..|p| + |a|];
      assert b == (p + b + s)[|p|..|p| + |b|];
    }
  }

  /** The files of one task hold, together, the records of the groups for `datasets`. */
  lemma {:induction false} TaskFilesContents(outputDir: string, task: string, rs: seq<Record>, numSamples: int, stamp: string,
                                             datasets: seq<string>)
    ensures Contents(TaskFiles(outputDir, task, rs, numSamples, stamp, datasets)) == Grouping.Regroup(rs, DatasetOf, datasets)
  {
    if |datasets| > 0 {
      var fs := TaskFiles(outputDir, task, rs, numSamples, stamp, datasets);
      TaskFilesContents(outputDir, task, rs, numSamples, stamp, datasets[1..]);
      TaskFilesTail(outputDir, task, rs, numSamples, stamp, datasets);
      assert Contents(fs) == fs[0].records + Contents(fs[1..]);
      assert fs[0].records == Grouping.Select(rs, DatasetOf, datasets[0]);
    }
  }

  /** Dropping the first dataset drops the first file. */
  lemma TaskFilesTail(outputDir: string, task: string, rs: seq<Record>, numSamples: int, stamp: string,
                      datasets: seq<string>)
    requires |datasets| > 0
    ensures TaskFiles(outputDir, task, rs, numSamples, stamp, datasets)[1..]
      == TaskFiles(outputDir, task, rs, numSamples, stamp, datasets[1..])
  {
    var fs, tail := TaskFiles(outputDir, task, rs, numSamples, stamp, datasets),
      TaskFiles(outputDir, task, rs, numSamples, stamp, datasets[1..]);
    forall i | 0 <= i < |tail| ensures fs[1..][i] == tail[i] {
      assert datasets[1..][i] == datasets[i + 1];
    }
  }

  /**
   * `save_results` partitions a task's records by dataset: the files hold
   * every record exactly once; each file holds exactly the records of its
   * dataset, in their original order, and none is empty; the names differ.
   */
  lemma TaskFilesPartition(outputDir: string, task: string, rs: seq<Record>, numSamples: int, stamp: string)
    ensures var ks := Grouping.KeysInOrder(rs, DatasetOf);
      var fs := TaskFiles(outputDir, task, rs, numSamples, stamp, ks);
      |fs| == |ks|
      && multiset(Contents(fs)) == multiset(rs) && |Contents(fs)| == |rs|
      && (forall i :: 0 <= i < |fs| ==>
           fs[i].name == FileName(outputDir, task, ks[i], numSamples, stamp)
           && fs[i].records != []
           && (forall r :: r in fs[i].records <==> r in rs && r.dataset == ks[i]))
      && (forall i, j :: 0 <= i < j < |fs| ==> fs[i].name != fs[j].name)
  {
    var ks := Grouping.KeysInOrder(rs, DatasetOf);
    var fs := TaskFiles(outputDir, task, rs, numSamples, stamp, ks);
    TaskFilesContents(outputDir, task, rs, numSamples, stamp, ks);
    Grouping.RegroupIsPermutation(rs, DatasetOf, ks);
    forall i | 0 <= i < |fs|
      ensures fs[i].records != [] && forall r :: r in fs[i].records <==> r in rs && r.dataset == ks[i]
    {
      Grouping.SelectMembers(rs, DatasetOf, ks[i]);
      assert ks[i] in ks;
      var x :| x in rs && DatasetOf(x) == ks[i];
      assert x in fs[i].records;
    }
    forall i, j | 0 <= i < j < |fs| ensures fs[i].name != fs[j].name {
      FileNameInjective(outputDir, task, ks[i], ks[j], numSamples, stamp);
    }
  }

  /**
   * The order of a task's files and of the records inside each: the files
   * follow the datasets in order of their first record, and each file keeps
   * its records in the order they were produced.
   */
  lemma TaskFilesOrder(outputDir: string, task: string, rs: seq<Record>, numSamples: int, stamp: string)
    ensures var ks := Grouping.KeysInOrder(rs, DatasetOf);
      var fs := TaskFiles(outputDir, task, rs, numSamples, stamp, ks);
      |fs| == |ks|
      && (forall i, j :: 0 <= i < j < |fs| ==>
           Grouping.FirstIndex(rs, DatasetOf, ks[i]) < Grouping.FirstIndex(rs, DatasetOf, ks[j]))
      && (forall i :: 0 <= i < |fs| ==> Grouping.IsSubsequence(fs[i].records, rs))
  {
    var ks := Grouping.KeysInOrder(rs, DatasetOf);
    var fs := TaskFiles(outputDir, task, rs, numSamples, stamp, ks);
    TaskFilesContents(outputDir, task, rs, numSamples, stamp, ks);
    forall i | 0 <= i < |fs| ensures Grouping.IsSubsequence(fs[i].records, rs) {
      Grouping.SelectIsSubsequence(rs, DatasetOf, ks[i]);
    }
  }

  /** A task with no records writes no file; with no records at all, nothing is written. */
  lemma {:induction false} NoRecordsNoFiles(results: seq<(string, seq<Record>)>, outputDir: string, numSamples: int, stamp: string)
    requires forall k :: 0 <= k < |results| ==> results[k].1 == []
    ensures SavedFiles(results, outputDir, numSamples, stamp) == []
  {
    if |results| > 0 {
      NoRecordsNoFiles(results[..|results| - 1], outputDir, numSamples, stamp);
    }
  }

  /** A dataset that no record carries has an empty group. */
  lemma SelectAbsent(rs: seq<Record>, d: string)
    requires d !in Grouping.KeysInOrder(rs, DatasetOf)
    ensures Grouping.Select(rs, DatasetOf, d) == []
  {
    SelectNone(rs, d);
  }

  lemma {:induction false} SelectNone(rs: seq<Record>, d: string)
    requires forall x :: x in rs ==> x.dataset != d
    ensures Grouping.Select(rs, DatasetOf, d) == []
  {
    if |rs| > 0 {
      assert rs[0] in rs;
      SelectNone(rs[1..], d);
    }
  }

  /**
   * `save_results`: for each task, group its records by dataset in a dict
   * filled in order, then write one file per group.
   */
  method SaveResults(results: seq<(string, seq<Record>)>, outputDir: string, numSamples: int, stamp: string)
    returns (files: seq<SavedFile>)
    ensures files == SavedFiles(results, outputDir, numSamples, stamp)
  {
    files := [];
    for t := 0 to |results|
      invariant files == SavedFiles(results[..t], outputDir, numSamples, stamp)
    {
      var task, taskResults := results[t].0, results[t].1;
      var datasets, groups := GroupByDataset(taskResults);
      ghost var previous := files;
      for j := 0 to |datasets|
        invariant files == previous + TaskFiles(outputDir, task, taskResults, numSamples, stamp, datasets[..j])
      {
        var dataset := datasets[j];
        files := files + [SavedFile(FileName(outputDir, task, dataset, numSamples, stamp), groups[dataset])];
        TaskFilesSnoc(outputDir, task, taskResults, numSamples, stamp, datasets, j);
      }
      assert datasets[..|datasets|] == datasets;
      SavedFilesSnoc(results, outputDir, numSamples, stamp, t);
    }
    assert results[..|results|] == results;
  }

  /**
   * The grouping loop of `save_results`: `datasets` lists the dict's keys in
   * insertion order and `groups` maps each to its records in order.
   */
  method GroupByDataset(rs: seq<Record>) returns (datasets: seq<string>, groups: map<string, seq<Record>>)
    ensures datasets == Grouping.KeysInOrder(rs, DatasetOf)
    ensures forall d :: d in groups <==> d in datasets
    ensures forall d :: d in groups ==> groups[d] == Grouping.Select(rs, DatasetOf, d)
    ensures forall i, j :: 0 <= i < j < |datasets| ==>
      Grouping.FirstIndex(rs, DatasetOf, datasets[i]) < Grouping.FirstIndex(rs, DatasetOf, datasets[j])
    ensures forall d :: d in groups ==> Grouping.IsSubsequence(groups[d], rs)
  {
    datasets, groups := [], map[];
    for i := 0 to |rs|
      invariant datasets == Grouping.KeysInOrder(rs[..i], DatasetOf)
      invariant forall d :: d in groups <==> d in datasets
      invariant forall d :: d in groups ==> groups[d] == Grouping.Select(rs[..i], DatasetOf, d)
    {
      var result := rs[i];
      var dataset := result.dataset;
      assert rs[..i + 1][..i] == rs[..i];
      if dataset !in groups {
        SelectAbsent(rs[..i], dataset);
        groups := groups[dataset := []];
        datasets := datasets + [dataset];
      }
      groups := groups[dataset := groups[dataset] + [result]];
      forall d | d in groups ensures groups[d] == Grouping.Select(rs[..i + 1], DatasetOf, d) {
        Grouping.SelectSnoc(rs, i, DatasetOf, d);
      }
    }
    assert rs[..|rs|] == rs;
    forall d | d in groups ensures Grouping.IsSubsequence(groups[d], rs) {
      Grouping.SelectIsSubsequence(rs, DatasetOf, d);
    }
  }
}
