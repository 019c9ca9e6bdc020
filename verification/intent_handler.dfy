/**
 * `IntentHandler` (src/task/intent_handler.py): a nested task -> dataset ->
 * user table of intent configurations built from `USER_PREFERENCES`, and
 * `process_input`, which checks the three keys in order, assembles one prompt
 * and hands it to the model caller.
 *
 * Python's `str.format` is modelled for templates with one keyword argument;
 * the model caller is a function value that answers a string or `None` (the
 * caller `create_model_caller` builds returns `None` when there is no client
 * or the request fails), and a ghost log records its calls.
 */
module IntentHandler {
  import opened Outcomes
  import opened Text
  import UP = UserPreferences

  type AtomicIntent = UP.AtomicIntent

  datatype IntentConfig = IntentConfig(intents: seq<AtomicIntent>, description: string, promptTemplate: string)

  // ------------------------------------------------------------ str.format

  /** No brace: text that `str.format` copies unchanged. */
  predicate Plain(s: string)
  {
    '{' !in s && '}' !in s
  }

  lemma PlainAppend(a: string, b: string)
    requires Plain(a) && Plain(b)
    ensures Plain(a + b)
  {
  }

  /** Prepends `a` to a successful result; errors pass through. */
  function Prepend(a: string, r: Result<string>): Result<string>
  {
    if r.Ok? then Ok(a + r.value) else r
  }

  /**
   * `template.format(name=value)`, scanning left to right: `{{` and `}}` are
   * literal braces, `{name}` is replaced by `value`, `{}` asks for a
   * positional argument that does not exist (IndexError), any other field is
   * a missing key (KeyError), and an unclosed `{` or a lone `}` is a
   * ValueError. The first problem met is the one raised.
   */
  function Format(template: string, name: string, value: string): (r: Result<string>)
    decreases |template|
  {
    if |template| == 0 then Ok("")
    else if template[0] == '{' then
      if |template| >= 2 && template[1] == '{' then Prepend("{", Format(template[2..], name, value))
      else
        var k := FindChar(template[1..], '}');
        if k == -1 then Err(ValueError("expected '}' before end of string"))
        else
          var field := template[1..k + 1];
          if field == name then Prepend(value, Format(template[k + 2..], name, value))
          else if field == "" then Err(IndexError)
          else Err(KeyError(field))
    else if template[0] == '}' then
      if |template| >= 2 && template[1] == '}' then Prepend("}", Format(template[2..], name, value))
      else Err(ValueError("Single '}' encountered in format string"))
    else Prepend([template[0]], Format(template[1..], name, value))
  }

  /** Text without braces is copied through unchanged ahead of whatever follows. */
  lemma {:induction false} FormatPlainPrefix(a: string, rest: string, name: string, value: string)
    requires Plain(a)
    ensures Format(a + rest, name, value) == Prepend(a, Format(rest, name, value))
  {
    if |a| == 0 {
      assert a + rest == rest;
      var r := Format(rest, name, value);
      if r.Ok? {
        assert a + r.value == r.value;
      }
    } else {
      var t := a + rest;
      assert t[0] == a[0] && t[0] in a;
      assert t[1..] == a[1..] + rest;
      assert Plain(a[1..]) by {
        forall c | c in a[1..] ensures c in a { var i :| 0 <= i < |a[1..]| && a[1..][i] == c; assert a[i + 1] == c; }
      }
      FormatPlainPrefix(a[1..], rest, name, value);
      PrependTwice([a[0]], a[1..], Format(rest, name, value));
      assert [a[0]] + a[1..] == a;
    }
  }

  lemma PrependTwice(a: string, b: string, r: Result<string>)
    ensures Prepend(a, Prepend(b, r)) == Prepend(a + b, r)
  {
    if r.Ok? {
      AppendAssoc(a, b, r.value);
    }
  }

  /** The layout `Format` meets on the field `{name}`: an opening brace, the name, and the first closing brace right after it. */
  lemma FieldLayout(name: string)
    requires Plain(name)
    ensures var t := "{" + name + "}";
      |t| >= 2 && t[0] == '{' && t[1] != '{'
      && FindChar(t[1..], '}') == |name| && t[1..|name| + 1] == name && t[|name| + 2..] == ""
  {
    var t := "{" + name + "}";
    assert t[1..] == name + "}";
    assert t[1] != '{' by {
      if |name| > 0 { assert t[1] == name[0]; assert name[0] in name; } else { assert t[1] == '}'; }
    }
    NotInPrefix(name, "}", '}');
    FindCharAt(name + "}", '}', |name|);
  }

  /** The field `{name}` alone formats to the value. */
  lemma FormatField(name: string, value: string)
    requires Plain(name)
    ensures Format("{" + name + "}", name, value) == Ok(value)
  {
    FieldLayout(name);
    assert Format("", name, value) == Ok("");
    assert value + "" == value;
  }

  /** A template of plain text followed by the field `{name}` formats to that text followed by the value. */
  lemma FormatTemplate(a: string, name: string, value: string)
    requires Plain(a) && Plain(name)
    ensures Format(a + ("{" + name + "}"), name, value) == Ok(a + value)
  {
    FormatPlainPrefix(a, "{" + name + "}", name, value);
    FormatField(name, value);
  }

  // ------------------------------------------------------------ descriptions

  /** The intent values, in the enumeration order of the set. */
  function Values(intents: seq<AtomicIntent>): (r: seq<string>)
    ensures |r| == |intents| && forall k :: 0 <= k < |r| ==> r[k] == UP.Value(intents[k])
  {
    if |intents| == 0 then [] else [UP.Value(intents[0])] + Values(intents[1..])
  }

  /** `", ".join(descriptions)`, the description of an intent set. */
  function Description(intents: seq<AtomicIntent>): string
  {
    Join(", ", Values(intents))
  }

  /**
   * `_get_intent_description`: the value of every intent, in order, joined by
   * ", ". The `intent in AtomicIntent` test holds for every member, which the
   * type guarantees here, so nothing is skipped.
   */
  method GetIntentDescription(intents: seq<AtomicIntent>) returns (d: string)
    ensures d == Description(intents)
  {
    var descriptions: seq<string> := [];
    for i := 0 to |intents|
      invariant descriptions == Values(intents[..i])
    {
      ValuesSnoc(intents, i);
      descriptions := descriptions + [UP.Value(intents[i])];
    }
    assert intents[..|intents|] == intents;
    d := Join(", ", descriptions);
  }

  lemma {:induction false} ValuesAppend(a: seq<AtomicIntent>, b: seq<AtomicIntent>)
    ensures Values(a + b) == Values(a) + Values(b)
  {
    if |a| == 0 {
      assert a + b == b;
    } else {
      assert (a + b)[0] == a[0];
      assert (a + b)[1..] == a[1..] + b;
      ValuesAppend(a[1..], b);
    }
  }

  lemma ValuesSnoc(intents: seq<AtomicIntent>, i: int)
    requires 0 <= i < |intents|
    ensures Values(intents[..i + 1]) == Values(intents[..i]) + [UP.Value(intents[i])]
  {
    assert intents[..i + 1] == intents[..i] + [intents[i]];
    ValuesAppend(intents[..i], [intents[i]]);
  }

  /** No intent value has a brace. */
  lemma ValuePlain(i: AtomicIntent)
    ensures Plain(UP.Value(i))
  {
  }

  /** Joining brace-free parts with a brace-free separator is brace-free. */
  lemma {:induction false} JoinPlain(sep: string, parts: seq<string>)
    requires Plain(sep)
    requires forall k :: 0 <= k < |parts| ==> Plain(parts[k])
    ensures Plain(Join(sep, parts))
  {
    if |parts| > 1 {
      JoinPlain(sep, parts[1..]);
      assert Plain(parts[0]);
      PlainAppend(parts[0], sep);
      PlainAppend(parts[0] + sep, Join(sep, parts[1..]));
    } else if |parts| == 1 {
      assert Plain(parts[0]);
    }
  }

  /** A description never contains a brace, so `str.format` copies it unchanged. */
  lemma DescriptionPlain(intents: seq<AtomicIntent>)
    ensures Plain(Description(intents))
  {
    var vs := Values(intents);
    forall k | 0 <= k < |vs| ensures Plain(vs[k]) {
      ValuePlain(intents[k]);
    }
    assert Plain(", ");
    JoinPlain(", ", vs);
  }

  // ------------------------------------------------------------ templates

  // The fixed template text, split into short pieces.
  const TemplateHead := "Process the content " + "with the following " + "characteristics: "
  const TemplateTail := "\n\nInput text:\n"
  const InputField := "input_text"

  lemma TemplateTextPlain()
    ensures Plain(TemplateHead) && Plain(TemplateTail) && Plain(InputField)
  {
    assert Plain("Process the content ");
    assert Plain("with the following ");
    assert Plain("characteristics: ");
  }

  /** The template built for a description: the description is interpolated and `{input_text}` is left for `format`. */
  function PromptTemplate(description: string): string
  {
    TemplateHead + description + TemplateTail + ("{" + InputField + "}")
  }

  /** `_create_prompt_template`. */
  method CreatePromptTemplate(intents: seq<AtomicIntent>) returns (t: string)
    ensures t == PromptTemplate(Description(intents))
  {
    var baseTemplate := GetIntentDescription(intents);
    t := TemplateHead + baseTemplate + TemplateTail + "{" + InputField + "}";
    AppendAssoc(TemplateHead + baseTemplate + TemplateTail, "{" , InputField + "}");
    AppendAssoc(TemplateHead + baseTemplate + TemplateTail + "{", InputField, "}");
  }

  /** The configuration stored for an intent set. */
  function Config(intents: seq<AtomicIntent>): IntentConfig
  {
    IntentConfig(intents, Description(intents), PromptTemplate(Description(intents)))
  }

  /** Formatting any stored template with the input text cannot fail, and yields the fixed text around the description and the input. */
  lemma FormatConfig(intents: seq<AtomicIntent>, inputText: string)
    ensures Format(Config(intents).promptTemplate, InputField, inputText)
      == Ok(TemplateHead + Description(intents) + TemplateTail + inputText)
  {
    var d := Description(intents);
    DescriptionPlain(intents);
    TemplateTextPlain();
    PlainAppend(TemplateHead, d);
    PlainAppend(TemplateHead + d, TemplateTail);
    FormatTemplate(TemplateHead + d + TemplateTail, InputField, inputText);
  }

  // ------------------------------------------------------------ the table

  /** user -> task -> dataset -> intents, the shape of `USER_PREFERENCES` without the record wrapper. */
  type Prefs = map<string, map<string, map<string, seq<AtomicIntent>>>>

  /** task -> dataset -> user -> configuration, the shape of `self.intents`. */
  type Table = map<string, map<string, map<string, IntentConfig>>>

  /** The task preferences of every user, keyed by user id. */
  function PrefsOf(users: map<string, UP.UserPreference>): (q: Prefs)
    ensures q.Keys == users.Keys
    ensures forall u :: u in q ==> q[u] == users[u].taskPreferences
  {
    map u | u in users :: users[u].taskPreferences
  }

  /** The preferences the handler is built from. */
  function AllPrefs(): Prefs
  {
    PrefsOf(UP.UserPreferences)
  }

  predicate Listed(q: Prefs, u: string, t: string, d: string)
  {
    u in q && t in q[u] && d in q[u][t]
  }

  ghost predicate TaskListed(q: Prefs, t: string)
  {
    exists u :: u in q && t in q[u]
  }

  ghost predicate DatasetListed(q: Prefs, t: string, d: string)
  {
    exists u :: Listed(q, u, t, d)
  }

  predicate DatasetKey(table: Table, t: string, d: string)
  {
    t in table && d in table[t]
  }

  predicate Has(table: Table, t: string, d: string, u: string)
  {
    t in table && d in table[t] && u in table[t][d]
  }

  /** The task level holds exactly the tasks some user lists. */
  ghost predicate TasksBuilt(table: Table, q: Prefs)
  {
    forall t :: t in table <==> TaskListed(q, t)
  }

  /** The dataset level holds exactly the (task, dataset) pairs some user lists. */
  ghost predicate DatasetsBuilt(table: Table, q: Prefs)
  {
    forall t, d :: DatasetKey(table, t, d) <==> DatasetListed(q, t, d)
  }

  /** The user level holds exactly the listed triples. */
  ghost predicate EntriesBuilt(table: Table, q: Prefs)
  {
    forall t, d, u :: Has(table, t, d, u) <==> Listed(q, u, t, d)
  }

  /** Each entry is the configuration of the intents the user lists there. */
  ghost predicate ConfigsBuilt(table: Table, q: Prefs)
  {
    forall t, d, u :: Has(table, t, d, u) && Listed(q, u, t, d) ==> table[t][d][u] == Config(q[u][t][d])
  }

  /** `table` is what `_initialize_intents` builds from `q`. */
  ghost predicate Built(table: Table, q: Prefs)
  {
    TasksBuilt(table, q) && DatasetsBuilt(table, q) && EntriesBuilt(table, q) && ConfigsBuilt(table, q)
  }

  /** `if task not in self.intents: self.intents[task] = {}`. */
  function EnsureTask(table: Table, t: string): (r: Table)
    ensures t in r
  {
    if t in table then table else table[t := map[]]
  }

  /** `if dataset not in self.intents[task]: self.intents[task][dataset] = {}`. */
  function EnsureDataset(table: Table, t: string, d: string): (r: Table)
    requires t in table
    ensures DatasetKey(r, t, d)
  {
    if d in table[t] then table else table[t := table[t][d := map[]]]
  }

  /** `self.intents[task][dataset][user_id] = config`. */
  function SetEntry(table: Table, t: string, d: string, u: string, c: IntentConfig): Table
    requires DatasetKey(table, t, d)
  {
    table[t := table[t][d := table[t][d][u := c]]]
  }

  function AddUser(q: Prefs, u: string): Prefs
  {
    q[u := map[]]
  }

  function AddTask(q: Prefs, u: string, t: string): Prefs
    requires u in q
  {
    q[u := q[u][t := map[]]]
  }

  function AddDataset(q: Prefs, u: string, t: string, d: string, xs: seq<AtomicIntent>): Prefs
    requires u in q && t in q[u]
  {
    q[u := q[u][t := q[u][t][d := xs]]]
  }

  lemma MapUpdateTwice<K, V>(m: map<K, V>, k: K, a: V, b: V)
    ensures m[k := a][k := b] == m[k := b]
  {
  }

  lemma MapUpdateSame<K, V>(m: map<K, V>, k: K)
    requires k in m
    ensures m[k := m[k]] == m
  {
  }

  /** A map holding each user's task preferences under the user's id is `PrefsOf` the users. */
  lemma PrefsOfUnique(users: map<string, UP.UserPreference>, q: Prefs)
    requires q.Keys == users.Keys
    requires forall u :: u in q ==> q[u] == users[u].taskPreferences
    ensures q == PrefsOf(users)
  {
  }

  // Each table update adds one key at one level and leaves everything else as it was.

  lemma EnsureTaskFacts(table: Table, t: string)
    ensures forall t0 :: t0 in EnsureTask(table, t) <==> t0 in table || t0 == t
    ensures forall t0, d0 :: DatasetKey(EnsureTask(table, t), t0, d0) <==> DatasetKey(table, t0, d0)
    ensures forall t0, d0, v :: Has(EnsureTask(table, t), t0, d0, v) <==> Has(table, t0, d0, v)
    ensures forall t0, d0, v :: Has(table, t0, d0, v) ==> EnsureTask(table, t)[t0][d0][v] == table[t0][d0][v]
  {
  }

  lemma EnsureDatasetFacts(table: Table, t: string, d: string)
    requires t in table
    ensures forall t0 :: t0 in EnsureDataset(table, t, d) <==> t0 in table
    ensures forall t0, d0 :: DatasetKey(EnsureDataset(table, t, d), t0, d0) <==> DatasetKey(table, t0, d0) || (t0 == t && d0 == d)
    ensures forall t0, d0, v :: Has(EnsureDataset(table, t, d), t0, d0, v) <==> Has(table, t0, d0, v)
    ensures forall t0, d0, v :: Has(table, t0, d0, v) ==> EnsureDataset(table, t, d)[t0][d0][v] == table[t0][d0][v]
  {
  }

  lemma SetEntryFacts(table: Table, t: string, d: string, u: string, c: IntentConfig)
    requires DatasetKey(table, t, d)
    ensures forall t0 :: t0 in SetEntry(table, t, d, u, c) <==> t0 in table
    ensures forall t0, d0 :: DatasetKey(SetEntry(table, t, d, u, c), t0, d0) <==> DatasetKey(table, t0, d0)
    ensures forall t0, d0, v :: Has(SetEntry(table, t, d, u, c), t0, d0, v) <==> Has(table, t0, d0, v) || (t0 == t && d0 == d && v == u)
    ensures forall t0, d0, v :: Has(SetEntry(table, t, d, u, c), t0, d0, v) ==>
      SetEntry(table, t, d, u, c)[t0][d0][v] == if t0 == t && d0 == d && v == u then c else table[t0][d0][v]
  {
  }

  // Each preference update lists one more key at one level and leaves everything else as it was.

  lemma AddUserFacts(q: Prefs, u: string)
    requires u !in q
    ensures forall v, t0, d0 :: Listed(AddUser(q, u), v, t0, d0) <==> Listed(q, v, t0, d0)
    ensures forall v, t0, d0 :: Listed(q, v, t0, d0) ==> AddUser(q, u)[v][t0][d0] == q[v][t0][d0]
    ensures forall t0 :: TaskListed(AddUser(q, u), t0) <==> TaskListed(q, t0)
    ensures forall t0, d0 :: DatasetListed(AddUser(q, u), t0, d0) <==> DatasetListed(q, t0, d0)
  {
    var q' := AddUser(q, u);
    forall t0 ensures TaskListed(q', t0) <==> TaskListed(q, t0) {
      if TaskListed(q, t0) {
        var v :| v in q && t0 in q[v];
        assert v in q' && t0 in q'[v];
      }
    }
    forall t0, d0 ensures DatasetListed(q', t0, d0) <==> DatasetListed(q, t0, d0) {
      if DatasetListed(q, t0, d0) {
        var v :| Listed(q, v, t0, d0);
        assert Listed(q', v, t0, d0);
      }
      if DatasetListed(q', t0, d0) {
        var v :| Listed(q', v, t0, d0);
        assert Listed(q, v, t0, d0);
      }
    }
  }

  lemma AddTaskFacts(q: Prefs, u: string, t: string)
    requires u in q && t !in q[u]
    ensures forall v, t0, d0 :: Listed(AddTask(q, u, t), v, t0, d0) <==> Listed(q, v, t0, d0)
    ensures forall v, t0, d0 :: Listed(q, v, t0, d0) ==> AddTask(q, u, t)[v][t0][d0] == q[v][t0][d0]
    ensures forall t0 :: TaskListed(AddTask(q, u, t), t0) <==> TaskListed(q, t0) || t0 == t
    ensures forall t0, d0 :: DatasetListed(AddTask(q, u, t), t0, d0) <==> DatasetListed(q, t0, d0)
  {
    var q' := AddTask(q, u, t);
    assert u in q' && t in q'[u];
    forall t0 | TaskListed(q, t0) ensures TaskListed(q', t0) {
      var v :| v in q && t0 in q[v];
      assert v in q' && t0 in q'[v];
    }
    forall t0 | TaskListed(q', t0) && t0 != t ensures TaskListed(q, t0) {
      var v :| v in q' && t0 in q'[v];
      assert v in q && t0 in q[v];
    }
    forall t0, d0 ensures DatasetListed(q', t0, d0) <==> DatasetListed(q, t0, d0) {
      if DatasetListed(q, t0, d0) {
        var v :| Listed(q, v, t0, d0);
        assert Listed(q', v, t0, d0);
      }
      if DatasetListed(q', t0, d0) {
        var v :| Listed(q', v, t0, d0);
        assert Listed(q, v, t0, d0);
      }
    }
  }

  lemma AddDatasetFacts(q: Prefs, u: string, t: string, d: string, xs: seq<AtomicIntent>)
    requires u in q && t in q[u] && d !in q[u][t]
    ensures forall v, t0, d0 :: Listed(AddDataset(q, u, t, d, xs), v, t0, d0) <==> Listed(q, v, t0, d0) || (v == u && t0 == t && d0 == d)
    ensures forall v, t0, d0 :: Listed(AddDataset(q, u, t, d, xs), v, t0, d0) ==>
      AddDataset(q, u, t, d, xs)[v][t0][d0] == if v == u && t0 == t && d0 == d then xs else q[v][t0][d0]
    ensures forall t0 :: TaskListed(AddDataset(q, u, t, d, xs), t0) <==> TaskListed(q, t0)
    ensures forall t0, d0 :: DatasetListed(AddDataset(q, u, t, d, xs), t0, d0) <==> DatasetListed(q, t0, d0) || (t0 == t && d0 == d)
  {
    var q' := AddDataset(q, u, t, d, xs);
    forall t0 ensures TaskListed(q', t0) <==> TaskListed(q, t0) {
      if TaskListed(q, t0) {
        var v :| v in q && t0 in q[v];
        assert v in q' && t0 in q'[v];
      }
      if TaskListed(q', t0) {
        var v :| v in q' && t0 in q'[v];
        assert v in q && t0 in q[v];
      }
    }
    assert Listed(q', u, t, d);
    forall t0, d0 | DatasetListed(q, t0, d0) ensures DatasetListed(q', t0, d0) {
      var v :| Listed(q, v, t0, d0);
      assert Listed(q', v, t0, d0);
    }
    forall t0, d0 | DatasetListed(q', t0, d0) && (t0 != t || d0 != d) ensures DatasetListed(q, t0, d0) {
      var v :| Listed(q', v, t0, d0);
      assert Listed(q, v, t0, d0);
    }
  }

  lemma BuiltEmpty()
    ensures Built(map[], map[])
  {
  }

  /** Starting a user with no tasks yet changes nothing. */
  lemma StepUser(table: Table, q: Prefs, u: string)
    requires Built(table, q) && u !in q
    ensures Built(table, AddUser(q, u))
  {
    AddUserFacts(q, u);
  }

  /** Starting a task for a user adds the task key and nothing else. */
  lemma StepTask(table: Table, q: Prefs, u: string, t: string)
    requires Built(table, q) && u in q && t !in q[u]
    ensures Built(EnsureTask(table, t), AddTask(q, u, t))
  {
    EnsureTaskFacts(table, t);
    AddTaskFacts(q, u, t);
  }

  /** Recording one listed triple adds its dataset key if needed and its entry, and nothing else. */
  lemma StepDataset(table: Table, q: Prefs, u: string, t: string, d: string, xs: seq<AtomicIntent>)
    requires Built(table, q) && u in q && t in q[u] && d !in q[u][t]
    ensures t in table
    ensures Built(SetEntry(EnsureDataset(table, t, d), t, d, u, Config(xs)), AddDataset(q, u, t, d, xs))
  {
    assert TaskListed(q, t) by {
      assert u in q && t in q[u];
    }
    EnsureDatasetFacts(table, t, d);
    SetEntryFacts(EnsureDataset(table, t, d), t, d, u, Config(xs));
    AddDatasetFacts(q, u, t, d, xs);
  }

  /** One pass of the loop over a user's tasks: the task key is added. */
  lemma TaskStep(table: Table, q: Prefs, u: string, done: map<string, map<string, seq<AtomicIntent>>>, t: string)
    requires Built(table, q[u := done]) && t !in done
    ensures Built(EnsureTask(table, t), q[u := done[t := map[]]])
  {
    StepTask(table, q[u := done], u, t);
    MapUpdateTwice(q, u, done, done[t := map[]]);
  }

  /** The entries of `m` whose keys are not in `s`: what a loop over `m`'s keys has visited while `s` remains. */
  function Without<V>(m: map<string, V>, s: set<string>): (r: map<string, V>)
    ensures forall k :: k in r <==> k in m && k !in s
    ensures forall k :: k in r ==> r[k] == m[k]
  {
    map k | k in m && k !in s :: m[k]
  }

  lemma WithoutAll<V>(m: map<string, V>)
    ensures Without(m, m.Keys) == map[]
  {
  }

  lemma WithoutNone<V>(m: map<string, V>)
    ensures Without(m, {}) == m
  {
  }

  /** Visiting one more key adds its entry. */
  lemma WithoutStep<V>(m: map<string, V>, s: set<string>, k: string)
    requires k in s && k in m
    ensures k !in Without(m, s)
    ensures Without(m, s - {k}) == Without(m, s)[k := m[k]]
  {
  }

  /** One pass of the loop over a user's datasets for a task: the dataset key and the entry are added. */
  lemma DatasetStep(table: Table, q: Prefs, u: string, t: string, datasets: map<string, seq<AtomicIntent>>, remaining: set<string>, d: string)
    requires u in q && t in q[u] && d in remaining && remaining <= datasets.Keys
    requires Built(table, q[u := q[u][t := Without(datasets, remaining)]])
    ensures t in table
    ensures Built(SetEntry(EnsureDataset(table, t, d), t, d, u, Config(datasets[d])),
                  q[u := q[u][t := Without(datasets, remaining - {d})]])
  {
    var done := Without(datasets, remaining);
    WithoutStep(datasets, remaining, d);
    StepDataset(table, q[u := q[u][t := done]], u, t, d, datasets[d]);
    MapUpdateTwice(q[u], t, done, done[d := datasets[d]]);
    MapUpdateTwice(q, u, q[u][t := done], q[u][t := done[d := datasets[d]]]);
  }

  // ------------------------------------------------------------ the handler's table

  /** A user's tasks are the two tasks, and the user's (task, dataset) pairs are exactly the registered ones. */
  ghost predicate ListsRegistered(p: map<string, map<string, seq<AtomicIntent>>>)
  {
    (forall t :: t in p <==> IsTask(t))
    && (forall t, d {:trigger UP.Registered(t, d)} :: UP.Registered(t, d) ==> t in p && d in p[t])
    && (forall t, d :: t in p && d in p[t] ==> UP.Registered(t, d))
  }

  /** The two tasks the preferences cover. */
  predicate IsTask(t: string)
  {
    t == "summarization" || t == "email_writing"
  }

  /** The user taking any combination lists exactly the registered pairs. */
  lemma PicksRegistered(combo: string)
    requires combo in UP.ComboKeys
    ensures ListsRegistered(UP.Picks(combo))
  {
    UP.PicksShape(combo);
  }

  /** Every user in `USER_PREFERENCES` lists exactly the registered pairs. */
  lemma UserPreferencesRegistered()
    ensures forall u :: u in UP.UserPreferences ==> ListsRegistered(UP.UserPreferences[u].taskPreferences)
    ensures UP.UserPreferences != map[]
  {
    UP.UserPreferencesKeys();
    forall u | u in UP.UserPreferences ensures ListsRegistered(UP.UserPreferences[u].taskPreferences) {
      var n :| 0 <= n < 5 && UP.UserIds[n] == u;
      UP.UserEntry(n);
      PicksRegistered(UP.ComboKeys[n]);
    }
    UP.UserEntry(0);
  }

  /** When every user lists exactly the registered pairs, so do the preferences as a whole. */
  lemma PrefsShape(users: map<string, UP.UserPreference>)
    requires forall u :: u in users ==> ListsRegistered(users[u].taskPreferences)
    requires users != map[]
    ensures forall u, t, d :: Listed(PrefsOf(users), u, t, d) <==> u in users && UP.Registered(t, d)
    ensures forall u, t, d :: Listed(PrefsOf(users), u, t, d) ==> PrefsOf(users)[u][t][d] == users[u].taskPreferences[t][d]
    ensures forall t :: TaskListed(PrefsOf(users), t) <==> IsTask(t)
    ensures forall t, d :: DatasetListed(PrefsOf(users), t, d) <==> UP.Registered(t, d)
  {
    var q := PrefsOf(users);
    var w :| w in users;
    forall t | IsTask(t) ensures TaskListed(q, t) {
      assert w in q && t in q[w];
    }
    forall t | TaskListed(q, t) ensures IsTask(t) {
      var v :| v in q && t in q[v];
      assert ListsRegistered(users[v].taskPreferences);
    }
    forall t, d | UP.Registered(t, d) ensures DatasetListed(q, t, d) {
      assert Listed(q, w, t, d);
    }
    forall t, d | DatasetListed(q, t, d) ensures UP.Registered(t, d) {
      var v :| Listed(q, v, t, d);
    }
  }

  /** What `Built` says about a table, once the users are known to list exactly the registered pairs. */
  lemma BuiltShape(table: Table, users: map<string, UP.UserPreference>)
    requires forall u :: u in users ==> ListsRegistered(users[u].taskPreferences)
    requires users != map[]
    requires Built(table, PrefsOf(users))
    ensures forall t :: t in table <==> IsTask(t)
    ensures forall t, d :: DatasetKey(table, t, d) <==> UP.Registered(t, d)
    ensures forall t, d, u :: Has(table, t, d, u) <==> UP.Registered(t, d) && u in users
    ensures forall t, d, u :: Has(table, t, d, u) ==> table[t][d][u] == Config(users[u].taskPreferences[t][d])
  {
    PrefsShape(users);
  }

  /**
   * The table `_initialize_intents` builds has the two tasks, under each
   * exactly its registered datasets, under each every user, and for each user
   * the configuration of that user's intents.
   */
  lemma TableShape(table: Table)
    requires Built(table, AllPrefs())
    ensures forall t :: t in table <==> IsTask(t)
    ensures forall t, d :: DatasetKey(table, t, d) <==> UP.Registered(t, d)
    ensures forall t, d, u :: Has(table, t, d, u) <==> UP.Registered(t, d) && u in UP.UserPreferences
    ensures forall t, d, u :: Has(table, t, d, u) ==> table[t][d][u] == Config(UP.UserPreferences[u].taskPreferences[t][d])
  {
    UserPreferencesRegistered();
    BuiltShape(table, UP.UserPreferences);
  }

  // ------------------------------------------------------------ process_input

  /**
   * The prompt `process_input` sends for a request, or the error it raises:
   * the task, the dataset and the user are checked in that order, then the
   * guideline is looked up in `guidelines` (the module's `GLOBAL_GUIDELINES`)
   * and the stored template formatted.
   */
  function Request(table: Table, guidelines: map<string, map<string, string>>,
                   task: string, datasetKey: string, inputText: string, userId: string): Result<string>
  {
    if task !in table then Err(ValueError("No intents defined for task: " + task))
    else if datasetKey !in table[task] then
      Err(ValueError("No intents defined for dataset " + datasetKey + " in task " + task))
    else if userId !in table[task][datasetKey] then
      Err(ValueError("No intents defined for user " + userId + " in dataset " + datasetKey + " for task " + task))
    else if task !in guidelines then Err(KeyError(task))
    else if datasetKey !in guidelines[task] then Err(KeyError(datasetKey))
    else
      Prepend(guidelines[task][datasetKey] + "\n\n",
        Format(table[task][datasetKey][userId].promptTemplate, InputField, inputText))
  }

  /** The guideline table has an entry for exactly the registered pairs. */
  ghost predicate CoversRegistered(guidelines: map<string, map<string, string>>)
  {
    forall t, d :: (t in guidelines && d in guidelines[t]) <==> UP.Registered(t, d)
  }

  lemma GlobalGuidelinesCover()
    ensures CoversRegistered(UP.GlobalGuidelines)
  {
    UP.GuidelinesCoverRegistered();
  }

  /**
   * On a table built from users that each list exactly the registered pairs,
   * with a guideline for each registered pair, a request fails exactly when
   * its task, its dataset or its user is unknown, with the message of the
   * first unknown key; otherwise no KeyError or format error can occur and the
   * prompt is the guideline, a blank line, the fixed text around the user's
   * intent description, and the input text.
   */
  lemma RequestOutcome(table: Table, users: map<string, UP.UserPreference>, guidelines: map<string, map<string, string>>,
                       task: string, datasetKey: string, inputText: string, userId: string)
    requires forall u :: u in users ==> ListsRegistered(users[u].taskPreferences)
    requires users != map[]
    requires Built(table, PrefsOf(users))
    requires CoversRegistered(guidelines)
    ensures !IsTask(task) ==>
      Request(table, guidelines, task, datasetKey, inputText, userId) == Err(ValueError("No intents defined for task: " + task))
    ensures IsTask(task) && !UP.Registered(task, datasetKey) ==>
      Request(table, guidelines, task, datasetKey, inputText, userId)
        == Err(ValueError("No intents defined for dataset " + datasetKey + " in task " + task))
    ensures UP.Registered(task, datasetKey) && userId !in users ==>
      Request(table, guidelines, task, datasetKey, inputText, userId)
        == Err(ValueError("No intents defined for user " + userId + " in dataset " + datasetKey + " for task " + task))
    ensures UP.Registered(task, datasetKey) && userId in users ==>
      task in users[userId].taskPreferences && datasetKey in users[userId].taskPreferences[task]
      && Request(table, guidelines, task, datasetKey, inputText, userId)
        == Ok(guidelines[task][datasetKey] + "\n\n"
              + (TemplateHead + Description(users[userId].taskPreferences[task][datasetKey]) + TemplateTail + inputText))
  {
    BuiltShape(table, users);
    assert task in table <==> IsTask(task);
    assert DatasetKey(table, task, datasetKey) <==> UP.Registered(task, datasetKey);
    assert Has(table, task, datasetKey, userId) <==> UP.Registered(task, datasetKey) && userId in users;
    if UP.Registered(task, datasetKey) && userId in users {
      FormatConfig(users[userId].taskPreferences[task][datasetKey], inputText);
    }
  }

  /** A model caller: `(prompt, input_text)` to the model's answer, or `None`. */
  type Caller = (string, string) -> Option<string>

  /** A caller that never answers `None`. */
  ghost predicate AlwaysAnswers(caller: Caller)
  {
    forall prompt, inputText :: caller(prompt, inputText).Some?
  }

  /** `IntentHandler`: the table of configurations and the model caller. */
  class Handler {
    const modelCaller: Caller
    /** The module-level guideline table `process_input` reads. */
    const guidelines: map<string, map<string, string>>
    /** The module-level user preferences the table is built from. */
    const users: map<string, UP.UserPreference>
    var intents: Table
    /** The (prompt, input text) pairs handed to the model caller so far. */
    ghost var calls: seq<(string, string)>

    /**
     * `__init__`: the table starts empty and `_initialize_intents` fills it
     * from the user preferences. The module-level tables the source reads
     * (`USER_PREFERENCES`, `GLOBAL_GUIDELINES`) are handed in.
     */
    constructor (modelCaller: Caller, users: map<string, UP.UserPreference>,
                 guidelines: map<string, map<string, string>>)
      ensures this.modelCaller == modelCaller
      ensures this.guidelines == guidelines && this.users == users
      ensures Built(intents, PrefsOf(users))
      ensures calls == []
    {
      this.modelCaller := modelCaller;
      this.guidelines := guidelines;
      this.users := users;
      intents := map[];
      calls := [];
      new;
      InitializeIntents();
    }

    /**
     * `_initialize_intents`: for every user, every task of the user and every
     * dataset of the task, record the user's configuration. Keys are visited
     * in an arbitrary order; the table built does not depend on it.
     */
    method InitializeIntents()
      requires intents == map[]
      modifies this`intents
      ensures Built(intents, PrefsOf(users))
    {
      AddAllUsers(users);
    }

    /** The loop of `_initialize_intents` over the users of `users` (the module's `USER_PREFERENCES`). */
    method AddAllUsers(users: map<string, UP.UserPreference>)
      requires intents == map[]
      modifies this`intents
      ensures Built(intents, PrefsOf(users))
    {
      BuiltEmpty();
      var remaining := users.Keys;
      ghost var done: Prefs := map[];
      while remaining != {}
        invariant remaining <= users.Keys
        invariant done.Keys == users.Keys - remaining
        invariant forall u :: u in done ==> done[u] == users[u].taskPreferences
        invariant Built(intents, done)
        decreases remaining
      {
        var userId :| userId in remaining;
        var userPref := users[userId];
        AddUserIntents(userId, userPref.taskPreferences, done);
        done := done[userId := userPref.taskPreferences];
        remaining := remaining - {userId};
      }
      PrefsOfUnique(users, done);
    }

    /** The body of the loop over users: every task of one user. */
    method AddUserIntents(userId: string, taskPrefs: map<string, map<string, seq<AtomicIntent>>>, ghost q: Prefs)
      requires Built(intents, q) && userId !in q
      modifies this`intents
      ensures Built(intents, q[userId := taskPrefs])
    {
      StepUser(intents, q, userId);
      var remaining := taskPrefs.Keys;
      ghost var done: map<string, map<string, seq<AtomicIntent>>> := map[];
      while remaining != {}
        invariant remaining <= taskPrefs.Keys
        invariant done.Keys == taskPrefs.Keys - remaining
        invariant forall t :: t in done ==> done[t] == taskPrefs[t]
        invariant Built(intents, q[userId := done])
        decreases remaining
      {
        var task :| task in remaining;
        TaskStep(intents, q, userId, done, task);
        ghost var expected := EnsureTask(intents, task);
        if task !in intents {
          intents := intents[task := map[]];
        }
        assert intents == expected;
        AddTaskIntents(userId, task, taskPrefs[task], q[userId := done[task := map[]]]);
        MapUpdateTwice(done, task, map[], taskPrefs[task]);
        MapUpdateTwice(q, userId, done[task := map[]], done[task := taskPrefs[task]]);
        done := done[task := taskPrefs[task]];
        remaining := remaining - {task};
      }
      assert done == taskPrefs;
    }

    /** The body of the loop over tasks: every dataset of one task of one user. */
    method AddTaskIntents(userId: string, task: string, datasets: map<string, seq<AtomicIntent>>, ghost q: Prefs)
      requires Built(intents, q) && userId in q && task in q[userId] && q[userId][task] == map[]
      modifies this`intents
      ensures Built(intents, q[userId := q[userId][task := datasets]])
    {
      var remaining := datasets.Keys;
      WithoutAll(datasets);
      MapUpdateSame(q[userId], task);
      MapUpdateSame(q, userId);
      while remaining != {}
        invariant remaining <= datasets.Keys
        invariant Built(intents, q[userId := q[userId][task := Without(datasets, remaining)]])
        decreases remaining
      {
        var dataset :| dataset in remaining;
        var xs := datasets[dataset];
        DatasetStep(intents, q, userId, task, datasets, remaining, dataset);
        ghost var ensured := EnsureDataset(intents, task, dataset);
        if dataset !in intents[task] {
          intents := intents[task := intents[task][dataset := map[]]];
        }
        assert intents == ensured;
        var description := GetIntentDescription(xs);
        var promptTemplate := CreatePromptTemplate(xs);
        intents := SetEntry(intents, task, dataset, userId, IntentConfig(xs, description, promptTemplate));
        remaining := remaining - {dataset};
      }
      WithoutNone(datasets);
    }

    /**
     * `process_input`: on an unknown key or a failed lookup or format the
     * error is raised and the model is not called; otherwise the model caller
     * receives the prompt and the input text once, and its answer, `None`
     * included, is returned.
     */
    method ProcessInput(task: string, datasetKey: string, inputText: string, userId: string) returns (r: Result<Option<string>>)
      modifies this`calls
      ensures var p := Request(intents, guidelines, task, datasetKey, inputText, userId);
        (p.Err? ==> r == Err(p.error) && calls == old(calls))
        && (p.Ok? ==> r == Ok(modelCaller(p.value, inputText)) && calls == old(calls) + [(p.value, inputText)])
    {
      if task !in intents {
        return Err(ValueError("No intents defined for task: " + task));
      }
      if datasetKey !in intents[task] {
        return Err(ValueError("No intents defined for dataset " + datasetKey + " in task " + task));
      }
      if userId !in intents[task][datasetKey] {
        return Err(ValueError("No intents defined for user " + userId + " in dataset " + datasetKey + " for task " + task));
      }
      var intentConfig := intents[task][datasetKey][userId];
      if task !in guidelines {
        return Err(KeyError(task));
      }
      if datasetKey !in guidelines[task] {
        return Err(KeyError(datasetKey));
      }
      var prompt := guidelines[task][datasetKey] + "\n\n";
      var formatted := Format(intentConfig.promptTemplate, InputField, inputText);
      if formatted.Err? {
        return Err(formatted.error);
      }
      prompt := prompt + formatted.value;
      calls := calls + [(prompt, inputText)];
      r := Ok(modelCaller(prompt, inputText));
    }
  }
}
