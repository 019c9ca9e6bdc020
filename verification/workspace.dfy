// The experiment workspace of src/workspace/workspace.py: the choice of
// metrics sink, the run parameters handed to it, the log-file name, and the
// conversation buffer that each metrics line carries out to the log file.

module Workspaces {
  import opened Outcomes
  import opened Text

  /** One entry of the conversation buffer: a dict from "q" and a model name to strings. */
  type Entry = map<string, string>

  /** A value of a metrics or parameter dict, as far as this model needs to tell them apart. */
  datatype Value =
    | VStr(s: string)
    | VInt(i: int)
    | VBool(b: bool)
    | VOther(tag: string)
    | VConversation(entries: seq<Entry>)

  /** The configuration fields the workspace reads; `repr` is the config object's `repr()`. */
  datatype UserConfig = UserConfig(model: string, repr: string)
  datatype AgentConfig = AgentConfig(model: string, agent: string, iclCount: int, numExToExplore: int, repr: string)
  datatype TaskConfig = TaskConfig(task: string, cost: Value, numTrainEx: int, seed: int, repr: string)
  datatype WorkspaceConfig = WorkspaceConfig(
    sink: string, project: string, srcPath: string,
    logFolder: string, logFilename: Option<string>, logLevel: Value,
    isDirty: bool, commitId: string)

  /** The two sink implementations, with what the wandb sink is constructed from. */
  datatype Sink = DummySink | WandbSink(project: string, params: map<string, Value>, srcPath: string)

  /** A log path: the folder and the file name joined under it. */
  datatype LogPath = LogPath(folder: string, name: string)

  /** The eleven run parameters that go to the tracking sink. */
  const ParamKeys: set<string> := {
    "user.model", "agent.model", "agent.agent", "agent.icl_count",
    "agent.num_ex_to_explore", "task.task", "task.cost", "task.num_train_ex",
    "task.seed", "is_dirty", "commit_id"
  }

  /** `_get_params`: the run parameters, keyed by where each one comes from. */
  function GetParams(u: UserConfig, a: AgentConfig, t: TaskConfig, w: WorkspaceConfig): (p: map<string, Value>)
    ensures p.Keys == ParamKeys
    ensures p["user.model"] == VStr(u.model) && p["agent.model"] == VStr(a.model) && p["agent.agent"] == VStr(a.agent)
    ensures p["agent.icl_count"] == VInt(a.iclCount) && p["agent.num_ex_to_explore"] == VInt(a.numExToExplore)
    ensures p["task.task"] == VStr(t.task) && p["task.cost"] == t.cost
    ensures p["task.num_train_ex"] == VInt(t.numTrainEx) && p["task.seed"] == VInt(t.seed)
    ensures p["is_dirty"] == VBool(w.isDirty) && p["commit_id"] == VStr(w.commitId)
  {
    map[
      "user.model" := VStr(u.model),
      "agent.model" := VStr(a.model),
      "agent.agent" := VStr(a.agent),
      "agent.icl_count" := VInt(a.iclCount),
      "agent.num_ex_to_explore" := VInt(a.numExToExplore),
      "task.task" := VStr(t.task),
      "task.cost" := t.cost,
      "task.num_train_ex" := VInt(t.numTrainEx),
      "task.seed" := VInt(t.seed),
      "is_dirty" := VBool(w.isDirty),
      "commit_id" := VStr(w.commitId)
    ]
  }

  /** Each parameter is the configuration field it is named after: equal parameters mean equal fields. */
  lemma GetParamsRecords(u: UserConfig, a: AgentConfig, t: TaskConfig, w: WorkspaceConfig,
                         u': UserConfig, a': AgentConfig, t': TaskConfig, w': WorkspaceConfig)
    requires GetParams(u, a, t, w) == GetParams(u', a', t', w')
    ensures u.model == u'.model && a.model == a'.model && a.agent == a'.agent
    ensures a.iclCount == a'.iclCount && a.numExToExplore == a'.numExToExplore
    ensures t.task == t'.task && t.cost == t'.cost && t.numTrainEx == t'.numTrainEx && t.seed == t'.seed
    ensures w.isDirty == w'.isDirty && w.commitId == w'.commitId
  {
    var p, p' := GetParams(u, a, t, w), GetParams(u', a', t', w');
    assert p["user.model"] == p'["user.model"];
    assert p["agent.model"] == p'["agent.model"];
    assert p["agent.agent"] == p'["agent.agent"];
    assert p["agent.icl_count"] == p'["agent.icl_count"];
    assert p["agent.num_ex_to_explore"] == p'["agent.num_ex_to_explore"];
    assert p["task.task"] == p'["task.task"];
    assert p["task.cost"] == p'["task.cost"];
    assert p["task.num_train_ex"] == p'["task.num_train_ex"];
    assert p["task.seed"] == p'["task.seed"];
    assert p["is_dirty"] == p'["is_dirty"];
    assert p["commit_id"] == p'["commit_id"];
  }

  /** `_get_sink`: the sink named by the workspace configuration, or a ValueError for any other name. */
  function GetSink(w: WorkspaceConfig, u: UserConfig, a: AgentConfig, t: TaskConfig): (r: Result<Sink>)
    ensures r.Ok? <==> w.sink == "dummy" || w.sink == "wandb"
    ensures r.Ok? ==> (r.value.DummySink? <==> w.sink == "dummy")
    ensures r.Ok? && r.value.WandbSink? ==>
      r.value.project == w.project && r.value.params.Keys == ParamKeys && r.value.srcPath == w.srcPath
    ensures w.sink == "wandb" ==> r.Ok? && r.value.params == GetParams(u, a, t, w)
    ensures r.Err? ==> r.error == ValueError("Unknown sink implementation " + w.sink)
  {
    if w.sink == "dummy" then Ok(DummySink)
    else if w.sink == "wandb" then Ok(WandbSink(w.project, GetParams(u, a, t, w), w.srcPath))
    else Err(ValueError("Unknown sink implementation " + w.sink))
  }

  /** `get_last_part`: the text after the last "/", or the whole string when it has none. */
  function GetLastPart(s: string): (r: string)
    ensures '/' !in r
    ensures |r| <= |s| && r == s[|s| - |r|..]
    ensures |r| < |s| ==> s[|s| - |r| - 1] == '/'
    ensures '/' !in s ==> r == s
  {
    if '/' in s then LastSegment(s, '/') else s
  }

  /** A path's last part is recovered whatever comes before its last "/". */
  lemma GetLastPartOfPath(prefix: string, part: string)
    requires '/' !in part
    ensures GetLastPart(prefix + "/" + part) == part
  {
    assert "/" == ['/'];
    assert (prefix + "/" + part)[|prefix|] == '/';
    LastSegmentOfJoined(prefix, '/', part);
  }

  /** `_repr`: the last parts of the user, agent and task reprs, '.'-joined around a "/" entry. */
  function ReprName(u: UserConfig, a: AgentConfig, t: TaskConfig): string
  {
    Join(".", [GetLastPart(u.repr), "/", GetLastPart(a.repr), GetLastPart(t.repr)])
  }

  /** Joining four parts puts the separator between each pair of neighbours. */
  lemma JoinFour(sep: string, w: string, x: string, y: string, z: string)
    ensures Join(sep, [w, x, y, z]) == w + sep + (x + sep + (y + sep + z))
  {
    assert [w, x, y, z][1..] == [x, y, z];
    assert [x, y, z][1..] == [y, z];
    assert [y, z][1..] == [z];
    assert Join(sep, [y, z]) == y + sep + z;
    assert Join(sep, [x, y, z]) == x + sep + (y + sep + z);
  }

  /** The name reads user, then "./.", then agent, ".", task. */
  lemma ReprNameShape(u: UserConfig, a: AgentConfig, t: TaskConfig)
    ensures ReprName(u, a, t) ==
      GetLastPart(u.repr) + "./." + GetLastPart(a.repr) + "." + GetLastPart(t.repr)
  {
    var x, y, z := GetLastPart(u.repr), GetLastPart(a.repr), GetLastPart(t.repr);
    JoinFour(".", x, "/", y, z);
    assert x + "." + ("/" + "." + (y + "." + z)) == x + "./." + y + "." + z;
  }

  /** The log path: the configured file name when it is a non-empty string, else the repr name with ".ndjson". */
  function GetLogPath(w: WorkspaceConfig, repr: string): (p: LogPath)
    ensures p.folder == w.logFolder
    ensures w.logFilename.Some? && w.logFilename.value != "" ==> p.name == w.logFilename.value
    ensures !(w.logFilename.Some? && w.logFilename.value != "") ==>
      |p.name| == |repr| + 7 && p.name[..|repr|] == repr && p.name[|repr|..] == ".ndjson"
  {
    if w.logFilename.Some? && w.logFilename.value != "" then LogPath(w.logFolder, w.logFilename.value)
    else LogPath(w.logFolder, repr + ".ndjson")
  }

  /** One buffer entry: "q" maps to the request and the model name to its response, which wins if that name is "q". */
  function MessageEntry(request: string, llmName: string, response: string): (e: Entry)
    ensures e.Keys == {"q", llmName}
    ensures e[llmName] == response
    ensures llmName != "q" ==> e["q"] == request
  {
    map["q" := request, llmName := response]
  }

  /** A log line: the metrics with "conversation" set to the buffer, replacing any metric of that name. */
  function LogLine(metrics: map<string, Value>, conversation: seq<Entry>): (line: map<string, Value>)
    ensures line.Keys == metrics.Keys + {"conversation"}
    ensures line["conversation"] == VConversation(conversation)
    ensures forall k :: k in metrics && k != "conversation" ==> line[k] == metrics[k]
  {
    metrics["conversation" := VConversation(conversation)]
  }

  /** The conversation a log line carries. */
  function Carried(line: map<string, Value>): seq<Entry>
  {
    if "conversation" in line && line["conversation"].VConversation? then line["conversation"].entries else []
  }

  /** The entries carried by a sequence of log lines, in order. */
  function AllCarried(lines: seq<map<string, Value>>): seq<Entry>
  {
    if |lines| == 0 then [] else AllCarried(lines[..|lines| - 1]) + Carried(lines[|lines| - 1])
  }

  /** Writing a line for a buffer adds that buffer to what the file carries. */
  lemma CarriedAfterWrite(lines: seq<map<string, Value>>, metrics: map<string, Value>, conversation: seq<Entry>)
    ensures AllCarried(lines + [LogLine(metrics, conversation)]) == AllCarried(lines) + conversation
  {
    var all := lines + [LogLine(metrics, conversation)];
    assert all[..|all| - 1] == lines;
  }

  /**
   * The workspace. The log file and the tracking sink are not modelled as
   * I/O: `written` holds the lines appended to the log file since the
   * workspace was created, `sunk` the metrics forwarded to the sink and
   * `artifacts` the paths handed to it as artifacts.
   */
  class Workspace {
    const sink: Sink
    const logPath: LogPath
    const logLevel: Value
    var conversationLog: seq<Entry>
    ghost var written: seq<map<string, Value>>
    ghost var sunk: seq<map<string, Value>>
    ghost var artifacts: seq<seq<LogPath>>
    /** Every entry passed to `LogMessage` so far. */
    ghost var messages: seq<Entry>

    /** No entry is lost or repeated: the written lines and the buffer hold every message, in order. */
    ghost predicate Valid()
      reads this
    {
      AllCarried(written) + conversationLog == messages
    }

    /** A workspace over a chosen sink and path, with an empty buffer and an emptied log file. */
    constructor(sink: Sink, logPath: LogPath, logLevel: Value)
      ensures this.sink == sink && this.logPath == logPath && this.logLevel == logLevel
      ensures conversationLog == [] && written == [] && sunk == [] && artifacts == [] && messages == []
      ensures Valid()
    {
      this.sink := sink;
      this.logPath := logPath;
      this.logLevel := logLevel;
      conversationLog := [];
      written := [];
      sunk := [];
      artifacts := [];
      messages := [];
    }

    /** `log_message`: one more entry at the end of the buffer, the earlier ones kept. */
    method LogMessage(request: string, llmName: string, response: string)
      requires Valid()
      modifies this
      ensures conversationLog == old(conversationLog) + [MessageEntry(request, llmName, response)]
      ensures messages == old(messages) + [MessageEntry(request, llmName, response)]
      ensures written == old(written) && sunk == old(sunk) && artifacts == old(artifacts)
      ensures Valid()
    {
      conversationLog := conversationLog + [map["q" := request, llmName := response]];
      messages := messages + [MessageEntry(request, llmName, response)];
    }

    /**
     * `log`: the metrics go to the sink, then one line goes to the log
     * file and the buffer is emptied. `writeFails` stands for the file
     * write raising; the exception then propagates and the buffer stays.
     */
    method Log(metrics: map<string, Value>, writeFails: bool) returns (r: Result<()>)
      requires Valid()
      modifies this
      ensures sunk == old(sunk) + [metrics]
      ensures r.Ok? <==> !writeFails
      ensures r.Ok? ==> written == old(written) + [LogLine(metrics, old(conversationLog))] && conversationLog == []
      ensures r.Err? ==> written == old(written) && conversationLog == old(conversationLog)
      ensures messages == old(messages) && artifacts == old(artifacts)
      ensures Valid()
    {
      sunk := sunk + [metrics];
      if writeFails {
        return Err(OSError);
      }
      CarriedAfterWrite(written, metrics, conversationLog);
      written := written + [metrics["conversation" := VConversation(conversationLog)]];
      conversationLog := [];
      return Ok(());
    }

    /** `stop`: the log file is handed to the sink as the "logs" artifact. */
    method Stop()
      modifies this
      ensures artifacts == old(artifacts) + [[logPath]]
      ensures written == old(written) && sunk == old(sunk) && conversationLog == old(conversationLog)
      ensures messages == old(messages)
    {
      artifacts := artifacts + [[logPath]];
    }
  }

  /**
   * `Workspace.__init__`: the sink is chosen first, and an unknown sink
   * name stops construction with its ValueError; the log path comes from
   * the configured file name or the repr name, and the buffer starts empty.
   */
  method NewWorkspace(w: WorkspaceConfig, u: UserConfig, a: AgentConfig, t: TaskConfig) returns (r: Result<Workspace>)
    ensures r.Ok? <==> GetSink(w, u, a, t).Ok?
    ensures r.Err? ==> r.error == GetSink(w, u, a, t).error
    ensures r.Ok? ==> fresh(r.value) && r.value.Valid()
    ensures r.Ok? ==> r.value.sink == GetSink(w, u, a, t).value
    ensures r.Ok? ==> r.value.logPath == GetLogPath(w, ReprName(u, a, t))
    ensures r.Ok? ==> r.value.conversationLog == [] && r.value.written == [] && r.value.messages == []
  {
    var sink := GetSink(w, u, a, t);
    if sink.Err? {
      return Err(sink.error);
    }
    var repr := ReprName(u, a, t);
    var path := GetLogPath(w, repr);
    var ws := new Workspace(sink.value, path, w.logLevel);
    return Ok(ws);
  }
}
