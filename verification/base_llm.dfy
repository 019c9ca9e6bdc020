// The local-model wrapper of src/language_models/base_llm.py: completion with
// the prompt prefix dropped, chat logs flattened into one completion prompt,
// and the dummy mode that echoes its input.

module BaseLlm {
  import opened Outcomes
  import opened Text

  /** A chat message as the source holds it: a dict read at "role" and "content". */
  type ChatMessage = map<string, string>

  /** What a chat completion returns: the chat log itself in dummy mode, generated text otherwise. */
  datatype ChatReply = EchoedLog(log: seq<ChatMessage>) | Reply(text: string)

  /** The prompt line one message contributes: a labelled line for the three known roles, nothing otherwise. */
  function RoleLine(role: string, content: string): (line: string)
  {
    if role == "system" then "System: " + content + "\n"
    else if role == "user" then "User: " + content + "\n"
    else if role == "assistant" then "Assistant: " + content + "\n"
    else ""
  }

  /** One message's line, or the KeyError that reading `msg["role"]` or `msg["content"]` raises. */
  function MessageLine(msg: ChatMessage): (r: Result<string>)
    ensures r.Err? <==> "role" !in msg || "content" !in msg
    ensures r.Err? ==> r.error == KeyError(if "role" !in msg then "role" else "content")
    ensures r.Ok? ==> r.value == RoleLine(msg["role"], msg["content"])
  {
    if "role" !in msg then Err(KeyError("role"))
    else if "content" !in msg then Err(KeyError("content"))
    else Ok(RoleLine(msg["role"], msg["content"]))
  }

  /** The lines of the first `n` messages, in order; the first message that lacks a key stops it with a KeyError. */
  function LinesUpTo(log: seq<ChatMessage>, n: nat): Result<string>
    requires n <= |log|
  {
    if n == 0 then Ok("")
    else
      var init := LinesUpTo(log, n - 1);
      var line := MessageLine(log[n - 1]);
      if init.Err? then init
      else if line.Err? then Err(line.error)
      else Ok(init.value + line.value)
  }

  /** The lines of a whole chat log. */
  function ChatLines(log: seq<ChatMessage>): Result<string>
  {
    LinesUpTo(log, |log|)
  }

  /** The completion prompt a chat log flattens to: its lines, then "Assistant:". */
  function ChatPrompt(log: seq<ChatMessage>): (r: Result<string>)
    ensures r.Ok? <==> ChatLines(log).Ok?
  {
    if ChatLines(log).Err? then Err(ChatLines(log).error) else Ok(ChatLines(log).value + "Assistant:")
  }

  /** The first `n` messages have both keys. */
  predicate WellFormedUpTo(log: seq<ChatMessage>, n: nat)
    requires n <= |log|
  {
    forall i :: 0 <= i < n ==> "role" in log[i] && "content" in log[i]
  }

  /** Flattening the first `n` messages fails exactly when one of them lacks a key. */
  lemma {:induction false} LinesUpToOk(log: seq<ChatMessage>, n: nat)
    requires n <= |log|
    ensures LinesUpTo(log, n).Ok? <==> WellFormedUpTo(log, n)
  {
    if n > 0 {
      LinesUpToOk(log, n - 1);
    }
  }

  /** Flattening fails exactly on a log with a message that lacks a key. */
  lemma ChatLinesOk(log: seq<ChatMessage>)
    ensures ChatLines(log).Ok? <==> WellFormedUpTo(log, |log|)
  {
    LinesUpToOk(log, |log|);
  }

  /** The lines of `a + b` up to `|a| + k` are those of `a` followed by those of the first `k` of `b`. */
  lemma {:induction false} LinesUpToAppend(a: seq<ChatMessage>, b: seq<ChatMessage>, k: nat)
    requires k <= |b| && ChatLines(a).Ok? && LinesUpTo(b, k).Ok?
    ensures LinesUpTo(a + b, |a| + k) == Ok(ChatLines(a).value + LinesUpTo(b, k).value)
  {
    var x := ChatLines(a).value;
    if k == 0 {
      LinesUpToPrefix(a, b, |a|);
      assert x + "" == x;
    } else {
      LinesUpToAppend(a, b, k - 1);
      var y, z := LinesUpTo(b, k - 1).value, MessageLine(b[k - 1]).value;
      assert (a + b)[|a| + k - 1] == b[k - 1];
      assert (x + y) + z == x + (y + z);
    }
  }

  /** Appending messages does not change the lines of a prefix. */
  lemma {:induction false} LinesUpToPrefix(a: seq<ChatMessage>, b: seq<ChatMessage>, n: nat)
    requires n <= |a|
    ensures LinesUpTo(a + b, n) == LinesUpTo(a, n)
  {
    if n > 0 {
      LinesUpToPrefix(a, b, n - 1);
      assert (a + b)[n - 1] == a[n - 1];
    }
  }

  /** Flattening a concatenation of logs that flatten concatenates their lines. */
  lemma ChatLinesAppend(a: seq<ChatMessage>, b: seq<ChatMessage>)
    requires ChatLines(a).Ok? && ChatLines(b).Ok?
    ensures ChatLines(a + b) == Ok(ChatLines(a).value + ChatLines(b).value)
  {
    LinesUpToAppend(a, b, |b|);
  }

  /** The lines of a single message are its own line. */
  lemma ChatLinesOne(m: ChatMessage)
    requires "role" in m && "content" in m
    ensures ChatLines([m]) == Ok(RoleLine(m["role"], m["content"]))
  {
    assert LinesUpTo([m], 0) == Ok("");
    assert "" + RoleLine(m["role"], m["content"]) == RoleLine(m["role"], m["content"]);
    assert ChatLines([m]) == LinesUpTo([m], 1);
  }

  /** A flattened prompt always ends with "Assistant:", and an empty log flattens to exactly that. */
  lemma ChatPromptEnds(log: seq<ChatMessage>)
    ensures ChatPrompt(log).Ok? ==>
      var p := ChatPrompt(log).value;
      |p| >= |"Assistant:"| && p[|p| - |"Assistant:"|..] == "Assistant:"
    ensures ChatPrompt([]) == Ok("Assistant:")
  {
    assert "" + "Assistant:" == "Assistant:";
  }

  /**
   * The model wrapper. The tokenizer, the model weights and the CUDA
   * placement are not part of this model; generation is a parameter of the
   * calls that use it.
   */
  class Llm {
    const name: string
    var dummy: bool

    /** A fresh wrapper is never in dummy mode. */
    constructor(name: string)
      ensures this.name == name && !dummy
    {
      this.name := name;
      dummy := false;
    }

    /**
     * `get_response_given_completion_prompt`, given the decoded generation
     * `decoded`: in dummy mode the first 100 characters of the prompt;
     * otherwise the decoded text past `len(prompt)` characters, stripped.
     */
    function Completion(prompt: string, decoded: string): (r: string)
      reads this
      ensures dummy ==> |r| <= 100 && |r| <= |prompt| && r == prompt[..|r|]
      ensures dummy ==> r == Prefix(prompt, 100)
      ensures !dummy ==> |r| + |prompt| <= |decoded| || r == ""
    {
      if dummy then Prefix(prompt, 100)
      else
        var d := DropPrefix(decoded, |prompt|);
        StripFactor(d);
        Strip(d)
    }

    /**
     * `get_response_given_chat_completion_prompt`: in dummy mode the chat
     * log comes back as it is; otherwise the log is flattened into one
     * prompt, line by line, and completed. `generate` stands for the
     * tokenizer, generation and decoding of a prompt.
     */
    method ChatCompletion(chatLog: seq<ChatMessage>, generate: string -> string) returns (r: Result<ChatReply>)
      ensures dummy ==> r == Ok(EchoedLog(chatLog))
      ensures !dummy ==> (r.Err? <==> ChatPrompt(chatLog).Err?)
      ensures !dummy && r.Err? ==> r.error == ChatPrompt(chatLog).error
      ensures !dummy && r.Ok? ==>
        r.value == Reply(Completion(ChatPrompt(chatLog).value, generate(ChatPrompt(chatLog).value)))
    {
      if dummy {
        return Ok(EchoedLog(chatLog));
      }
      var prompt := FlattenChat(chatLog);
      if prompt.Err? {
        return Err(prompt.error);
      }
      var text := Completion(prompt.value, generate(prompt.value));
      return Ok(Reply(text));
    }

    /** `get_logprobs`: this wrapper has no log-probabilities, whatever the prompt. */
    function Logprobs(prompt: string): (r: Option<seq<real>>)
      ensures r.None?
    {
      None
    }
  }

  /** The flattening loop of the chat completion: one line per message, then "Assistant:". */
  method FlattenChat(chatLog: seq<ChatMessage>) returns (r: Result<string>)
    ensures r == ChatPrompt(chatLog)
  {
    var prompt := "";
    var i := 0;
    while i < |chatLog|
      invariant 0 <= i <= |chatLog|
      invariant LinesUpTo(chatLog, i) == Ok(prompt)
    {
      var msg := chatLog[i];
      if "role" !in msg {
        KeyErrorStays(chatLog, i + 1);
        return Err(KeyError("role"));
      }
      if "content" !in msg {
        KeyErrorStays(chatLog, i + 1);
        return Err(KeyError("content"));
      }
      var role, content := msg["role"], msg["content"];
      if role == "system" {
        prompt := prompt + ("System: " + content + "\n");
      } else if role == "user" {
        prompt := prompt + ("User: " + content + "\n");
      } else if role == "assistant" {
        prompt := prompt + ("Assistant: " + content + "\n");
      } else {
        // any other role adds nothing
        assert prompt + RoleLine(role, content) == prompt;
      }
      i := i + 1;
    }
    prompt := prompt + "Assistant:";
    return Ok(prompt);
  }

  /** Once flattening has failed on a prefix, it fails with the same error on the whole log. */
  lemma {:induction false} KeyErrorStays(log: seq<ChatMessage>, i: nat)
    requires i <= |log|
    requires LinesUpTo(log, i).Err?
    ensures ChatLines(log) == LinesUpTo(log, i)
    ensures ChatPrompt(log) == Err(LinesUpTo(log, i).error)
    decreases |log| - i
  {
    if i < |log| {
      KeyErrorStays(log, i + 1);
    }
  }

  /** A decoded text that starts with the prompt completes to the rest of it, stripped. */
  lemma CompletionOfEcho(llm: Llm, prompt: string, rest: string)
    requires !llm.dummy
    ensures llm.Completion(prompt, prompt + rest) == Strip(rest)
  {
    assert DropPrefix(prompt + rest, |prompt|) == rest;
  }

  /**
   * The first `len(prompt)` characters are dropped without looking at them:
   * any head of that length gives the same completion.
   */
  lemma CompletionIgnoresHead(llm: Llm, prompt: string, head: string, rest: string)
    requires !llm.dummy && |head| == |prompt|
    ensures llm.Completion(prompt, head + rest) == llm.Completion(prompt, prompt + rest)
  {
    assert DropPrefix(head + rest, |prompt|) == rest;
    CompletionOfEcho(llm, prompt, rest);
  }

  /** A decoded text no longer than the prompt completes to the empty string. */
  lemma CompletionOfShort(llm: Llm, prompt: string, decoded: string)
    requires !llm.dummy && |decoded| <= |prompt|
    ensures llm.Completion(prompt, decoded) == ""
  {
  }
}
