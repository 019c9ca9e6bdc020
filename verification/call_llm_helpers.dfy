/**
 * The deterministic parts of src/utils/call_llm_helpers.py: reading the API
 * key from the secrets file, the cleanup applied to a local model's decoded
 * output, the no-client guard of the API path, and `create_model_caller`
 * with its module-level cache of loaded local models. Loading, chat
 * templates, generation and the API request itself are parameters.
 */
module CallLlmHelpers {
  import opened Outcomes
  import opened Text

  // ------------------------------------------------------------ secrets

  /** Python's `s.split(c)`: the fields between the occurrences of `c`. */
  function Split(s: string, c: char): (r: seq<string>)
    ensures |r| >= 1
    ensures forall i :: 0 <= i < |r| ==> c !in r[i]
    ensures |r| == 1 <==> c !in s
    decreases |s|
  {
    var k := FindChar(s, c);
    if k < 0 then [s] else [s[..k]] + Split(s[k + 1..], c)
  }

  /** Splitting and joining back with the same character restore the string. */
  lemma {:induction false} SplitJoin(s: string, c: char)
    ensures Join([c], Split(s, c)) == s
    decreases |s|
  {
    var k := FindChar(s, c);
    if k >= 0 {
      var head, tail := s[..k], s[k + 1..];
      var rest := Split(tail, c);
      assert Split(s, c) == [head] + rest;
      SplitJoin(tail, c);
      JoinCons([c], head, rest);
      SplitAt(s, k);
    }
  }

  /** A string is what comes before an index, the character there, and what comes after. */
  lemma SplitAt(s: string, k: int)
    requires 0 <= k < |s|
    ensures s == s[..k] + [s[k]] + s[k + 1..]
  {
  }

  /** Joining a part in front of at least one more puts the separator after it. */
  lemma JoinCons(sep: string, p: string, rest: seq<string>)
    requires |rest| >= 1
    ensures Join(sep, [p] + rest) == p + sep + Join(sep, rest)
  {
    assert ([p] + rest)[0] == p;
    assert ([p] + rest)[1..] == rest;
  }

  /** What one line of the secrets file means to the loop. */
  datatype SecretLine =
    | OtherLine                      // the first field is not "openai_key"
    | KeyLine(value: Result<string>) // `line.split(',')[1].strip()`, or the IndexError it raises

  const KeyName := "openai_key"

  /** Reads one line: `line.split(',')[0].strip() == "openai_key"`, then its second field. */
  function ParseLine(line: string): (r: SecretLine)
    ensures r.KeyLine? ==> (r.value.Err? <==> ',' !in line)
    ensures r.KeyLine? && r.value.Err? ==> r.value.error == IndexError
  {
    var fields := Split(line, ',');
    if Strip(fields[0]) != KeyName then OtherLine
    else if |fields| < 2 then KeyLine(Err(IndexError))
    else KeyLine(Ok(Strip(fields[1])))
  }

  /**
   * The key the module-level loop leaves in `openai_key` after the lines
   * read as `ls`: each key line overwrites it, and the first key line without
   * a comma raises out of the module.
   */
  function KeyAfter(ls: seq<SecretLine>): Result<Option<string>>
  {
    if |ls| == 0 then Ok(None) else Step(KeyAfter(ls[..|ls| - 1]), ls[|ls| - 1])
  }

  /** One turn of the loop: a key line overwrites the key or raises; an error stays. */
  function Step(prev: Result<Option<string>>, l: SecretLine): Result<Option<string>>
  {
    if prev.Err? || l.OtherLine? then prev
    else if l.value.Err? then Err(l.value.error)
    else Ok(Some(l.value.value))
  }

  lemma KeyAfterSnoc(ls: seq<SecretLine>, i: int)
    requires 0 <= i < |ls|
    ensures KeyAfter(ls[..i + 1]) == Step(KeyAfter(ls[..i]), ls[i])
  {
    assert ls[..i + 1][..i] == ls[..i];
  }

  /** The lines of the secrets file, read. */
  function ParseLines(lines: seq<string>): (r: seq<SecretLine>)
    ensures |r| == |lines|
    ensures forall i :: 0 <= i < |lines| ==> r[i] == ParseLine(lines[i])
  {
    seq(|lines|, i requires 0 <= i < |lines| => ParseLine(lines[i]))
  }

  /** Once reading fails, later lines change nothing. */
  lemma {:induction false} KeyErrorStays(ls: seq<SecretLine>, i: int)
    requires 0 <= i <= |ls|
    requires KeyAfter(ls[..i]).Err?
    ensures KeyAfter(ls) == KeyAfter(ls[..i])
    decreases |ls| - i
  {
    if i < |ls| {
      KeyAfterSnoc(ls, i);
      KeyErrorStays(ls, i + 1);
    } else {
      assert ls[..i] == ls;
    }
  }

  /** The last key line wins: the key is its value, and no later line is a key line. */
  lemma {:induction false} KeyIsLastKeyLine(ls: seq<SecretLine>)
    ensures KeyAfter(ls).Ok? && KeyAfter(ls).value.Some? ==>
      exists i :: 0 <= i < |ls| && ls[i] == KeyLine(Ok(KeyAfter(ls).value.value))
        && forall j :: i < j < |ls| ==> ls[j].OtherLine?
  {
    if |ls| > 0 {
      var init := ls[..|ls| - 1];
      KeyIsLastKeyLine(init);
      if KeyAfter(ls).Ok? && KeyAfter(ls).value.Some? {
        if ls[|ls| - 1].OtherLine? {
          var i :| 0 <= i < |init| && init[i] == KeyLine(Ok(KeyAfter(init).value.value))
            && forall j :: i < j < |init| ==> init[j].OtherLine?;
          assert ls[i] == init[i];
        } else {
          assert ls[|ls| - 1] == KeyLine(Ok(KeyAfter(ls).value.value));
        }
      }
    }
  }

  /** No key is found exactly when no line is a key line. */
  lemma {:induction false} KeyAbsent(ls: seq<SecretLine>)
    ensures KeyAfter(ls) == Ok(None) <==> forall i :: 0 <= i < |ls| ==> ls[i].OtherLine?
  {
    if |ls| > 0 {
      var init := ls[..|ls| - 1];
      KeyAbsent(init);
      assert forall i :: 0 <= i < |init| ==> init[i] == ls[i];
    }
  }

  /** Reading fails exactly when some key line has no comma, and then with IndexError. */
  lemma {:induction false} KeyFails(ls: seq<SecretLine>)
    ensures KeyAfter(ls).Err? <==> exists i :: 0 <= i < |ls| && ls[i].KeyLine? && ls[i].value.Err?
    ensures KeyAfter(ls).Err? ==> KeyAfter(ls).error == IndexError || exists i :: 0 <= i < |ls| && ls[i] == KeyLine(Err(KeyAfter(ls).error))
  {
    if |ls| > 0 {
      var init := ls[..|ls| - 1];
      KeyFails(init);
      assert forall i :: 0 <= i < |init| ==> init[i] == ls[i];
    }
  }

  /**
   * The module-level loop over the secrets file; `file` is its lines, or
   * None when it does not exist (FileNotFoundError is caught and the key
   * stays None).
   */
  method ReadApiKey(file: Option<seq<string>>) returns (r: Result<Option<string>>)
    ensures file.None? ==> r == Ok(None)
    ensures file.Some? ==> r == KeyAfter(ParseLines(file.value))
  {
    if file.None? {
      return Ok(None);
    }
    var lines := file.value;
    ghost var ls := ParseLines(lines);
    var openaiKey: Option<string> := None;
    for i := 0 to |lines|
      invariant KeyAfter(ls[..i]) == Ok(openaiKey)
    {
      var line := ParseLine(lines[i]);
      KeyAfterSnoc(ls, i);
      if line.KeyLine? {
        if line.value.Err? {
          KeyErrorStays(ls, i + 1);
          return Err(line.value.error);
        }
        openaiKey := Some(line.value.value);
      }
    }
    assert ls[..|lines|] == ls;
    r := Ok(openaiKey);
  }

  /** `OpenAI(api_key=openai_key) if openai_key else None`: a client exists exactly for a non-empty key. */
  predicate HasClient(key: Option<string>)
  {
    key.Some? && key.value != ""
  }

  // -------------------------------------------------------- messages

  /** One chat message, `{"role": role, "content": content}`. */
  datatype Message = Message(role: string, content: string)

  /** Python truthiness of an optional prompt: absent and empty prompts are false. */
  predicate Truthy(prompt: Option<string>)
  {
    prompt.Some? && prompt.value != ""
  }

  /** The messages sent with `prompt` in role `role`: one message for a truthy prompt, none otherwise. */
  function PromptMessages(role: string, prompt: Option<string>): (r: seq<Message>)
    ensures |r| <= 1
    ensures |r| == 1 <==> Truthy(prompt)
    ensures |r| == 1 ==> r[0].role == role && r[0].content == prompt.value
  {
    if Truthy(prompt) then [Message(role, prompt.value)] else []
  }

  // ------------------------------------------------- output cleanup

  const SplitToken := "assistant\n\n"

  /** `"llama" in model_name.lower()`. */
  predicate IsLlama(modelName: string)
  {
    Contains(Lower(modelName), "llama")
  }

  /**
   * The llama branch, for the marker `p`: when the lowercased output holds
   * `p` (`rfind` finds it, see `Text.RFindFound`), keep what follows its
   * last occurrence, stripped; otherwise the output as it is.
   */
  function CutAfterLast(out: string, p: string): (r: string)
  {
    var k := RFind(Lower(out), p);
    if k >= 0 then Strip(out[k + |p|..]) else out
  }

  /** Lowercasing commutes with taking a slice. */
  lemma LowerSlice(s: string, a: int, b: int)
    requires 0 <= a <= b <= |s|
    ensures Lower(s[a..b]) == Lower(s)[a..b]
  {
  }

  /** A slice of a slice is a slice. */
  lemma SliceOfSlice(s: string, a: int, b: int, i: int, j: int)
    requires 0 <= a <= b <= |s| && 0 <= i <= j <= b - a
    ensures s[a..b][i..j] == s[a + i..a + j]
  {
    assert forall t :: 0 <= t < j - i ==> s[a..b][i..j][t] == s[a + i..a + j][t];
  }

  /** An occurrence inside a slice is an occurrence in the whole string, shifted by the slice's start. */
  lemma OccursInSlice(s: string, m: int, len: int, p: string, q: int)
    requires 0 <= m <= m + len <= |s|
    ensures OccursAt(s[m..m + len], p, q) ==> OccursAt(s, p, m + q)
  {
    if OccursAt(s[m..m + len], p, q) {
      SliceOfSlice(s, m, m + len, q, q + |p|);
    }
  }

  /** A slice that starts after the last occurrence of `p` holds no occurrence of `p`. */
  lemma NoOccurrencePastLast(s: string, p: string, k: int, base: int, len: int)
    requires forall j :: k < j ==> !OccursAt(s, p, j)
    requires k < base && 0 <= base <= base + len <= |s|
    ensures !Contains(s[base..base + len], p)
  {
    var t := s[base..base + len];
    forall q | 0 <= q <= |t| && q + |p| <= |t| ensures !OccursAt(t, p, q) {
      OccursInSlice(s, base, len, p, q);
    }
  }

  /** A factor of the text after the last occurrence of `p` holds no occurrence of `p`, even lowercased. */
  lemma FactorPastLast(out: string, p: string, k: int, tail: string, r: string, m: int)
    requires |p| > 0 && 0 <= k && k + |p| <= |out|
    requires forall j :: k < j ==> !OccursAt(Lower(out), p, j)
    requires tail == out[k + |p|..]
    requires 0 <= m && m + |r| <= |tail| && r == tail[m..m + |r|]
    ensures !Contains(Lower(r), p)
  {
    var start := k + |p|;
    assert tail == out[start..|out|];
    SliceOfSlice(out, start, |out|, m, m + |r|);
    LowerSlice(out, start + m, start + m + |r|);
    NoOccurrencePastLast(Lower(out), p, k, start + m, |r|);
  }

  /** When `rfind` finds the marker, the llama branch keeps the stripped text after it. */
  lemma CutAfterLastHit(out: string, p: string)
    requires RFind(Lower(out), p) >= 0
    ensures CutAfterLast(out, p) == Strip(out[RFind(Lower(out), p) + |p|..])
  {
  }

  /** The stripped text after the last occurrence of `p` holds no occurrence of `p`, even lowercased. */
  lemma TailPastLast(out: string, p: string, k: int)
    requires |p| > 0 && 0 <= k && k + |p| <= |out|
    requires forall j :: k < j ==> !OccursAt(Lower(out), p, j)
    ensures !Contains(Lower(Strip(out[k + |p|..])), p)
  {
    var tail := out[k + |p|..];
    StripFactor(tail);
    FactorPastLast(out, p, k, tail, Strip(tail), LeadingSpace(tail));
  }

  /** Equal texts hold the same markers. */
  lemma NoMarkerTransfer(x: string, y: string, p: string)
    requires x == y && !Contains(Lower(y), p)
    ensures !Contains(Lower(x), p)
  {
  }

  /** The llama branch leaves no marker behind. */
  lemma CutAfterLastClean(out: string, p: string)
    requires |p| > 0
    ensures !Contains(Lower(CutAfterLast(out, p)), p)
  {
    var k := RFind(Lower(out), p);
    if k >= 0 {
      TailPastLast(out, p, k);
      CutAfterLastHit(out, p);
      NoMarkerTransfer(CutAfterLast(out, p), Strip(out[k + |p|..]), p);
    } else {
      RFindFound(Lower(out), p);
      NoMarkerTransfer(CutAfterLast(out, p), out, p);
    }
  }

  /** An output without the marker passes the llama branch unchanged. */
  lemma CutAfterLastMiss(out: string, p: string)
    ensures !Contains(Lower(out), p) ==> CutAfterLast(out, p) == out
  {
    RFindFound(Lower(out), p);
  }

  /** The first nine characters are "Assistant" or "assistant". */
  predicate AssistantHead(s: string)
  {
    |s| >= 9 && (s[..9] == "Assistant" || s[..9] == "assistant")
  }

  /**
   * From index `h`: drop everything through the last newline of the
   * whitespace run that starts there, or nothing when that run holds no
   * newline.
   */
  function DropThroughLastNewline(s: string, h: nat): (r: string)
    requires h <= |s|
    ensures |r| <= |s| && r == s[|s| - |r|..]
  {
    var rest := s[h..];
    var k := RFindChar(rest[..LeadingSpace(rest)], '\n');
    if k < 0 then s else s[h + k + 1..]
  }

  /**
   * `r` is what is left after removing, from index `h` of `s`, whitespace
   * that ends in a newline, with no newline left in the whitespace run that
   * follows.
   */
  predicate RemovedRun(s: string, h: nat, r: string)
  {
    h + 1 <= |s| - |r| && s[|s| - |r| - 1] == '\n'
    && (forall i :: h <= i < |s| - |r| ==> IsSpace(s[i]))
    && '\n' !in r[..LeadingSpace(r)]
  }

  /** What `DropThroughLastNewline` removes, whenever it removes something. */
  lemma DropThroughLastNewlineRemoves(s: string, h: nat)
    requires h <= |s|
    ensures DropThroughLastNewline(s, h) != s ==> RemovedRun(s, h, DropThroughLastNewline(s, h))
  {
    var rest := s[h..];
    var n := LeadingSpace(rest);
    var ws := rest[..n];
    var k := RFindChar(ws, '\n');
    if k >= 0 {
      var r := s[h + k + 1..];
      assert s[|s| - |r| - 1] == ws[k];
      forall i | h <= i < |s| - |r| ensures IsSpace(s[i]) {
        assert s[i] == rest[i - h];
      }
      RunAfterLastNewline(s, h, n, k);
      assert RemovedRun(s, h, r);
      RemovedRunTransfer(s, h, DropThroughLastNewline(s, h), r);
    }
  }

  /** Equal remainders satisfy `RemovedRun` alike. */
  lemma RemovedRunTransfer(s: string, h: nat, x: string, y: string)
    requires x == y && RemovedRun(s, h, y)
    ensures RemovedRun(s, h, x)
  {
  }

  /** `DropThroughLastNewline` removes something whenever a newline follows `h` through whitespace alone. */
  lemma DropThroughLastNewlineFires(s: string, h: nat, i: int)
    requires h <= i < |s| && s[i] == '\n'
    requires forall j :: h <= j < i ==> IsSpace(s[j])
    ensures |DropThroughLastNewline(s, h)| < |s|
  {
    var rest := s[h..];
    var n := LeadingSpace(rest);
    var ws := rest[..n];
    assert IsSpace(s[i]);
    if n < |rest| {
      assert s[h + n] == rest[n];
    }
    assert i - h < n;
    assert ws[i - h] == '\n';
  }

  /** After the last newline of a whitespace run, the rest of the run is the new leading run, and holds no newline. */
  lemma RunAfterLastNewline(s: string, h: nat, n: nat, k: int)
    requires h + n <= |s| && n == LeadingSpace(s[h..])
    requires 0 <= k < n && '\n' !in s[h..][..n][k + 1..]
    ensures '\n' !in s[h + k + 1..][..LeadingSpace(s[h + k + 1..])]
  {
    var rest := s[h..];
    var r := s[h + k + 1..];
    forall i | 0 <= i < n - k - 1 ensures IsSpace(r[i]) {
      assert r[i] == rest[k + 1 + i];
    }
    if n < |rest| {
      assert r[n - k - 1] == rest[n];
    }
    LeadingSpaceUnique(r, n - k - 1);
    assert r[..n - k - 1] == rest[..n][k + 1..];
  }

  /**
   * `re.sub(r'^[Aa]ssistant\s*\n+', '', s, count=1)`: the greedy match runs
   * from "Assistant"/"assistant" through the last newline of the whitespace
   * run after it, and there is no match when that run holds no newline.
   */
  function DropAssistantMarker(s: string): (r: string)
    ensures |r| <= |s| && r == s[|s| - |r|..]
  {
    if AssistantHead(s) then DropThroughLastNewline(s, 9) else s
  }

  /**
   * What the substitution removes: "Assistant" or "assistant", then
   * whitespace ending in a newline, and no newline in the whitespace left
   * behind; and it removes something whenever such a prefix exists.
   */
  lemma DropAssistantMarkerRemoves(s: string)
    ensures var r := DropAssistantMarker(s);
      r != s ==> AssistantHead(s) && RemovedRun(s, 9, r)
    ensures AssistantHead(s) ==>
      forall i :: 9 <= i < |s| && s[i] == '\n' && (forall j :: 9 <= j < i ==> IsSpace(s[j])) ==>
        |DropAssistantMarker(s)| < |s|
  {
    if AssistantHead(s) {
      DropThroughLastNewlineRemoves(s, 9);
      forall i | 9 <= i < |s| && s[i] == '\n' && (forall j :: 9 <= j < i ==> IsSpace(s[j]))
        ensures |DropAssistantMarker(s)| < |s|
      {
        DropThroughLastNewlineFires(s, 9, i);
      }
    }
  }

  /** A suffix splits at any later index. */
  lemma SuffixSplit(s: string, a: int, b: int)
    requires 0 <= a <= b <= |s|
    ensures s[a..] == s[a..b] + s[b..]
  {
  }

  /** Removing the marker then stripping is stripping what follows "Assistant": the removed run is whitespace. */
  lemma DropMarkerThenStrip(s: string)
    ensures Strip(DropAssistantMarker(s)) == if DropAssistantMarker(s) != s then Strip(s[9..]) else Strip(s)
  {
    var r := DropAssistantMarker(s);
    DropAssistantMarkerRemoves(s);
    if r != s {
      var ws := s[9..|s| - |r|];
      forall i | 0 <= i < |ws| ensures IsSpace(ws[i]) {
        assert ws[i] == s[9 + i];
      }
      SuffixSplit(s, 9, |s| - |r|);
      StripSpaces(ws, r);
    }
  }

  /**
   * Outside the llama branch, for a non-empty prompt: drop the "Assistant"
   * marker and strip, remove every copy of the prompt and strip again, and
   * fall back to the cleaned output when nothing is left.
   */
  function CleanEcho(prompt: string, out: string): (r: string)
    requires prompt != ""
  {
    var cleaned := Strip(DropAssistantMarker(out));
    var response := Strip(ReplaceAll(cleaned, prompt, ""));
    if response != "" then response else Strip(cleaned)
  }

  /**
   * What the echo cleanup promises: the result is stripped; it is empty
   * only when the cleaned output is; an output that does not echo the
   * prompt is kept whole; an output that is only the prompt falls back to
   * the prompt itself.
   */
  lemma CleanEchoFacts(prompt: string, out: string)
    requires prompt != ""
    ensures var cleaned := Strip(DropAssistantMarker(out));
      var r := CleanEcho(prompt, out);
      Strip(r) == r
      && (r == "" ==> cleaned == "")
      && (!Contains(cleaned, prompt) ==> r == cleaned)
      && (cleaned == prompt ==> r == prompt)
  {
    var d := DropAssistantMarker(out);
    var cleaned := Strip(d);
    var removed := ReplaceAll(cleaned, prompt, "");
    StripIdempotent(d);
    StripIdempotent(removed);
    RemoveAllChanges(cleaned, prompt);
    if cleaned == prompt {
      ReplaceAllWhole(prompt, "");
    }
  }

  /**
   * The cleanup at the end of `call_huggingface_model`, given the decoded
   * output. Outside the llama branch it reads `messages[0]`, which raises
   * IndexError (caught: the call returns None) when the prompt is falsy.
   */
  function CleanOutput(modelName: string, prompt: Option<string>, out: string): (r: Option<string>)
    ensures IsLlama(modelName) ==> r == Some(CutAfterLast(out, SplitToken))
    ensures !IsLlama(modelName) ==> (r.Some? <==> Truthy(prompt))
    ensures !IsLlama(modelName) && Truthy(prompt) ==> r == Some(CleanEcho(prompt.value, out))
  {
    if IsLlama(modelName) then Some(CutAfterLast(out, SplitToken))
    else if !Truthy(prompt) then None
    else Some(CleanEcho(prompt.value, out))
  }

  /**
   * `call_huggingface_model` with a loaded model: the user message for a
   * truthy prompt goes through `generate` (chat template, generation and
   * decoding; None when it raises), then the cleanup.
   */
  function CallHuggingfaceModel(prompt: Option<string>, modelName: string,
                                generate: seq<Message> -> Option<string>): (r: Option<string>)
    ensures generate(PromptMessages("user", prompt)).None? ==> r.None?
    ensures generate(PromptMessages("user", prompt)).Some? ==>
      r == CleanOutput(modelName, prompt, generate(PromptMessages("user", prompt)).value)
  {
    match generate(PromptMessages("user", prompt))
    case None => None
    case Some(out) => CleanOutput(modelName, prompt, out)
  }

  /**
   * `call_api_model`: without a client nothing is requested and the result is
   * None; otherwise a truthy prompt is sent as the system message and the
   * reply (None when the request raises) returned.
   */
  function CallApiModel(key: Option<string>, prompt: Option<string>, model: string,
                        request: (string, seq<Message>) -> Option<string>): (r: Option<string>)
    ensures !HasClient(key) ==> r.None?
    ensures HasClient(key) ==> r == request(model, PromptMessages("system", prompt))
  {
    if !HasClient(key) then None
    else request(model, PromptMessages("system", prompt))
  }

  // ------------------------------------------------ create_model_caller

  /** What `create_model_caller` returns: a local-model caller or an API caller for the name. */
  datatype Caller = LocalCaller(name: string) | ApiCaller(name: string)

  /** Stands for the (model, tokenizer) pair `from_pretrained` loads for a name. */
  datatype LoadedModel = LoadedModel(name: string)

  /** A name with a "/" is a Hugging Face model; every other name is an API model. */
  function Route(modelName: string): (c: Caller)
    ensures c.name == modelName
    ensures c.LocalCaller? <==> '/' in modelName
  {
    if '/' in modelName then LocalCaller(modelName) else ApiCaller(modelName)
  }

  /** The module state `_model_cache`, with the loads performed so far. */
  class ModelCache {
    var cache: map<string, LoadedModel>
    /** The names passed to `from_pretrained`, in order. */
    ghost var loads: seq<string>

    /** Every cached model was loaded exactly once, under its own name. */
    ghost predicate Valid()
      reads this
    {
      (forall i, j :: 0 <= i < j < |loads| ==> loads[i] != loads[j])
      && (forall n :: n in cache <==> n in loads)
      && (forall n :: n in cache ==> cache[n] == LoadedModel(n))
    }

    constructor ()
      ensures Valid()
      ensures cache == map[] && loads == []
    {
      cache := map[];
      loads := [];
    }

    /**
     * `create_model_caller`: route by name; a local model not yet cached is
     * loaded once and cached, a cached one is reused; the cache never shrinks.
     */
    method CreateModelCaller(modelName: string) returns (c: Caller)
      requires Valid()
      modifies this
      ensures Valid()
      ensures c == Route(modelName)
      ensures c.LocalCaller? ==> modelName in cache
      ensures forall n :: n in old(cache) ==> n in cache && cache[n] == old(cache)[n]
      ensures cache == if c.LocalCaller? && modelName !in old(cache) then old(cache)[modelName := LoadedModel(modelName)] else old(cache)
      ensures loads == old(loads) + if c.LocalCaller? && modelName !in old(cache) then [modelName] else []
    {
      c := Route(modelName);
      if c.LocalCaller? && modelName !in cache {
        cache := cache[modelName := LoadedModel(modelName)];
        loads := loads + [modelName];
      }
    }

    /**
     * Calling what `create_model_caller` returned: a local caller uses the
     * cached model, an API caller goes through `call_api_model`.
     */
    function Call(c: Caller, prompt: string, key: Option<string>,
                  generate: (LoadedModel, seq<Message>) -> Option<string>,
                  request: (string, seq<Message>) -> Option<string>): (r: Option<string>)
      reads this
      requires c.LocalCaller? ==> c.name in cache
      ensures c.ApiCaller? ==> r == CallApiModel(key, Some(prompt), c.name, request)
      ensures c.LocalCaller? ==>
        var model := cache[c.name];
        r == CallHuggingfaceModel(Some(prompt), c.name, (ms: seq<Message>) => generate(model, ms))
    {
      if c.LocalCaller? then
        var model := cache[c.name];
        CallHuggingfaceModel(Some(prompt), c.name, (ms: seq<Message>) => generate(model, ms))
      else CallApiModel(key, Some(prompt), c.name, request)
    }
  }
}
