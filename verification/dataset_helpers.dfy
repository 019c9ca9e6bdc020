/**
 * The input examples of the pipeline (src/task/dataset_helpers.py): raw
 * records are filtered or reshaped per dataset, cut to the requested
 * number, and assigned to the registered users round-robin; each example id
 * carries its user as the suffix after the last '_'.
 *
 * Records are the already-downloaded rows of a dataset: maps from column
 * name to a field value.
 */
module DatasetHelpers {
  import opened Outcomes
  import opened Text
  import GlobalIntents
  import Grouping

  /** A column value: a string, an integer, or a list of strings. */
  datatype Field = Str(s: string) | Int(n: int) | StrList(items: seq<string>)

  type Record = map<string, Field>

  /** The string value of column `key`, or "" when the record has no such string column. */
  function StrAt(d: Record, key: string): string
  {
    if key in d && d[key].Str? then d[key].s else ""
  }

  /** The value of column `key`, or an empty string when the record has no such column. */
  function FieldAt(d: Record, key: string): Field
  {
    if key in d then d[key] else Str("")
  }

  /** The list value of column `key`, or [] when the record has no such list column. */
  function ItemsAt(d: Record, key: string): seq<string>
  {
    if key in d && d[key].StrList? then d[key].items else []
  }

  /** `f"{value}"` for a string or integer column. */
  function IdText(f: Field): string
    requires !f.StrList?
  {
    match f
    case Str(s) => s
    case Int(n) => IntToString(n)
  }

  /** One input example; the result fields the source leaves at None are not modelled. */
  datatype Example = Example(id: string, article: string, docType: string, userPref: seq<GlobalIntents.AtomicIntent>)

  // ------------------------------------------------------------ __str__

  /** The article preview: the first 100 characters and "..." when longer, else the article itself. */
  function Preview(article: string): (r: string)
    ensures |article| <= 100 ==> r == article
    ensures |article| > 100 ==> |r| == 103 && r[..100] == article[..100] && r[100..] == "..."
  {
    if |article| > 100 then article[..100] + "..." else article
  }

  /** `str(example)`. */
  function ExampleToString(e: Example): (r: string)
    ensures |e.article| <= 100 ==> r == "<InputExample> article ID " + e.id + ": " + e.article
    ensures |e.article| > 100 ==> r == "<InputExample> article ID " + e.id + ": " + e.article[..100] + "..."
  {
    "<InputExample> article ID " + e.id + ": " + Preview(e.article)
  }

  // ------------------------------------------------------- OurInputDataset

  /** The records `OurInputDataset` reads: the first `numEx` when `numEx > 0`, otherwise all. */
  function Used(data: seq<Record>, numEx: int): (r: seq<Record>)
    ensures |r| == if 0 < numEx < |data| then numEx else |data|
    ensures r == data[..|r|]
  {
    if 0 < numEx < |data| then data[..numEx] else data
  }

  /** `num_users` capped at the number of registered users. */
  function Clamp(numUsers: int): (n: int)
    ensures n <= |GlobalIntents.UserIds|
    ensures numUsers <= |GlobalIntents.UserIds| ==> n == numUsers
  {
    if numUsers > |GlobalIntents.UserIds| then |GlobalIntents.UserIds| else numUsers
  }

  /** `USER_INTENTS[u].intents`. */
  function IntentsOf(u: string): seq<GlobalIntents.AtomicIntent>
  {
    if u in GlobalIntents.UserIntents then GlobalIntents.UserIntents[u].intents else []
  }

  /** The record has the id and article columns, a string or integer id and a string article. */
  predicate WellShaped(d: Record, idKey: string, articleKey: string)
  {
    idKey in d && articleKey in d && !d[idKey].StrList? && d[articleKey].Str?
  }

  /**
   * `xs` is what the constructor builds from `recs` with `n` users: one
   * example per record, in order; the example at position i belongs to
   * user `UserIds[i % n]` and carries that user's intents.
   */
  predicate RoundRobin(xs: seq<Example>, recs: seq<Record>, idKey: string, articleKey: string, docType: string, n: int)
  {
    Cyclic(xs, recs, idKey, articleKey, docType, n, GlobalIntents.UserIds, IntentsOf)
  }

  /** `RoundRobin` over any list of user ids and any intent lookup. */
  predicate Cyclic(xs: seq<Example>, recs: seq<Record>, idKey: string, articleKey: string, docType: string, n: int,
                   ids: seq<string>, prefs: string -> seq<GlobalIntents.AtomicIntent>)
  {
    1 <= n <= |ids|
    && |xs| == |recs|
    && forall i :: 0 <= i < |xs| ==>
      WellShaped(recs[i], idKey, articleKey)
      && xs[i].id == IdText(recs[i][idKey]) + "_" + ids[i % n]
      && xs[i].article == recs[i][articleKey].s
      && xs[i].docType == docType
      && xs[i].userPref == prefs(ids[i % n])
  }

  /** `example.id.split('_')[-1]`. */
  function UserOf(e: Example): string
  {
    LastSegment(e.id, '_')
  }

  /** The set of the values of `f` over `xs`. */
  function Image<T>(xs: seq<T>, f: T -> string): set<string>
  {
    if |xs| == 0 then {} else Image(xs[..|xs| - 1], f) + {f(xs[|xs| - 1])}
  }

  /** Extending a prefix by one element adds that element's value. */
  lemma ImageSnoc<T>(xs: seq<T>, i: int, f: T -> string)
    requires 0 <= i < |xs|
    ensures Image(xs[..i + 1], f) == Image(xs[..i], f) + {f(xs[i])}
  {
    assert xs[..i + 1][..i] == xs[..i];
  }

  /** `Image` holds exactly the values of `f` at the elements of `xs`. */
  lemma {:induction false} ImageMembers<T>(xs: seq<T>, f: T -> string)
    ensures forall e :: e in xs ==> f(e) in Image(xs, f)
    ensures forall u :: u in Image(xs, f) ==> exists e :: e in xs && f(e) == u
  {
    if |xs| > 0 {
      var init := xs[..|xs| - 1];
      ImageMembers(init, f);
      assert xs == init + [xs[|xs| - 1]];
    }
  }

  /** The set of id suffixes of `xs`. */
  function UsersOf(xs: seq<Example>): set<string>
  {
    Image(xs, UserOf)
  }

  class InputDataset {
    var examples: seq<Example>

    constructor (data: seq<Record>, numEx: int, idKey: string, articleKey: string, docType: string, numUsers: int)
      requires numUsers >= 1
      requires forall d :: d in Used(data, numEx) ==> WellShaped(d, idKey, articleKey)
      ensures RoundRobin(examples, Used(data, numEx), idKey, articleKey, docType, Clamp(numUsers))
    {
      var recs := Used(data, numEx);
      var n := Clamp(numUsers);
      var xs: seq<Example> := [];
      var i := 0;
      while i < |recs|
        invariant 0 <= i <= |recs|
        invariant RoundRobin(xs, recs[..i], idKey, articleKey, docType, n)
      {
        var d := recs[i];
        assert d in recs;
        var u := GlobalIntents.UserIds[i % n];
        CyclicSnoc(xs, recs, i, idKey, articleKey, docType, n, GlobalIntents.UserIds, IntentsOf);
        xs := xs + [Example(IdText(d[idKey]) + "_" + u, d[articleKey].s, docType, IntentsOf(u))];
        i := i + 1;
      }
      assert recs[..i] == recs;
      examples := xs;
    }

    /** `len(dataset)`. */
    function Length(): nat
      reads this
    {
      |examples|
    }

    /** `dataset[item]`: negative positions count from the end, anything else out of range is an IndexError. */
    function Get(item: int): (r: Result<Example>)
      reads this
      ensures r.Ok? <==> -|examples| <= item < |examples|
      ensures r.Ok? ==> r.value == examples[(item + |examples|) % |examples|]
    {
      if 0 <= item < |examples| then Ok(examples[item])
      else if -|examples| <= item < 0 then Ok(examples[|examples| + item])
      else Err(IndexError)
    }

    /** `get_unique_users`: the distinct id suffixes, sorted. */
    method GetUniqueUsers() returns (users: seq<string>)
      ensures StrictlySorted(users)
      ensures Elements(users) == UsersOf(examples)
    {
      var seen: set<string> := {};
      for i := 0 to |examples|
        invariant seen == UsersOf(examples[..i])
      {
        assert examples[..i + 1][..i] == examples[..i];
      assert examples[..i + 1][i] == examples[i];
        seen := seen + {UserOf(examples[i])};
      }
      assert examples[..|examples|] == examples;
      users := Sorted(seen);
    }

    /** `get_examples_by_user(user_id)`: the examples whose id suffix is `userId`, in dataset order. */
    function ExamplesByUser(userId: string): (r: seq<Example>)
      reads this
      ensures r == Grouping.Select(examples, UserOf, userId)
      ensures forall e :: e in r <==> e in examples && UserOf(e) == userId
    {
      Grouping.SelectMembers(examples, UserOf, userId);
      Grouping.Select(examples, UserOf, userId)
    }
  }

  /** The constructor's step: the next record, with user `ids[i % n]`, extends the prefix built so far. */
  lemma CyclicSnoc(xs: seq<Example>, recs: seq<Record>, i: int, idKey: string, articleKey: string, docType: string, n: int,
                   ids: seq<string>, prefs: string -> seq<GlobalIntents.AtomicIntent>)
    requires 0 <= i < |recs| && WellShaped(recs[i], idKey, articleKey)
    requires Cyclic(xs, recs[..i], idKey, articleKey, docType, n, ids, prefs)
    ensures
      var d, u := recs[i], ids[i % n];
      Cyclic(xs + [Example(IdText(d[idKey]) + "_" + u, d[articleKey].s, docType, prefs(u))], recs[..i + 1],
             idKey, articleKey, docType, n, ids, prefs)
  {
    assert recs[..i + 1] == recs[..i] + [recs[i]];
  }

  /** The example at position i of a round-robin dataset is recovered as user `UserIds[i % n]` from its id. */
  lemma RoundRobinUsers(xs: seq<Example>, recs: seq<Record>, idKey: string, articleKey: string, docType: string, n: int)
    requires RoundRobin(xs, recs, idKey, articleKey, docType, n)
    ensures forall i :: 0 <= i < |xs| ==> UserOf(xs[i]) == GlobalIntents.UserIds[i % n]
  {
    GlobalIntents.UserIntentsKeys();
    forall i | 0 <= i < |xs| ensures UserOf(xs[i]) == GlobalIntents.UserIds[i % n] {
      var u := GlobalIntents.UserIds[i % n];
      assert u in GlobalIntents.UserIntents;
      LastSegmentOfJoined(IdText(recs[i][idKey]), '_', u);
    }
  }

  /** In a round-robin dataset, the examples of user k are exactly those at the positions congruent to k modulo n. */
  lemma ExamplesOfUser(xs: seq<Example>, recs: seq<Record>, idKey: string, articleKey: string, docType: string, n: int, k: nat)
    requires RoundRobin(xs, recs, idKey, articleKey, docType, n)
    requires k < n
    ensures forall i :: 0 <= i < |xs| ==> (UserOf(xs[i]) == GlobalIntents.UserIds[k] <==> i % n == k)
  {
    RoundRobinUsers(xs, recs, idKey, articleKey, docType, n);
    GlobalIntents.UserIntentsKeys();
  }

  /** The users of a round-robin dataset are the first min(n, len) registered users. */
  lemma RoundRobinUserSet(xs: seq<Example>, recs: seq<Record>, idKey: string, articleKey: string, docType: string, n: int)
    requires RoundRobin(xs, recs, idKey, articleKey, docType, n)
    ensures UsersOf(xs) == Elements(GlobalIntents.UserIds[..if |xs| < n then |xs| else n])
  {
    RoundRobinUsers(xs, recs, idKey, articleKey, docType, n);
    CyclicImage(xs, UserOf, GlobalIntents.UserIds, n);
  }

  /** If element i of `xs` maps to `ids[i % n]`, the image of `xs` is the first min(n, |xs|) ids. */
  lemma CyclicImage<T>(xs: seq<T>, f: T -> string, ids: seq<string>, n: int)
    requires 1 <= n <= |ids|
    requires forall i :: 0 <= i < |xs| ==> f(xs[i]) == ids[i % n]
    ensures Image(xs, f) == Elements(ids[..if |xs| < n then |xs| else n])
  {
    var m := if |xs| < n then |xs| else n;
    CyclicImageCovers(xs, f, ids, n);
    CyclicImageWithin(xs, f, ids, n);
    ImageMembers(xs, f);
    PrefixInImage(xs, f, ids[..m]);
    ImageInSet(xs, f, Elements(ids[..m]));
  }

  lemma PrefixInImage<T>(xs: seq<T>, f: T -> string, ids: seq<string>)
    requires |ids| <= |xs|
    requires forall k :: 0 <= k < |ids| ==> f(xs[k]) == ids[k]
    requires forall e :: e in xs ==> f(e) in Image(xs, f)
    ensures Elements(ids) <= Image(xs, f)
  {
    forall u | u in Elements(ids) ensures u in Image(xs, f) {
      var k :| 0 <= k < |ids| && ids[k] == u;
      assert xs[k] in xs;
    }
  }

  lemma ImageInSet<T>(xs: seq<T>, f: T -> string, s: set<string>)
    requires forall e :: e in xs ==> f(e) in s
    requires forall u :: u in Image(xs, f) ==> exists e :: e in xs && f(e) == u
    ensures Image(xs, f) <= s
  {
  }

  lemma CyclicImageCovers<T>(xs: seq<T>, f: T -> string, ids: seq<string>, n: int)
    requires 1 <= n <= |ids|
    requires forall i :: 0 <= i < |xs| ==> f(xs[i]) == ids[i % n]
    ensures forall k :: 0 <= k < |xs| && k < n ==> f(xs[k]) == ids[k]
    ensures forall k :: 0 <= k < (if |xs| < n then |xs| else n) ==> f(xs[k]) == ids[..if |xs| < n then |xs| else n][k]
  {
    forall k | 0 <= k < |xs| && k < n ensures f(xs[k]) == ids[k] {
      assert f(xs[k]) == ids[k % n];
      assert k % n == k;
    }
  }

  lemma CyclicImageWithin<T>(xs: seq<T>, f: T -> string, ids: seq<string>, n: int)
    requires 1 <= n <= |ids|
    requires forall i :: 0 <= i < |xs| ==> f(xs[i]) == ids[i % n]
    ensures forall e :: e in xs ==> f(e) in Elements(ids[..if |xs| < n then |xs| else n])
  {
    var m := if |xs| < n then |xs| else n;
    forall e | e in xs ensures f(e) in Elements(ids[..m]) {
      var i :| 0 <= i < |xs| && xs[i] == e;
      var k := i % n;
      ModBelow(i, n, |xs|);
      assert f(e) == ids[k];
      assert ids[..m][k] == ids[k];
    }
  }

  /** A position below `len` taken modulo `n` is below both `n` and `len`. */
  lemma ModBelow(i: int, n: int, len: int)
    requires 0 <= i < len && 1 <= n
    ensures 0 <= i % n < (if len < n then len else n)
  {
    if len < n {
      assert i % n == i;
    }
  }

  /** user1 < user2 < ... < user5. */
  lemma UserIdsSorted()
    ensures StrictlySorted(GlobalIntents.UserIds)
  {
    var ids := GlobalIntents.UserIds;
    forall i, j | 0 <= i < j < |ids| ensures StrLess(ids[i], ids[j]) {
      UserIdLess(i, j);
    }
  }

  /** "userI" < "userJ" for I < J: the ids share the prefix "user" and differ in the digit. */
  lemma UserIdLess(i: nat, j: nat)
    requires i < j < |GlobalIntents.UserIds|
    ensures StrLess(GlobalIntents.UserIds[i], GlobalIntents.UserIds[j])
  {
    var ids := GlobalIntents.UserIds;
    var a, b := ids[i], ids[j];
    assert a == "user" + [Digit(i + 1)] && b == "user" + [Digit(j + 1)];
    StrLessCommonPrefix("user", [Digit(i + 1)], [Digit(j + 1)]);
  }

  /** A common prefix does not change the order. */
  lemma {:induction false} StrLessCommonPrefix(p: string, a: string, b: string)
    requires |a| == 1 && |b| == 1 && a[0] < b[0]
    ensures StrLess(p + a, p + b)
  {
    if |p| > 0 {
      assert (p + a)[1..] == p[1..] + a;
      assert (p + b)[1..] == p[1..] + b;
      StrLessCommonPrefix(p[1..], a, b);
    }
  }

  /** `get_unique_users` on a round-robin dataset lists the first min(n, len) registered users in order. */
  lemma UniqueUsersOfRoundRobin(users: seq<string>, xs: seq<Example>, recs: seq<Record>, idKey: string, articleKey: string, docType: string, n: int)
    requires RoundRobin(xs, recs, idKey, articleKey, docType, n)
    requires StrictlySorted(users) && Elements(users) == UsersOf(xs)
    ensures users == GlobalIntents.UserIds[..if |xs| < n then |xs| else n]
  {
    var m := if |xs| < n then |xs| else n;
    RoundRobinUserSet(xs, recs, idKey, articleKey, docType, n);
    UserIdsSorted();
    SortedDetermined(users, GlobalIntents.UserIds[..m]);
  }

  // ------------------------------------------------------- load_data filters

  /** Python's `len(s.split())`: the number of maximal runs of non-whitespace characters. */
  function RunLength(s: string): (n: nat)
    ensures n <= |s|
    ensures forall i :: 0 <= i < n ==> !IsSpace(s[i])
    ensures n < |s| ==> IsSpace(s[n])
  {
    if |s| == 0 || IsSpace(s[0]) then 0 else 1 + RunLength(s[1..])
  }

  /** Python's `s.split()`: the maximal runs of non-whitespace characters, in order. */
  function Words(s: string): (ws: seq<string>)
    ensures forall w :: w in ws ==> Word(w)
    decreases |s|
  {
    if |s| == 0 then []
    else if IsSpace(s[0]) then Words(s[1..])
    else
      var n := RunLength(s);
      [s[..n]] + Words(s[n..])
  }

  /** A non-empty string without whitespace. */
  predicate Word(w: string)
  {
    |w| > 0 && forall i :: 0 <= i < |w| ==> !IsSpace(w[i])
  }

  /** Splitting words joined by single spaces gives back the words. */
  lemma {:induction false} WordsOfJoin(ws: seq<string>)
    requires forall w :: w in ws ==> Word(w)
    ensures Words(Join(" ", ws)) == ws
  {
    if |ws| == 1 {
      assert ws[0] in ws;
      WordsOfWord(ws[0]);
    } else if |ws| > 1 {
      assert ws[0] in ws;
      WordsOfJoin(ws[1..]);
      WordsCons(ws[0], Join(" ", ws[1..]));
      assert ws == [ws[0]] + ws[1..];
    }
  }

  /** A single word splits into itself. */
  lemma WordsOfWord(w: string)
    requires Word(w)
    ensures Words(w) == [w]
  {
    assert w + "" == w;
    RunLengthOfWord(w, "");
    assert w[|w|..] == "";
  }

  /** A word followed by a space and more text splits into that word and the words of the rest. */
  lemma WordsCons(w: string, rest: string)
    requires Word(w)
    ensures Words(w + " " + rest) == [w] + Words(rest)
  {
    var s := w + " " + rest;
    assert s[0] == w[0];
    RunLengthOfWord(w, " " + rest);
    assert s == w + (" " + rest);
    assert s[..|w|] == w;
    assert s[|w|..] == " " + rest;
    assert (" " + rest)[1..] == rest;
  }

  lemma {:induction false} RunLengthOfWord(w: string, t: string)
    requires Word(w)
    requires |t| == 0 || IsSpace(t[0])
    ensures RunLength(w + t) == |w|
  {
    if |w| > 1 {
      assert (w + t)[1..] == w[1..] + t;
      RunLengthOfWord(w[1..], t);
    } else {
      assert (w + t)[1..] == t;
    }
  }

  /** The record has a string column "text". */
  predicate HasText(d: Record)
  {
    "text" in d && d["text"].Str?
  }

  /** The wikipedia filter: texts of more than 500 and fewer than 700 words. */
  predicate WikipediaKeeps(d: Record)
  {
    500 < |Words(StrAt(d, "text"))| < 700
  }

  method FilterWikipedia(data: seq<Record>) returns (kept: seq<Record>)
    requires forall d :: d in data ==> HasText(d)
    ensures kept == Grouping.Select(data, WikipediaKeeps, true)
    ensures forall d :: d in kept <==> d in data && 500 < |Words(StrAt(d, "text"))| < 700
  {
    kept := [];
    for i := 0 to |data|
      invariant kept == Grouping.Select(data[..i], WikipediaKeeps, true)
    {
      assert data[i] in data;
      var text := data[i]["text"].s;
      var length := |Words(text)|;
      Grouping.SelectSnoc(data, i, WikipediaKeeps, true);
      if 500 < length < 700 {
        kept := kept + [data[i]];
      }
    }
    assert data[..|data|] == data;
    Grouping.SelectMembers(data, WikipediaKeeps, true);
  }

  /** A record numbered `k` with text `t`. */
  function NumberedRecord(k: int, t: string): Record
  {
    map["id" := Int(k), "text" := Str(t)]
  }

  /** The records `keep` accepts, in order, each replaced by a record numbered by its position with text `text` of it. */
  function NumberKept(data: seq<Record>, keep: Record -> bool, text: Record -> string): (r: seq<Record>)
    ensures var sel := Grouping.Select(data, keep, true);
      |r| == |sel| && forall k :: 0 <= k < |r| ==> r[k] == NumberedRecord(k, text(sel[k]))
  {
    var sel := Grouping.Select(data, keep, true);
    seq(|sel|, k requires 0 <= k < |sel| => NumberedRecord(k, text(sel[k])))
  }

  /** One more record appends one numbered record when it is kept and nothing otherwise. */
  lemma NumberKeptSnoc(data: seq<Record>, x: Record, keep: Record -> bool, text: Record -> string)
    ensures var before := NumberKept(data, keep, text);
      NumberKept(data + [x], keep, text) == before + if keep(x) then [NumberedRecord(|before|, text(x))] else []
  {
    Grouping.SelectAppend(data, [x], keep, true);
  }

  /** `ex['author_highlights'] != []`. */
  predicate HasHighlights(d: Record)
  {
    "author_highlights" in d && d["author_highlights"] != StrList([])
  }

  /** A kept ccby record has string title and abstract and a list of highlights. */
  predicate CcbyShaped(d: Record)
  {
    "author_highlights" in d
    && (HasHighlights(d) ==>
      "title" in d && d["title"].Str? && "abstract" in d && d["abstract"].Str? && d["author_highlights"].StrList?)
  }

  /** The text of a ccby record: title, abstract and the ". "-joined highlights. */
  function CcbyText(d: Record): string
  {
    " My title: " + StrAt(d, "title") + ". My abstract: " + StrAt(d, "abstract")
    + " My highlights: " + Join(". ", ItemsAt(d, "author_highlights"))
  }

  /** The records the ccby branch builds: the records with highlights, numbered 0, 1, 2, ... in order. */
  function CcbyRecords(data: seq<Record>): seq<Record>
  {
    NumberKept(data, HasHighlights, CcbyText)
  }

  method FilterCcby(data: seq<Record>) returns (kept: seq<Record>)
    requires forall d :: d in data ==> CcbyShaped(d)
    ensures kept == CcbyRecords(data)
  {
    kept := [];
    for i := 0 to |data|
      invariant kept == CcbyRecords(data[..i])
    {
      var ex := data[i];
      assert ex in data;
      NumberKeptSnoc(data[..i], ex, HasHighlights, CcbyText);
      assert data[..i + 1] == data[..i] + [ex];
      if ex["author_highlights"] != StrList([]) {
        var text := " My title: " + ex["title"].s + ". My abstract: " + ex["abstract"].s
          + " My highlights: " + Join(". ", ex["author_highlights"].items);
        kept := kept + [map["id" := Int(|kept|), "text" := Str(text)]];
      }
    }
    assert data[..|data|] == data;
  }

  /** An ampere record has a document id and a list of text sentences. */
  predicate AmpereShaped(d: Record)
  {
    "doc_id" in d && "text" in d && d["text"].StrList?
  }

  /** The ampere reshaping: the document id and the space-joined text sentences. */
  function AmpereRecords(data: seq<Record>): (r: seq<Record>)
    ensures |r| == |data|
    ensures forall i :: 0 <= i < |r| ==> AmpereShaped(data[i]) ==>
      r[i].Keys == {"id", "text"} && r[i]["id"] == data[i]["doc_id"] && r[i]["text"] == Str(Join(" ", data[i]["text"].items))
  {
    seq(|data|, i requires 0 <= i < |data| =>
      map["id" := FieldAt(data[i], "doc_id"), "text" := Str(Join(" ", ItemsAt(data[i], "text")))])
  }

  /**
   * The paper_tweet extraction: None when the text holds '[' or no '"';
   * otherwise the slice from after the first '"' to two characters before
   * the last '"' (with Python's slice clamping and negative indices).
   */
  function Tweet(text: string): (r: Option<string>)
    ensures r.None? <==> '[' in text || '"' !in text
  {
    if '[' in text then None
    else
      var first := FindChar(text, '"');
      if first == -1 then None
      else Some(PySlice(text, first + 1, RFindChar(text, '"') - 2))
  }

  /** For a quoted tweet with no other quotes, the extraction is the quoted text minus its last two characters. */
  lemma TweetOfQuoted(a: string, body: string, c: string)
    requires '"' !in a && '"' !in body && '"' !in c
    requires '[' !in a + ['"'] + body + ['"'] + c
    requires |body| >= 2
    ensures Tweet(a + ['"'] + body + ['"'] + c) == Some(body[..|body| - 2])
  {
    var t := a + ['"'] + body + ['"'] + c;
    var q := |a| + 1 + |body|;
    assert t == a + ['"'] + (body + ['"'] + c);
    FirstQuote(a, body + ['"'] + c);
    LastQuote(a + ['"'] + body, c);
    TweetBetween(t, |a|, q);
    QuotedSlice(a, body, c);
  }

  lemma QuotedSlice(a: string, body: string, c: string)
    requires |body| >= 2
    ensures (a + ['"'] + body + ['"'] + c)[|a| + 1..|a| + 1 + |body| - 2] == body[..|body| - 2]
  {
    var t := a + ['"'] + body + ['"'] + c;
    assert t == (a + ['"']) + body + (['"'] + c);
  }

  /** With the first and last quote at `f` and `l` (at least three apart), the tweet is the text strictly between, less two characters. */
  lemma TweetBetween(t: string, f: int, l: int)
    requires '[' !in t
    requires 0 <= f && f + 3 <= l < |t|
    requires FindChar(t, '"') == f && RFindChar(t, '"') == l
    ensures Tweet(t) == Some(t[f + 1..l - 2])
  {
  }

  lemma FirstQuote(a: string, rest: string)
    requires '"' !in a
    ensures FindChar(a + ['"'] + rest, '"') == |a|
  {
    NotInPrefix(a, ['"'] + rest, '"');
    assert a + ['"'] + rest == a + (['"'] + rest);
    FindCharAt(a + ['"'] + rest, '"', |a|);
  }

  lemma LastQuote(init: string, c: string)
    requires '"' !in c
    ensures RFindChar(init + ['"'] + c, '"') == |init|
  {
    NotInSuffix(init + ['"'], c, '"');
    RFindCharAt(init + ['"'] + c, '"', |init|);
  }

  predicate HasTweet(d: Record)
  {
    Tweet(StrAt(d, "text")).Some?
  }

  /** The tweet extracted from a record, "" when there is none. */
  function TweetText(d: Record): string
  {
    match Tweet(StrAt(d, "text"))
    case Some(t) => t
    case None => ""
  }

  /** The records the paper_tweet branch builds: the extracted tweets, numbered 0, 1, 2, ... in order. */
  function TweetRecords(data: seq<Record>): seq<Record>
  {
    NumberKept(data, HasTweet, TweetText)
  }

  method FilterPaperTweet(data: seq<Record>) returns (kept: seq<Record>)
    requires forall d :: d in data ==> HasText(d)
    ensures kept == TweetRecords(data)
  {
    kept := [];
    for i := 0 to |data|
      invariant kept == TweetRecords(data[..i])
    {
      var ex := data[i];
      assert ex in data;
      NumberKeptSnoc(data[..i], ex, HasTweet, TweetText);
      assert data[..i + 1] == data[..i] + [ex];
      var text := ex["text"].s;
      if '[' in text {
        continue;
      }
      var first := FindChar(text, '"');
      if first == -1 {
        continue;
      }
      var tweet := PySlice(text, first + 1, RFindChar(text, '"') - 2);
      kept := kept + [map["id" := Int(|kept|), "text" := Str(tweet)]];
    }
    assert data[..|data|] == data;
  }

  // ------------------------------------------------------------ load_data

  /** The dataset names `load_data` recognises. */
  const Recognised: seq<string> := [
    "cnn_dailymail", "xsum", "slf5k", "wikipedia", "CShorten/ML-ArXiv-Papers",
    "imdb", "ccby", "ampere", "paper_tweet"
  ]

  /** The id column each recognised dataset is read with. */
  function IdKey(dataset: string): string
  {
    if dataset == "CShorten/ML-ArXiv-Papers" then "Unnamed: 0.1"
    else if dataset == "imdb" then "label"
    else "id"
  }

  /** The article column each recognised dataset is read with. */
  function ArticleKey(dataset: string): string
  {
    if dataset == "cnn_dailymail" then "article"
    else if dataset == "xsum" then "document"
    else if dataset == "slf5k" then "post"
    else if dataset == "CShorten/ML-ArXiv-Papers" then "abstract"
    else "text"
  }

  /** The records handed to `OurInputDataset` for a recognised dataset. */
  function Prepared(dataset: string, raw: seq<Record>): seq<Record>
  {
    if dataset == "wikipedia" then Grouping.Select(raw, WikipediaKeeps, true)
    else if dataset == "ccby" then CcbyRecords(raw)
    else if dataset == "ampere" then
      AmpereRecords(raw)
    else if dataset == "paper_tweet" then TweetRecords(raw)
    else raw
  }

  /** The columns the branch for `dataset` reads are present with the right kinds (an unknown name demands nothing). */
  predicate RawShaped(dataset: string, raw: seq<Record>, numEx: int)
  {
    dataset !in Recognised
    || (
      (dataset == "wikipedia" || dataset == "paper_tweet" ==> (forall d :: d in raw ==> HasText(d)))
      && (dataset == "ccby" ==> (forall d :: d in raw ==> CcbyShaped(d)))
      && (dataset == "ampere" ==> (forall d :: d in raw ==> AmpereShaped(d)))
      && (forall d :: d in Used(Prepared(dataset, raw), numEx) ==> WellShaped(d, IdKey(dataset), ArticleKey(dataset))))
  }

  /** `load_data`: the round-robin dataset of the prepared records, or NotImplementedError for an unknown name. */
  method LoadData(dataset: string, raw: seq<Record>, numEx: int, numUsers: int) returns (r: Result<InputDataset>)
    requires numUsers >= 1
    requires RawShaped(dataset, raw, numEx)
    ensures dataset !in Recognised <==> r.Err?
    ensures r.Err? ==> r.error == NotImplementedError
    ensures r.Ok? ==> (fresh(r.value)
      && RoundRobin(r.value.examples, Used(Prepared(dataset, raw), numEx), IdKey(dataset), ArticleKey(dataset), dataset, Clamp(numUsers)))
  {
    var data: seq<Record>;
    if dataset == "wikipedia" {
      data := FilterWikipedia(raw);
    } else if dataset == "ccby" {
      data := FilterCcby(raw);
    } else if dataset == "ampere" {
      data := AmpereRecords(raw);
    } else if dataset == "paper_tweet" {
      data := FilterPaperTweet(raw);
    } else if dataset in Recognised {
      data := raw;
    } else {
      return Err(NotImplementedError);
    }
    assert dataset in Recognised;
    var parsed := new InputDataset(data, numEx, IdKey(dataset), ArticleKey(dataset), dataset, numUsers);
    r := Ok(parsed);
  }
}
