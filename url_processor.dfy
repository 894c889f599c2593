/**
 * `URLProcessor`: the keyword-density retry loop, and the post-processing
 * `process_url` applies to what the page, task and density calls returned.
 *
 * The provider is `respond(n)`: the response to the `n`-th keyword-density
 * post of one `get_keyword_density` call. The results of `get_on_page_data`
 * and `create_onpage_task` are parameters of `ProcessUrl`, and the English
 * stop-word list is the parameter `stopWords`.
 */
module UrlProcessor {
  import opened Wrappers
  import opened StableSort
  import opened PageData

  const RelevantKeywordsCount := 10
  const LongestKeyword := 4

  /** The body of one keyword-density post; only `keyword_length` changes between posts. */
  datatype DensityRequest = DensityRequest(taskId: string, url: string, keywordLength: int)

  /** The first task of a response; a missing or null `result` is `[]`. */
  datatype DensityTask = DensityTask(result: seq<DensityEntry>)

  /** A keyword-density response; a missing `tasks` is `[]`. */
  datatype DensityResponse = DensityResponse(statusCode: int, tasks: seq<DensityTask>)

  /** A post ends the attempts for its length: status 20000 with a non-empty `tasks[0]['result']`. */
  predicate Succeeded(response: DensityResponse) {
    response.statusCode == StatusOk && |response.tasks| > 0 && |response.tasks[0].result| > 0
  }

  /** The results a length's attempts gathered, and the number of posts they made. */
  datatype Polled = Polled(entries: seq<DensityEntry>, posts: nat)

  /** Up to `left` posts, numbered from `from`, stopping at the first that succeeds. */
  function Poll(respond: nat -> DensityResponse, from: nat, left: nat): (r: Polled)
    ensures r.posts <= left
    ensures r.entries == [] ==> r.posts == left
    ensures r.entries != [] ==> 1 <= r.posts
    decreases left
  {
    if left == 0 then Polled([], 0)
    else if Succeeded(respond(from)) then Polled(respond(from).tasks[0].result, 1)
    else
      var later := Poll(respond, from + 1, left - 1);
      Polled(later.entries, later.posts + 1)
  }

  /**
   * Every post but the last failed; results come only from a post that
   * succeeded; when none did, all `left` posts failed.
   */
  lemma {:induction false} PollTrace(respond: nat -> DensityResponse, from: nat, left: nat)
    ensures var r := Poll(respond, from, left);
      && (forall n: nat :: from <= n < from + r.posts - 1 ==> !Succeeded(respond(n)))
      && (r.entries != [] ==>
            Succeeded(respond(from + r.posts - 1)) && r.entries == respond(from + r.posts - 1).tasks[0].result)
      && (r.entries == [] ==> forall n: nat :: from <= n < from + left ==> !Succeeded(respond(n)))
    decreases left
  {
    if left > 0 && !Succeeded(respond(from)) {
      PollTrace(respond, from + 1, left - 1);
    }
  }

  /** `k` posts of the same body. */
  function Repeat(req: DensityRequest, k: nat): (reqs: seq<DensityRequest>)
    ensures |reqs| == k
  {
    if k == 0 then [] else Repeat(req, k - 1) + [req]
  }

  /** Every one of the `k` posts carries that body. */
  lemma {:induction false} RepeatAll(req: DensityRequest, k: nat)
    ensures forall i :: 0 <= i < k ==> Repeat(req, k)[i] == req
  {
    if k > 0 {
      RepeatAll(req, k - 1);
      assert forall i :: 0 <= i < k - 1 ==> Repeat(req, k)[i] == Repeat(req, k - 1)[i];
    }
  }

  /** The results gathered and the posts made, in order. */
  datatype DensityRun = DensityRun(entries: seq<DensityEntry>, requests: seq<DensityRequest>)

  /** The attempts for keyword lengths `length` to 4, in that order, posts numbered from `from`. */
  function Rounds(respond: nat -> DensityResponse, taskId: string, url: string, tries: nat,
                  length: int, from: nat): (r: DensityRun)
    requires 1 <= length <= LongestKeyword + 1
    decreases LongestKeyword + 1 - length
  {
    if length > LongestKeyword then DensityRun([], [])
    else
      var first := Poll(respond, from, tries);
      var rest := Rounds(respond, taskId, url, tries, length + 1, from + first.posts);
      DensityRun(first.entries + rest.entries, Repeat(DensityRequest(taskId, url, length), first.posts) + rest.requests)
  }

  /** The number of posts for keyword length `length`. */
  function CountLength(reqs: seq<DensityRequest>, length: int): (n: nat)
    ensures n <= |reqs|
  {
    if reqs == [] then 0
    else (if reqs[0].keywordLength == length then 1 else 0) + CountLength(reqs[1..], length)
  }

  lemma {:induction false} CountLengthAppend(a: seq<DensityRequest>, b: seq<DensityRequest>, length: int)
    ensures CountLength(a + b, length) == CountLength(a, length) + CountLength(b, length)
  {
    if a == [] {
      assert a + b == b;
    } else {
      assert (a + b)[1..] == a[1..] + b;
      CountLengthAppend(a[1..], b, length);
    }
  }

  lemma {:induction false} CountLengthNone(reqs: seq<DensityRequest>, length: int)
    requires forall i :: 0 <= i < |reqs| ==> reqs[i].keywordLength != length
    ensures CountLength(reqs, length) == 0
  {
    if reqs != [] {
      CountLengthNone(reqs[1..], length);
    }
  }

  /** At most `tries` posts for each length still to come. */
  lemma {:induction false} RoundsPosts(respond: nat -> DensityResponse, taskId: string, url: string, tries: nat,
                                       length: int, from: nat)
    requires 1 <= length <= LongestKeyword + 1
    ensures |Rounds(respond, taskId, url, tries, length, from).requests| <= (LongestKeyword + 1 - length) * tries
    decreases LongestKeyword + 1 - length
  {
    if length <= LongestKeyword {
      var first := Poll(respond, from, tries);
      var rest := Rounds(respond, taskId, url, tries, length + 1, from + first.posts);
      RoundsPosts(respond, taskId, url, tries, length + 1, from + first.posts);
      var reqs := Repeat(DensityRequest(taskId, url, length), first.posts);
      assert Rounds(respond, taskId, url, tries, length, from).requests == reqs + rest.requests;
      assert |reqs + rest.requests| == first.posts + |rest.requests|;
      assert (LongestKeyword + 1 - length) * tries == tries + (LongestKeyword - length) * tries;
    }
  }

  /** Every post carries `taskId` and `url` and a keyword length between `length` and 4. */
  ghost predicate PostsFrom(reqs: seq<DensityRequest>, taskId: string, url: string, length: int) {
    forall i :: 0 <= i < |reqs| ==>
      reqs[i].taskId == taskId && reqs[i].url == url && length <= reqs[i].keywordLength <= LongestKeyword
  }

  /** Keyword lengths never go back. */
  ghost predicate Ascending(reqs: seq<DensityRequest>) {
    forall i, j :: 0 <= i < j < |reqs| ==> reqs[i].keywordLength <= reqs[j].keywordLength
  }

  lemma AscendingConcat(a: seq<DensityRequest>, b: seq<DensityRequest>, length: int)
    requires forall i :: 0 <= i < |a| ==> a[i].keywordLength == length
    requires forall i :: 0 <= i < |b| ==> length < b[i].keywordLength
    requires Ascending(b)
    ensures Ascending(a + b)
  {
    forall i, j | 0 <= i < j < |a + b| ensures (a + b)[i].keywordLength <= (a + b)[j].keywordLength {
      if j >= |a| {
        assert (a + b)[j] == b[j - |a|];
        if i >= |a| {
          assert (a + b)[i] == b[i - |a|];
        }
      }
    }
  }

  lemma PostsFromConcat(a: seq<DensityRequest>, b: seq<DensityRequest>, taskId: string, url: string, length: int)
    requires PostsFrom(a, taskId, url, length)
    requires PostsFrom(b, taskId, url, length)
    ensures PostsFrom(a + b, taskId, url, length)
  {
    forall i | 0 <= i < |a + b|
      ensures (a + b)[i].taskId == taskId && (a + b)[i].url == url && length <= (a + b)[i].keywordLength <= LongestKeyword
    {
      if i >= |a| {
        assert (a + b)[i] == b[i - |a|];
      }
    }
  }

  /**
   * Every post carries the task id and url, and the keyword lengths run
   * from `length` to 4 without going back.
   */
  lemma {:induction false} RoundsLengths(respond: nat -> DensityResponse, taskId: string, url: string, tries: nat,
                                         length: int, from: nat)
    requires 1 <= length <= LongestKeyword + 1
    ensures var r := Rounds(respond, taskId, url, tries, length, from);
      PostsFrom(r.requests, taskId, url, length) && Ascending(r.requests)
    decreases LongestKeyword + 1 - length
  {
    if length <= LongestKeyword {
      var first := Poll(respond, from, tries);
      var mine := Repeat(DensityRequest(taskId, url, length), first.posts);
      var rest := Rounds(respond, taskId, url, tries, length + 1, from + first.posts);
      RoundsLengths(respond, taskId, url, tries, length + 1, from + first.posts);
      RepeatAll(DensityRequest(taskId, url, length), first.posts);
      AscendingConcat(mine, rest.requests, length);
      PostsFromConcat(mine, rest.requests, taskId, url, length);
    }
  }

  lemma {:induction false} CountLengthRepeat(req: DensityRequest, k: nat, l: int)
    ensures CountLength(Repeat(req, k), l) == if req.keywordLength == l then k else 0
  {
    if k > 0 {
      CountLengthAppend(Repeat(req, k - 1), [req], l);
      CountLengthRepeat(req, k - 1, l);
      assert CountLength([req], l) == (if req.keywordLength == l then 1 else 0) + CountLength([req][1..], l);
    }
  }

  /** No post of the lengths still to come has a shorter length. */
  lemma RoundsAbove(respond: nat -> DensityResponse, taskId: string, url: string, tries: nat,
                    length: int, from: nat, l: int)
    requires 1 <= length <= LongestKeyword + 1
    requires l < length
    ensures CountLength(Rounds(respond, taskId, url, tries, length, from).requests, l) == 0
  {
    RoundsLengths(respond, taskId, url, tries, length, from);
    CountLengthNone(Rounds(respond, taskId, url, tries, length, from).requests, l);
  }

  /**
   * The count for one length over the posts of `length` followed by the
   * rest: all of `length`'s own posts when it is `l`, otherwise the rest's.
   */
  lemma CountLengthSplit(reqs: seq<DensityRequest>, req: DensityRequest, k: nat, rest: seq<DensityRequest>,
                         l: int, tries: nat)
    requires reqs == Repeat(req, k) + rest
    requires k <= tries
    requires req.keywordLength == l ==> CountLength(rest, l) == 0
    requires req.keywordLength != l ==> CountLength(rest, l) <= tries
    ensures CountLength(reqs, l) <= tries
  {
    CountLengthAppend(Repeat(req, k), rest, l);
    CountLengthRepeat(req, k, l);
  }

  /** Each keyword length gets at most `tries` posts. */
  lemma {:induction false} RoundsPerLength(respond: nat -> DensityResponse, taskId: string, url: string, tries: nat,
                                           length: int, from: nat, l: int)
    requires 1 <= length <= LongestKeyword + 1
    ensures CountLength(Rounds(respond, taskId, url, tries, length, from).requests, l) <= tries
    decreases LongestKeyword + 1 - length
  {
    if length <= LongestKeyword {
      var first := Poll(respond, from, tries);
      var next := from + first.posts;
      if l == length {
        RoundsAbove(respond, taskId, url, tries, length + 1, next, l);
      } else {
        RoundsPerLength(respond, taskId, url, tries, length + 1, next, l);
      }
      CountLengthSplit(Rounds(respond, taskId, url, tries, length, from).requests, DensityRequest(taskId, url, length),
                       first.posts, Rounds(respond, taskId, url, tries, length + 1, next).requests, l, tries);
    }
  }

  /** One step of the outer loop: the attempts for `length` come first, then the later lengths'. */
  lemma RoundsStep(respond: nat -> DensityResponse, taskId: string, url: string, tries: nat, length: int,
                   from: nat, entries: seq<DensityEntry>, posts: seq<DensityRequest>, next: nat)
    requires 1 <= length <= LongestKeyword
    requires var first := Poll(respond, from, tries);
      entries == first.entries && posts == Repeat(DensityRequest(taskId, url, length), first.posts)
    requires next == from + |posts|
    ensures var later := Rounds(respond, taskId, url, tries, length + 1, next);
      Rounds(respond, taskId, url, tries, length, from) == DensityRun(entries + later.entries, posts + later.requests)
  {
  }

  /**
   * The posts of a whole run: each carries the task id and url, lengths
   * run from 1 to 4 without going back, at most `tries` for each length
   * and so at most `4 * tries` in all.
   */
  lemma DensityPosts(respond: nat -> DensityResponse, taskId: string, url: string, tries: nat)
    ensures var reqs := Rounds(respond, taskId, url, tries, 1, 0).requests;
      && |reqs| <= LongestKeyword * tries
      && PostsFrom(reqs, taskId, url, 1) && Ascending(reqs)
      && forall l :: CountLength(reqs, l) <= tries
  {
    RoundsPosts(respond, taskId, url, tries, 1, 0);
    RoundsLengths(respond, taskId, url, tries, 1, 0);
    forall l ensures CountLength(Rounds(respond, taskId, url, tries, 1, 0).requests, l) <= tries {
      RoundsPerLength(respond, taskId, url, tries, 1, 0, l);
    }
  }

  /** `get_keyword_density`'s value: the gathered results, or `None` when there are none. */
  function KeywordDensity(respond: nat -> DensityResponse, taskId: string, url: string, retries: int): (r: Option<seq<DensityEntry>>)
    ensures r.Some? ==> r.value != []
  {
    var run := Rounds(respond, taskId, url, if retries < 0 then 0 else retries, 1, 0);
    if run.entries == [] then None else Some(run.entries)
  }

  /** The inner `for attempt in range(retries)` loop for one keyword length; `break` on success. */
  method PollDensity(respond: nat -> DensityResponse, req: DensityRequest, from: nat, tries: nat)
    returns (entries: seq<DensityEntry>, sent: seq<DensityRequest>)
    ensures var r := Poll(respond, from, tries);
      entries == r.entries && sent == Repeat(req, r.posts)
  {
    sent := [];
    var attempt := 0;
    while attempt < tries
      invariant attempt <= tries
      invariant sent == Repeat(req, attempt)
      invariant var rest := Poll(respond, from + attempt, tries - attempt);
        Poll(respond, from, tries) == Polled(rest.entries, attempt + rest.posts)
    {
      var response := respond(from + attempt);
      if Succeeded(response) {
        return response.tasks[0].result, sent + [req];
      }
      sent := sent + [req];
      attempt := attempt + 1;
    }
    entries := [];
  }

  /**
   * The outer loop's invariant: what was gathered for the lengths before
   * `length`, followed by the run of the remaining lengths, is `all`.
   */
  ghost predicate RunSoFar(respond: nat -> DensityResponse, taskId: string, url: string, tries: nat,
                           length: int, results: seq<DensityEntry>, sent: seq<DensityRequest>, all: DensityRun)
  {
    && 1 <= length <= LongestKeyword + 1
    && var rest := Rounds(respond, taskId, url, tries, length, |sent|);
      all.entries == results + rest.entries && all.requests == sent + rest.requests
  }

  lemma RunSoFarStep(respond: nat -> DensityResponse, taskId: string, url: string, tries: nat, length: int,
                     results: seq<DensityEntry>, sent: seq<DensityRequest>, all: DensityRun,
                     entries: seq<DensityEntry>, posts: seq<DensityRequest>)
    requires length <= LongestKeyword
    requires RunSoFar(respond, taskId, url, tries, length, results, sent, all)
    requires var first := Poll(respond, |sent|, tries);
      entries == first.entries && posts == Repeat(DensityRequest(taskId, url, length), first.posts)
    ensures RunSoFar(respond, taskId, url, tries, length + 1, results + entries, sent + posts, all)
  {
    RoundsStep(respond, taskId, url, tries, length, |sent|, entries, posts, |sent + posts|);
    RunConcat(results, sent, entries, posts, all, Rounds(respond, taskId, url, tries, length, |sent|),
              Rounds(respond, taskId, url, tries, length + 1, |sent + posts|));
  }

  /** Moving one length's results and posts from the remaining run to what was gathered. */
  lemma RunConcat(results: seq<DensityEntry>, sent: seq<DensityRequest>, entries: seq<DensityEntry>,
                  posts: seq<DensityRequest>, all: DensityRun, rest: DensityRun, later: DensityRun)
    requires rest == DensityRun(entries + later.entries, posts + later.requests)
    requires all.entries == results + rest.entries && all.requests == sent + rest.requests
    ensures all.entries == (results + entries) + later.entries
    ensures all.requests == (sent + posts) + later.requests
  {
  }

  /** The outer `for keyword_length in range(1, 5)` loop: each length's attempts in turn. */
  method PollLengths(respond: nat -> DensityResponse, taskId: string, url: string, tries: nat)
    returns (allResults: seq<DensityEntry>, sent: seq<DensityRequest>)
    ensures DensityRun(allResults, sent) == Rounds(respond, taskId, url, tries, 1, 0)
  {
    allResults := [];
    sent := [];
    var length := 1;
    ghost var all := Rounds(respond, taskId, url, tries, 1, 0);
    assert [] + all.entries == all.entries && [] + all.requests == all.requests;
    while length <= LongestKeyword
      invariant RunSoFar(respond, taskId, url, tries, length, allResults, sent, all)
      decreases LongestKeyword + 1 - length
    {
      var entries, posts := PollDensity(respond, DensityRequest(taskId, url, length), |sent|, tries);
      RunSoFarStep(respond, taskId, url, tries, length, allResults, sent, all, entries, posts);
      allResults := allResults + entries;
      sent := sent + posts;
      length := length + 1;
    }
    assert allResults + [] == allResults && sent + [] == sent;
  }

  /** `get_keyword_density(task_id, url, retries)`: lengths 1 to 4 in turn. */
  method GetKeywordDensity(respond: nat -> DensityResponse, taskId: string, url: string, retries: int)
    returns (results: Option<seq<DensityEntry>>, sent: seq<DensityRequest>)
    ensures results == KeywordDensity(respond, taskId, url, retries)
    ensures sent == Rounds(respond, taskId, url, if retries < 0 then 0 else retries, 1, 0).requests
    ensures |sent| <= LongestKeyword * (if retries < 0 then 0 else retries)
    ensures PostsFrom(sent, taskId, url, 1) && Ascending(sent)
    ensures forall l :: CountLength(sent, l) <= if retries < 0 then 0 else retries
  {
    var tries: nat := if retries < 0 then 0 else retries;
    var allResults;
    allResults, sent := PollLengths(respond, taskId, url, tries);
    DensityPosts(respond, taskId, url, tries);
    results := if allResults == [] then None else Some(allResults);
  }

  /** The items of every density entry, in order (`all_items`). */
  function Flatten(entries: seq<DensityEntry>): (items: seq<DensityItem>)
  {
    if entries == [] then [] else Flatten(entries[..|entries| - 1]) + entries[|entries| - 1].items
  }

  /** An item is collected exactly when some entry lists it. */
  lemma {:induction false} FlattenMembers(entries: seq<DensityEntry>)
    ensures forall it :: it in Flatten(entries) <==> exists i :: 0 <= i < |entries| && it in entries[i].items
  {
    if entries != [] {
      var init := entries[..|entries| - 1];
      FlattenMembers(init);
      forall it ensures it in Flatten(entries) <==> exists i :: 0 <= i < |entries| && it in entries[i].items {
        if it in Flatten(init) {
          var i :| 0 <= i < |init| && it in init[i].items;
          assert entries[i] == init[i];
        }
        if i :| 0 <= i < |entries| && it in entries[i].items {
          if i < |init| {
            assert init[i] == entries[i];
          }
        }
      }
    }
  }

  /** The loop that extends `all_items` with each entry's non-empty `items`. */
  method CollectItems(entries: seq<DensityEntry>) returns (items: seq<DensityItem>)
    ensures items == Flatten(entries)
  {
    items := [];
    var i := 0;
    while i < |entries|
      invariant 0 <= i <= |entries|
      invariant items == Flatten(entries[..i])
    {
      assert entries[..i + 1][..i] == entries[..i];
      if entries[i].items != [] {
        items := items + entries[i].items;
      } else {
        assert items + entries[i].items == items;
      }
      i := i + 1;
    }
    assert entries[..i] == entries;
  }

  /** `{**kw, 'similarity': 0}` */
  function RecordOf(item: DensityItem): KeywordRecord {
    KeywordRecord(item.keyword, item.frequency, 0.0, item.other)
  }

  /** The comprehension over `all_items` that drops stop words and resets the similarity. */
  function Relevant(items: seq<DensityItem>, stopWords: set<string>): (r: seq<KeywordRecord>)
    ensures |r| <= |items|
    ensures forall k :: k in r ==> k.keyword !in stopWords && k.similarity == 0.0
    ensures forall it :: RecordOf(it) in r <==> it in items && it.keyword !in stopWords
  {
    if items == [] then []
    else
      var last := items[|items| - 1];
      Relevant(items[..|items| - 1], stopWords) + (if last.keyword in stopWords then [] else [RecordOf(last)])
  }

  /**
   * `process_url`'s post-processing: `None` when any earlier call failed
   * (no page details, an empty or missing task id, no density results) or
   * no entry has items; otherwise the page record with the keywords sorted
   * by descending frequency and the first ten of them.
   */
  method ProcessUrl(url: string, pageDetails: Option<PageDetails>, taskId: Option<string>,
                    densityList: Option<seq<DensityEntry>>, stopWords: set<string>)
    returns (analysis: Option<PageAnalysis>)
    ensures analysis.None? <==>
      || pageDetails.None? || taskId.None? || taskId.value == ""
      || densityList.None? || densityList.value == [] || Flatten(densityList.value) == []
    ensures analysis.Some? ==>
      var a := analysis.value;
      var records := Relevant(Flatten(densityList.value), stopWords);
      && a.url == url
      && a.headings == pageDetails.value.headings
      && a.imagesCount == pageDetails.value.imagesCount
      && a.wordCount == pageDetails.value.wordCount
      && multiset(a.allKeywords) == multiset(records)
      && SortedDesc(a.allKeywords, FrequencyKey)
      && SameOrderPerKey(a.allKeywords, records, FrequencyKey)
      && a.relevantKeywords <= a.allKeywords
      && |a.relevantKeywords| == (if |records| < RelevantKeywordsCount then |records| else RelevantKeywordsCount)
  {
    if pageDetails.None? || taskId.None? || taskId.value == "" || densityList.None? || densityList.value == [] {
      return None;
    }
    var items := CollectItems(densityList.value);
    if items == [] {
      return None;
    }
    var records := Relevant(items, stopWords);
    var sorted := SortDesc(records, FrequencyKey);
    SortDescSorted(records, FrequencyKey);
    SortDescStable(records, FrequencyKey);
    var details := pageDetails.value;
    analysis := Some(PageAnalysis(url, details.headings, details.imagesCount, details.wordCount,
                                  Take(sorted, RelevantKeywordsCount), sorted));
  }
}
