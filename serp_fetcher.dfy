/** `SerpFetcher.get_serp_results`: the status-code retry loop. */
module SerpFetcher {
  import opened Wrappers
  import opened PageData

  const MaxRetries := 5

  /** The request body, built once before the loop. */
  datatype SerpRequest = SerpRequest(languageCode: string, locationCode: int, keyword: string)

  /** The first element of a response's `tasks`; only its identity matters here. */
  datatype SerpTask = SerpTask(id: string)

  datatype SerpResponse = SerpResponse(statusCode: int, tasks: seq<SerpTask>)

  /**
   * How a call ends: with the first task, with `None`, with the IndexError
   * that `response["tasks"][0]` raises on an empty task list, or with the
   * exception of a post that raised (a connection or JSON error), which
   * nothing in the loop catches.
   */
  datatype SerpOutcome = Fetched(task: SerpTask) | NoResult | IndexErrorRaised | PostRaised

  /** The `i`-th post was answered with "not ready yet". */
  predicate NotReady(reply: Option<SerpResponse>) {
    reply.Some? && reply.value.statusCode == StatusNotFound
  }

  /**
   * The provider is `respond`: the response to the `i`-th post (counting
   * from 0), or `None` when that post raised. `sent` lists the request body
   * of every post made.
   */
  method GetSerpResults(keyword: string, languageCode: string, locationCode: int, respond: nat -> Option<SerpResponse>)
    returns (outcome: SerpOutcome, sent: seq<SerpRequest>)
    ensures 1 <= |sent| <= MaxRetries
    ensures forall i :: 0 <= i < |sent| ==> sent[i] == SerpRequest(languageCode, locationCode, keyword)
    // every post but the last was answered "not ready yet"
    ensures forall i :: 0 <= i < |sent| - 1 ==> NotReady(respond(i))
    ensures var reply := respond(|sent| - 1);
      && (reply.None? ==> outcome == PostRaised)
      && (reply.Some? ==>
            var last := reply.value;
            && (last.statusCode == StatusOk ==>
                  outcome == if |last.tasks| > 0 then Fetched(last.tasks[0]) else IndexErrorRaised)
            && (last.statusCode == StatusNotFound ==> |sent| == MaxRetries && outcome == NoResult)
            && (last.statusCode != StatusOk && last.statusCode != StatusNotFound ==> outcome == NoResult))
  {
    var postData := SerpRequest(languageCode, locationCode, keyword);
    sent := [];
    var attempt := 0;
    while attempt < MaxRetries
      invariant attempt == |sent| <= MaxRetries
      invariant forall i :: 0 <= i < |sent| ==> sent[i] == postData
      invariant forall i :: 0 <= i < |sent| ==> NotReady(respond(i))
    {
      var reply := respond(attempt);
      sent := sent + [postData];
      if reply.None? {
        return PostRaised, sent;
      }
      var response := reply.value;
      if response.statusCode == StatusOk {
        if |response.tasks| > 0 {
          return Fetched(response.tasks[0]), sent;
        }
        return IndexErrorRaised, sent;
      } else if response.statusCode != StatusNotFound {
        return NoResult, sent;
      }
      attempt := attempt + 1;
    }
    outcome := NoResult;
  }

}
