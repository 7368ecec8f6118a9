/** One run of the command line client after argument parsing and key
    loading: `search_scopus(query, count)` followed by
    `format_scopus_results` on what it returned. */
module Session {
  import opened Wrappers
  import opened ScopusResponse
  import opened ScopusRequest
  import opened ScopusRender

  /** What a run leaves behind: the parameters sent, every line printed in
      order, and whether the formatter raised. */
  datatype Transcript = Transcript(sent: Params, lines: seq<string>, raised: bool)

  function Run(query: string, count: int, reply: Reply): (t: Transcript)
    ensures t.sent.query == query && t.sent.count <= MaxCount
    ensures count <= MaxCount ==> t.sent.count == count
    ensures count > MaxCount ==> t.sent.count == MaxCount
    ensures reply.Failed? ==> !t.raised
    ensures reply.Received? ==>
              var o := Normalize(reply.body);
              t.raised <==> o.Malformed? || (o.Listing? && !o.complete)
    ensures reply.Failed? ==> t.lines == [ErrorLine(reply.cause), NoResultsMessage]
    ensures reply.Received? ==> t.lines == Render(Normalize(reply.body))
  {
    var call := SearchScopus(query, count, reply);
    var outcome := Normalize(call.data);
    Transcript(call.sent, call.log + Render(outcome), outcome.Malformed? || (outcome.Listing? && !outcome.complete))
  }
}
