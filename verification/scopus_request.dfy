/** The request side of `BiblioScope.search_scopus`: the query parameters it
    sends and what it hands on when the HTTP exchange fails. The exchange
    itself is not modelled; its result is an input (`Reply`). */
module ScopusRequest {
  import opened Wrappers
  import opened ScopusResponse

  /** The largest `count` the client ever asks the provider for. */
  const MaxCount: int := 200

  /** The query parameters of the single GET request. */
  datatype Params = Params(query: string, count: int)

  /** What the HTTP layer delivers: a parsed JSON body (`None` for a `null`
      body), or a `RequestException` (connection error, timeout, non-2xx
      status) with its message. */
  datatype Reply = Received(body: Option<Response>) | Failed(cause: string)

  /** One call of `search_scopus`: the parameters sent, the data returned to
      the caller and the lines printed along the way. */
  datatype Call = Call(sent: Params, data: Option<Response>, log: seq<string>)

  /** `min(count, 200)`: the caller's count capped from above only. */
  function CapCount(count: int): (r: int)
    ensures r <= MaxCount
    ensures r <= count
    ensures r == count || r == MaxCount
  {
    if count <= MaxCount then count else MaxCount
  }

  /** Capping twice is capping once. */
  lemma CapCountIdempotent(count: int)
    ensures CapCount(CapCount(count)) == CapCount(count)
  {
  }

  /** Capping keeps the order of counts. */
  lemma CapCountMonotone(a: int, b: int)
    requires a <= b
    ensures CapCount(a) <= CapCount(b)
  {
  }

  /** The parameters `search_scopus` builds: the query verbatim and the
      capped count. */
  function BuildParams(query: string, count: int): (p: Params)
    ensures p.query == query
    ensures p.count <= MaxCount
    ensures count <= MaxCount ==> p.count == count
    ensures count > MaxCount ==> p.count == MaxCount
  {
    Params(query, CapCount(count))
  }

  /** The message printed when the request fails. */
  function ErrorLine(cause: string): string
  {
    "Error searching Scopus: " + cause
  }

  /** `search_scopus(query, count)` given the reply of the HTTP layer: a
      failure is reported on one line and turned into an empty dictionary,
      a delivered body is passed on untouched. */
  function SearchScopus(query: string, count: int, reply: Reply): (c: Call)
    ensures c.sent.query == query && c.sent.count <= MaxCount
    ensures count <= MaxCount ==> c.sent.count == count
    ensures count > MaxCount ==> c.sent.count == MaxCount
    ensures reply.Received? ==> c.data == reply.body && c.log == []
    ensures reply.Failed? ==> c.data == Some(map[]) && c.log == [ErrorLine(reply.cause)]
  {
    var sent := BuildParams(query, count);
    match reply
    case Received(body) => Call(sent, body, [])
    case Failed(cause) => Call(sent, Some(map[]), [ErrorLine(cause)])
  }

  /** A failed request never reaches the formatter as anything but the
      "no results or invalid response" case. */
  lemma FailureNormalizesToNoResults(query: string, count: int, cause: string)
    ensures Normalize(SearchScopus(query, count, Failed(cause)).data) == NoResults
  {
  }
}
