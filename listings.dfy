/**
 * The list and search fetches: what they ask for and how they turn the response into a list and
 * a total. None of them lets an exception escape; a failure is an empty list with total 0.
 */
module Listings {
  import opened Wrappers
  import opened Json
  import opened Http

  /**
   * What `await axios.get(...)` gave: the response's `data`, or an exception with its `message`
   * (absent when the thrown value has none).
   */
  datatype Fetch = Fetched(data: Json) | Failed(message: Option<string>)

  /** `{ listOf..., total... }`: the list is whatever value the body supplied, as is the total. */
  datatype Listing = Listing(list: Json, total: Json)

  /** What the catch block returns. */
  const Nothing := Listing(Arr([]), Num(0.0))

  /** The page and search fetches share this GET: a bearer token and four query parameters. */
  function ListRequest(path: string, jwt: string, searchParam: string, searchValue: string,
                       page: int, limit: int): (q: Request)
    ensures q.verb == Get && q.url == Backend(path) && q.bearer == Some(jwt) && q.body == Undefined
    ensures q.params == map["searchParam" := Str(searchParam), "searchValue" := Str(searchValue),
                            "page" := Num(page as real), "limit" := Num(limit as real)]
  {
    Http.Request(Get, Backend(path), Some(jwt),
      map["searchParam" := Str(searchParam), "searchValue" := Str(searchValue),
          "page" := Num(page as real), "limit" := Num(limit as real)],
      Undefined)
  }

  /** `response.data.body`, when reading it does not throw (it throws when `data` is nullish). */
  predicate Readable(fetch: Fetch)
  {
    fetch.Fetched? && !Nullish(fetch.data)
  }

  function Body(fetch: Fetch): Json
    requires Readable(fetch)
  {
    Prop(fetch.data, "body")
  }

  /** `body?.content || []` and `body?.totalElements || 0` of an active or inactive page. */
  function Page(fetch: Fetch): (r: Listing)
    ensures !Readable(fetch) ==> r == Nothing
    ensures Readable(fetch) ==>
      r.list == Or(Prop(Body(fetch), "content"), Arr([]))
      && r.total == Or(Prop(Body(fetch), "totalElements"), Num(0.0))
  {
    if !Readable(fetch) then Nothing
    else Listing(Or(Prop(Body(fetch), "content"), Arr([])), Or(Prop(Body(fetch), "totalElements"), Num(0.0)))
  }

  /**
   * A search: `[body]` when the parameter names a unique key, otherwise `body?.content || []`;
   * the total is `body?.totalElements || 1`.
   */
  function Search(fetch: Fetch, unique: bool): (r: Listing)
    ensures !Readable(fetch) ==> r == Nothing
    ensures Readable(fetch) && unique ==> r.list == Arr([Body(fetch)])
    ensures Readable(fetch) && !unique ==> r.list == Or(Prop(Body(fetch), "content"), Arr([]))
    ensures Readable(fetch) ==> r.total == Or(Prop(Body(fetch), "totalElements"), Num(1.0))
  {
    if !Readable(fetch) then Nothing
    else
      var total := Or(Prop(Body(fetch), "totalElements"), Num(1.0));
      if unique then Listing(Arr([Body(fetch)]), total)
      else Listing(Or(Prop(Body(fetch), "content"), Arr([])), total)
  }

  /** A page's list and total are never falsy, except the exact fallbacks `[]` and `0`. */
  lemma PageDefaults(fetch: Fetch)
    ensures Truthy(Page(fetch).list)
    ensures Truthy(Page(fetch).total) || Page(fetch).total == Num(0.0)
  {
  }

  /**
   * A search that reached the server reports a truthy total, 1 when the body gave none, so only a
   * failed search reports 0.
   */
  lemma SearchTotal(fetch: Fetch, unique: bool)
    ensures Truthy(Search(fetch, unique).total) <==> Readable(fetch)
  {
  }

  /** A unique-key search lists exactly one entry, even when the body is missing. */
  lemma UniqueSearch(fetch: Fetch)
    requires Readable(fetch)
    ensures Search(fetch, true).list.Arr? && |Search(fetch, true).list.items| == 1
  {
  }

  /** A paging search and a page fetch list the same entries; only the total's default differs. */
  lemma SearchAsPage(fetch: Fetch)
    ensures Search(fetch, false).list == Page(fetch).list
    ensures Readable(fetch) && !Truthy(Prop(Body(fetch), "totalElements")) ==>
      Search(fetch, false).total == Num(1.0) && Page(fetch).total == Num(0.0)
  {
  }

  /** What `getAllRegisteredMembers` returns; `error` is present only on failure. */
  datatype Registered = Registered(request: Option<Request>, list: Json, total: Json, error: Option<string>)

  const InvalidToken := "Invalid JWT"
  const InvalidResponse := "Invalid response from server"
  const FetchFailed := "Failed to fetch registered members"

  /**
   * `getAllRegisteredMembers` with `jwt` the decrypted token. An empty token and a response
   * without `data.body` are thrown as errors with their own messages; every error is caught and
   * reported with `error?.message || 'Failed to fetch registered members'`.
   */
  function RegisteredMembers(jwt: string, trainerEmail: string, page: int, limit: int, fetch: Fetch): (r: Registered)
    ensures jwt == "" ==> r == Registered(None, Arr([]), Num(0.0), Some(InvalidToken))
    ensures jwt != "" ==> r.request == Some(Http.Request(Get, Backend("trainer/getAllRegisteredMembers"), Some(jwt),
      map["trainerEmail" := Str(trainerEmail), "page" := Num(page as real), "limit" := Num(limit as real)], Undefined))
    ensures jwt != "" && fetch.Failed? ==>
      r.list == Arr([]) && r.total == Num(0.0) && r.error == Some(OrElse(fetch.message, FetchFailed))
    ensures jwt != "" && fetch.Fetched? && !Truthy(Prop(fetch.data, "body")) ==>
      r.list == Arr([]) && r.total == Num(0.0) && r.error == Some(InvalidResponse)
    ensures jwt != "" && fetch.Fetched? && Truthy(Prop(fetch.data, "body")) ==>
      r.list == Or(Prop(Prop(fetch.data, "body"), "content"), Arr([]))
      && r.total == Or(Prop(Prop(fetch.data, "body"), "totalElements"), Num(0.0)) && r.error == None
  {
    if jwt == "" then Registered(None, Arr([]), Num(0.0), Some(InvalidToken))
    else
      var request := Http.Request(Get, Backend("trainer/getAllRegisteredMembers"), Some(jwt),
        map["trainerEmail" := Str(trainerEmail), "page" := Num(page as real), "limit" := Num(limit as real)], Undefined);
      match fetch
      case Failed(message) => Registered(Some(request), Arr([]), Num(0.0), Some(OrElse(message, FetchFailed)))
      case Fetched(data) =>
        var body := Prop(data, "body");
        if !Truthy(body) then Registered(Some(request), Arr([]), Num(0.0), Some(InvalidResponse))
        else Registered(Some(request), Or(Prop(body, "content"), Arr([])), Or(Prop(body, "totalElements"), Num(0.0)), None)
  }

  /** The result has an error exactly when it is the empty fallback listing. */
  lemma RegisteredError(jwt: string, trainerEmail: string, page: int, limit: int, fetch: Fetch)
    ensures var r := RegisteredMembers(jwt, trainerEmail, page, limit, fetch);
      r.error.Some? <==> jwt == "" || fetch.Failed? || !Truthy(Prop(fetch.data, "body"))
    ensures var r := RegisteredMembers(jwt, trainerEmail, page, limit, fetch);
      r.error.Some? ==> r.list == Arr([]) && r.total == Num(0.0) && r.error.value != ""
  {
  }
}
