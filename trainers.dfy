/** `findAllActiveTrainers`, `findAllInactiveTrainers` and `searchTrainers`; `getAllRegisteredMembers` is `Listings.RegisteredMembers`. */
module Trainers {
  import opened Json
  import opened Http
  import opened Listings

  const Path := "user/viewAllTrainers"

  /** The GET a fetch sends, and what it returns. */
  datatype Query = Query(request: Request, result: Listing)

  /** The active or inactive page: `searchParam 'trainers'` with the status as `searchValue`. */
  function Active(jwt: string, page: int, limit: int, fetch: Fetch): (r: Query)
    ensures r.request == ListRequest(Path, jwt, "trainers", "active", page, limit) && r.result == Page(fetch)
    ensures r.request.params["searchParam"] == Str("trainers") && r.request.params["searchValue"] == Str("active")
  {
    Query(ListRequest(Path, jwt, "trainers", "active", page, limit), Page(fetch))
  }

  function Inactive(jwt: string, page: int, limit: int, fetch: Fetch): (r: Query)
    ensures r.request == ListRequest(Path, jwt, "trainers", "inactive", page, limit) && r.result == Page(fetch)
    ensures r.request.params["searchParam"] == Str("trainers") && r.request.params["searchValue"] == Str("inactive")
  {
    Query(ListRequest(Path, jwt, "trainers", "inactive", page, limit), Page(fetch))
  }

  /** A trainer id or an email picks out one trainer: the body is the trainer itself. */
  predicate Unique(searchParam: string)
  {
    searchParam == "trainerId" || searchParam == "email"
  }

  function Search(jwt: string, searchParam: string, searchValue: string, page: int, limit: int, fetch: Fetch): (r: Query)
    ensures r.request == ListRequest(Path, jwt, searchParam, searchValue, page, limit)
    ensures Readable(fetch) && Unique(searchParam) ==> r.result.list == Arr([Body(fetch)])
    ensures r.result == Listings.Search(fetch, Unique(searchParam))
  {
    Query(ListRequest(Path, jwt, searchParam, searchValue, page, limit), Listings.Search(fetch, Unique(searchParam)))
  }
}
