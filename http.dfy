/** Schema validation as the zod library does it for the shapes the routes
    declare: each field is checked in declaration order and every failing
    field contributes one issue. */
module Schema {
  import opened Common

  datatype Issue = Issue(path: string, message: string)

  /** The message zod reports for a field that is missing. */
  const Required := "Required"

  /** A required string field with one refinement `ok`, reported with `msg`. */
  function CheckString(path: string, v: Option<string>, ok: string -> bool, msg: string): (r: seq<Issue>)
    ensures |r| <= 1
    ensures r == [] <==> v.Some? && ok(v.value)
    ensures r != [] ==> r[0] == Issue(path, if v.None? then Required else msg)
  {
    match v
    case None => [Issue(path, Required)]
    case Some(s) => if ok(s) then [] else [Issue(path, msg)]
  }

  /** `z.string().min(n, msg)`. */
  function CheckMinLength(path: string, v: Option<string>, n: nat, msg: string): (r: seq<Issue>)
    ensures |r| <= 1
    ensures r == [] <==> v.Some? && |v.value| >= n
    ensures r != [] ==> r[0] == Issue(path, if v.None? then Required else msg)
  {
    CheckString(path, v, (s: string) => |s| >= n, msg)
  }
}

/** The HTTP boundary: request bodies, the session the authentication
    library recovers for a request, and the JSON responses of the routes. */
module Http {
  import opened Common
  import opened Store
  import opened Schema

  /** The result of `request.json()`: a body that is not JSON makes it throw. */
  datatype Body<T> = Unparseable | Json(value: T)

  /** The `user` of the session returned by `auth()`. */
  datatype SessionUser = SessionUser(id: UserId, role: Role)

  /** The columns of a created user that registration returns. */
  datatype PublicUser = PublicUser(id: UserId, email: string, name: Option<string>, role: Role)

  /** An average rating as the pair (sum of ratings, number of ratings);
      the average of no ratings is 0. */
  datatype Average = Average(sum: int, count: nat)

  datatype RatedService = RatedService(service: Service, averageRating: Average)

  datatype Payload =
    | Error(message: string)
    | ErrorDetails(message: string, details: seq<Issue>)
    | ErrorIssues(issues: seq<Issue>)
    | Registered(user: PublicUser, message: string)
    | OneService(service: Service)
    | ServiceList(list: seq<Service>)
    | CreatedReview(review: Review)
    | SearchResults(results: seq<RatedService>, count: nat)

  datatype Response = Response(status: int, payload: Payload)
}
