/**
 * The REST API's Express set-up (`packages/rest-api/src/config/express.ts`):
 * which paths need a JSON web token, how any error that reaches the end of
 * the middleware chain is turned into an `APIError`
 * (`packages/rest-api/src/server/helpers/APIError.ts`), the fallback for a
 * route nobody answered, and the JSON body the client finally gets.
 *
 * An error's stack is the trace captured where the error object is built,
 * a parameter here. The `http-status` table of status texts is a parameter
 * as well.
 */
module ExpressErrors {
  import opened Wrappers
  import opened Text

  // ---------------------------------------------------------------------
  // Token protection
  // ---------------------------------------------------------------------

  /** The paths that need no JSON web token. */
  const UnprotectedPaths: seq<string> := ["/api/heartbeat", "/api/auth", "/api/login", "/api/login/callback"]

  /** The path of a request URL: everything before the query or the fragment. */
  function Pathname(url: string): (r: string)
    ensures |r| <= |url| && r == url[..|r|]
    ensures '?' !in r && '#' !in r
    ensures |r| < |url| ==> url[|r|] == '?' || url[|r|] == '#'
    decreases |url|
  {
    if url == [] || url[0] == '?' || url[0] == '#' then ""
    else [url[0]] + Pathname(url[1..])
  }

  /** `expressJwt(...).unless({ path: unprotectedPaths })`: a token is needed unless the path is one of the four exactly. */
  predicate NeedsToken(url: string) {
    Pathname(url) !in UnprotectedPaths
  }

  /** The query string does not change whether a token is needed. */
  lemma {:induction false} QueryDoesNotMatter(path: string, query: string)
    requires '?' !in path && '#' !in path
    ensures Pathname(path + "?" + query) == path
    ensures NeedsToken(path + "?" + query) <==> NeedsToken(path)
    decreases |path|
  {
    if path == [] {
      assert (path + "?" + query)[0] == '?';
    } else {
      assert (path + "?" + query)[1..] == path[1..] + "?" + query;
      QueryDoesNotMatter(path[1..], query);
      assert [path[0]] + path[1..] == path;
    }
    PathnameOfPlain(path);
  }

  /** A path without query or fragment is its own path. */
  lemma {:induction false} PathnameOfPlain(path: string)
    requires '?' !in path && '#' !in path
    ensures Pathname(path) == path
    decreases |path|
  {
    if path != [] {
      PathnameOfPlain(path[1..]);
      assert [path[0]] + path[1..] == path;
    }
  }

  /** The OAuth callback with its query needs no token. */
  lemma CallbackWithQuery()
    ensures !NeedsToken("/api/login/callback?code=abc")
  {
    assert "/api/login/callback?code=abc" == "/api/login/callback" + "?" + "code=abc";
    QueryDoesNotMatter("/api/login/callback", "code=abc");
    assert UnprotectedPaths[3] == "/api/login/callback";
  }

  /** The match is exact: a listed path with a trailing slash needs a token, and so does any other path. */
  lemma TokenNeeded(path: string)
    requires path == "/api/heartbeat/" || path == "/api/guilds"
    ensures NeedsToken(path)
  {
    PathnameOfPlain(path);
    assert forall k :: 0 <= k < |UnprotectedPaths| ==> |UnprotectedPaths[k]| != |path|;
  }

  // ---------------------------------------------------------------------
  // Error conversion
  // ---------------------------------------------------------------------

  const InternalServerError: int := 500
  const NotFound: int := 404

  /** An `APIError`. */
  datatype ApiError = ApiError(message: string, status: int, isPublic: bool, stack: string)

  /** What reaches the converter. */
  datatype Thrown =
    | Validation(errors: seq<seq<string>>, status: int)                  // a ValidationError: the messages of each failed field
    | Api(error: ApiError)
    | Other(message: string, code: Option<int>, public: Option<bool>)      // any other error; `None` where its `status` or `isPublic` is undefined

  /** `new APIError(message, status, isPublic)`: an undefined status is 500, an undefined `isPublic` false. */
  function NewApiError(message: string, status: Option<int>, isPublic: Option<bool>, stack: string): (e: ApiError)
    ensures e.message == message && e.stack == stack
    ensures status.None? ==> e.status == InternalServerError
    ensures status.Some? ==> e.status == status.value
    ensures e.isPublic <==> isPublic == Some(true)
  {
    ApiError(message, status.GetOr(InternalServerError), isPublic.GetOr(false), stack)
  }

  /** Each failed field's messages joined with `. `, and the fields joined with ` and `. */
  function ValidationMessage(errors: seq<seq<string>>): string {
    Join(seq(|errors|, i requires 0 <= i < |errors| => Join(errors[i], ". ")), " and ")
  }

  /** The converter: validation errors become public API errors, other errors are wrapped, API errors pass. */
  function Convert(err: Thrown, stack: string): (r: ApiError)
    ensures err.Api? ==> r == err.error
    ensures err.Validation? ==> r == ApiError(ValidationMessage(err.errors), err.status, true, stack)
    ensures err.Other? ==> r == NewApiError(err.message, err.code, err.public, stack)
  {
    match err
    case Validation(errors, status) => NewApiError(ValidationMessage(errors), Some(status), Some(true), stack)
    case Api(e) => e
    case Other(message, status, isPublic) => NewApiError(message, status, isPublic, stack)
  }

  /** Converting an already converted error changes nothing. */
  lemma ConvertIdempotent(err: Thrown, stack: string, stack': string)
    ensures Convert(Api(Convert(err, stack)), stack') == Convert(err, stack)
  {
  }

  /** A wrapped error keeps its message but gets a new stack: the original trace is lost. */
  lemma WrappingReplacesStack(message: string, status: Option<int>, isPublic: Option<bool>, stack: string)
    ensures Convert(Other(message, status, isPublic), stack).stack == stack
    ensures Convert(Other(message, status, isPublic), stack).message == message
  {
  }

  /** Every message of every failed field appears in the validation message. */
  lemma ValidationMessageMentions(errors: seq<seq<string>>, i: int, j: int)
    requires 0 <= i < |errors| && 0 <= j < |errors[i]|
    ensures Contains(ValidationMessage(errors), errors[i][j])
  {
    var fields := seq(|errors|, k requires 0 <= k < |errors| => Join(errors[k], ". "));
    var at := JoinOccurs(errors[i], ". ", j);
    var at' := JoinOccurs(fields, " and ", i);
    assert fields[i] == Join(errors[i], ". ");
    var s := ValidationMessage(errors);
    assert s[at' + at..at' + at + |errors[i][j]|] == fields[i][at..at + |errors[i][j]|];
    OccursContains(s, errors[i][j], at' + at);
  }

  /** A single failed field with a single message gives that message as it is. */
  lemma OneValidationMessage(message: string)
    ensures ValidationMessage([[message]]) == message
  {
    assert seq(1, i requires 0 <= i < 1 => Join([[message]][i], ". ")) == [message];
  }

  /** Where the `k`-th part starts in a join. */
  lemma {:induction false} JoinOccurs(parts: seq<string>, sep: string, k: int) returns (at: nat)
    requires 0 <= k < |parts|
    ensures OccursAt(Join(parts, sep), parts[k], at)
    decreases |parts|
  {
    var s := Join(parts, sep);
    if |parts| == 1 {
      at := 0;
      assert s == parts[0];
    } else if k == 0 {
      at := 0;
      assert s == parts[0] + sep + Join(parts[1..], sep);
      assert s[..|parts[0]|] == parts[0];
    } else {
      var rest := Join(parts[1..], sep);
      var at' := JoinOccurs(parts[1..], sep, k - 1);
      assert s == parts[0] + sep + rest;
      at := |parts[0]| + |sep| + at';
      assert s[at..at + |parts[k]|] == rest[at'..at' + |parts[k]|];
    }
  }

  // ---------------------------------------------------------------------
  // The fallback and the final response
  // ---------------------------------------------------------------------

  /** The error for a route nobody answered: `API not found`, 404, and private by default. */
  function RouteNotFound(stack: string): (e: ApiError)
    ensures e.status == NotFound && !e.isPublic && e.message == "API not found"
  {
    NewApiError("API not found", Some(NotFound), None, stack)
  }

  /** The JSON body sent with the error's status; `None` for a key left out. */
  datatype Response = Response(status: int, message: Option<string>, stack: Option<string>)

  /**
   * The error handler: a public error shows its message, a private one the
   * status text (absent when the table has none); the stack only in
   * development, an empty object otherwise.
   */
  function Respond(err: ApiError, env: string, statusText: int -> Option<string>): (r: Response)
    ensures r.status == err.status
    ensures err.isPublic ==> r.message == Some(err.message)
    ensures !err.isPublic ==> r.message == statusText(err.status)
    ensures r.stack.Some? <==> env == "development"
    ensures r.stack.Some? ==> r.stack.value == err.stack
  {
    Response(err.status,
             if err.isPublic then Some(err.message) else statusText(err.status),
             if env == "development" then Some(err.stack) else None)
  }

  /** How a request left the routes: unanswered, or with an error passed to `next`. */
  datatype Outcome = Unmatched | Raised(err: Thrown)

  /** The end of the chain: the 404 fallback or the converter, then the handler. */
  function Handle(outcome: Outcome, stack: string, env: string, statusText: int -> Option<string>): (r: Response)
    ensures outcome.Unmatched? ==> r == Respond(RouteNotFound(stack), env, statusText)
    ensures outcome.Raised? ==> r == Respond(Convert(outcome.err, stack), env, statusText)
  {
    match outcome
    case Unmatched => Respond(RouteNotFound(stack), env, statusText)
    case Raised(err) => Respond(Convert(err, stack), env, statusText)
  }

  /** A private error's message never reaches the client, whatever it says. */
  lemma PrivateMessageHidden(err: ApiError, message: string, env: string, statusText: int -> Option<string>)
    requires !err.isPublic
    ensures Respond(err.(message := message), env, statusText) == Respond(err, env, statusText)
  {
  }

  /** An unanswered route is a 404 whose message is the status text, not `API not found`. */
  lemma UnmatchedShowsStatusText(stack: string, env: string, statusText: int -> Option<string>)
    requires statusText(NotFound) == Some("Not Found")
    ensures Handle(Unmatched, stack, env, statusText).status == NotFound
    ensures Handle(Unmatched, stack, env, statusText).message == Some("Not Found")
  {
  }

  /** A validation error is shown to the client in full, with its own status. */
  lemma ValidationShown(errors: seq<seq<string>>, status: int, stack: string, env: string, statusText: int -> Option<string>)
    ensures Handle(Raised(Validation(errors, status)), stack, env, statusText).message == Some(ValidationMessage(errors))
    ensures Handle(Raised(Validation(errors, status)), stack, env, statusText).status == status
  {
  }

  /** An error with neither a status nor `isPublic` is a 500 with the status text only. */
  lemma PlainErrorHidden(message: string, stack: string, env: string, statusText: int -> Option<string>)
    ensures Handle(Raised(Other(message, None, None)), stack, env, statusText)
         == Respond(ApiError(message, InternalServerError, false, stack), env, statusText)
    ensures Handle(Raised(Other(message, None, None)), stack, env, statusText).message == statusText(InternalServerError)
  {
  }

  /** Outside development no stack is ever sent. */
  lemma NoStackOutsideDevelopment(outcome: Outcome, stack: string, env: string, statusText: int -> Option<string>)
    requires env != "development"
    ensures Handle(outcome, stack, env, statusText).stack.None?
  {
  }
}
