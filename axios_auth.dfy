/** The authenticated HTTP client's interceptors: a global loader flag, the
    Authorization header fill, and the mapping of error statuses to the
    message that is toasted and rejected with. */
module AxiosAuth {
  import opened Common
  import LocalStorage

  /** The global loader flag. */
  class Loader {
    var loading: bool

    constructor ()
      ensures !loading
    {
      loading := false;
    }
  }

  /** The parts of an outgoing request config the interceptor reads and writes. */
  class RequestConfig {
    var headers: map<string, string>
    var skipLoading: bool

    constructor (headers: map<string, string>, skipLoading: bool)
      ensures this.headers == headers && this.skipLoading == skipLoading
    {
      this.headers := headers;
      this.skipLoading := skipLoading;
    }
  }

  const AuthorizationHeader: string := "Authorization"

  /** `if (!headers["Authorization"]) headers["Authorization"] = token`: a header
      that is missing or "" is filled; a present one is left alone. */
  function FillAuthorization(headers: map<string, string>, token: string): (r: map<string, string>)
    ensures r.Keys == headers.Keys + {AuthorizationHeader}
    ensures AuthorizationHeader in headers && headers[AuthorizationHeader] != "" ==> r == headers
    ensures !(AuthorizationHeader in headers && headers[AuthorizationHeader] != "") ==> r[AuthorizationHeader] == token
    ensures forall k :: k in headers && k != AuthorizationHeader ==> r[k] == headers[k]
  {
    if AuthorizationHeader in headers && headers[AuthorizationHeader] != "" then headers
    else headers[AuthorizationHeader := token]
  }

  /** The request interceptor. It turns the loader on unless `skipLoading` and
      fills the Authorization header from the store. */
  method OnRequest(config: RequestConfig, loader: Loader, store: LocalStorage.Store) returns (out: RequestConfig)
    requires store.Valid()
    modifies config, loader
    ensures out == config
    ensures loader.loading == (old(config.skipLoading) ==> old(loader.loading))
    ensures config.skipLoading == old(config.skipLoading)
    ensures config.headers == FillAuthorization(old(config.headers), LocalStorage.TokenHeader(store.items))
  {
    if !config.skipLoading {
      loader.loading := true;
    }
    var token := store.GetToken();
    if !(AuthorizationHeader in config.headers && config.headers[AuthorizationHeader] != "") {
      config.headers := config.headers[AuthorizationHeader := token];
    }
    out := config;
  }

  /** A filled header always begins with "Bearer ", and an already-set one is
      never replaced, so a request carries exactly one Authorization value. */
  lemma FilledHeaderIsBearer(headers: map<string, string>, items: map<string, LocalStorage.Item>)
    requires LocalStorage.WellFormed(items)
    requires AuthorizationHeader !in headers
    ensures var r := FillAuthorization(headers, LocalStorage.TokenHeader(items));
            r[AuthorizationHeader] != "" && r[AuthorizationHeader][..7] == "Bearer "
  {
  }

  /** The request-error handler: the loader goes off and the error is re-thrown. */
  method OnRequestError<E>(loader: Loader, error: E) returns (rejected: E)
    modifies loader
    ensures !loader.loading && rejected == error
  {
    loader.loading := false;
    rejected := error;
  }

  datatype Response<T> = Response(data: T)

  /** The response handler: the loader goes off and the caller receives `response?.data`. */
  method OnResponse<T>(loader: Loader, response: Option<Response<T>>) returns (data: Option<T>)
    modifies loader
    ensures !loader.loading
    ensures response.Some? ==> data == Some(response.value.data)
    ensures response.None? ==> data.None?
  {
    loader.loading := false;
    if response.Some? {
      data := Some(response.value.data);
    } else {
      data := None;
    }
  }

  /** The fallback message for each status when the server sent none. */
  function DefaultMessage(status: int): string {
    if status == 400 then "Bad Request"
    else if status == 404 then "Not Found"
    else if status == 403 then "Forbidden"
    else if status == 500 then "Internal Server Error"
    else "An error occurred"
  }

  /** `errMessage` after the if-chain: "" for 401, otherwise the server's
      message when it is a non-empty string, else the status's default. */
  function ErrorMessage(status: int, serverMessage: Option<string>): (r: string)
    ensures status == 401 ==> r == ""
    ensures status != 401 && serverMessage.Some? && serverMessage.value != "" ==> r == serverMessage.value
    ensures status != 401 && (serverMessage.None? || serverMessage.value == "") ==> r == DefaultMessage(status)
    ensures status != 401 ==> r != ""
  {
    if status == 401 then "" else OrElse(serverMessage, DefaultMessage(status))
  }

  lemma DefaultMessageTable(status: int)
    ensures DefaultMessage(400) == "Bad Request" && DefaultMessage(403) == "Forbidden"
    ensures DefaultMessage(404) == "Not Found" && DefaultMessage(500) == "Internal Server Error"
    ensures status !in {400, 403, 404, 500} ==> DefaultMessage(status) == "An error occurred"
  {
  }

  /** `error.response`: the status and the `message` property of its data, if any. */
  datatype ErrorResponse = ErrorResponse(status: int, message: Option<string>)

  /** What the promise rejects with: `{code: status, message}`. */
  datatype Rejection = Rejection(code: int, message: string)

  /** How the error handler ends. Without a response, destructuring `status`
      throws a TypeError before any toast. */
  datatype ErrorOutcome =
    | Rejected(rejection: Rejection, toast: string, redirectHome: bool)
    | TypeErrorNoResponse

  method OnResponseError(loader: Loader, response: Option<ErrorResponse>) returns (outcome: ErrorOutcome)
    modifies loader
    ensures !loader.loading
    ensures response.None? <==> outcome.TypeErrorNoResponse?
    ensures response.Some? ==> outcome == Rejected(
      Rejection(response.value.status, ErrorMessage(response.value.status, response.value.message)),
      ErrorMessage(response.value.status, response.value.message),
      response.value.status == 401)
  {
    loader.loading := false;
    if response.None? {
      outcome := TypeErrorNoResponse;
      return;
    }
    var status := response.value.status;
    var message := response.value.message;
    var errMessage := "";
    var redirect := false;
    if status == 401 {
      redirect := true;
    } else if status == 400 {
      errMessage := OrElse(message, "Bad Request");
    } else if status == 404 {
      errMessage := OrElse(message, "Not Found");
    } else if status == 403 {
      errMessage := OrElse(message, "Forbidden");
    } else if status == 500 {
      errMessage := OrElse(message, "Internal Server Error");
    } else {
      errMessage := OrElse(message, "An error occurred");
    }
    outcome := Rejected(Rejection(status, errMessage), errMessage, redirect);
  }

  /** The rejection callers see carries the HTTP status as `code`, has exactly
      the toasted text as `message`, and has no `response` field: a caller's
      `error.response?.data?.message` is always undefined. */
  lemma RejectionShape(status: int, message: Option<string>)
    ensures var rej := Rejection(status, ErrorMessage(status, message));
            rej.code == status && (status == 401 <==> rej.message == "")
  {
  }
}
