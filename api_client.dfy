/**
 * The browser's API client (static/js/api.js): the token it holds, the headers it sends, and
 * how it turns a response into the data its callers get or the message of the error it throws.
 * Fetching, the token-refresh request, the page reload and `localStorage` are outside the
 * model: the stored token and the outcome of a refresh are parameters.
 */
module ApiClient {
  import opened Wrappers
  import opened Text
  import opened Json
  import opened Forms
  import opened Accounts
  import AS = AccountSerializers

  /** Request headers, in insertion order. */
  type Headers = seq<(string, string)>

  const ContentType: (string, string) := ("Content-Type", "application/json")

  /** What `handleResponse` ends in: the data it returns, an `Error` it throws, or a `TypeError` from reading a property of `null`. */
  datatype Outcome = Returned(data: Json) | Thrown(message: string) | TypeFailure

  const RequestFailed: string := "Request failed"
  const SessionExpired: string := "Session expired"

  // ---------------------------------------------------------------- error messages

  /**
   * `Object.entries(data)` for an object or an array (whose keys are the indices); values of
   * other types never reach it.
   */
  function EntriesOf(data: Json): (e: seq<(string, Json)>)
    ensures data.JObj? ==> e == data.entries
    ensures data.JArr? ==> |e| == |data.items| && forall i :: 0 <= i < |e| ==> e[i] == (NatToString(i), data.items[i])
    ensures !data.JObj? && !data.JArr? ==> e == []
  {
    match data
    case JObj(entries) => entries
    case JArr(items) => seq(|items|, i requires 0 <= i < |items| => (NatToString(i), items[i]))
    case _ => []
  }

  /** One item of a validation message: the field, then its messages joined by `, ` when they are an array. */
  function EntryMessage(field: string, messages: Json): string {
    field + ": " + (if messages.JArr? then JoinItems(messages, messages.items, ", ") else JsString(messages))
  }

  /** The items the loop over the entries pushes, in order. */
  function EntryMessages(entries: seq<(string, Json)>): (r: seq<string>)
    ensures |r| == |entries| && forall i :: 0 <= i < |r| ==> r[i] == EntryMessage(entries[i].0, entries[i].1)
  {
    seq(|entries|, i requires 0 <= i < |entries| => EntryMessage(entries[i].0, entries[i].1))
  }

  /**
   * The message `handleResponse` throws for a failed response with body `data`: `error`, else
   * `message`, else `detail`, the first that is truthy; else, for an object or an array, its
   * entries' items joined by `; `, if there are any; else `'Request failed'`. `None` is the
   * `TypeError` of a `null` body.
   */
  function ErrorMessage(data: Json): (m: Option<string>)
    ensures m.None? <==> data.JNull?
    ensures !data.JNull? && JsTruthy(Get(data, "error")) ==> m == Some(JsString(Get(data, "error").value))
    ensures !JsTruthy(Get(data, "error")) && JsTruthy(Get(data, "message")) ==> m == Some(JsString(Get(data, "message").value))
    ensures !JsTruthy(Get(data, "error")) && !JsTruthy(Get(data, "message")) && JsTruthy(Get(data, "detail")) ==>
              m == Some(JsString(Get(data, "detail").value))
    ensures !data.JNull? && !JsTruthy(Get(data, "error")) && !JsTruthy(Get(data, "message")) && !JsTruthy(Get(data, "detail")) ==>
              m == Some(if EntriesOf(data) == [] then RequestFailed else Join(EntryMessages(EntriesOf(data)), "; "))
  {
    if data.JNull? then None
    else if JsTruthy(Get(data, "error")) then Some(JsString(Get(data, "error").value))
    else if JsTruthy(Get(data, "message")) then Some(JsString(Get(data, "message").value))
    else if JsTruthy(Get(data, "detail")) then Some(JsString(Get(data, "detail").value))
    else if EntriesOf(data) == [] then Some(RequestFailed)
    else Some(Join(EntryMessages(EntriesOf(data)), "; "))
  }

  /** Whether a status is in the 200-299 range `response.ok` stands for. */
  predicate Succeeded(status: nat) {
    200 <= status < 300
  }

  /** The end of `handleResponse` once any 401 refresh has succeeded; `data` is the parsed body or `{}`. */
  function Handled(status: nat, data: Json): (r: Outcome)
    ensures Succeeded(status) ==> r == Returned(data)
    ensures !Succeeded(status) ==> (r.TypeFailure? <==> data.JNull?)
    ensures !Succeeded(status) && ErrorMessage(data).Some? ==> r == Thrown(ErrorMessage(data).value)
  {
    if Succeeded(status) then Returned(data)
    else match ErrorMessage(data)
      case None => TypeFailure
      case Some(m) => Thrown(m)
  }

  /** A body that is not JSON is read as `{}`. */
  function ParsedOr(body: Option<Json>): (data: Json)
    ensures body.Some? ==> data == body.value
    ensures body.None? ==> data == JObj([])
  {
    if body.Some? then body.value else JObj([])
  }

  /** The client's API object and the access token it holds (`null` or a string). */
  class Api {
    var token: Option<string>

    /** `new API()`, with the token found in `localStorage`. */
    constructor(stored: Option<string>)
      ensures token == stored
    {
      token := stored;
    }

    method SetToken(t: string)
      modifies this
      ensures token == Some(t)
    {
      token := Some(t);
    }

    method ClearToken()
      modifies this
      ensures token == None
    {
      token := None;
    }

    /** `isAuthenticated()`: `!!this.token`, so an empty token counts as none. */
    predicate IsAuthenticated()
      reads this
    {
      token.Some? && token.value != ""
    }

    /**
     * `getHeaders(includeAuth)`: the JSON content type always, and a bearer token exactly when
     * authentication is asked for and there is a token.
     */
    method GetHeaders(includeAuth: bool) returns (headers: Headers)
      ensures |headers| >= 1 && headers[0] == ContentType
      ensures |headers| == 2 <==> includeAuth && IsAuthenticated()
      ensures |headers| <= 2
      ensures |headers| == 2 ==> headers[1] == ("Authorization", "Bearer " + token.value)
    {
      headers := [ContentType];
      if includeAuth && IsAuthenticated() {
        headers := headers + [("Authorization", "Bearer " + token.value)];
      }
    }

    /** The headers of `request(endpoint, options)`: authentication is asked for unless `options.auth` is `false`. */
    method RequestHeaders(auth: Option<Json>) returns (headers: Headers)
      ensures |headers| >= 1 && headers[0] == ContentType
      ensures (exists i :: 0 <= i < |headers| && headers[i].0 == "Authorization") <==>
                auth != Some(JBool(false)) && IsAuthenticated()
    {
      headers := GetHeaders(auth != Some(JBool(false)));
    }

    /**
     * The loop of `handleResponse` over `Object.entries(data)`, pushing one item per entry.
     */
    method FieldErrors(entries: seq<(string, Json)>) returns (errors: seq<string>)
      ensures errors == EntryMessages(entries)
    {
      errors := [];
      var i := 0;
      while i < |entries|
        invariant 0 <= i <= |entries|
        invariant errors == EntryMessages(entries[..i])
      {
        var (field, messages) := entries[i];
        var item;
        if messages.JArr? {
          item := field + ": " + JoinItems(messages, messages.items, ", ");
        } else {
          item := field + ": " + JsString(messages);
        }
        errors := errors + [item];
        i := i + 1;
      }
      assert entries[..i] == entries;
    }

    /**
     * `handleResponse(response)` for a response with `status` and `body` (`None` when it is
     * not JSON). On a 401 the refresh (`refreshed`: the new access token, if `refreshToken`
     * resolved to true) either stores a new token or clears it and throws `'Session expired'`;
     * in all other cases the parsed data, or `{}`, is returned for a success and turned into an
     * error message otherwise. The original request is not sent again after a refresh.
     * `refreshed` stands for a refresh that finished: `refreshToken` sends its request through
     * `request`, so a 401 from the refresh endpoint (a refresh token it rejects) comes back into
     * `handleResponse`, which calls `refreshToken` again with the same stored refresh token,
     * without bound; that path never reaches `'Session expired'`.
     */
    method HandleResponse(status: nat, body: Option<Json>, refreshed: Option<string>) returns (r: Outcome)
      modifies this
      ensures status == 401 && refreshed.None? ==> r == Thrown(SessionExpired) && token == None
      ensures status == 401 && refreshed.Some? ==> token == refreshed
      ensures status != 401 ==> token == old(token)
      ensures !(status == 401 && refreshed.None?) ==> r == Handled(status, ParsedOr(body))
    {
      if status == 401 {
        if refreshed.None? {
          ClearToken();
          return Thrown(SessionExpired);
        }
        SetToken(refreshed.value);
      }
      var data := if body.Some? then body.value else JObj([]);
      if Succeeded(status) {
        return Returned(data);
      }
      if data.JNull? {
        return TypeFailure;
      }
      var errorMessage := RequestFailed;
      if JsTruthy(Get(data, "error")) {
        errorMessage := JsString(Get(data, "error").value);
      } else if JsTruthy(Get(data, "message")) {
        errorMessage := JsString(Get(data, "message").value);
      } else if JsTruthy(Get(data, "detail")) {
        errorMessage := JsString(Get(data, "detail").value);
      } else if data.JObj? || data.JArr? {
        var errors := FieldErrors(EntriesOf(data));
        if |errors| > 0 {
          errorMessage := Join(errors, "; ");
        }
      }
      r := Thrown(errorMessage);
    }
  }

  // ---------------------------------------------------------------- the messages of the server's errors

  /** The line of one validation error: the field and its messages joined by `, `. */
  function FieldLine(field: string, messages: seq<string>): string {
    field + ": " + Join(messages, ", ")
  }

  /** A field name that does not shadow the message keys the client looks at first. */
  predicate PlainField(field: string) {
    field != "error" && field != "message" && field != "detail"
  }

  /** An object without the key `k` gives `undefined` for it. */
  lemma AbsentKey(entries: seq<(string, Json)>, k: string)
    requires forall i :: 0 <= i < |entries| ==> entries[i].0 != k
    ensures Get(JObj(entries), k).None?
  {
    LookupKeys(entries, k);
  }

  /**
   * The message the client shows for a validation failure the server answers 400 with: one
   * `field: m1, m2` line per failing field, joined by `; `.
   */
  lemma ValidationMessage(errors: seq<(string, seq<string>)>)
    requires errors != [] && forall i :: 0 <= i < |errors| ==> PlainField(errors[i].0)
    ensures ErrorMessage(ErrorsJson(errors)) ==
              Some(Join(seq(|errors|, i requires 0 <= i < |errors| => FieldLine(errors[i].0, errors[i].1)), "; "))
  {
    var data := ErrorsJson(errors);
    AbsentKey(data.entries, "error");
    AbsentKey(data.entries, "message");
    AbsentKey(data.entries, "detail");
    var lines := seq(|errors|, i requires 0 <= i < |errors| => FieldLine(errors[i].0, errors[i].1));
    forall i | 0 <= i < |errors| ensures EntryMessages(EntriesOf(data))[i] == lines[i] {
      var a := StrArray(errors[i].1);
      JoinStrings(a, a.items, errors[i].1, ", ");
    }
    assert EntryMessages(EntriesOf(data)) == lines;
  }

  /** The 400 the server answers mismatched registration passwords with shows as the non-field error line. */
  lemma PasswordMismatchShown()
    ensures var resp := BadRequest([("non_field_errors", [AS.PasswordMismatchMessage])]);
            Handled(resp.status, resp.body) == Thrown("non_field_errors" + ": " + AS.PasswordMismatchMessage)
  {
    var errors := [("non_field_errors", [AS.PasswordMismatchMessage])];
    ValidationMessage(errors);
    OneLine(errors);
  }

  /** A single failing field shows as its line alone. */
  lemma OneLine(errors: seq<(string, seq<string>)>)
    requires |errors| == 1 && |errors[0].1| == 1
    ensures Join(seq(|errors|, i requires 0 <= i < |errors| => FieldLine(errors[i].0, errors[i].1)), "; ")
            == errors[0].0 + ": " + errors[0].1[0]
  {
  }

  /** An error answer whose `error` is a non-empty string shows that string, whatever else it holds. */
  lemma ErrorKeyWins(rest: seq<(string, Json)>, text: string)
    requires text != ""
    ensures Handled(400, JObj([("error", JStr(text))] + rest)) == Thrown(text)
  {
    assert Lookup([("error", JStr(text))] + rest, "error") == Some(JStr(text));
  }

  /** A failed response whose body is not JSON is `'Request failed'`. */
  lemma UnparsedFailure(status: nat)
    requires !Succeeded(status)
    ensures Handled(status, ParsedOr(None)) == Thrown(RequestFailed)
  {
    assert Get(JObj([]), "error").None? && Get(JObj([]), "message").None? && Get(JObj([]), "detail").None?;
  }
}
