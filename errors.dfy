/** The error module of the content-management client library: it picks an
    exception class for a failed HTTP response by its status code and
    composes the exception's multi-line diagnostic message from the status
    code, the decoded JSON body and, for the rate-limit class, a header. */
module Errors {
  import opened Wrappers
  import opened PyValues

  // ---------------------------------------------------------------------
  // Data model
  // ---------------------------------------------------------------------

  /** The exception classes. HttpError is the base class, used for every
      status code that has no class of its own. */
  datatype ErrorClass =
    | HttpError
    | BadRequestError
    | UnauthorizedError
    | AccessDeniedError
    | NotFoundError
    | VersionMismatchError
    | UnprocessableEntityError
    | RateLimitExceededError
    | ServerError
    | BadGatewayError
    | ServiceUnavailableError

  /** A failed HTTP response: its status code, its headers (keys in lower
      case, standing for the case-insensitive lookup of the HTTP library),
      its raw body text, and its body as decoded JSON, None when decoding
      raised the JSON decode error. */
  datatype Response = Response(
    statusCode: int,
    headers: map<string, string>,
    text: string,
    json: Option<Json>)

  /** The error object get_error returns: its class, status code and message. */
  datatype HttpErrorValue = HttpErrorValue(errorClass: ErrorClass, statusCode: int, message: string)

  // ---------------------------------------------------------------------
  // Dispatch
  // ---------------------------------------------------------------------

  /** The status code each class documents as its own. */
  function DocumentedStatus(c: ErrorClass): Option<int> {
    match c
    case HttpError => None
    case BadRequestError => Some(400)
    case UnauthorizedError => Some(401)
    case AccessDeniedError => Some(403)
    case NotFoundError => Some(404)
    case VersionMismatchError => Some(409)
    case UnprocessableEntityError => Some(422)
    case RateLimitExceededError => Some(429)
    case ServerError => Some(500)
    case BadGatewayError => Some(502)
    case ServiceUnavailableError => Some(503)
  }

  /** The table get_error consults. */
  const Registry: map<int, ErrorClass> := map[
    400 := BadRequestError,
    401 := UnauthorizedError,
    403 := AccessDeniedError,
    404 := NotFoundError,
    409 := VersionMismatchError,
    422 := UnprocessableEntityError,
    429 := RateLimitExceededError,
    500 := ServerError,
    502 := BadGatewayError,
    503 := ServiceUnavailableError]

  /** The class get_error picks: the registered class on an exact match of
      the status code, the base class otherwise. */
  function ClassFor(status: int): (c: ErrorClass)
    ensures c == HttpError <==> status !in {400, 401, 403, 404, 409, 422, 429, 500, 502, 503}
    ensures c != HttpError ==> DocumentedStatus(c) == Some(status)
  {
    if status in Registry then Registry[status] else HttpError
  }

  /** Every class but the base one is picked for exactly the status it documents. */
  lemma ClassForDocumentedStatus(c: ErrorClass)
    requires c != HttpError
    ensures DocumentedStatus(c).Some? && ClassFor(DocumentedStatus(c).value) == c
  {
  }

  // ---------------------------------------------------------------------
  // Default messages
  // ---------------------------------------------------------------------

  // The default message of each class with a fixed one.
  const UnprocessableEntityDefault := "The resource you sent in the body is invalid."
  const BadRequestDefault := "The request was malformed or missing a required parameter."
  const UnauthorizedDefault := "The authorization token was invalid."
  const AccessDeniedDefault := "The specified token does not have access to the requested resource."
  const NotFoundDefault := "The requested resource or endpoint could not be found."
  const VersionMismatchDefault := "Version mismatch error. The version you specified was incorrect. This may be due to someone else editing the content."
  const RateLimitExceededDefault := "Rate limit exceeded. Too many requests."
  const ServerDefault := "Internal server error."
  const BadGatewayDefault := "The requested space is hibernated."
  const ServiceUnavailableDefault := "The request was malformed or missing a required parameter."

  /** `_default_error_message` of each class; only the base class reads the
      response, embedding its raw body text. */
  function DefaultMessage(c: ErrorClass, text: string): (m: string)
    ensures c == HttpError ==> EndsWith(m, text)
  {
    match c
    case HttpError => "The following error was received: " + text
    case BadRequestError => BadRequestDefault
    case UnauthorizedError => UnauthorizedDefault
    case AccessDeniedError => AccessDeniedDefault
    case NotFoundError => NotFoundDefault
    case VersionMismatchError => VersionMismatchDefault
    case UnprocessableEntityError => UnprocessableEntityDefault
    case RateLimitExceededError => RateLimitExceededDefault
    case ServerError => ServerDefault
    case BadGatewayError => BadGatewayDefault
    case ServiceUnavailableError => ServiceUnavailableDefault
  }

  /** A status code without a class of its own gets the base class, whose
      default message ends with the raw body text. */
  lemma UnregisteredStatusEmbedsBody(status: int, text: string)
    requires status !in Registry
    ensures ClassFor(status) == HttpError
    ensures EndsWith(DefaultMessage(ClassFor(status), text), text)
  {
  }

  /** Only the base class reads the body text; every other default message
      is fixed. */
  lemma DefaultMessageIgnoresText(c: ErrorClass, text: string, text': string)
    requires c != HttpError
    ensures DefaultMessage(c, text) == DefaultMessage(c, text')
  {
  }

  /** The 503 class repeats the 400 class's default message word for word. */
  lemma ServiceUnavailableRepeatsBadRequest(text: string, text': string)
    ensures DefaultMessage(ServiceUnavailableError, text) == DefaultMessage(BadRequestError, text')
  {
  }

  // ---------------------------------------------------------------------
  // Details formatting: 400
  // ---------------------------------------------------------------------

  /** One entry of a 400 body's `errors` list: a string stands for itself,
      anything else gives its `details` field (None when absent). */
  function BadRequestEntry(entry: Json): (r: Result<Json, Fault>)
    ensures entry.JString? ==> r == Success(entry)
    ensures entry.JObject? ==> r == Success(GetOrNone(entry.members, "details"))
    ensures !entry.JString? && !entry.JObject? ==> r == Failure(AttributeError)
  {
    if entry.JString? then Success(entry) else PyGet(entry, "details")
  }

  /** The items that are not None, in order. */
  function WithoutNone(xs: seq<Json>): (r: seq<Json>)
    ensures forall k :: 0 <= k < |r| ==> r[k] != JNull
  {
    if xs == [] then []
    else
      var init := WithoutNone(xs[..|xs| - 1]);
      if xs[|xs| - 1] == JNull then init else init + [xs[|xs| - 1]]
  }

  /** `BadRequestError._handle_details` */
  function BadRequestDetails(details: Json): (r: Result<string, Fault>)
    ensures details.JString? ==> r == Success(details.s)
    ensures r.Failure? ==> r.error == TypeError || r.error == AttributeError
  {
    if details.JString? then Success(details.s)
    else
      var hasErrors :- Contains(details, "errors");
      if hasErrors then
        var errors :- Subscript(details, "errors");
        var entries :- Iterate(errors);
        MapResultFault(BadRequestEntry, entries);
        var inner :- MapResult(BadRequestEntry, entries);
        JoinStrings("\n\t", WithoutNone(inner))
      else
        Success(Str(details))
  }

  /** An entry the 400 formatter renders without raising. */
  predicate WellShapedBadRequestEntry(e: Json) {
    e.JString? || (e.JObject? && (GetOrNone(e.members, "details").JNull? || GetOrNone(e.members, "details").JString?))
  }

  /** Reference definition of the texts the 400 formatter keeps: a string
      entry itself, a dictionary entry's `details` text; an entry whose
      `details` is None is dropped. */
  function KeptDetails(entries: seq<Json>): (r: seq<string>)
    requires forall k :: 0 <= k < |entries| ==> WellShapedBadRequestEntry(entries[k])
    ensures |r| <= |entries|
  {
    if entries == [] then []
    else
      var init := KeptDetails(entries[..|entries| - 1]);
      var e := entries[|entries| - 1];
      if e.JString? then init + [e.s]
      else if e.JObject? && GetOrNone(e.members, "details").JString? then init + [GetOrNone(e.members, "details").s]
      else init
  }

  lemma {:induction false} BadRequestEntriesKept(entries: seq<Json>)
    requires forall k :: 0 <= k < |entries| ==> WellShapedBadRequestEntry(entries[k])
    ensures MapResult(BadRequestEntry, entries).Success?
    ensures AsStrings(WithoutNone(MapResult(BadRequestEntry, entries).value)) == Some(KeptDetails(entries))
  {
    if entries != [] {
      var init := entries[..|entries| - 1];
      var e := entries[|entries| - 1];
      BadRequestEntriesKept(init);
      var inner := MapResult(BadRequestEntry, init).value;
      var texts := KeptDetails(init);
      assert BadRequestEntry(e).Success?;
      var x := BadRequestEntry(e).value;
      assert MapResult(BadRequestEntry, entries) == Success(inner + [x]);
      var kept := WithoutNone(inner);
      assert (inner + [x])[..|inner|] == inner;
      if x != JNull {
        assert x.JString? && KeptDetails(entries) == texts + [x.s];
        assert WithoutNone(inner + [x]) == kept + [x];
        assert (kept + [x])[..|kept|] == kept;
        assert AsStrings(kept + [x]) == Some(texts + [x.s]);
      } else {
        assert KeptDetails(entries) == texts;
        assert WithoutNone(inner + [x]) == kept;
      }
    }
  }

  /** A 400 body whose `errors` is a list of well-shaped entries yields the
      kept texts joined with newline-tab, in input order. */
  lemma BadRequestJoinsEntryDetails(details: Json, entries: seq<Json>)
    requires details.JObject? && Lookup(details.members, "errors") == Some(JArray(entries))
    requires forall k :: 0 <= k < |entries| ==> WellShapedBadRequestEntry(entries[k])
    ensures BadRequestDetails(details) == Success(Join("\n\t", KeptDetails(entries)))
  {
    LookupFindsKey(details.members, "errors");
    BadRequestEntriesKept(entries);
  }

  /** The other shapes of 400 details: a string is kept as it is; a
      dictionary without `errors` and a list without the string "errors" are
      stringified; a list holding "errors", a number and a boolean raise
      TypeError. */
  lemma BadRequestDetailsShapes(details: Json)
    ensures details.JString? ==> BadRequestDetails(details) == Success(details.s)
    ensures details.JObject? && !HasKey(details.members, "errors") ==>
      BadRequestDetails(details) == Success(Str(details))
    ensures details.JArray? && JString("errors") !in details.items ==>
      BadRequestDetails(details) == Success(Str(details))
    ensures details.JArray? && JString("errors") in details.items ==>
      BadRequestDetails(details) == Failure(TypeError)
    ensures details.JInt? || details.JBool? ==> BadRequestDetails(details) == Failure(TypeError)
  {
  }

  // ---------------------------------------------------------------------
  // Details formatting: 403
  // ---------------------------------------------------------------------

  /** `AccessDeniedError._handle_details` */
  function AccessDeniedDetails(details: Json): (r: Result<string, Fault>)
    ensures r.Success? ==> StartsWith(r.value, "\n\tReasons:\n\t\t")
  {
    var reasons :- Subscript(details, "reasons");
    var items :- Iterate(reasons);
    var joined :- JoinStrings("\n\t\t", items);
    Success("\n\tReasons:\n\t\t" + joined)
  }

  /** A list of string reasons renders as a "Reasons:" header followed by
      the reasons, each on its own doubly indented line. */
  lemma AccessDeniedListsReasons(details: Json, reasons: seq<Json>)
    requires details.JObject? && Lookup(details.members, "reasons") == Some(JArray(reasons))
    requires forall k :: 0 <= k < |reasons| ==> reasons[k].JString?
    ensures AccessDeniedDetails(details) ==
      Success("\n\tReasons:\n\t\t" + Join("\n\t\t", seq(|reasons|, k requires 0 <= k < |reasons| => reasons[k].s)))
  {
    LookupFindsKey(details.members, "reasons");
    var texts := AsStrings(reasons).value;
    assert texts == seq(|reasons|, k requires 0 <= k < |reasons| => reasons[k].s);
  }

  /** Details without `reasons` raise: KeyError for a dictionary, TypeError otherwise. */
  lemma AccessDeniedNeedsReasons(details: Json)
    requires !(details.JObject? && HasKey(details.members, "reasons"))
    ensures AccessDeniedDetails(details) ==
      Failure(if details.JObject? then KeyError("reasons") else TypeError)
  {
  }

  // ---------------------------------------------------------------------
  // Details formatting: 404
  // ---------------------------------------------------------------------

  /** `NotFoundError._handle_details` */
  function NotFoundDetails(details: Json): (r: Result<string, Fault>)
    ensures details.JString? ==> r == Success(details.s)
    ensures details.JObject? && HasKey(details.members, "type") ==> r.Success?
  {
    if details.JString? then Success(details.s)
    else
      var kind :- Subscript(details, "type");
      var message := "The requested " + Str(kind) + " could not be found.";
      // `type` was found, so `details` is a dictionary and `get` cannot raise.
      var id := GetOrNone(details.members, "id");
      if id != JNull then Success(message + " ID: " + Str(id) + ".") else Success(message)
  }

  /** A dictionary with a `type` names the missing resource, and adds its ID
      exactly when `id` is present and not None. */
  lemma NotFoundNamesResource(ms: seq<(string, Json)>, kind: Json)
    requires Lookup(ms, "type") == Some(kind)
    ensures GetOrNone(ms, "id") != JNull ==>
      NotFoundDetails(JObject(ms)) ==
      Success("The requested " + Str(kind) + " could not be found." + " ID: " + Str(GetOrNone(ms, "id")) + ".")
    ensures GetOrNone(ms, "id") == JNull ==>
      NotFoundDetails(JObject(ms)) == Success("The requested " + Str(kind) + " could not be found.")
  {
    LookupFindsKey(ms, "type");
    assert Subscript(JObject(ms), "type") == Success(kind);
    var message := "The requested " + Str(kind) + " could not be found.";
    var id := GetOrNone(ms, "id");
    assert PyGet(JObject(ms), "id") == Success(id);
    if id != JNull {
      assert NotFoundDetails(JObject(ms)) == Success(message + " ID: " + Str(id) + ".");
    } else {
      assert NotFoundDetails(JObject(ms)) == Success(message);
    }
  }

  /** Details that are neither a string nor a dictionary with `type` raise. */
  lemma NotFoundNeedsType(details: Json)
    requires !details.JString? && !(details.JObject? && HasKey(details.members, "type"))
    ensures NotFoundDetails(details) == Failure(if details.JObject? then KeyError("type") else TypeError)
  {
  }

  // ---------------------------------------------------------------------
  // Details formatting: 422
  // ---------------------------------------------------------------------

  /** `UnprocessableEntityError._handle_error` */
  function UnprocessableEntry(error: Json): (r: Result<string, Fault>)
    ensures error.JObject? ==> r.Success?
  {
    var hasName :- Contains(error, "name");
    // `in` succeeded once on `error`, so it succeeds again.
    var hasBoth := hasName && Contains(error, "path").value;
    var head :- (
      if hasBoth then
        var name :- Subscript(error, "name");
        // `name` was found, so `error` is a dictionary holding `path` too.
        var path := Subscript(error, "path").value;
        Success("\t* Name: " + Str(name) + " - Path: '" + Str(path) + "'")
      else
        Success(UnprocessableEntityDefault));
    var hasValue :- Contains(error, "value");
    if hasValue then
      var value :- Subscript(error, "value");
      Success(head + " - Value: '" + Str(value) + "'")
    else
      Success(head)
  }

  /** `UnprocessableEntityError._handle_details`, as a function. */
  function UnprocessableDetails(details: Json): (r: Result<string, Fault>)
    ensures r.Success? ==> StartsWith(r.value, "\n")
  {
    var errors :- Subscript(details, "errors");
    var entries :- Iterate(errors);
    var lines :- MapResult(UnprocessableEntry, entries);
    Success("\n" + Join("\n", lines))
  }

  /** `UnprocessableEntityError._handle_details`: one line per error entry,
      collected in a loop. */
  method HandleUnprocessableDetails(details: Json) returns (r: Result<string, Fault>)
    ensures r == UnprocessableDetails(details)
  {
    var errors :- Subscript(details, "errors");
    var entries :- Iterate(errors);
    var lines: seq<string> := [];
    for i := 0 to |entries|
      invariant MapResult(UnprocessableEntry, entries[..i]) == Success(lines)
    {
      assert entries[..i + 1][..i] == entries[..i];
      var line := UnprocessableEntry(entries[i]);
      if line.Failure? {
        MapResultPrefixFault(UnprocessableEntry, entries, i + 1);
        return Failure(line.error);
      }
      lines := lines + [line.value];
    }
    assert entries[..|entries|] == entries;
    r := Success("\n" + Join("\n", lines));
  }

  /** Reference rendering of one dictionary entry of a 422 body: name and
      path when both keys are present, the default message otherwise,
      followed by the value when that key is present. */
  function EntryLine(ms: seq<(string, Json)>): string {
    var head :=
      if HasKey(ms, "name") && HasKey(ms, "path")
      then "\t* Name: " + Str(GetOrNone(ms, "name")) + " - Path: '" + Str(GetOrNone(ms, "path")) + "'"
      else UnprocessableEntityDefault;
    if HasKey(ms, "value") then head + " - Value: '" + Str(GetOrNone(ms, "value")) + "'" else head
  }

  /** A dictionary entry never raises and renders as its reference line:
      name and path when both are present (the default message otherwise),
      followed by the value exactly when `value` is present. */
  lemma UnprocessableEntryLine(ms: seq<(string, Json)>)
    ensures UnprocessableEntry(JObject(ms)) == Success(EntryLine(ms))
  {
    LookupFindsKey(ms, "name");
    LookupFindsKey(ms, "path");
    LookupFindsKey(ms, "value");
  }

  /** A 422 body whose `errors` is a list of dictionaries renders as a
      newline followed by one line per entry, in input order, separated by
      newlines; an empty list gives exactly a newline. */
  lemma UnprocessableListsEntries(details: Json, entries: seq<Json>)
    requires details.JObject? && Lookup(details.members, "errors") == Some(JArray(entries))
    requires forall k :: 0 <= k < |entries| ==> entries[k].JObject?
    ensures UnprocessableDetails(details) == Success("\n" + Join("\n",
      seq(|entries|, k requires 0 <= k < |entries| && entries[k].JObject? => EntryLine(entries[k].members))))
    ensures entries == [] ==> UnprocessableDetails(details) == Success("\n")
  {
    LookupFindsKey(details.members, "errors");
    forall k | 0 <= k < |entries|
      ensures UnprocessableEntry(entries[k]) == Success(EntryLine(entries[k].members))
    {
      UnprocessableEntryLine(entries[k].members);
    }
    MapResultSucceeds(UnprocessableEntry, entries);
    var lines := MapResult(UnprocessableEntry, entries).value;
    assert lines == seq(|entries|, k requires 0 <= k < |entries| && entries[k].JObject? => EntryLine(entries[k].members));
    if entries == [] {
      assert "\n" + Join("\n", lines) == "\n";
    }
  }

  /** Details without `errors` raise: KeyError for a dictionary, TypeError otherwise. */
  lemma UnprocessableNeedsErrors(details: Json)
    requires !(details.JObject? && HasKey(details.members, "errors"))
    ensures UnprocessableDetails(details) == Failure(if details.JObject? then KeyError("errors") else TypeError)
  {
  }

  // ---------------------------------------------------------------------
  // Details formatting: dispatch
  // ---------------------------------------------------------------------

  /** `_handle_details` of each class; the classes without their own
      formatter stringify the details. */
  function FormatDetails(c: ErrorClass, details: Json): (r: Result<string, Fault>)
    ensures c !in {BadRequestError, AccessDeniedError, NotFoundError, UnprocessableEntityError} ==>
      r == Success(Str(details))
  {
    match c
    case BadRequestError => BadRequestDetails(details)
    case AccessDeniedError => AccessDeniedDetails(details)
    case NotFoundError => NotFoundDetails(details)
    case UnprocessableEntityError => UnprocessableDetails(details)
    case _ => Success(Str(details))
  }

  // ---------------------------------------------------------------------
  // Rate limit reset header
  // ---------------------------------------------------------------------

  const RateLimitResetHeaderKey := "x-contentful-ratelimit-reset"

  predicate HasResetTime(headers: map<string, string>) {
    RateLimitResetHeaderKey in headers
  }

  /** `RateLimitExceededError.reset_time`: the header as an integer; KeyError
      when the header is absent, ValueError when it is not an integer. */
  function ResetTime(headers: map<string, string>): (r: Result<int, Fault>)
    ensures r.Success? <==> HasResetTime(headers) && ParseInt(headers[RateLimitResetHeaderKey]).Some?
    ensures r.Success? ==> ParseInt(headers[RateLimitResetHeaderKey]) == Some(r.value)
    ensures !HasResetTime(headers) ==> r == Failure(KeyError(RateLimitResetHeaderKey))
    ensures HasResetTime(headers) && ParseInt(headers[RateLimitResetHeaderKey]).None? ==> r == Failure(ValueError)
  {
    if !HasResetTime(headers) then Failure(KeyError(RateLimitResetHeaderKey))
    else
      match ParseInt(headers[RateLimitResetHeaderKey])
      case Some(n) => Success(n)
      case None => Failure(ValueError)
  }

  /** A header carrying `str(n)` gives back n. */
  lemma ResetTimeReadsHeader(headers: map<string, string>, n: int)
    requires RateLimitResetHeaderKey in headers && headers[RateLimitResetHeaderKey] == IntToString(n)
    ensures ResetTime(headers) == Success(n)
  {
    ParseIntToString(n);
  }

  function ResetLine(n: int): string {
    ResetLabel + IntToString(n)
  }

  /** `_has_additional_error_info` */
  predicate HasAdditionalErrorInfo(c: ErrorClass, headers: map<string, string>)
    ensures HasAdditionalErrorInfo(c, headers) ==>
      AdditionalErrorInfo(c, headers) != Failure(KeyError(RateLimitResetHeaderKey))
  {
    c == RateLimitExceededError && HasResetTime(headers)
  }

  /** `_additional_error_info` */
  function AdditionalErrorInfo(c: ErrorClass, headers: map<string, string>): (r: Result<seq<string>, Fault>)
    ensures c != RateLimitExceededError ==> r == Success([])
    ensures c == RateLimitExceededError && ResetTime(headers).Success? ==>
      r == Success([ResetLine(ResetTime(headers).value)])
    ensures c == RateLimitExceededError && ResetTime(headers).Failure? ==> r == Failure(ResetTime(headers).error)
  {
    if c == RateLimitExceededError then
      var n :- ResetTime(headers);
      Success([ResetLine(n)])
    else
      Success([])
  }

  /** The extra lines after the body lines: the reset line for the 429 class
      when the header is present, nothing otherwise. */
  function ExtraLines(c: ErrorClass, headers: map<string, string>): (r: Result<seq<string>, Fault>)
    ensures !HasAdditionalErrorInfo(c, headers) ==> r == Success([])
    ensures HasAdditionalErrorInfo(c, headers) ==>
      match ParseInt(headers[RateLimitResetHeaderKey])
      case Some(n) => r == Success([ResetLine(n)])
      case None => r == Failure(ValueError)
  {
    if HasAdditionalErrorInfo(c, headers) then AdditionalErrorInfo(c, headers) else Success([])
  }

  // ---------------------------------------------------------------------
  // Message composition
  // ---------------------------------------------------------------------

  // The label each kind of line opens with.
  const StatusLabel := "HTTP status code: "
  const MessageLabel := "Message: "
  const DetailsLabel := "Details: "
  const RequestIdLabel := "Request ID: "
  const ResetLabel := "Time until reset (seconds): "

  function StatusLine(status: int): string {
    StatusLabel + IntToString(status)
  }

  /** The three fields the message reads from the body, None when absent or null. */
  datatype BodyFields = BodyFields(message: Json, details: Json, requestId: Json)

  /** The body fields; a body that failed to decode yields none of them, a
      decoded body that is not a dictionary raises AttributeError. */
  function ReadBody(json: Option<Json>): (r: Result<BodyFields, Fault>)
    ensures json.None? ==> r == Success(BodyFields(JNull, JNull, JNull))
    ensures json.Some? && json.value.JObject? ==> r == Success(BodyFields(
      GetOrNone(json.value.members, "message"),
      GetOrNone(json.value.members, "details"),
      GetOrNone(json.value.members, "requestId")))
    ensures json.Some? && !json.value.JObject? ==> r == Failure(AttributeError)
  {
    match json
    case None => Success(BodyFields(JNull, JNull, JNull))
    case Some(body) =>
      var message :- PyGet(body, "message");
      // The body answered `get`, so it is a dictionary and the next two reads cannot raise.
      Success(BodyFields(message, GetOrNone(body.members, "details"), GetOrNone(body.members, "requestId")))
  }

  /** The text of the message line: the body's `message` unless it is None. */
  function MessageText(c: ErrorClass, resp: Response, message: Json): string {
    if message != JNull then Str(message) else DefaultMessage(c, resp.text)
  }

  function DetailsLines(c: ErrorClass, details: Json): Result<seq<string>, Fault> {
    if details == JNull then Success([])
    else
      var formatted :- FormatDetails(c, details);
      Success([DetailsLabel + formatted])
  }

  function RequestIdLines(requestId: Json): seq<string> {
    if requestId == JNull then [] else [RequestIdLabel + Str(requestId)]
  }

  /** The lines the status code and the body contribute: status, message,
      details, request ID. */
  function BodyLines(c: ErrorClass, resp: Response): (r: Result<seq<string>, Fault>)
    ensures r.Success? ==> 2 <= |r.value| <= 4 && r.value[0] == StatusLine(resp.statusCode)
  {
    var fields :- ReadBody(resp.json);
    var details :- DetailsLines(c, fields.details);
    Success([StatusLine(resp.statusCode), MessageLabel + MessageText(c, resp, fields.message)]
      + details + RequestIdLines(fields.requestId))
  }

  /** The lines of the message in their canonical layout: status, message,
      details, request ID, extra lines. */
  function ComposeLines(c: ErrorClass, resp: Response): (r: Result<seq<string>, Fault>)
    ensures r.Success? ==> 2 <= |r.value| <= 5
  {
    var body :- BodyLines(c, resp);
    var extras :- ExtraLines(c, resp.headers);
    Success(body + extras)
  }

  function JoinLines(lines: Result<seq<string>, Fault>): Result<string, Fault> {
    match lines
    case Success(ls) => Success(Join("\n", ls))
    case Failure(f) => Failure(f)
  }

  /** `_handle_details`, dispatched on the class; the 422 formatter runs its loop. */
  method HandleDetails(c: ErrorClass, details: Json) returns (r: Result<string, Fault>)
    ensures r == FormatDetails(c, details)
  {
    if c == UnprocessableEntityError {
      r := HandleUnprocessableDetails(details);
    } else {
      r := FormatDetails(c, details);
    }
  }

  /** A body that failed to decode contributes the default message line only. */
  lemma UndecodableBodyLines(c: ErrorClass, resp: Response)
    requires resp.json.None?
    ensures BodyLines(c, resp) == Success([StatusLine(resp.statusCode), MessageLabel + DefaultMessage(c, resp.text)])
  {
    assert ReadBody(resp.json) == Success(BodyFields(JNull, JNull, JNull));
    var opening := [StatusLine(resp.statusCode), MessageLabel + DefaultMessage(c, resp.text)];
    assert opening + [] + [] == opening;
  }

  /** A decoded body contributes its message line, then its details and
      request ID lines; a details formatter that raises makes it raise. */
  lemma BodyLinesOfFields(c: ErrorClass, resp: Response, fields: BodyFields)
    requires ReadBody(resp.json) == Success(fields)
    ensures DetailsLines(c, fields.details).Success? ==>
      BodyLines(c, resp) == Success([StatusLine(resp.statusCode), MessageLabel + MessageText(c, resp, fields.message)]
        + DetailsLines(c, fields.details).value + RequestIdLines(fields.requestId))
    ensures DetailsLines(c, fields.details).Failure? ==>
      BodyLines(c, resp) == Failure(DetailsLines(c, fields.details).error)
  {
  }

  /** The try block of `HTTPError._best_available_message`: the status line,
      then the lines the body contributes; a body that failed to decode
      contributes only the default message. */
  method CollectBodyLines(c: ErrorClass, resp: Response) returns (r: Result<seq<string>, Fault>)
    ensures r == BodyLines(c, resp)
  {
    var lines := [StatusLine(resp.statusCode)];
    match resp.json {
      case None =>
        lines := lines + [MessageLabel + DefaultMessage(c, resp.text)];
        assert lines == [StatusLine(resp.statusCode), MessageLabel + DefaultMessage(c, resp.text)];
        UndecodableBodyLines(c, resp);
      case Some(body) =>
        var message :- PyGet(body, "message");
        // The body answered `get`, so it is a dictionary and the next two reads cannot raise.
        var details := GetOrNone(body.members, "details");
        var requestId := GetOrNone(body.members, "requestId");
        BodyLinesOfFields(c, resp, BodyFields(message, details, requestId));
        if message != JNull {
          lines := lines + [MessageLabel + Str(message)];
        } else {
          lines := lines + [MessageLabel + DefaultMessage(c, resp.text)];
        }
        ghost var opening := lines;
        assert opening == [StatusLine(resp.statusCode), MessageLabel + MessageText(c, resp, message)];
        ghost var detailLines: seq<string> := [];
        if details != JNull {
          var formatted :- HandleDetails(c, details);
          lines := lines + [DetailsLabel + formatted];
          detailLines := [DetailsLabel + formatted];
        }
        assert DetailsLines(c, details) == Success(detailLines);
        if requestId != JNull {
          lines := lines + [RequestIdLabel + Str(requestId)];
        }
        assert lines == opening + detailLines + RequestIdLines(requestId);
    }
    r := Success(lines);
  }

  /** `HTTPError._best_available_message`: collects the lines one by one and
      joins them with newlines. Only the JSON decode error is caught. */
  method BestAvailableMessage(c: ErrorClass, resp: Response) returns (r: Result<string, Fault>)
    ensures r == JoinLines(ComposeLines(c, resp))
  {
    var lines :- CollectBodyLines(c, resp);
    ghost var bodyLines := lines;
    if HasAdditionalErrorInfo(c, resp.headers) {
      var extra :- AdditionalErrorInfo(c, resp.headers);
      lines := lines + extra;
    }
    assert lines == bodyLines + ExtraLines(c, resp.headers).value;
    r := Success(Join("\n", lines));
  }

  /** `get_error`: picks the class by status code and builds the exception;
      an exception other than the JSON decode error escapes instead. */
  method GetError(resp: Response) returns (r: Result<HttpErrorValue, Fault>)
    ensures r.Success? ==> r.value.errorClass == ClassFor(resp.statusCode) && r.value.statusCode == resp.statusCode
    ensures r.Success? <==> ComposeLines(ClassFor(resp.statusCode), resp).Success?
    ensures r.Success? ==> r.value.message == Join("\n", ComposeLines(ClassFor(resp.statusCode), resp).value)
    ensures r.Failure? ==> r.error == ComposeLines(ClassFor(resp.statusCode), resp).error
  {
    var errorClass := ClassFor(resp.statusCode);
    var message :- BestAvailableMessage(errorClass, resp);
    r := Success(HttpErrorValue(errorClass, resp.statusCode, message));
  }

  // ---------------------------------------------------------------------
  // Properties of the composed message
  // ---------------------------------------------------------------------

  /** A line that opens with one label cannot open with a label whose first
      letter differs. */
  lemma OtherLabel(line: string, tag: string, other: string)
    requires StartsWith(line, tag) && |tag| > 0 && |other| > 0 && tag[0] != other[0]
    ensures !StartsWith(line, other)
  {
    assert line[0] == tag[0];
  }

  /** Each line a decoded dictionary body can contribute opens with its label. */
  predicate Labelled(lines: seq<string>, tag: string) {
    forall k :: 0 <= k < |lines| ==> StartsWith(lines[k], tag)
  }

  lemma PartsLabelled(c: ErrorClass, resp: Response, ms: seq<(string, Json)>)
    requires DetailsLines(c, GetOrNone(ms, "details")).Success? && ExtraLines(c, resp.headers).Success?
    ensures StartsWith(StatusLine(resp.statusCode), StatusLabel)
    ensures StartsWith(MessageLabel + MessageText(c, resp, GetOrNone(ms, "message")), MessageLabel)
    ensures Labelled(DetailsLines(c, GetOrNone(ms, "details")).value, DetailsLabel)
    ensures Labelled(RequestIdLines(GetOrNone(ms, "requestId")), RequestIdLabel)
    ensures Labelled(ExtraLines(c, resp.headers).value, ResetLabel)
  {
    StartsWithConcat(StatusLabel, IntToString(resp.statusCode));
    StartsWithConcat(MessageLabel, MessageText(c, resp, GetOrNone(ms, "message")));
    var details := GetOrNone(ms, "details");
    if details != JNull {
      StartsWithConcat(DetailsLabel, FormatDetails(c, details).value);
    }
    var requestId := GetOrNone(ms, "requestId");
    if requestId != JNull {
      StartsWithConcat(RequestIdLabel, Str(requestId));
    }
    if HasAdditionalErrorInfo(c, resp.headers) {
      StartsWithConcat(ResetLabel, IntToString(ResetTime(resp.headers).value));
    }
  }

  /** The composed lines of a decoded dictionary body, in their canonical
      order: status, message, details, request ID, extra lines. */
  lemma DecodedLayout(c: ErrorClass, resp: Response, ms: seq<(string, Json)>)
    requires resp.json == Some(JObject(ms)) && ComposeLines(c, resp).Success?
    ensures DetailsLines(c, GetOrNone(ms, "details")).Success? && ExtraLines(c, resp.headers).Success?
    ensures ComposeLines(c, resp).value ==
      [StatusLine(resp.statusCode), MessageLabel + MessageText(c, resp, GetOrNone(ms, "message"))]
      + DetailsLines(c, GetOrNone(ms, "details")).value
      + RequestIdLines(GetOrNone(ms, "requestId"))
      + ExtraLines(c, resp.headers).value
  {
    BodyLinesOfFields(c, resp, BodyFields(GetOrNone(ms, "message"), GetOrNone(ms, "details"), GetOrNone(ms, "requestId")));
  }

  /** The second line shows the body's `message` when it is not None, the
      class's default message otherwise. */
  lemma DecodedMessageLine(c: ErrorClass, resp: Response, ms: seq<(string, Json)>)
    requires resp.json == Some(JObject(ms)) && ComposeLines(c, resp).Success?
    ensures GetOrNone(ms, "message") != JNull ==>
      ComposeLines(c, resp).value[1] == MessageLabel + Str(GetOrNone(ms, "message"))
    ensures GetOrNone(ms, "message") == JNull ==>
      ComposeLines(c, resp).value[1] == MessageLabel + DefaultMessage(c, resp.text)
  {
    DecodedLayout(c, resp, ms);
  }

  /** A Details line appears exactly when the body's `details` is not None;
      it is then the third line and carries the class's rendering of them. */
  lemma DetailsLineIffDetails(c: ErrorClass, resp: Response, ms: seq<(string, Json)>)
    requires resp.json == Some(JObject(ms)) && ComposeLines(c, resp).Success?
    ensures var ls := ComposeLines(c, resp).value;
      GetOrNone(ms, "details") != JNull <==> exists k :: 0 <= k < |ls| && StartsWith(ls[k], DetailsLabel)
    ensures GetOrNone(ms, "details") != JNull ==>
      ComposeLines(c, resp).value[2] == DetailsLabel + FormatDetails(c, GetOrNone(ms, "details")).value
  {
    DecodedLayout(c, resp, ms);
    PartsLabelled(c, resp, ms);
    var ls := ComposeLines(c, resp).value;
    var rid := RequestIdLines(GetOrNone(ms, "requestId"));
    if GetOrNone(ms, "details") == JNull {
      forall k | 0 <= k < |ls|
        ensures !StartsWith(ls[k], DetailsLabel)
      {
        if k == 0 {
          OtherLabel(ls[k], StatusLabel, DetailsLabel);
        } else if k == 1 {
          OtherLabel(ls[k], MessageLabel, DetailsLabel);
        } else if k < 2 + |rid| {
          OtherLabel(ls[k], RequestIdLabel, DetailsLabel);
        } else {
          OtherLabel(ls[k], ResetLabel, DetailsLabel);
        }
      }
    } else {
      assert StartsWith(ls[2], DetailsLabel);
    }
  }

  /** A Request ID line appears exactly when the body's `requestId` is not
      None; it then comes just before the extra lines. */
  lemma RequestIdLineIffRequestId(c: ErrorClass, resp: Response, ms: seq<(string, Json)>)
    requires resp.json == Some(JObject(ms)) && ComposeLines(c, resp).Success?
    ensures var ls := ComposeLines(c, resp).value;
      GetOrNone(ms, "requestId") != JNull <==> exists k :: 0 <= k < |ls| && StartsWith(ls[k], RequestIdLabel)
    ensures var ls := ComposeLines(c, resp).value; var extras := ExtraLines(c, resp.headers).value;
      GetOrNone(ms, "requestId") != JNull ==>
      ls[|ls| - |extras| - 1] == RequestIdLabel + Str(GetOrNone(ms, "requestId"))
  {
    DecodedLayout(c, resp, ms);
    PartsLabelled(c, resp, ms);
    var ls := ComposeLines(c, resp).value;
    var details := DetailsLines(c, GetOrNone(ms, "details")).value;
    if GetOrNone(ms, "requestId") == JNull {
      forall k | 0 <= k < |ls|
        ensures !StartsWith(ls[k], RequestIdLabel)
      {
        if k == 0 {
          OtherLabel(ls[k], StatusLabel, RequestIdLabel);
        } else if k == 1 {
          OtherLabel(ls[k], MessageLabel, RequestIdLabel);
        } else if k < 2 + |details| {
          OtherLabel(ls[k], DetailsLabel, RequestIdLabel);
        } else {
          OtherLabel(ls[k], ResetLabel, RequestIdLabel);
        }
      }
    } else {
      assert StartsWith(ls[|ls| - |ExtraLines(c, resp.headers).value| - 1], RequestIdLabel);
    }
  }

  /** Every composed message ends with its extra lines, after at least the
      status and message lines. */
  lemma ExtraLinesComeLast(c: ErrorClass, resp: Response)
    requires ComposeLines(c, resp).Success?
    ensures ExtraLines(c, resp.headers).Success?
    ensures var ls := ComposeLines(c, resp).value; var extras := ExtraLines(c, resp.headers).value;
      |extras| + 2 <= |ls| && ls[|ls| - |extras|..] == extras
  {
    var body := BodyLines(c, resp).value;
    assert 2 <= |body| by {
      match resp.json {
        case None =>
          UndecodableBodyLines(c, resp);
        case Some(json) =>
          var fields := ReadBody(resp.json).value;
          BodyLinesOfFields(c, resp, fields);
      }
    }
  }

  /** Without extra lines, a body that failed to decode gives exactly the
      status line and the default message line. */
  lemma UndecodableBodyMessage(c: ErrorClass, resp: Response)
    requires resp.json.None? && !HasAdditionalErrorInfo(c, resp.headers)
    ensures JoinLines(ComposeLines(c, resp)) ==
      Success(StatusLine(resp.statusCode) + "\n" + (MessageLabel + DefaultMessage(c, resp.text)))
  {
    UndecodableBodyLines(c, resp);
    var ls := [StatusLine(resp.statusCode), MessageLabel + DefaultMessage(c, resp.text)];
    assert ComposeLines(c, resp) == Success(ls + []);
    assert ls + [] == ls;
    assert Join("\n", ls[1..]) == ls[1];
  }

  /** Every composed message has the status line first and a message line
      second. */
  lemma OpeningLines(c: ErrorClass, resp: Response)
    requires ComposeLines(c, resp).Success?
    ensures var ls := ComposeLines(c, resp).value;
      |ls| >= 2 && ls[0] == StatusLine(resp.statusCode) && StartsWith(ls[1], MessageLabel)
  {
    ExtraLinesComeLast(c, resp);
    var body := BodyLines(c, resp).value;
    match resp.json {
      case None =>
        UndecodableBodyLines(c, resp);
      case Some(json) =>
        BodyLinesOfFields(c, resp, ReadBody(resp.json).value);
    }
    StartsWithConcat(MessageLabel, body[1][|MessageLabel|..]);
  }

  /** Every composed message opens with the status line followed by the
      message label on the next line. */
  lemma MessageOpening(c: ErrorClass, resp: Response)
    requires ComposeLines(c, resp).Success?
    ensures StartsWith(Join("\n", ComposeLines(c, resp).value), StatusLine(resp.statusCode) + "\n" + MessageLabel)
  {
    var ls := ComposeLines(c, resp).value;
    OpeningLines(c, resp);
    JoinStartsWithFirstTwo("\n", ls);
    PrefixOfPrefix(Join("\n", ls), StatusLine(resp.statusCode) + "\n", ls[1], MessageLabel);
  }

  /** A 429 response whose reset header holds an integer ends its message
      with the reset line, whether or not its body decoded. */
  lemma RateLimitMessageEndsWithReset(resp: Response, n: int)
    requires RateLimitResetHeaderKey in resp.headers && ParseInt(resp.headers[RateLimitResetHeaderKey]) == Some(n)
    requires ComposeLines(RateLimitExceededError, resp).Success?
    ensures EndsWith(Join("\n", ComposeLines(RateLimitExceededError, resp).value), "\n" + ResetLine(n))
  {
    ExtraLinesComeLast(RateLimitExceededError, resp);
    var ls := ComposeLines(RateLimitExceededError, resp).value;
    assert ls[|ls| - 1] == ResetLine(n) by {
      assert ls[|ls| - 1..] == [ResetLine(n)];
    }
    JoinEndsWithLast("\n", ls);
  }

  /** A body that decoded to anything but a dictionary makes the first `get`
      raise AttributeError, which escapes. */
  lemma NonDictionaryBodyRaises(c: ErrorClass, resp: Response)
    requires resp.json.Some? && !resp.json.value.JObject?
    ensures ComposeLines(c, resp) == Failure(AttributeError)
  {
  }

  /** A 429 reset header that is not an integer makes the message raise
      ValueError once the body lines are in place. */
  lemma MalformedResetHeaderRaises(resp: Response)
    requires RateLimitResetHeaderKey in resp.headers && ParseInt(resp.headers[RateLimitResetHeaderKey]).None?
    requires BodyLines(RateLimitExceededError, resp).Success?
    ensures ComposeLines(RateLimitExceededError, resp) == Failure(ValueError)
  {
  }
}
