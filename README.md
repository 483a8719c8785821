# Error classification and message composition of the content-management client

This project models `contentful_management/errors.py`. That module turns a
failed HTTP response into a typed exception. It does three things:

- It picks the exception class from the status code. Ten codes have their own class, and every other code gets the base class `HTTPError`.
- It builds the exception's message from several lines, joined with newlines:
  - `HTTP status code: …`;
  - `Message: …`: the body's `message`, or else the class's default sentence;
  - `Details: …`: the body's `details`, rendered by the class's own formatter;
  - `Request ID: …`;
  - for the rate-limit class, `Time until reset (seconds): …`, read from a response header.
- It lets the JSON decode error of an unparsable body degrade to the default message.

The model is split in three files:

- `wrappers.dfy` defines `Option` and `Result`.
- `py_values.dfy` holds the Python values and built-ins the module relies on:
  - a decoded JSON value;
  - `str()`;
  - `in`;
  - subscripting with a string key;
  - `dict.get`;
  - iteration;
  - `str.join`;
  - `int()`.

  Each built-in that can raise returns a `Result`; its `Failure` names the Python exception (`KeyError`, `TypeError`, `AttributeError`). `int()` returns an `Option`, where None stands for its `ValueError`. `str()` and `str.join` over strings cannot raise and return plain strings.
- `errors.dfy` holds the module itself:
  - the class table;
  - the default messages;
  - the four details formatters (400, 403, 404, 422);
  - the rate-limit header;
  - the message composition.

The code builds the message by appending to a list, and the 422 formatter
collects its lines in a loop. Both are imperative methods here
(`CollectBodyLines`, `BestAvailableMessage`, `HandleUnprocessableDetails`).
Each is proved equal to a function: `CollectBodyLines` to `BodyLines`,
`BestAvailableMessage` to the newline join of `ComposeLines`, and
`HandleUnprocessableDetails` to `UnprocessableDetails`. The lemmas about the
message are stated on those functions.

Building the error is not total. `_best_available_message` catches only the
JSON decode error (errors.py:60). Any `KeyError`, `TypeError`,
`AttributeError` or `ValueError` raised while reading the body, formatting the
details or parsing the reset header escapes from `get_error`, and the model
returns it as `Failure`. These lemmas state the cases:

- `NonDictionaryBodyRaises`;
- `AccessDeniedNeedsReasons`;
- `NotFoundNeedsType`;
- `UnprocessableNeedsErrors`;
- `MalformedResetHeaderRaises`.

The 503 class's default message is the 400 class's sentence word for word. The
model keeps it, and `ServiceUnavailableRepeatsBadRequest` states it.

## Model

| member | source | states |
|---|---|---|
| Errors.ClassFor | contentful_management/errors.py:238-253 | The base class is picked exactly when the status code is not one of the ten registered codes. A registered code gets the class that documents that code. |
| Errors.ClassForDocumentedStatus | contentful_management/errors.py:238-253 | Every class other than the base class is picked for the status code it documents. |
| Errors.DefaultMessage | contentful_management/errors.py:26-27 | The base class's default message ends with the raw body text. Its text-independence for the other classes is stated by `DefaultMessageIgnoresText`, and the 503 duplicate by `ServiceUnavailableRepeatsBadRequest`. |
| Errors.UnregisteredStatusEmbedsBody | contentful_management/errors.py:26-27 | An unregistered status code gets the base class, and its default message ends with the raw body text. |
| Errors.DefaultMessageIgnoresText | contentful_management/errors.py:69-230 | The default message of every class except the base class does not depend on the response. |
| Errors.ServiceUnavailableRepeatsBadRequest | contentful_management/errors.py:224-230 | The 503 default message equals the 400 default message. |
| Errors.BadRequestEntry | contentful_management/errors.py:82-85 | A string entry is kept as is, a dictionary gives its `details` or None, and any other entry raises AttributeError from `get`. |
| Errors.BadRequestDetails | contentful_management/errors.py:77-92 | A string is returned unchanged, and the formatter never raises KeyError, only TypeError or AttributeError. `BadRequestJoinsEntryDetails` and `BadRequestDetailsShapes` state the other shapes. |
| Errors.BadRequestEntriesKept | contentful_management/errors.py:82-89 | For well-shaped `errors` entries the comprehension does not raise. Dropping None leaves, in order, each string entry and each non-None `details` text, which is the reference `KeptDetails`. |
| Errors.BadRequestJoinsEntryDetails | contentful_management/errors.py:87-90 | A 400 dictionary whose `errors` is a list of well-shaped entries renders as the kept texts joined with newline-tab. |
| Errors.BadRequestDetailsShapes | contentful_management/errors.py:77-92 | A string is returned as is. A dictionary without `errors`, and a list not containing the string "errors", are stringified. A list containing "errors", a number and a boolean raise TypeError. |
| Errors.AccessDeniedDetails | contentful_management/errors.py:112-113 | A rendering always opens with the Reasons header. `AccessDeniedListsReasons` and `AccessDeniedNeedsReasons` state the content and the failures. |
| Errors.AccessDeniedListsReasons | contentful_management/errors.py:112-113 | A list of string reasons renders as the Reasons header followed by each reason, in order, on its own doubly indented line. |
| Errors.AccessDeniedNeedsReasons | contentful_management/errors.py:112-113 | Details without `reasons` raise KeyError for a dictionary and TypeError otherwise. |
| Errors.NotFoundDetails | contentful_management/errors.py:124-134 | A string is returned unchanged, and a dictionary holding `type` never raises. `NotFoundNamesResource` states the text. |
| Errors.NotFoundNamesResource | contentful_management/errors.py:124-134 | A dictionary with `type` names the missing resource. Its ID is appended exactly when `id` is present and not None. |
| Errors.NotFoundNeedsType | contentful_management/errors.py:124-129 | Details that are neither a string nor a dictionary with `type` raise KeyError or TypeError. |
| Errors.UnprocessableEntry | contentful_management/errors.py:152-168 | A dictionary entry never raises. `UnprocessableEntryLine` states its text. |
| Errors.UnprocessableDetails | contentful_management/errors.py:170-176 | A rendering always opens with a newline. `UnprocessableListsEntries` states the lines, and `UnprocessableNeedsErrors` the failures. |
| Errors.UnprocessableNeedsErrors | contentful_management/errors.py:173 | Details without `errors` raise KeyError for a dictionary and TypeError otherwise. |
| Errors.UnprocessableEntryLine | contentful_management/errors.py:152-168 | A dictionary entry never raises. It shows name and path when both keys are present, and the default sentence otherwise, followed by the value exactly when `value` is present. |
| Errors.HandleUnprocessableDetails | contentful_management/errors.py:170-176 | The loop returns what the formatter specification `UnprocessableDetails` returns, including the first exception an entry raises. |
| Errors.UnprocessableListsEntries | contentful_management/errors.py:170-176 | A list of dictionaries renders as a newline followed by one line per entry, in input order. An empty list gives just the newline. |
| Errors.FormatDetails | contentful_management/errors.py:29-30 | The seven classes without a formatter of their own stringify the details. |
| Errors.HandleDetails | contentful_management/errors.py:29-30 | The formatter the class's method lookup finds is the one `FormatDetails` names for that class; the 422 class runs its loop. |
| Errors.ResetTime | contentful_management/errors.py:189-194 | The reset time is returned exactly when the header is present and parses as an integer, and it is the parsed value. A missing header raises KeyError and an unparsable one ValueError. |
| Errors.HasAdditionalErrorInfo | contentful_management/errors.py:196-197 | The guard holds only when reading the extra information cannot hit the missing-header KeyError. |
| Errors.AdditionalErrorInfo | contentful_management/errors.py:35-36 | Every class except the 429 class returns no extra lines. The 429 class returns the single reset line, or the exception `reset_time()` raises. |
| Errors.ResetTimeReadsHeader | contentful_management/errors.py:189-194 | A header holding `str(n)` gives back n. |
| Errors.ExtraLines | contentful_management/errors.py:196-200 | Extra lines appear only for the 429 class with the header present. They are then the single reset line, or ValueError when the header is not an integer. |
| Errors.ReadBody | contentful_management/errors.py:46-50 | An undecodable body gives no fields. A dictionary gives its `message`, `details` and `requestId`, each None when absent. Any other decoded value raises AttributeError. |
| Errors.BodyLines | contentful_management/errors.py:42-59 | The body part of the message has two to four lines, the status line first. |
| Errors.ComposeLines | contentful_management/errors.py:42-64 | A composed message has two to five lines. `DecodedLayout`, `ExtraLinesComeLast` and the lemmas below state their order and content. |
| Errors.CollectBodyLines | contentful_management/errors.py:41-61 | The lines collected in the try block are the status line, message, details and request ID of `BodyLines`, or the exception that escapes. |
| Errors.BestAvailableMessage | contentful_management/errors.py:38-66 | The message is the newline join of `ComposeLines`, or the exception that escapes. |
| Errors.GetError | contentful_management/errors.py:233-255 | The returned error object has the class `ClassFor` picks and the response's status code, and its message joins `ComposeLines`. It fails exactly when composing fails, with the same exception. |
| Errors.UndecodableBodyLines | contentful_management/errors.py:60-61 | An undecodable body contributes the status line and the default message line only. |
| Errors.BodyLinesOfFields | contentful_management/errors.py:46-59 | A decoded body contributes its message line, then its details and request ID lines. A raising formatter makes the whole message raise. |
| Errors.DecodedLayout | contentful_management/errors.py:42-64 | For a dictionary body the lines come in the order status, message, details, request ID, extra lines. |
| Errors.DecodedMessageLine | contentful_management/errors.py:52-55 | The second line shows the body's `message` when it is not None, and the class's default message otherwise. |
| Errors.DetailsLineIffDetails | contentful_management/errors.py:56-57 | Some line starts with `Details: ` exactly when `details` is not None. That line is then the third and holds the class's rendering of the details. |
| Errors.RequestIdLineIffRequestId | contentful_management/errors.py:58-59 | Some line starts with `Request ID: ` exactly when `requestId` is not None. That line then comes just before the extra lines. |
| Errors.ExtraLinesComeLast | contentful_management/errors.py:63-64 | Every composed message ends with its extra lines, after at least two other lines. |
| Errors.UndecodableBodyMessage | contentful_management/errors.py:60-66 | Without extra lines, an undecodable body gives exactly the status line, a newline and the default message line. |
| Errors.OpeningLines | contentful_management/errors.py:42-61 | The first line is the status line and the second starts with `Message: `. |
| Errors.MessageOpening | contentful_management/errors.py:42-66 | Every message starts with the status line, a newline and `Message: `, so it is never empty and always shows the status code. |
| Errors.RateLimitMessageEndsWithReset | contentful_management/errors.py:196-200 | A 429 response whose reset header is an integer ends its message with a newline and the reset line, whether or not its body decoded. |
| Errors.NonDictionaryBodyRaises | contentful_management/errors.py:46-48 | A body that decoded to anything other than a dictionary raises AttributeError from `get`, and the exception escapes. |
| Errors.MalformedResetHeaderRaises | contentful_management/errors.py:192-194 | When the body lines were collected without an exception, a 429 reset header that is not an integer makes the message raise ValueError. A body that raises escapes with its own exception before the header is read. |
| PyValues.PyGet | contentful_management/errors.py:48-50 | `get` succeeds exactly on a dictionary and otherwise raises AttributeError. On a dictionary it gives the key's value, or None when the key is absent. |
| PyValues.Subscript | contentful_management/errors.py:129 | Subscripting succeeds exactly on a dictionary holding the key, and gives the key's value. Otherwise it raises KeyError on a dictionary and TypeError on anything else. |
| PyValues.JoinStrings | contentful_management/errors.py:113 | Joining succeeds exactly when every item is a string, and then gives the items' texts joined with the separator. Otherwise it raises TypeError. |
| PyValues.Contains | contentful_management/errors.py:87 | `in` succeeds on a dictionary, a list or a string and raises TypeError on anything else. On a dictionary it tests the keys, and on a string it tests for a substring. |
| PyValues.Iterate | contentful_management/errors.py:173 | Iterating a list gives its items, and iterating None, a boolean or a number raises TypeError. |
| PyValues.Str | contentful_management/errors.py:53 | `str()` of a string is the string itself, and of None is `None`. |
| PyValues.MapResultFault | contentful_management/errors.py:88 | The exception a comprehension raises is one that a call on an item raised. |
| PyValues.MapResultSucceeds | contentful_management/errors.py:88 | The comprehension succeeds exactly when every call does, and then holds one result per item, in order. |
| PyValues.ParseIntToString | contentful_management/errors.py:192-194 | `int(str(n)) == n` for every integer n. |
| PyValues.LookupFindsKey | contentful_management/errors.py:87-88 | A dictionary lookup finds a value exactly when the key is among the dictionary's keys. |

## Left out

- Decoding the body (`response.json()`) is not modelled. The model takes its outcome as an optional decoded value, where None stands for the JSON decode error. The helpers `json_error_class` and `string_class` are not part of this model.
- JSON numbers are integers only. Floating-point values are left out.
- Str: for values other than strings it writes a Python-style `repr`, without Python's escaping of quotes and control characters. A dictionary with a repeated key prints every binding, whereas Python keeps only the last one.
- Headers are a map whose keys are in lower case. This stands for the HTTP library's case-insensitive lookup, which is not modelled itself.
- ParseInt: accepts an optional sign followed by ASCII digits. Python's `int()` also accepts surrounding whitespace, underscores between digits and non-ASCII digits; the model rejects these.
- Iterate: the contract states only the list and scalar cases. The body also yields a string's characters and a dictionary's keys, as Python does.
- The exception object's own state is not modelled: the stored response, `reset_time()` as a method on it, and the exception class hierarchy. The model returns the class, the status code and the message.
- The test file `tests/entry_test.py` is not part of this model.
