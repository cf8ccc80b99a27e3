# Distributed text processing: router and transform services in Dafny

This project models the request-handling core of a small distributed
text-processing system. A router ("central server") keeps a static registry
of four operations (uppercase, lowercase, reverse, wordcount), each mapped to
a backend URL and a description. For `POST /process` it validates
`{"operation": ..., "text": ...}` through four ordered guards, forwards
exactly `{"text": text}` to the registered backend, relays the backend's
reply or maps its fault to 503, 504 or 500, and emits one log record per
request. The lowercase and reverse transform services validate `{"text": ...}`
in two stages and reply with `text.lower()` or `text[::-1]`.

Everything in the core is a pure decision over a small input, so the model is
made of datatypes, functions and lemmas:

- `wrappers.dfy` (`Wrappers`): `Option`, used for JSON null, absent keys and Python's `None`.
- `messages.dfy` (`Messages`): JSON values, request bodies (`map<string, Option<string>>`, wrapped in `Option` for a missing body), replies (status and JSON object), `dict.get`, Python truthiness and `str()`.
- `text.dfy` (`Text`): Python's `str.isspace()` and `str.strip()`, and the blank-input test `not text or text.strip() == ''`.
- `lowercase_service.dfy` (`LowercaseService`) and `reverse_service.dfy` (`ReverseService`): `health`, `process` and the transform, with its laws.
- `central_server.dfy` (`CentralServer`): the registry, `health`, `list_services`, `log_request`, the backend-outcome mapping and `process`, plus end-to-end lemmas through the two modelled services.

The backend call is a parameter `backend: Forward -> BackendOutcome`. Its
outcome is either a decoded JSON object reply (`Ok`) or one of three faults:
`ConnectionFailed`, `TimedOut` or `Failed(message)`. `Process` returns an
`Exchange` holding the reply, exactly one `LogEntry` and the forwarded request
if there was one. So "one log record per request" and "forwarded only when
every guard passes" are facts about the result's shape and its contract.

Three behaviours of the code are easy to miss:

- The router answers "No data provided" for an empty object `{}` as well as for a missing body.
- A transform service answers "No text provided" for a missing or empty body, not only for a missing `text` key.
- For the guard rejections, the router's log record previews the fixed texts "No data provided", "No operation specified", "Invalid operation" and "Empty input". These are not always the error message sent to the client.

## Model

| member | source | states |
|---|---|---|
| Messages.ErrorReply | central_server/app.py:72-74 | `jsonify({"error": message}), status`: the reply has that status and exactly one key, `error`, holding the message |
| Messages.Field | central_server/app.py:76-77 | `data.get(key)`: a present key gives its value (None for a JSON null), and an absent key gives None |
| Messages.Lookup | central_server/app.py:107 | `response_data.get(key)` is present exactly when the key is, and is then its value |
| Messages.Truthy | central_server/app.py:48 | Python truthiness of a decoded JSON value: false exactly for null, false, 0, `""`, `[]` and `{}` |
| Messages.Decimal | central_server/app.py:48 | `str(n)` of a natural number is a non-empty string of digits; `str(0)` is "0" and a positive number has no leading zero |
| Messages.DecimalRoundTrip | central_server/app.py:48 | reading the digits of `str(n)` back gives n |
| Messages.Show | central_server/app.py:48 | `str(result)` is the string itself for a string, "True" or "False" for a boolean, and for an integer its decimal numeral ("0" for zero), with a leading '-' when negative and no leading zero when non-zero |
| Text.IsSpace | central_server/app.py:92 | the whitespace `strip()` removes is exactly the 29 code points Python's `str.isspace()` accepts |
| Text.SkipSpace | central_server/app.py:92 | where `lstrip()` starts: the first index from i on that is not whitespace (or the end), with only whitespace before it |
| Text.SkipSpaceBack | central_server/app.py:92 | where `rstrip()` ends: the index just past the last code point that is not whitespace (or the lower bound), with only whitespace after it |
| Text.Strip | central_server/app.py:92 | `text.strip()` is a middle slice `s[i..j]` of its input: everything before i and from j on is whitespace, and the result neither starts nor ends with whitespace |
| Text.StripUnique | central_server/app.py:92 | any middle slice with only whitespace around it and no whitespace at its ends is `strip()`'s result, so the contract of `Strip` determines it |
| Text.StripEmptyIffAllSpace | central_server/app.py:92 | `text.strip() == ''` holds exactly when every code point is whitespace |
| Text.Blank | central_server/app.py:92 | `not text or text.strip() == ''` holds exactly for a missing (None) text or one made only of whitespace, the empty text included |
| LowercaseService.Health | lowercase_service/app.py:7-10 | health always answers 200 `{"status": "healthy", "service": "lowercase"}` |
| LowercaseService.LowerChar | lowercase_service/app.py:26 | 'A'..'Z' map to 'a'..'z', every other code point is unchanged, and no capital is left |
| LowercaseService.Lower | lowercase_service/app.py:26 | lower-casing preserves length |
| LowercaseService.LowerAt | lowercase_service/app.py:26 | position k of the result is `text[k]` lower-cased |
| LowercaseService.LowerMapsOnlyCapitals | lowercase_service/app.py:26 | the result holds no ASCII capital, and non-capitals are left where they were |
| LowercaseService.LowerIdempotent | lowercase_service/app.py:26 | `lower(lower(t)) == lower(t)` |
| LowercaseService.LowerKeepsBlankness | lowercase_service/app.py:23-26 | the result is all whitespace exactly when the input is |
| LowercaseService.Process | lowercase_service/app.py:14-27 | a missing or empty body or no `text` key gives 400 "No text provided"; a null, empty or whitespace `text` gives 400 "Input text cannot be empty"; otherwise 200 with exactly `{"result": lower(text)}`; 200 exactly when text is present and not all whitespace |
| LowercaseService.AcceptsNonBlank | lowercase_service/app.py:18-27 | `{"text": text}` with non-blank text is always answered 200 with the lower-cased text |
| ReverseService.Health | reverse_service/app.py:7-10 | health always answers 200 `{"status": "healthy", "service": "reverse"}` |
| ReverseService.Reverse | reverse_service/app.py:26 | reversal preserves length |
| ReverseService.ReverseAt | reverse_service/app.py:26 | `result[k] == text[len(text)-1-k]` |
| ReverseService.ReverseInvolution | reverse_service/app.py:26 | `reverse(reverse(t)) == t` |
| ReverseService.ReversePermutes | reverse_service/app.py:26 | the multiset of code points is unchanged |
| ReverseService.ReverseKeepsBlankness | reverse_service/app.py:23-26 | reversed text is all whitespace exactly when the text is, so non-blank stays non-blank |
| ReverseService.Process | reverse_service/app.py:14-27 | a missing or empty body or no `text` key gives 400 "No text provided"; a null, empty or whitespace `text` gives 400 "Input text cannot be empty"; otherwise 200 with exactly `{"result": text[::-1]}`; 200 exactly when text is present and not all whitespace |
| ReverseService.AcceptsNonBlank | reverse_service/app.py:18-27 | `{"text": text}` with non-blank text is always answered 200 with the reversed text |
| CentralServer.Registered | central_server/app.py:21-38 | the registry lists no operation twice |
| CentralServer.RegistryComplete | central_server/app.py:21-38 | every operation is in the registry |
| CentralServer.Name | central_server/app.py:21-38 | each registry key is a non-empty string of lowercase ASCII letters |
| CentralServer.Info | central_server/app.py:21-38 | every registry entry has a non-empty URL and a non-empty description |
| CentralServer.ParseOperation | central_server/app.py:84 | an operation is found only under its own registered name (case-sensitive), and an unknown name matches no operation |
| CentralServer.ParseNames | central_server/app.py:21-38 | every registered operation is found under its own name |
| CentralServer.RegistryDistinct | central_server/app.py:21-38 | distinct operations are registered under distinct names and distinct URLs |
| CentralServer.AvailableOperations | central_server/app.py:88 | the key list is uppercase, lowercase, reverse, wordcount in that order, and holds exactly the names that are registered |
| CentralServer.Health | central_server/app.py:53-56 | health always answers 200 `{"status": "healthy", "service": "central_server"}` |
| CentralServer.ListServices | central_server/app.py:59-63 | 200 `{"services": ...}` whose keys are exactly the registered names, each mapped to its description |
| CentralServer.Preview | central_server/app.py:48 | the preview is None exactly when the result is absent or falsy; otherwise it is a prefix of `str(result)`: all of it when it has at most 50 code points, and exactly the first 50 otherwise |
| CentralServer.LogRequest | central_server/app.py:41-50 | the record keeps the operation and status; `text_length` is 0 exactly for an absent or empty text and otherwise its length; the preview is `Preview(result)` |
| CentralServer.Relay | central_server/app.py:96-126 | a backend reply is relayed unchanged, body and status; the log previews its `result` on 200 and its `error` otherwise; connection failure, timeout and other faults give 503 "Service '<op>' is unavailable", 504 "Service '<op>' timed out" and 500 "Internal server error: <msg>"; the log is a success exactly for a backend 200 |
| CentralServer.OperationList | central_server/app.py:88 | the `available_operations` array holds the registered names as strings, in registry order |
| CentralServer.Validate | central_server/app.py:69-94 | the guards run in order. A missing or empty body gives 400 "No data provided". A missing or empty operation gives 400 "No operation specified", whatever the text. An unknown operation gives 400 "Invalid operation: <op>" with exactly the four names in order. A missing or blank text gives 400 "Input text cannot be empty". The request is accepted exactly when the independent `Forwardable` holds. A rejection's log record previews the source's fixed text and has the request's text length |
| CentralServer.Process | central_server/app.py:67-126 | a rejected request is answered with its 400 and never forwarded; a request is forwarded exactly when `Forwardable` holds, as `{"text": text}` to the registered URL, and the reply and log are the mapped backend outcome; one log record, whose length field is the text's length and which is a success only for a forwarded 200 |
| CentralServer.RejectionIgnoresBackend | central_server/app.py:72-94 | a request that fails a guard is answered without forwarding, the same whatever the backend would do |
| CentralServer.ForwardedPayloadIsAccepted | central_server/app.py:92-103 | every payload the router forwards passes the lowercase and reverse services' own validation |
| CentralServer.RegisteredRequestIsForwarded | central_server/app.py:76-103 | `{"operation": name(op), "text": text}` with non-blank text is forwarded as `{"text": text}` to op's URL, and answered with the mapped backend outcome |
| CentralServer.ReverseEndToEnd | central_server/app.py:97-108 | through the reverse service, a non-blank text comes back reversed with 200, and the log is a success previewing it |
| CentralServer.LowercaseEndToEnd | central_server/app.py:97-108 | through the lowercase service, a non-blank text comes back lower-cased with 200, and the log is a success previewing it |
| CentralServer.UnreachableBackendNamesOperation | central_server/app.py:113-116 | an unreachable backend gives 503 naming the requested operation as unavailable |

## Left out

- Flask routing and JSON (de)serialisation are not modelled. A request body is a JSON object whose relevant fields are strings or null. Text holding lone surrogates, which Python's JSON decoder accepts, is not modelled: a Dafny string holds only Unicode scalar values.
- Requests that `request.get_json()` refuses are not modelled. A body that is not valid JSON, or (on Flask 2.1 and later) a request without a JSON content type, raises at `request.get_json()` (line 69), before any guard or log call, so no log record is written.
- JSON request bodies that are not objects are only partly modelled. A falsy one (null, `[]`, `""`, `0`, `false`) is rejected by `if not data` and modelled as a missing body. A truthy one (such as `[1]` or `"x"`) raises at `data.get` (line 76) and is not modelled.
- The network call `requests.post` and its 10-second bound are not modelled. The call is the parameter `backend`, and its result is one of four abstract outcomes.
- Which exception a network failure raises is not modelled. `ConnectTimeout` is both a `ConnectionError` and a `Timeout`, so the source maps it to 503. The model only takes the outcome kind as given.
- A backend reply that is not JSON, or is JSON but not an object, is not modelled as such. In the source it raises inside the `try` and ends in the 500 branch, which the model covers as `Failed(message)`. The text of Python's exception message is not modelled.
- The logging set-up, log handlers and timestamps, and the creation of the log directory are not modelled. A log record is a returned value without a timestamp.
- Non-string JSON values for `operation` or `text` (numbers, booleans, lists, objects) are not modelled. In the source most of them do not raise:
  - `{"operation": 5, "text": "hi"}` is answered 400 "Invalid operation: 5".
  - A falsy operation (`0`, `false`, `[]`, `{}`) is answered 400 "No operation specified".
  - A falsy text (`0`, `false`, `[]`, `{}`) with a registered operation is answered 400 "Input text cannot be empty".
  - The request raises outside the `try`, and Flask answers 500, in three cases: an unhashable truthy operation (a list or an object) at `operation not in SERVICES` (line 84); a truthy text without a length (a number or `true`) with a missing or unknown operation, at `len(text)` in `log_request` (line 46, reached from lines 81 and 85); and any truthy non-string text with a registered operation, at `text.strip()` (line 92).
- Messages.Show: arrays and objects are rendered as the fixed texts "[...]" and "{...}" instead of Python's `repr`. Floating-point numbers are not modelled. The lowercase and reverse services reply with strings; an integer result would come from the word count the registry describes.
- LowercaseService.LowerChar: only the ASCII capitals 'A'..'Z' are lower-cased. Python's `str.lower()` also maps other cased code points through the Unicode tables, and for some of them the length changes. The model leaves those code points unchanged.
- The uppercase and wordcount services: their behaviour is not modelled; they appear only as registry entries.
- The console client (`client/app.py`) is not modelled. It is an interactive loop over `input`, `print` and an HTTP client.
