# Leaderboard service: a Dafny model of its request-handling rules

The service accepts score submissions, answers the top score and pages of
scores, and deletes scores. Storage is a managed key-value table. Registration,
login and confirmation go to a managed identity provider. A score above 1000
earns a congratulation pushed over a managed websocket gateway. Access logs go
to daily files and to a search index.

Everything that does real work is an external service. What the code decides
for itself is modelled here:

- validation;
- the status and body of every answer;
- the order of the external calls;
- the selection of the top score;
- the page-size arithmetic;
- the notification decision and its message;
- the response envelope and configuration defaults;
- the logging decisions.

Each HTTP handler is a function. Its inputs are the request fields and the
outcome of each external call it makes. It returns the calls it made, in
order, together with the status and body it answered. A thrown error is a
`Thrown` value: its `message` and the HTTP status its client library attaches.
The one piece of mutable state is the response object whose `send` the
logging middleware wraps. It is a class, `Logger.LoggedResponse`.

Modules, one file each:

- `Wrappers` (wrappers.dfy): `Option` (`None` is `undefined`, or `null` where
  the code treats them alike), `Result` and `Outcome` for external calls, and
  `Thrown`.
- `JsText` (jstext.dfy): the JavaScript string semantics the handlers rely on.
  It covers truthiness and `${}` rendering, and `parseInt(s, 10)` as ECMA-262
  section 19.2.5 defines it (leading whitespace, a sign, then the longest digit
  prefix). It also covers `String(n)` for integers, ASCII case mapping and the
  UTF-8 byte length.
- `JsonText` (jsontext.dfy): string quoting as `JSON.stringify` does it, and a
  reader of JSON string literals that undoes it (RFC 8259, section 7).
- `Util` (util.dfy): `responseObj` and the environment-derived
  configuration values.
- `Notify` (notify.dfy): `notifyUserIfHighScore`.
- `Leaderboard` (leaderboard.dfy): the `/score`, `/score/:id`, `/top` and
  `/all` routes.
- `Auth` (auth.dfy): the `/register`, `/login` and `/confirm` routes.
- `Logger` (logger.dfy): `getLogFileName`, `onlyLevels`, `colorise` and
  `logMiddleware`.

## Model

| member | source | states |
|---|---|---|
| `Leaderboard.SubmitScore` | routes/index.ts:16-57 | A body without truthy `user_id` and `user_name`, or without a score, gets 400 and no call. A score of 0 passes. A missing or empty `connectionid` header gets 400 and no call, checked only after the body passes. Otherwise the put comes first, with the given id, name and score and the generated id and time. A failed put gives 500 and "Failed to save score: " + the error text, with nothing after it. A successful put gives 201 with `success: true` and the item. It is followed by one post to the header's connection exactly when the score exceeds 1000. |
| `Leaderboard.RejectedSubmissionWritesNothing` | routes/index.ts:19-28 | A submission is answered 400 exactly when it makes no external call, and exactly when a body field or the connection id is missing. |
| `Leaderboard.PostFollowsSuccessfulPut` | routes/index.ts:38-52 | Any post is the second call. It follows a successful put of a score above 1000, and the answer is then 201. How the post turns out never changes the answer. |
| `Leaderboard.SubmissionPostMessage` | routes/index.ts:45-50 | The post made for a submission carries, as its JSON `message`, the congratulation for that user name and score. |
| `Leaderboard.DeleteScore` | routes/index.ts:59-82 | A missing `userid` header, `username` header or path id gives 400 and no call. Otherwise exactly one delete of that id is made. The answer is 200 "Score deleted successfully" on success and 500 "Failed to delete score: " + the error text on failure. Whether the id existed is not an input, so it cannot change the answer. |
| `Leaderboard.SortByScore` | routes/index.ts:92 | The sort keeps the number of items; `SortByScoreSorts` proves it yields them in descending score order as a permutation. |
| `Leaderboard.SortByScoreSorts` | routes/index.ts:92 | The sort `/top` applies yields the scanned items in descending score order, as a permutation of them. |
| `Leaderboard.SortedHeadIsFirstMaximum` | routes/index.ts:92 | Element 0 after the stable descending sort is a scanned item. Its score is at least every scanned score, and every item before it in scan order has a strictly lower score. |
| `Leaderboard.SortedHeadIsMaximum` | routes/index.ts:92 | Element 0 after the sort is one of the scanned items, and no scanned score exceeds its score. |
| `Leaderboard.TopOf` | routes/index.ts:92 | The top is undefined exactly for an empty scan. Otherwise it is a scanned item with the highest score. |
| `Leaderboard.TopScore` | routes/index.ts:84-101 | `/top` makes one full scan. A scan error gives 500 with the fixed error text and the error's message. Otherwise it answers 200 with a one-element `data`. For an empty scan that element is undefined and `count` is 0. Otherwise the element is a scanned item with the highest score and `count` is the number of items. Absent `Items` gives `[undefined]` with no count. |
| `Leaderboard.PageSize` | routes/index.ts:106 | The page size is never 0. It is 5 when `parseInt(limit, 10)` is NaN or 0, and the parsed number otherwise, negative numbers included. |
| `Leaderboard.PageSizeOfNumber` | routes/index.ts:106 | A limit written as a number gives that number, and "0" gives 5. |
| `Leaderboard.PageSizeIgnoresSurroundings` | routes/index.ts:106 | Leading whitespace, and anything after the digits that is not a digit, leave the page size unchanged. |
| `Leaderboard.PageSizeDefaults` | routes/index.ts:106 | An absent limit gives 5, and so does one that is empty or whose first character is not whitespace, a sign or a digit. |
| `Leaderboard.PageRequest` | routes/index.ts:107-122 | The page scan uses the page size as its limit. It has an exclusive start key exactly when `lastKey` is given, and that key is the parsed `lastKey`. |
| `Leaderboard.ListScores` | routes/index.ts:103-138 | The count scan always comes first, and its failure ends the request with 500. A given `lastKey` that fails to parse ends it with 500 before the page scan. Otherwise the page scan is made, as the second call, with the page size and start key, and its failure ends the request with 500. The answer is 200 exactly when every step succeeds. It then carries the page's items (or `[]`), the count scan's `Count` (or 0) and a `lastKey` that is null exactly when the store returned none. |
| `JsText.ParseIntRoundTrip` | routes/index.ts:106 | `parseInt` reads back exactly the integer that `String(n)` writes. |
| `JsText.ParseIntIgnoresSuffix` | routes/index.ts:106 | `parseInt` reads only the digit prefix: a number followed by any text not starting with a digit reads as that number. |
| `JsText.ParseIntSkipsSpace` | routes/index.ts:106 | Leading whitespace and line terminators do not change what `parseInt` reads. |
| `JsText.ParseIntIsNaN` | routes/index.ts:106 | `parseInt` gives NaN exactly when no decimal digit follows the leading whitespace and the optional sign. |
| `JsText.ParseIntOfNonNumeric` | routes/index.ts:106 | Text starting with anything but whitespace, a sign or a digit (such as "undefined") is NaN. |
| `Notify.NotifyUserIfHighScore` | helpers/notify.ts:20-53 | A post is made exactly when the score exceeds 1000 and the connection id is non-empty. It is addressed to the user's connection and carries the congratulation as JSON. A score of at most 1000 does nothing, and a high score with an empty connection id only warns. After a post, the logged outcome is delivered on success, stale connection for status 410, and a generic failure otherwise. Every path returns normally. |
| `Notify.PostIndependentOfOutcome` | helpers/notify.ts:41-50 | Whether and what is posted does not depend on how the post turns out, because send errors are only logged. |
| `Notify.ReadMessageData` | helpers/notify.ts:36 | Reading the `message` field back from the posted JSON gives exactly the congratulation text, so quoting loses nothing. |
| `Notify.Congratulation` | helpers/notify.ts:23-25 | The text starts with "Congratulations ", then the user name verbatim, and ends with "!"; `CongratulationFields` proves the score after the fixed text reads back. |
| `Notify.CongratulationFields` | helpers/notify.ts:23-25 | The congratulation holds the user name verbatim after "Congratulations ", and ends with the score, which reads back as the same number. |
| `Notify.PostedMessage` | helpers/notify.ts:33-38 | Every post carries JSON whose `message` congratulates this user on this score. |
| `JsonText.UnescapeEscape` | helpers/notify.ts:36 | The JSON string reader recovers exactly the string that `JSON.stringify` escaped. |
| `JsonText.UnquoteQuote` | helpers/notify.ts:36 | A quoted JSON string literal reads back as the original string. |
| `Util.ResponseObj` | helpers/util.ts:43-55 | The status set and the body's `status` are the given status. `success` holds exactly for 200 to 299. `data` is carried only when neither null nor undefined, and `message` is passed through and may be absent. |
| `Util.ResponseObjShape` | helpers/util.ts:49-54 | The serialised body has a `data` key exactly when data was given, and a `message` key exactly when a message was given. It never claims success outside 2xx. |
| `Util.AppName` | helpers/util.ts:27 | `APP_NAME` is kept whenever it is set, even when empty. Only an unset variable gives "NEBULA_APP". |
| `Util.Env` | helpers/util.ts:28 | `NODE_ENV` is kept when non-empty. Unset or empty gives "development". |
| `Util.ElasticUrl` | helpers/util.ts:35-37 | `ELASTIC_URL` is kept when non-empty. Unset or empty gives "http://localhost:9200". |
| `Util.ElasticAdmin` | helpers/util.ts:38 | `ELASTIC_ADMIN` is kept whenever set. Unset gives "elastic". |
| `Util.ElasticPass` | helpers/util.ts:39 | `ELASTIC_PASS` is kept whenever set. Unset gives "changeme". |
| `Util.ElasticActive` | helpers/util.ts:40-41 | Shipping can be active only when `ELASTIC_ACTIVE` is set to a four-character value; `ElasticActiveSpellings` gives the exact spellings. |
| `Util.ElasticActiveSpellings` | helpers/util.ts:40-41 | Elastic shipping is active exactly when `ELASTIC_ACTIVE` is "true" in any mix of cases. It is inactive when the variable is unset. |
| `Logger.PadTwoReadsBack` | middlewares/logger.ts:29-30 | A month or day below 100, padded to two characters with '0', is two digits that read back as the number. |
| `Logger.LogFileName` | middlewares/logger.ts:26-32 | The name starts with "log-" and ends with ".log"; `LogFileNameFields` proves its date fields read back. |
| `Logger.LogFileNameFields` | middlewares/logger.ts:26-32 | For years 1000 to 9999 the name is `log-YYYY-MM-DD.log`, 18 characters long. The year field reads back the year, the month field `getMonth()` + 1, and the day field the day. |
| `Logger.LogFileNameInjective` | middlewares/logger.ts:26-32 | For years 1000 to 9999, two dates share a log file name exactly when they are the same day. |
| `Logger.OnlyLevels` | middlewares/logger.ts:34-35 | An entry is kept, unchanged, exactly when its level is in the list. |
| `Logger.Colorise` | middlewares/logger.ts:37-40 | The text is the upper-cased level, and it is red exactly for 'error'. |
| `Logger.ContentLength` | middlewares/logger.ts:83-86 | The label always ends in " kb", and is "0 kb" for an empty or undefined body; `ContentLengthLabel` proves the converse and that the count reads back. |
| `Logger.ContentLengthLabel` | middlewares/logger.ts:83-86 | The label is "0 kb" exactly when the body text is empty or undefined. Otherwise it starts with the UTF-8 byte count, which is at least the number of characters. |
| `Logger.TagOf` | middlewares/logger.ts:87-100 | A record is tagged INFO exactly when the status is below 400, and ERROR otherwise. |
| `Logger.LevelOf` | middlewares/logger.ts:110-114 | The logger call is at 'error' exactly when the status is 400 or more, and at 'info' otherwise. |
| `Logger.RecordFor` | middlewares/logger.ts:82-114 | A record carries the response status, the body as logged and its size label. It is tagged INFO exactly below 400 and logged at 'error' exactly from 400 up; `RecordLevelsAgree` proves tag, level, filter and colour agree. |
| `Logger.RecordLevelsAgree` | middlewares/logger.ts:87-114 | The file tag and the logger level always agree. The level filter of the application's logger keeps every access record. `colorise` shows it red exactly when it is an error, as "INFO" or "ERROR". |
| `Logger.LoggedResponse.Send` | middlewares/logger.ts:78-117 | Every body reaches the original `send` unchanged and in order. Only the first call through the wrapper sets `logged` and writes a record, built from the status at that moment and the body. Later calls and unwrapped sends write nothing, so a response never has more than one record. |
| `Logger.LogMiddleware` | middlewares/logger.ts:65-122 | `send` is wrapped exactly when the URL does not start with '/api-docs', and `next` is called exactly once. |
| `Logger.TwoSends` | middlewares/logger.ts:76-117 | A response sent through twice (as `res.send` of an object does, through `res.json` and back into `send`) forwards both bodies and keeps one record, that of the first. |
| `JsText.Utf8LengthBounds` | middlewares/logger.ts:84-85 | The byte length lies between the number of characters and four times it, and equals it for ASCII text. |
| `Auth.Register` | routes/auth.ts:9-38 | A falsy `username`, `password`, `email`, `name` or `preferred_username` gives 400 with `success: false` and no provider call. Otherwise one sign-up call is made with those fields. Success answers the provider's status code, or 200 when it is absent, with `success: true` and 'signup_ok'. Failure answers 500 with "Signup failed: " + the error text. |
| `Auth.FailureStatus` | routes/auth.ts:75 | A login failure uses the error's status code when it is present and non-zero, and 500 otherwise. |
| `Auth.Login` | routes/auth.ts:40-80 | A falsy `username` or `password` gives 400 and no provider call. Otherwise one login call is made. On success the answer is 200 with the session blob, `user_id` the token's `sub` and `username` its `cognito:username`. A provider error, or a token that does not decode, gets the failure status and "Login failed: " + the error text. |
| `Auth.LoginStatus` | routes/auth.ts:40-80 | Provided the provider reports failures with no status code or one of 400 or more, and a token that does not decode carries no status code: the answer is 200 exactly when the fields are present, the provider accepts and the token decodes. Every other answer is an error status. An undecodable token gives 500. |
| `Auth.Confirm` | routes/auth.ts:82-101 | A falsy `username` or `code` gives 400 with `success: false` and no provider call. Otherwise one confirm call is made. Success answers 200 with a message naming the user, and failure answers 500 with 'Failed to confirm user' and the error text. |
| `Auth.ConfirmedNamesUser` | routes/auth.ts:91-94 | The confirmation message contains the user name verbatim. |

## Left out

- The table, the identity provider, the websocket gateway and the search index.
  They are external services. Their answers are parameters: put, delete and
  confirm outcomes, scan results, provider results and errors.
- Scan order, delete-on-missing semantics and cursor contents belong to the
  table. The cursor is an opaque `Key`.
- `JSON.parse(lastKey)` is a parameter of `ListScores`.
- `JSON.stringify` of the store's `LastEvaluatedKey` is represented by the key
  itself. Stringifying an object never gives an empty text, so `|| null` yields
  null exactly when the key is absent.
- The count scan and the page scan of `/all` are not atomic. This is a
  concurrency property of the store and is not modelled.
- `Leaderboard.TopOf`: the in-place sort of the scanned `Items` array is
  modelled on values, as the stable descending insertion sort `SortByScore`.
  `Array.prototype.sort` must be stable. After the sort only element 0 and
  the array's length are read, and sorting does not change the length
  (`SortByScore` keeps it), so the reordering is not observable.
- The `/all` handler builds its scan parameters and then sets
  `ExclusiveStartKey` on them. `PageRequest` builds the finished value in one
  step.
- Scores are integers. A JSON `null`, string or fractional score, and the
  floating-point comparator `b.score - a.score`, are not modelled. Body and
  header fields are strings or absent.
- `JsText.ParseInt` does not distinguish negative zero from zero; both are
  falsy for `|| 5`. Numbers too large for a double, and exponent notation, are
  not modelled.
- `JsText.ToLower` and `JsText.ToUpper` map ASCII letters only. Full Unicode
  case mapping is not modelled.
- `JsonText.Unescape` does not read escaped surrogate pairs. Strings here are
  sequences of Unicode scalar values, so lone surrogates cannot occur.
- `uuidv4()` and `Date.now()` are parameters. So are the clock in log lines
  and the date behind the log file name.
- `Auth.Login`: `jwt.decode` is left out, and its claims, or the TypeError
  thrown when the token does not decode, are a parameter.
  `encrypt` (AES) is left out, and the session blob is a parameter.
- `Auth.Register`: the provider's result body is represented only by its
  `$metadata.httpStatusCode`.
- `computeSecretHash` (HMAC-SHA256) and the other identity-provider commands
  in helpers/auth.ts are not modelled.
- `encrypt`, `decrypt` and `delay` in helpers/util.ts are not modelled.
- Elasticsearch index creation and refresh in middlewares/elastic.ts are not
  modelled.
- The text of log lines is not modelled: method, URL, user agent, IP and
  request body. Nor are the file appends, console and Elasticsearch
  transports, chalk colours, the logs-directory creation and `logHttp`. The
  model keeps the decisions: which record, which level, which tag, which file
  name.
- The Express wiring in app.ts is not modelled.
- Console output of the handlers is not modelled.
