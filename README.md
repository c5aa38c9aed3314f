# ABL parcel resolver: a Dafny model

The service takes a coordinate in Buenos Aires and looks up the cadastral
record of the parcel there. From that record it works out the parcel number
("partida"). For a horizontal property (a building divided into units) the
result is the list of sub-units, each with its floor and unit. Otherwise it is
the matrix number (`pdamatriz`).

The service has two entry points, the POST handlers at app.js:26 and app.js:47:

- `/fetch-abl-data` calls `fetchAblData`, which only resolves the number. The
  handler then emails a truthy result to the requester through `sendEmail`.
- `/verification` calls `verifyProperty`, which also checks that the parcel
  still exists. For a matrix number it asks the debt-statement endpoint, and
  it reads the answer from the body of that reply.

Every upstream GET goes through `fetchWithRetries`, a bounded retry loop.

This project models that core in four modules:

- `Retry` (`retry.dfy`): `fetchWithRetries` as a method with a loop. The
  transport is scripted: attempt `i` yields `transport(i)`, either a response
  or an error. The method is proved against the functions `Retried` (how the
  call ends) and `AttemptsMade` (how many GETs it issues). Lemmas then state
  the loop's promises on those functions.
- `Parcels` (`parcels.dfy`): `verifyProperty` and `fetchAblData` as functions
  over the way each fetch ended (a returned `response.data`, a thrown error,
  or `undefined`). Two methods run the same logic over scripted transports
  through `FetchWithRetries`, and they record which lookups they make, each
  lookup one `fetchWithRetries` call of up to five GETs. Lemmas
  state each branch and relate the two entry points.
- `Email` (`email.dfy`): the plain-text body `sendEmail` writes. Its layout is
  stated line by line through a reader that splits the text on `"\n"`.
- `JsValues` (`js_values.dfy`): the JavaScript behaviour the code relies on:
  - the truthiness of the JSON scalars it reads (an empty-string `pdamatriz`
    counts as absent);
  - how `${…}` renders them (`undefined`, `null`, decimal numbers);
  - `String.prototype.includes`;
  - `Array.prototype.join`.

Facts about app.js that the model keeps as written:

- Only one negative signal is read from the debt probe:
  `data.includes('"statusCode":402')` (app.js:87). On a string body that is a
  substring search; on an array body it is an element search, so an empty
  array means the parcel exists; any other body has no `includes` and the call
  throws a TypeError. The code has no PDF content-type rule and no rule for an
  HTTP 402 status. An HTTP error from the probe is rethrown, not classified.
- The retry loop retries on every error, whatever its kind or HTTP status
  (app.js:18-20).
- `fetchAblData` treats a horizontal record whose `phs` array is empty as
  resolved. It returns an empty list, the handler sends an email listing no
  parcel; it does not return `null`. `verifyProperty` reports the
  same record as "does not exist". `Parcels.EmptyPhsDisagreement` states both
  results.
- Falsy primary data makes `fetchAblData` return `null`. It makes
  `verifyProperty` return an object with an `error` field, not a thrown
  error.

## Model

| member | source | states |
|---|---|---|
| `Retry.FetchWithRetries` | app.js:13-23 | the loop ends exactly as `Retried` says and issues exactly `AttemptsMade` GETs |
| `Retry.FirstSuccess` | app.js:14-17 | the index it gives is at most the bound; every earlier attempt failed; below the bound it is a success |
| `Retry.RetryReturnsFirstSuccess` | app.js:14-17 | a success preceded only by failures is returned, after exactly that many attempts plus one, so nothing is attempted after it |
| `Retry.RetryRethrowsLastError` | app.js:18-20 | when every attempt fails, all `maxRetries` are made and the last attempt's error is thrown |
| `Retry.RetryUndefinedIffNoAttempt` | app.js:14-22 | the call resolves to `undefined`, with no attempt made, exactly when `maxRetries` ≤ 0 |
| `Retry.RetryEndsWithLastAttempt` | app.js:14-21 | with a positive bound, between 1 and `maxRetries` attempts are made and the call ends with the outcome of the last one |
| `Retry.RetryIgnoresLaterAttempts` | app.js:14-17 | transports that agree on the attempts made give the same result and count, so nothing beyond them is consulted |
| `JsValues.Truthy` | app.js:79 | a scalar is falsy exactly when it is `""`, `0`, `false`, `null` or `undefined`; the same test reads `pdamatriz` at app.js:136 and, through `Resolved`, the result at app.js:32 |
| `JsValues.NatText` | app.js:159 | a number renders as a non-empty string of decimal digits |
| `JsValues.NatTextRoundTrip` | app.js:175 | reading the rendered digits back gives the number, and there is no leading zero |
| `JsValues.Interpolate` | app.js:159 | `${s}` of a string is that string, and a rendered number has no newline |
| `JsValues.InterpolateNumberRoundTrip` | app.js:175 | a rendered safe integer starts with `-` exactly when it is negative, and its digits read back as its magnitude |
| `JsValues.Includes` | app.js:87 | the empty pattern is always found, and a found pattern is no longer than the text |
| `JsValues.IncludesIsSubstring` | app.js:87 | `includes` is true exactly when the marker occurs at some index of the body |
| `JsValues.Join` | app.js:159 | joining no parts gives the empty string, and a join starts with its first part |
| `JsValues.SplitJoinRoundTrip` | app.js:159 | entries joined with `"\n"` split back into the same entries when none holds a newline |
| `Parcels.DataOf` | app.js:66-68 | reading `response.data` succeeds exactly for a returned response; a thrown fetch error passes through, and `undefined` gives the TypeError |
| `Parcels.IsHorizontal` | app.js:69 | the flag test holds only for a truthy flag, and never for a non-string value, since `===` does not coerce |
| `Parcels.HasUnits` | app.js:72 | the `&ph` reply has sub-units exactly when it is a record whose `phs` is present and is not the empty array |
| `Parcels.MarkerIn` | app.js:87 | `includes` throws a TypeError exactly for a body that is neither string nor array; on a string it finds the marker exactly when it occurs at some index, on an array exactly when some element is the marker string |
| `Parcels.Project` | app.js:125-129 | each of `pdahorizontal`, `piso`, `dpto` is copied from the entry when present and is `undefined` when missing |
| `Parcels.VerifyProperty` | app.js:62-109 | whatever it throws is the error of one of the three fetches or a TypeError of reading `.data` of undefined or calling a missing `includes`; it invents no error |
| `Parcels.Message` | app.js:74-103 | the message is "La partida existe" exactly for the two exists results and "La partida no existe" exactly for does-not-exist |
| `Parcels.FetchAblData` | app.js:112-152 | a matrix number it returns is truthy; whatever it throws is the error of one of the two fetches or the TypeError of reading `.data` of undefined |
| `Parcels.Resolved` | app.js:32 | a sub-unit list, even an empty one, is truthy; null is not; a matrix value is truthy exactly when `Truthy` says so |
| `Parcels.ProjectAll` | app.js:125-129 | the mapped list has the length of `phs`, and entry i is `{pdahorizontal, piso, dpto}` read from entry i (undefined when missing) |
| `Parcels.VerifyPropertyVia` | app.js:62-109 | over retried transports the result is `VerifyProperty`'s; the lookups are exactly the record once, then `&ph` for a horizontal record or the debt probe for a non-horizontal record with a truthy `pdamatriz`, and nothing else |
| `Parcels.FetchAblDataVia` | app.js:112-152 | over retried transports the result is `FetchAblData`'s; the lookups are exactly the record once, then `&ph` for a horizontal record, and never the debt probe |
| `Parcels.VerifyHorizontalFirst` | app.js:69-79 | a horizontal record gives the same result whatever its `pdamatriz` and whatever the probe would say |
| `Parcels.VerifyFlagMustBeSi` | app.js:69 | with any flag other than the exact string "Si", the sub-units reply has no effect on the result |
| `Parcels.VerifyHorizontal` | app.js:69-78 | horizontal: exists, with `phs` unchanged, exactly when `phs` is present and non-empty, and otherwise does not exist; a failed `&ph` fetch is rethrown |
| `Parcels.VerifyMatrix` | app.js:79-93 | matrix case, string body: does not exist exactly when the body contains `"statusCode":402`, and otherwise exists with the same `pdamatriz` |
| `Parcels.VerifyMatrixArrayBody` | app.js:79-93 | matrix case, array body: does not exist exactly when some element is the string `"statusCode":402`, and otherwise exists with the same `pdamatriz` |
| `Parcels.VerifyMatrixOtherBody` | app.js:85-87 | matrix case, a body that is neither string nor array: the `includes` call throws a TypeError |
| `Parcels.VerifyNeitherFlagNorMatrix` | app.js:99-100 | neither horizontal nor a truthy `pdamatriz` (an empty string is absent): does not exist |
| `Parcels.VerifyEmptyData` | app.js:101-104 | falsy primary data gives the error object, neither exists nor does not exist |
| `Parcels.VerifyRethrowsFetchErrors` | app.js:94-108 | a failed primary fetch, or a failed fetch in the branch taken, is rethrown unchanged |
| `Parcels.VerifyAnswerNeedsFetchedData` | app.js:66-100 | every exists or does-not-exist answer needs a returned record and, in its branch, a returned `&ph` reply or a probe body that is a string or an array |
| `Parcels.VerifyPersistentOutage` | app.js:105-108 | when all five primary attempts fail, the verification throws the last attempt's error and never reports "does not exist" |
| `Parcels.AblHorizontal` | app.js:121-135 | horizontal with `phs`: a list with the same length and order, copying the three fields (empty `phs` gives an empty list); without `phs`: null |
| `Parcels.AblMatrix` | app.js:136-143 | non-horizontal: a truthy `pdamatriz` is returned verbatim, and otherwise the result is null |
| `Parcels.AblHorizontalFirst` | app.js:121-139 | a horizontal record resolves the same whatever its `pdamatriz`, and never to that matrix number |
| `Parcels.AblEmptyOrFailed` | app.js:144-151 | falsy primary data gives null; failed primary and `&ph` fetches are rethrown |
| `Parcels.SendsEmailIffResolved` | app.js:31-39 | the handler emails exactly when the result is a matrix number or a sub-unit list, even an empty one |
| `Parcels.ResolverAgreesWithVerifierOnUnits` | app.js:121-131 | `verifyProperty` reports sub-units exactly when `fetchAblData` lists a non-empty list, and the list is those sub-units mapped |
| `Parcels.ResolverAgreesWithVerifierOnMatrix` | app.js:136-139 | `verifyProperty` reports a matrix number as existing only when `fetchAblData` returns that number; when it does, `verifyProperty` gives exists with that number, does not exist, or an error, and a probe body without the marker gives exists |
| `Parcels.EmptyPhsDisagreement` | app.js:124 | an empty `phs` does not exist for `verifyProperty`, but resolves to an empty list that the handler treats as success |
| `Email.EntryLine` | app.js:159 | a sub-unit's line starts with `Partida: ` and is a single line when its fields render without a newline |
| `Email.EntryLines` | app.js:159 | one line per sub-unit, in order, each `Partida: X, Piso: Y, Dpto: Z` |
| `Email.PlainText` | app.js:158-175 | the text opens with the list heading line exactly for an array, and with the single-number heading line otherwise |
| `Email.PlainTextListsUnits` | app.js:158-162 | list case: the heading line, one line per sub-unit in input order, a blank line, then the closing line |
| `Email.PlainTextEmptyList` | app.js:159-162 | an empty list still gets the list layout, with no parcel line |
| `Email.PlainTextShowsMatrix` | app.js:175 | single case: the number on its own line right after `El número de partida es:`, then a blank line and the closing |

## Left out

- Express routing, request parsing and response shaping (app.js:7-10, 26-59, 220-224) are not modelled. They are a thin adapter. The model keeps only the handler's decision to send an email when the result is truthy (app.js:32).
- The HTTP calls through axios are not modelled. Each transport is a scripted sequence of attempt outcomes. The 3000 ms timeout per attempt is wall-clock timing and is not modelled.
- URL building from the coordinate and from `pdamatriz` is not modelled. The coordinate only selects which replies the scripts give.
- Axios decoding a reply body (for example, parsing JSON text into an object) is not modelled. The debt probe's `response.data` is given as it reaches the code: a string, an array of scalars, or any other value.
- Parcels.ProbeData: an array body whose elements are objects or nested arrays is not modelled; such elements never equal the marker string, so they behave like any other non-matching scalar.
- Retry.FetchWithRetries: `maxRetries` is an integer. JavaScript also allows a fractional bound. With such a bound the test `i === maxRetries - 1` never holds, so a success still returns its response, but when every attempt fails the loop falls through and the call resolves to `undefined` instead of throwing. The model does not cover that case.
- JsValues.Scalar: numbers are the safe integers (magnitude at most 2^53 - 1). Fractional numbers, integers that JSON parsing would round, and their rendering are not modelled. Objects and arrays as field values are not modelled either.
- JsValues.NatText: exact only for the safe integers `Interpolate` gives it. JavaScript writes a number of magnitude 10^21 or more in exponent form, which the model does not render.
- JsValues.Interpolate: a number renders as plain decimal; this matches JavaScript for every safe integer, the only numbers a `Scalar` holds.
- Parcels.Data: truthy data that is not an object (a string, say) reads like a record whose fields are all undefined. The model represents it that way.
- Parcels.Phs: `phs` is either absent or an array of objects. A truthy `phs` that is not an array is not modelled. Neither is a `null` entry inside `phs`, which would make the `map` in `fetchAblData` throw.
- Email.PlainTextListsUnits: the line-by-line layout is stated only when no field renders with a newline. A newline inside a field splits that entry's line.
- Email.PlainTextShowsMatrix: stated only when the parcel number renders without a newline, for the same reason. A string `pdamatriz` containing a newline would split the number's line.
- Nodemailer transport setup and sending (app.js:186-217), dotenv and credentials are external I/O and are not modelled.
- The HTML email body (app.js:160, 163-173, 176-183) is not modelled. It is presentation.
- Console logging is not modelled. It has no effect on the results.
