# vulnerabilities-explorer, modelled in Dafny

The system has two parts:

- A Go back end (`server/main.go`). It fetches the CVEs that NVD published in the last ten days and calls the database function `add_vulnerability` for each one. It then answers with the table's rows published in the last 30 days, as a JSON list (`null` when there are none).
- A React page (`client/src/App.tsx`). It has a "Search Vulnerabilities" button. The button fetches that list, keeps the first 100 records and shows them in a table. A busy flag disables the button while the request is pending.

This project models the sequential logic of both parts:

- `server.dfy`, module `Server`, covers the back end:
  - the decoded NVD CVE API 2.0 response, as datatypes;
  - the choice of CVSS score: first v2 metric, else first v3.1 metric, else 0.0;
  - the insert loop, in which one failed insert is logged and skipped (`Ingest`);
  - the loop that reads the rows back, where any scan error or iteration error gives a 500 (`ReadRows`);
  - the answer as written, where an empty result is sent as JSON `null` (`Collect`), and the answer as intended, where it is sent as `[]` (`CollectIntended`).
- `client.dfy`, module `Client`, covers the page. `App` is a class with the component's two state fields, `isLoading` and `vulnerabilities`:
  - `onSearch` is split at its `await` into `BeginSearch` and `SettleSearch`. `OnSearch` is one whole call.
  - `Click` is the button, including its `disabled={isLoading}` rule.
  - `Rows` is the table body.
  - A ghost counter `inFlight` counts the requests that are still pending.
  - A ghost `trace` lists the observable effects in order: the setter calls, the GET, `console.error` and `alert`.

Every outside step is passed in as a parameter:

- whether each database insert succeeded (`execOk`);
- what each `rows.Scan` gave back, and what `rows.Err()` reported (`rows`, `iterErr`);
- how the client's GET ended (`FetchOutcome`).

## Model

| member | source | states |
|---|---|---|
| Server.CvssScore | server/main.go:132-137 | the stored score is the first element of the priority list: all v2 base scores, then all v3.1 base scores, then 0.0 |
| Server.ScorePriority | server/main.go:132-137 | a non-empty v2 list gives its first base score; otherwise a non-empty v3.1 list gives its first base score; with both empty the score is 0.0 |
| Server.V2OverridesV31 | server/main.go:133-136 | when a v2 metric exists, replacing the v3.1 list by any other list leaves the score unchanged |
| Server.ScoreIsReported | server/main.go:132-137 | the score is 0.0 or a base score NVD reported for the entry: it is selected, never computed |
| Server.BaseScores | server/main.go:38-47 | the base scores of a metric list, one per metric, in list order |
| Server.Ingest | server/main.go:127-144 | one add_vulnerability call per response entry, in response order, whatever earlier calls returned. Id, published and status are copied verbatim. The description is the first description's value, whatever its language. The score is CvssScore. The logged positions are exactly the failed calls |
| Server.FailedIndicesSpec | server/main.go:139-143 | a position is logged exactly when its insert failed; the logged positions are strictly increasing and below the number of attempts |
| Server.ReadRows | server/main.go:158-171 | the loop ends with all rows exactly when every row scanned and `rows.Err()` reported nothing. It then holds one Vulnerability per row, in row order. Otherwise it ends with the first scan error's text, or with the iteration error's text when every row scanned |
| Server.EncodeAsWritten | server/main.go:158-174 | as written, the client gets the list back only when it is non-empty; an empty (nil) slice reaches it as null, which is not a list |
| Server.Encode | server/main.go:158-174 | the intended encoding gives the client every list back unchanged, the empty one included |
| Server.NoRowsEncodesNull | server/main.go:158-174 | counterexample: with no rows the body as written is null and the client reads no list, while the intended encoding gives the empty list |
| Server.Collect | server/main.go:158-174 | the handler's answer as written. It is 200 exactly when every row scanned and iteration ended without error. With at least one row the client reads one Vulnerability per row, in row order; with no rows the body is null. Otherwise it is a 500 with the first scan error's text, or with the iteration error's text |
| Server.CollectIntended | server/main.go:158-174 | the answer as intended: the same error cases, and on a 200 the client reads one Vulnerability per row, in row order, also when there are no rows |
| Client.Take | client/src/App.tsx:30 | `data.slice(0, n)` is a prefix of data, as long as data or n, whichever is shorter |
| Client.TakeKeepsShort | client/src/App.tsx:30 | a payload of at most n records is kept whole; a longer one keeps exactly n, each at its original position |
| Client.Rows | client/src/App.tsx:75-98 | one table row per record, in record order, keyed by that record's id, showing its CVE id, published, description, status and score |
| Client.RowsTake | client/src/App.tsx:30 | rendering the first n records gives the first n rows of rendering all records |
| Client.SettledAlerts | client/src/App.tsx:30-36 | after the request ends, a failure raises exactly one alert with the message "Something went wrong."; a success raises none. The last effect is always setLoading(false) |
| Client.App.constructor | client/src/App.tsx:23-24 | the view starts not loading and with no records |
| Client.App.Disabled | client/src/App.tsx:47 | the button is disabled exactly while one request is pending |
| Client.App.RenderedRows | client/src/App.tsx:75-76 | the table shows one row per element of `vulnerabilities`, in the same order |
| Client.App.BeginSearch | client/src/App.tsx:27-29 | setLoading(true) comes first, then the GET to the base URL plus /api/vulnerabilities; the records are not touched |
| Client.App.SettleSearch | client/src/App.tsx:30-36 | on success the records become the first 100 received, in order. On failure the records stay as they were, and console.error and alert happen. Either way setLoading(false) ends it. The invariant is preserved |
| Client.App.OnSearch | client/src/App.tsx:26-37 | a whole search ends not loading on both paths. On success the records are the first 100 received; on failure they are unchanged. The alert log grows by exactly one "Something went wrong." on failure, and by nothing on success |
| Client.App.Click | client/src/App.tsx:44-47 | a disabled button (isLoading) ignores the click; an enabled one starts a search. The invariant "busy exactly while one request is pending" is preserved, so no second request starts while one is pending |

## Left out

- The outbound NVD request, its URL and its date window (`time.Now`, `AddDate`, `Format`) are not modelled. The model starts from an already decoded `VulnrResponse`.
- JSON decoding is not modelled. Nor are `log.Fatal`/`log.Fatalln`, which end the process when the fetch, the decode or `db.Begin` fails.
- The database connection, `godotenv`, the router, CORS and `ListenAndServe` are not modelled.
- The transaction is not modelled: only the outcome of each insert is passed in. Once one statement fails, PostgreSQL aborts the transaction and later inserts fail too. The oracle sequence allows for that, but nothing in the model requires it.
- `tx.Commit` is not modelled. After a failed commit the handler logs the error and goes on (main.go:145-148). Whether the batch was stored shows only in the rows the query returns, and `Collect` takes those rows as given.
- The 30-day query (`db.Query`) and its 500 on failure are not modelled. `Collect` starts once the rows are open.
- The body of `add_vulnerability` and the table schema are in the database and are not part of this model.
- `time.Parse`, whose error is ignored, is not modelled. `published` is passed through as an opaque string. The client's `toDateString` formatting is not modelled either, so the published cell shows that string.
- Server.Ingest: an entry with an empty `descriptions` list makes the Go code panic on `Descriptions[0]`. The model therefore requires every entry to have at least one description.
- The axios call, async scheduling and React's `useState` machinery are not modelled. The fetch is a parameter, and setter calls take effect at once.
- A 200 answer whose body is not JSON reaches the client as a string. `slice` does not throw on a string, so the view stores it and fails later, during render. `FetchOutcome` has only a list of records or a throw, so this case is not modelled.
- The console output of `console.error` is not modelled. It is recorded as one trace effect without its argument.
- `CvssScore.tsx` is not modelled: it is a floating-point product handed to a third-party progress-ring widget. The markup, the CSS classes, `Spinner` and `vite.config.ts` are not modelled either.
- Go's `float64` and JavaScript's `number` are modelled as `real`. Scores are only copied, never computed.

## Findings

| source | as written | input that shows it | evidently intended | confidence | as-written member | corrected member |
|---|---|---|---|---|---|---|
| server/main.go:158-174 | `var vulnerabilities []Vulnerability` stays a nil slice when no row is scanned, and `json.Encode` writes a nil slice as `null`. On the client, `null.slice(0, 100)` throws, so the page shows "Something went wrong." | the 30-day query returns zero rows | answer `[]`, so the page shows an empty table | high; not executed | Server.Collect | Server.CollectIntended |

`Server.Collect` answers with `Server.EncodeAsWritten`, as the code does. `Server.NoRowsEncodesNull` exhibits the empty case. `Server.CollectIntended` answers with the corrected `Server.Encode`, which writes every list as a JSON array.
