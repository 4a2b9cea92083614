# fortum-fetch in Dafny

fortum-fetch is a command-line tool for My Fortum, an electricity utility's web portal. It has two commands:

- `authenticate` drives a headless browser through the portal's login form. It then polls the page's session storage for a bearer token.
- `usage` uses that token against the REST API. It looks up the customer, lists the metering points of the active contracts and fetches consumption for each point. It then writes one template-formatted row per consumption entry.

This project models the decisions the program takes around those calls. The browser and the HTTP services are not modelled. What they would answer is an input value.

- `wrappers.dfy`: `Option`, for a Go pointer that may be nil.
- `errors.dfy`: Go error values.
  - `errors.New`, errors from libraries, `RequestStatusError` and `errors.Join`.
  - Their `Error()` text, with `%d` decimal rendering of the status.
  - `errors.As` for `*RequestStatusError`.
- `authentication.dfy`: `NewAuth`, `readAccessToken` and `getAccessToken`.
  - `readAccessToken` is a loop over the outcome of each evaluation of the token.
  - `getAccessToken` is a three-phase script over a `Browser` value.
  - The `Browser` value says how each phase ends and what each evaluation gives.
- `usage.dfy`: the REST side.
  - Address formatting, the quote trimming of `UsageTime.UnmarshalJSON` and `getStatusCode`.
  - The argument checks of `getCustomerInfo`.
  - The contract loop of `getMeteringPoints`.
  - The default time window and error mapping of `getMeteringPointUsage`.
  - The short-circuiting loop of `getConsumptionData`.
- `commands.dfy`: the global `cli` configuration as the class `Cli`.
  - `doAuthenticate` and `doUsage` as its methods.
  - `doUsage`'s steps have their own members: the single re-login on a 401 status error, the metering-point ID filter, the early returns and the nested loops that emit rows.

Each loop of the source is a method with a loop. Each such method is proved equal to a specification function, and the properties are stated on that function and in lemmas.

## Model

| member | source | states |
|---|---|---|
| `Errors.RequestStatusText` | usage.go:107-109 | `Error()` of a status error is the message, then ` (status `, then the status in decimal, then `)` |
| `Errors.RequestStatusTextDeterminesStatus` | usage.go:107-109 | two status errors with the same message have the same text only when their status is the same |
| `Errors.NatTextRoundTrip` | usage.go:108 | the decimal numeral `%d` prints for a number reads back as that number |
| `Errors.IntTextInjective` | usage.go:108 | different integers print differently under `%d` |
| `Errors.AsStatus` | main.go:80 | `errors.As` finds a status error exactly when `e` is one or wraps one through `errors.Join`. `e` itself is found first. For joined errors the search is depth first, left to right: the first part's status error wins over the second's |
| `Authentication.NewAuth` | authentication.go:27-42 | user, then password, then URL are checked; each must be non-nil and non-empty, and the first that is not decides the message. On success the user and password are copied, the login URL is the base URL followed by `/login?lang=en`, and the token is empty |
| `Authentication.PollFrom` | authentication.go:113-134 | from any attempt on: a token comes from the last evaluation made, and no earlier one gave a token; a failure means all evaluations up to the 99th gave none, and its error is decided by the last evaluation's error |
| `Authentication.ReadResult` | authentication.go:113-134 | the whole poll makes 1 to 99 evaluations. A token is the first one seen. Failure means 99 evaluations without a token: "failed to get accessToken" joined with the 99th evaluation's error, or "accessToken not found" when that evaluation had no error |
| `Authentication.FirstTokenEndsPoll` | authentication.go:119-126 | when evaluation k (k < 99) is the first to give a token, exactly k + 1 evaluations happen and that token is returned |
| `Authentication.NoTokenExhaustsPoll` | authentication.go:119-133 | when no evaluation gives a token, exactly 99 happen and the error depends only on the last one |
| `Authentication.ReadAccessToken` | authentication.go:113-134 | the loop over `attempt`, `err` and `accessToken` returns what `ReadResult` specifies, with the number of evaluations made |
| `Authentication.GetAccessToken` | authentication.go:44-111 | navigate, fill, submit, then read the token. The first failing phase ends the script, and no later phase starts. Navigate and fill errors are returned as they are; only a submit error is joined under "login failed". A token comes back only when all three phases finished and the poll found one |
| `Authentication.AcceptingPageYieldsToken` | authentication.go:104-110 | with valid credentials and a page that accepts them and shows a token, the login returns that token after all three phases and one evaluation |
| `UsageApi.Format` | usage.go:54-56 | the street name, exactly one space, then house number, house letter and residence with no separator between them |
| `UsageApi.StreetNameLeadsFormat` | usage.go:54-56 | a street name without spaces is exactly the text before the first space of the formatted address |
| `UsageApi.TrimLeadingQuotes` | usage.go:74 | removes exactly the leading run of `"`; what is left is a suffix of the input that does not start with `"` |
| `UsageApi.TrimTrailingQuotes` | usage.go:74 | removes exactly the trailing run of `"`; what is left is a prefix of the input that does not end with `"` |
| `UsageApi.TrimQuotes` | usage.go:74 | `strings.Trim(s, "\"")` leaves text that neither starts nor ends with `"` |
| `UsageApi.TrimQuotesOfQuoted` | usage.go:74 | trimming undoes any number of quotes added on either side of a value that neither starts nor ends with `"` |
| `UsageApi.UnmarshalUsageTime` | usage.go:73-84 | an empty or `null` value after trimming leaves the time unchanged with no error; a parse error leaves the time unchanged; a changed time is the parsed one |
| `UsageApi.QuotedNullLeavesTime` | usage.go:74-77 | `null` or the empty string, quoted any number of times, leaves the time unchanged with no error |
| `UsageApi.StatusCode` | usage.go:321-326 | a nil response gives the default value, otherwise the response's status |
| `UsageApi.GetCustomerInfo` | usage.go:121-168 | an empty base URL gives a plain error. An empty token then gives a status error with 401, before any request. The customer is returned only for a non-empty URL and token and a decoded body without the error flag |
| `UsageApi.ToPoint` | usage.go:223-228 | the contract's point keeps its ID, number and district-heat flag, takes the contract's address, and has resolution "minute" when 15-minute data is available, else "hour" |
| `UsageApi.MeteringPointsOf` | usage.go:215-230 | as many points as there are non-district-heat contracts, and never more points than contracts |
| `UsageApi.MeteringPointsAreElectricity` | usage.go:216-228 | no point is for district heat, and every resolution is "minute" or "hour" |
| `UsageApi.ElectricityContractsKept` | usage.go:216-229 | the point of every contract that is not for district heat is among the points |
| `UsageApi.MeteringPointsOfAppend` | usage.go:215-230 | contract order is kept: the points of two runs of contracts are the points of each, in turn |
| `UsageApi.MeteringPointsWithoutDistrictHeat` | usage.go:216-229 | with no district heat, the i-th point is the i-th contract's point |
| `UsageApi.OnlyDistrictHeatGivesNoPoints` | usage.go:217-219 | district-heat contracts are all dropped |
| `UsageApi.GetMeteringPoints` | usage.go:170-233 | in order: the base URL check, the request's error, the response's error flag. On success, the loop's result is `MeteringPointsOf` of the active contracts |
| `UsageApi.DefaultWindow` | usage.go:272-282 | a given `to` or `from` is used as it is. Without `to` the end is clock + 24 h. Without `from` the start is 72 h before the resolved end, so 48 h before the clock when both are missing |
| `UsageApi.PointUsage` | usage.go:267-319 | the request for the point's window succeeds only on a 200 answer that decodes, and then carries the point. A failed send gives a status error with the response's status, or 500 without one. Another status gives "invalid response status …". A bad body gives a joined parse error |
| `UsageApi.CollectUsage` | usage.go:254-262 | succeeds exactly when every point's fetch succeeds, and then holds their usages in point order. Otherwise the result is the error of the first failing point, joined under "could not get usage for meteringPointId …" |
| `UsageApi.ConsumptionData` | usage.go:235-265 | a successful result holds exactly one usage per point |
| `UsageApi.GetConsumptionData` | usage.go:235-265 | the loop returns what `CollectUsage` specifies after the base URL and request checks. It returns no partial list, and each usage carries its point |
| `Commands.RowFor` | main.go:172-180 | a row carries the rendered time, customer ID, point ID and number, formatted address, `Energy`, and `EnergyCost` as cost |
| `Commands.EntryRows` | main.go:166-186 | one row per consumption entry, in entry order |
| `Commands.RowsOf` | main.go:162-188 | as many rows as consumption entries over all usage items |
| `Commands.RowsOfAt` | main.go:162-188 | entry j of item i is the row that follows all rows of the earlier items and the j earlier entries, so rows follow the nested order |
| `Commands.EmitRows` | main.go:162-188 | the nested loops produce exactly `RowsOf` |
| `Commands.WithId` | main.go:110-115 | a point is kept exactly when it is in the list and has the ID |
| `Commands.WithIdAppend` | main.go:110-115 | the filter keeps the original order |
| `Commands.WithIdKeepsMatchingList` | main.go:110-116 | when every point has the ID, the list is unchanged |
| `Commands.WithIdNoMatch` | main.go:110-116 | when no point has the ID, the list becomes empty |
| `Commands.FilterById` | main.go:109-117 | the loop collects exactly `WithId` of the points |
| `Commands.Authenticated` | main.go:60-70 | a configuration error stops with "invalid authentication configuration: " and its text, and no login is tried. With a valid configuration the result is the login's token, or the login's error unchanged, as `LoginRun` gives them. A token needs all three settings and a login whose three phases finished |
| `Commands.FindCustomer` | main.go:76-96 | at most one login. A login happens exactly when the first lookup's error is or wraps a 401 status error, so always for an empty token under a non-empty URL. A non-status error and a failed login are fatal. After a successful login the token is the new one, and the retry with it either finds the customer or stops with the retry's error. Any other status error leaves no customer. A new token is the one the login gave |
| `Commands.UsageFlow` | main.go:72-189 | logins and the final token come from the customer lookup. A fatal or missing lookup ends the command before consumption is fetched. Once the customer is found, a metering-point list error is fatal, with no fetch. Once the customer and its points are known: no selected point ends the command before any fetch. Otherwise consumption is fetched for the selected points with the lookup's token. A fetch error is fatal, and fetched data is emitted as `RowsOf` the data, under the customer's ID |
| `Commands.NoSelectedPointsMeansNoFetch` | main.go:109-123 | when no point is left after the optional ID filter, the command returns before any consumption fetch |
| `Commands.UnmatchedIdSelectsNothing` | main.go:109-117 | a configured ID that no point has leaves no point selected |
| `Commands.DistrictHeatOnlySelectsNothing` | main.go:100-118 | a customer with only district-heat contracts has no point selected, with or without a configured ID |
| `Commands.NeverNoConsumptionData` | main.go:125-134 | the "no consumption data" early return is never taken: the data holds one usage per selected point, and at least one point is selected |
| `Commands.Cli.constructor` | main.go:16-33 | the configuration holds the given settings |
| `Commands.Cli.DoAuthenticate` | main.go:60-70 | returns what `Authenticated` gives for the current configuration |
| `Commands.Cli.DoUsage` | main.go:72-189 | ends as `UsageFlow` says for the configuration it started with. Only the access token can change, to the token of the one re-login, and there is at most one login |

## Behaviour worth knowing

- Navigation and form errors are returned unchanged (authentication.go:73-76 and 87-90). Only a submit error is joined under "login failed" (authentication.go:98-101). `GetAccessToken` states this phase by phase.
- After a poll without a token, the error depends only on the last evaluation: it is joined under "failed to get accessToken" when that evaluation failed, and is "accessToken not found" otherwise (authentication.go:130-133). `PollError` and `ReadResult` state this.
- In `getConsumptionData` the `u != nil` test (usage.go:259) never fails, because `getMeteringPointUsage` returns a usage on every successful path. The model appends every successful usage. As a consequence the "no consumption data" return in main.go:129-134 cannot be reached once a point is selected (`NeverNoConsumptionData`).

## Left out

- Browser automation is not modelled: the browser process and context, the headless and GPU flags, the 10-second phase timeouts, the 1-second settle sleep, the 100 ms poll sleep, and the selectors. Each phase is one outcome and each token read one `Evaluation`.
- Releasing the browser contexts is not modelled (`defer cancel()` plus the explicit `cancel()` calls). Go cancel functions may be called more than once, and nothing observable in the model depends on them.
- The HTTP client, `buildRequest`, `url.Parse`, `client.Do`, status checks and JSON decoding are left out for `getCustomerInfo` and `getMeteringPoints`. Together they are one input, `remote`.
- The nil-response dereference at usage.go:146 and usage.go:189 is left out for the same reason.
- For consumption, request setup is the `setup` input and each request's answer is an `Exchange`. Reusing one `*http.Request` across points is not modelled: every call sets every query value the model carries.
- Query encoding and date formatting are not modelled: the `from`/`to` dates and the RFC 3339 `latestMeasurement`. `UsageQuery` carries the instants in seconds.
- `time.Parse`, time zones and RFC 3339 output are not modelled. `UnmarshalUsageTime` takes the parser as a function, and rows take the rendered time from `render`.
- `UsageApi.UnmarshalUsageTime` takes the JSON bytes as characters. Only the ASCII `"` and the literals "" and "null" matter to it.
- The source reads the clock once per metering point. `ConsumptionApi.clock(i)` is the reading for the i-th point.
- `Energy` and `EnergyCost` are `float64`. They are carried as opaque bits and never computed on.
- Command-line and YAML configuration parsing, debug logging and the `main` dispatch are not modelled. Neither is printing the token.
- `log.Fatal` is the `Fatal` exit of `doUsage` and the `Err` result of `doAuthenticate`. Process exit itself is not modelled.
- Template parsing, `time.LoadLocation` and template execution errors in `doUsage` are not modelled (main.go:139-157, main.go:182-185). `Emitted` holds the rows that would be handed to the template.
- A status error other than 401 from the first customer lookup is dropped. The command then goes on with a nil customer and dereferences it at main.go:100. The model ends that path with `NilCustomer` and states nothing more.
- main.go:167 takes two results from `atLocation`, which returns one string (usage.go:86-88). The row time is `render` of the entry's time, with no error path.
- `RequestStatusError.Status` is a Go `int`. The model uses an unbounded integer, which is the same for every status an HTTP response can carry.
