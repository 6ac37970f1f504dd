# Submission pipeline of the Galxe NFT checker

This project models the `/submit` handler of an Intercom Canvas Kit app.
The app checks a wallet address against Galxe campaigns. A submission holds
an address and either a campaign id or a space id:

- A campaign id is resolved with one query to the Galxe GraphQL service.
- A space id is first expanded into the ids of the space's campaigns. Each of
  those campaigns is then resolved.

The resolved campaigns are rendered as a list of Canvas Kit components. A
failure is rendered as an error card instead.

The `http.ResponseWriter` is modelled as a value, `ResponseWriter`, that the
handler threads through its writes. It holds the status, once one has been
written, and the canvas envelopes written so far, in order. As in Go's HTTP
server, only the first status written takes effect, and a body written before
any status implies status 200.

The project has five modules, one per file:

- `Wrappers` (`wrappers.dfy`): `Option` and `Result`.
- `Strconv` (`strconv.dfy`): `strconv.Atoi` for 64-bit `int`, the `%d` and `%v` formatting the presenter uses, and their round trip.
- `CanvasKit` (`canvaskit.dfy`): the data shapes. These are components, actions, the form input, the campaign and space records, the error values and the static initial form.
- `Presenter` (`presenter.dfy`):
  - `BuildCampaignComponents` and `BuildErrorComponents` as methods with their appends, proved against specification functions.
  - The success trailer button.
  - A decoder that reads a rendering back, which shows that no displayed field is lost.
- `Submission` (`submission.dfy`):
  - `Validate` (the three checks in the handler's order) and `Dispatch`.
  - `CollectCampaigns`, the space-path aggregation.
  - `Submit`, the handler from the decoded input on.

The remote service appears as two function parameters:
`queryCampaign(id, address)` and `querySpace(id)`. Each returns a record or an
error. `Submit` and `CollectCampaigns` also return `issued`, the queries the
model sends, in the order it sends them. It is used to state two things: a
rejected submission sends no query, and the space path queries every member
exactly once.

The handler resolves space members in goroutines and appends the results
under a mutex. The model does this with a sequential loop. Its contract
promises the collected campaigns only up to permutation (`multiset`
equality), and the same for the member queries. On the space path `Submit`
promises `IsSpaceResponse`, which is defined just below. The facts about each
body follow from it through `SpaceResponseShape`: its last body renders some
permutation of the successful members (`IsSuccessRenderingOf`), and the
lemmas about that predicate hold for every order. A member whose query
fails renders its error to the same response writer from inside its
goroutine. That happens before `wg.Done()`, so before `wg.Wait()` returns and
before the success write. The model therefore writes one error canvas per
failed member, in some order, and then the success canvas
(`IsSpaceResponse`). The first of those writes fixes the status, so the client
gets 400 as soon as one member fails.

Three behaviours of the handler a reader may not expect:

- Errors are rendered with HTTP status 400. `RenderErrorCanvas` calls `WriteHeader(StatusBadRequest)` (main.go:529); it does not answer with a success status.
- The space id is parsed before the address is checked. A malformed space id is therefore reported even when the address is empty.
- The space id need not be positive. Any value `Atoi` accepts is accepted, including "-3", and any non-zero value counts as a target.

## Model

| member | source | states |
|---|---|---|
| `Strconv.Atoi` | main.go:228-235 | Go's `strconv.Atoi` for 64-bit `int`: optional sign, digit scan, 64-bit range; every error names the rejected input |
| `Strconv.AtoiNonLiteralError` | main.go:229 | every input that is not a decimal literal fails; the error is a range error when the digits before the first non-digit already exceed 64 unsigned bits (the order `ParseUint` checks in), and a syntax error otherwise, including for "", "+" and "-" |
| `Strconv.AtoiAcceptsDecimalLiterals` | main.go:229 | `Atoi` succeeds exactly on an optional sign followed by one or more digits whose value fits in 64 bits, and then returns that value |
| `Strconv.AtoiRangeError` | main.go:229-233 | a well-formed literal outside the 64-bit range is rejected with a range error |
| `Strconv.SyntaxErrorText` | main.go:229-232 | the text of a syntax error is `strconv.Atoi: parsing "<input>": invalid syntax` |
| `Strconv.RangeErrorText` | main.go:229-232 | the text of a range error is `strconv.Atoi: parsing "<input>": value out of range` |
| `Strconv.NatDigits` | main.go:465 | the `%d` digits are non-empty decimal digits without a leading zero |
| `Strconv.AtoiFormatInt` | main.go:465 | what `%d` prints for any 64-bit integer is a decimal literal, and `Atoi` parses it back to the same number |
| `CanvasKit.MemberIds` | main.go:318 | the member ids of a space are the ids of its campaign list, in list order |
| `CanvasKit.InitFormMatchesSubmission` | main.go:149-197 | the initial form's inputs are exactly `address`, `campaignId` and `spaceId`, and its only action is `submit` |
| `Presenter.CampaignNodes` | main.go:441-467 | one campaign renders as four text nodes without actions: a header, then three paragraphs |
| `Presenter.RenderCampaignsLength` | main.go:437-477 | n campaigns render as exactly 4·n components |
| `Presenter.RenderCampaignsAt` | main.go:440-474 | block i of the rendering is the block of `campaigns[i]`, so the input order is kept |
| `Presenter.RenderCampaignsAreText` | main.go:440-467 | every node of the campaign blocks is a text node without an action |
| `Presenter.RenderCampaignsEach` | main.go:437-477 | the rendering of n campaigns is 4·n nodes, and block i is the block of `campaigns[i]` for every i |
| `Presenter.BuildCampaignComponents` | main.go:437-477 | the appending loop produces exactly `RenderCampaigns(campaigns)`, the block of each campaign in input order |
| `Presenter.SuccessComponentsShape` | main.go:277-283 | a success rendering has 4·n+1 nodes, and the last is the `query-again` button with action `submit`; every other node is action-free text, and no node has action `init` |
| `Presenter.ErrorMessage` | main.go:482-486 | the message is the error's text, or "Unknown error occurred" for a nil error |
| `Presenter.ErrorMessageTexts` | main.go:482-486 | the message of a malformed space id is the full `Atoi` error text naming the input, for either kind; the message of a failed query is the client's message unchanged |
| `Presenter.BuildErrorComponents` | main.go:479-512 | always three nodes: a header "Error: " + message, a spacer of size "s", and the `refresh-button` with action `init` |
| `Presenter.ErrorComponentsNeverSubmit` | main.go:501-509 | no error rendering has a `submit` action, and no error rendering equals any success rendering |
| `Presenter.DisplayedAll` | main.go:440 | one displayed summary per campaign, the i-th that of `campaigns[i]` |
| `Presenter.ParseBoolFormatBool` | main.go:458 | the `%v` text of the holder flag reads back as the same flag |
| `Presenter.DecodeRenderedCampaigns` | main.go:440-467 | reading the texts of the blocks back gives each campaign's id, name, holder flag and claim count, in order, so the rendering is lossless on those fields |
| `Submission.FirstStatusWins` | main.go:528-530 | a status, once written, is never changed by a later status or body; a body written first sets status 200; bodies are only appended |
| `Submission.RenderErrorsEffect` | main.go:323-326 | rendering k errors appends their k error canvases in that order, and sets status 400 unless a status was already written or k is 0 |
| `Submission.RejectionError` | main.go:240-251 | a missing address or a missing target is rendered with a nil error; only a parse failure carries an error |
| `Submission.NilRejectionsShowUnknownError` | main.go:240-251 | those two rejections show "Error: Unknown error occurred" |
| `Submission.ParseSpaceId` | main.go:227-235 | a blank space id reads as 0 without calling `Atoi` |
| `Submission.Validate` | main.go:227-251 | the checks run in order: a space id `Atoi` rejects fails first, whatever the other fields hold; then an empty address; then a zero space id with an empty campaign id; each rejection holds exactly under its condition |
| `Submission.ValidateAcceptsExactly` | main.go:227-251 | validation accepts exactly the submissions that have an address, a blank or 64-bit decimal space id, and a campaign id or a non-zero space id |
| `Submission.ValidationOrderExamples` | main.go:227-256 | a malformed space id wins over a missing address; "-3" is a valid target; "+0" alone is no target; a campaign id wins over a space id |
| `Submission.Dispatch` | main.go:256-302 | the campaign path is taken exactly when the campaign id is non-empty, even when a space id is given |
| `Submission.SpacePathHasSpace` | main.go:247-305 | the space path only runs with an empty campaign id and a non-zero space id |
| `Submission.MemberQueries` | main.go:318-322 | one campaign query per member id, each with the submitted address |
| `Submission.Resolve` | main.go:320-322 | the answer for each member id is a campaign query with the submitted address |
| `Submission.SuccessesMembership` | main.go:322-330 | a campaign is collected exactly when some member's query returned it |
| `Submission.SuccessesAndFailures` | main.go:322-330 | every member answer is either collected or dropped, so with k of n members failing, n−k records remain |
| `Submission.AskCampaign` | main.go:258 | one campaign query: the answer is the service's answer, and the log grows by exactly that query |
| `Submission.AskSpace` | main.go:306 | one space query: the answer is the service's answer, and the log grows by exactly that query |
| `Submission.CollectCampaigns` | main.go:312-334 | every member is queried exactly once; the collected campaigns are a permutation of exactly the successful answers; the response writer receives one error rendering per failed member, in some order |
| `Submission.SuccessRenderingShape` | main.go:336-360 | in any order, rendering n collected campaigns gives 4·n+1 nodes ending with the `query-again` button; its n blocks are a permutation of the collected campaigns' blocks, counted with multiplicity |
| `Submission.EmptyRenderingIsButtonOnly` | main.go:336-353 | the success canvas of a space with no resolved member is the `query-again` button alone; it comes after the failed members' error canvases when there are any |
| `Submission.EmptySpaceResponse` | main.go:312-370 | a space with no members gets the `query-again` button alone as its whole response, with status 200 |
| `Submission.SpaceResponseShape` | main.go:312-370 | once the space is found, the client gets status 400 if any member failed and 200 only if all resolved; the response holds one error canvas per failed member (a permutation of their canvases), then the success canvas of the others |
| `Submission.RenderErrorCanvas` | main.go:514-531 | an error rendering sets status 400 unless a status was already written, and appends the three error components as one more body |
| `Submission.Submit` | main.go:225-371 | A rejected submission sends no query and renders its rejection. The campaign path sends one query and renders the one campaign plus the button, or the query's error. The space path looks the space up first, and a failed lookup is fatal with no member queried. Otherwise every member is queried once, each failed member writes its error canvas, and the successes are written last, in some order, followed by the button |

## Left out

- JSON decoding of the request, marshalling of the response and their failure branches (main.go:215-220, 293-298, 362-367, 523-527): library I/O. The model starts from the decoded `input_values` and ends with the status and the canvases written.
- HTTP server setup, routing, CORS, the port variable and the header writes (main.go:121-141, 300, 369, 530): transport plumbing. The `Content-Type` header set after `WriteHeader` on the error path is not modelled.
- `QueryCampaign` and `QuerySpace` (main.go:374-435): network calls to a foreign service, each replaced by a function parameter that answers with a record or an error. The GraphQL query strings are not modelled.
- Goroutines, `sync.Mutex` and `sync.WaitGroup` (main.go:313-334): the model resolves the members one after another. Only the effect is kept: each member is attempted once, before rendering, and the successes are collected in an unpromised order.
- The error writes of the member goroutines (main.go:325) run concurrently with each other, on a response writer that is not safe for concurrent use. The model treats each write as atomic, so two error canvases never interleave within a body.
- The `http.ResponseWriter` is threaded as a value rather than updated in place; only its status and the canvases written are modelled, not the header map or the bytes of the JSON encoding.
- `Strconv.Quote`: Go's escaping of quotes, backslashes and non-printable characters in the error text is not modelled; the input is only wrapped in double quotes.
- Strings are sequences of characters, not UTF-8 bytes. `Atoi` rejects every non-ASCII character either way.
- `InitCanvasKit` (main.go:143-211) is kept only as the constant `INIT_FORM`, because it contains no logic.
- The label, style and other display fields of the static buttons are modelled as constants, with no property beyond their id and action.
