# A verified model of the Fastly Compute SDK for Go

The SDK is mostly thin wrappers around host calls. This project models the parts of it that carry logic,
treats the host as an environment that keeps the contract written next to each host call, and proves in Dafny
what the guest code does against any such environment.

| module | what it models |
|---|---|
| `GuestCache`, `GuestCacheProof`, `GuestCacheRuns`, `GuestCacheTruth`, `GuestCacheAnswers`, `GuestCacheReplies`, `GuestCacheLiveness` | the guest-side HTTP cache transaction: any number of concurrent sends for one cache key, interleaved at every host call, with background revalidation (section 3 of RFC 5861), stale-if-error substitution (section 4 of RFC 5861), hooks, and the request collapsing of the host |
| `Candidate` | `CandidateResponse`: override flags, the remembered suggestion, `finalizeOptions` |
| `CacheOptions` | the cache write options in seconds, the host's record in nanoseconds, and the way between them |
| `Cookie`, `CookieRoundTrip`, `CookieText`, `CookieReading`, `CookieHeader`, `DomainName`, `Text` | the cookie printer and the two cookie parsers (sections 4.1.1, 5.2 and 5.4 of RFC 6265), and the domain scanner with its label grammar (section 2.3.4 of RFC 1035) |
| `HostValues`, `Buffers` | values that the host returns in pages, and strings it writes into buffers that may be too small |
| `Body`, `Streams`, `SimpleCache` | bodies with the log of what the host is told about them, the copies into them, and `GetOrSet` |
| `ResponseWriter`, `ResponseRuns`, `ServeMany` | the response writer with early hints (RFC 8297) and trailers, and the loops that serve requests |
| `KvList` | listing the keys of a KV store |

How to read it:

* An object that the SDK updates in place is a class, and each of its methods is proved against a specification
  function or a statement of the new state. The results about all inputs and all runs are lemmas, or the contracts
  of methods that drive such an object through an arbitrary sequence of calls (`ResponseRuns.Handle`,
  `KvList.ListAll`, `HostValues.ReadAll`). The setters and getters of a candidate are methods tied to `Candidate.Step`
  and `Candidate.Get`, which those lemmas are about; only the ones with more than one branch have a row below.
* Host calls are methods or steps whose answers are not determined. A host that may fail has a field `reliable`;
  the contracts say what holds when it never fails and what still holds when it does.
* Machine integers are explicit (`CacheOptions.Wrap`). Bytes of header text are modelled as characters. The option
  masks, whose bits are distinct powers of two, are sets of flags.
* A concurrent run is a sequence of moves; a move names a client, one of its two tasks, and what the environment
  answers. Program points are numbered so that every step goes down, which also bounds every run.

Where the code does something its documentation does not say, the model follows the code:

* When a background revalidation gets no candidate, its goroutine returns without closing the handle
  (fsthttp/request.go:667-670), so the obligation stays with a handle nobody owns. `OnlyTheEarlyReturnStrands`
  shows that this is the only way, `StrandingRun` a run, and `StrandedForever` and `NobodyElectedAgain` what follows.
* A failed `choose_stale` is ignored (fsthttp/request.go:704), after which there may be no entry to substitute and
  the code dereferences nil. `PanicsExactly` gives the condition and `PanickingRun` a run; with a host that keeps
  its contract there is no other panic.
* `flushToABI` does not carry the length (fsthttp/cache.go:72-80), although the host's description of the options
  has one. `LengthNeverFlushed` says exactly which options survive.
* A TTL override smaller than the age is not written (fsthttp/cache.go:664-668), so the lifetime that is written can
  exceed the freshness that is reported. `WrittenLifetime` gives the exact condition, `ShortTTLIgnored` an input.
* `Response.TTL` subtracts without a guard (fsthttp/response.go:231). `ResponseTTLExactly` says when it is right.
* The mask of a suggestion is overwritten with the mask that was asked for
  (internal/abi/fastly/httpcache_guest.go:715-717), so every suggestion is read as sensitive: `EveryOptionIsReported`.
* A Cookie line that begins with ';' after some parts were cut off is taken as one part
  (fsthttp/cookie.go:295-299), so an empty piece hides the rest of its line: `ReadsUpToEmptyPiece`.
* A printed path with a quote, a backslash or a trailing space does not come back as it was.
  `SetCookieReparsed` says what comes back for every cookie, `SetCookieRoundTrip` exactly when it is the normal form.
* The error of early hints is forgotten by the next `WriteHeader`; and a response whose implicit sending fails in the
  last `Close` is reported by nobody (fsthttp/response.go:458-475, fsthttp/handle.go:47-52): `ResponseRuns.Serve`
  gives the exact condition, `ResponseRuns.UnreportedError` an input.
* When `GetOrSet` fails after its insertion began, the entry to read back is left open (cache/simple/simple.go:71-97).
* Both apply functions leave an inserted body open when filling it fails, neither closed nor abandoned
  (fsthttp/cache.go:745-752, 813-820): `Streams.Fill`.

## Model

| member | source | states |
|---|---|---|
| GuestCacheRuns.ObligationOwned | fsthttp/request.go:597-741 | in every run of any number of sends, the obligation, if anyone has it, is held by a task that has not ended and still owns the handle it would be released through, or it was stranded |
| GuestCacheRuns.OnlyTheEarlyReturnStrands | fsthttp/request.go:663-673 | once all tasks have ended, the obligation is still held if and only if some background revalidation got no candidate |
| GuestCacheRuns.StrandedForever | internal/abi/fastly/httpcache_guest.go:519-577 | a stranded obligation is never released by any later step of any client |
| GuestCacheLiveness.NobodyElectedAgain | internal/abi/fastly/httpcache_guest.go:551-577 | once an obligation is stranded, no continuation elects any client |
| GuestCacheLiveness.StrandingRun | fsthttp/request.go:659-676 | a run that strands: a stale entry is served, its revalidation gets no response, and the client ends with the obligation still held |
| GuestCacheLiveness.Release | fsthttp/request.go:597-741 | while nothing is stranded, the holder alone can go on, without any failure, until the obligation is released, and no other client changes |
| GuestCacheLiveness.WaitersCanBeElected | internal/abi/fastly/httpcache_guest.go:519-577 | in any reachable state, whoever holds the obligation, some continuation gives it to a client that waits at its lookup if and only if nothing is stranded |
| GuestCacheRuns.OneFetchAtATime | fsthttp/request.go:655-692 | at most one task of all clients is between its election and its storage call: concurrent sends collapse into one fetch |
| GuestCacheRuns.OneOwner | fsthttp/request.go:630-676 | a handle is held by at most one variable of one task of one client, also across the transfer to the goroutine, and is open while it is |
| GuestCacheRuns.CallsAreDisciplined | fsthttp/cache.go:730-844 | over the whole log of host calls, those of the AfterSend hook included, no handle is used after its close or closed twice, and every insert, update, abandon, record or choose-stale call is made while holding the obligation |
| GuestCacheRuns.NothingElseLeftOpen | fsthttp/request.go:630-726 | when a client has ended, a handle it was given is closed, the fresh one included, if and only if it is neither the stranded one nor the lookup handle of a served insert, update or uncacheable response; and only a stranded one holds an obligation |
| GuestCacheRuns.FailedCandidateStoresNothing | fsthttp/cache.go:207-228 | if the backend wait, the storage preparation or AfterSend failed, no storage or abandon call was made on a handle of that client, before or after |
| GuestCacheRuns.HooksRunOnce | fsthttp/request.go:770-810 | each hook runs at most once, only for a client that was elected, and never when it is not set |
| GuestCacheRuns.HowASendEnds | fsthttp/request.go:651-726 | FromCache is true exactly when the response is a looked-up entry; a stale-if-error substitution carries exactly the error it masks; a BeforeSend failure is returned as it is; a panic happens only after a failed choose_stale |
| GuestCacheLiveness.PanicsExactly | fsthttp/request.go:701-711 | at the substitution of a stale entry, some answer of the host leads to the nil dereference if and only if choose_stale failed |
| GuestCacheLiveness.PanickingRun | fsthttp/request.go:692-711 | a run that ends in it |
| GuestCacheTruth.StoredAsSaid | fsthttp/cache.go:730-844 | in every run a send makes at most one successful storage call, only when it was elected and each hook that is set has run exactly once, and an update only of a found response; a response from the origin names exactly the call that was made, or was passed through without one; a failed candidate made none |
| GuestCacheTruth.NextTells | fsthttp/cache.go:730-844 | one step of any client keeps this true of every client |
| GuestCacheAnswers.StoredAsDecided | fsthttp/cache.go:207-342 | in every run, for either task: a storage call succeeds if and only if the host accepts it, and it is the one the answers of the run ask for. Preparation: record uncacheable with a cookie unless it said not to store, else what it said. AfterSend: its last call decides, SetUncacheable abandons, SetUncacheableDisableCollapsing records, SetCacheable inserts, or updates if an update was prepared and every call was SetCacheable; without a call the prepared one stays |
| GuestCacheAnswers.RecordsAreTrue | fsthttp/request.go:597-741 | the lookup state, the failures and the other facts a send keeps, on which the results about runs rest, are what this run was told |
| GuestCacheReplies.RepliesAsTold | fsthttp/request.go:597-741 | in every run, whatever the other clients and its own background task do in between, what a send returns is what the straight-line reading of the source returns on the answers it got: every early return with its own error, the cached entry, the stale one with the error it masks, or the origin's response with its storage action |
| GuestCacheReplies.StoredOnlyIfAllWell | fsthttp/request.go:645-741 | a storage call succeeds only after a lookup that elected the client, and after the suggestion, the hook, the dispatch, the backend and the final options all succeeded |
| GuestCacheReplies.SameReply | fsthttp/request.go:659-676 | the reply depends on no answer given after the points of the foreground |
| GuestCacheRuns.WaitGroupCounts | fsthttp/request.go:661-673 | the wait group always equals the number of live background revalidations, and is zero exactly when there is none |
| GuestCacheLiveness.WaitOnlyBlocksOnMoves | fsthttp/handle.go:24-27 | the wait group is zero if and only if no background task can move |
| GuestCacheRuns.EverySendIsBounded | fsthttp/request.go:597-741 | n sends make at most 22 n effective steps between them, whatever the environment answers |
| GuestCacheLiveness.NoTaskStuck | fsthttp/request.go:597-741 | exactly the tasks that have begun and not ended can take a step on an answer that is not a failure; at the wait for the lookup an electing answer is possible if and only if nobody holds the obligation, and any other state always |
| GuestCacheRuns.NextOK | fsthttp/request.go:597-741 | one step of any task keeps the invariant of the whole system: handles apart, log disciplined, obligation owned or stranded, wait group exact |
| GuestCacheProof.DecideGood | fsthttp/request.go:597-741 | at every program point and for every answer, a step keeps the shape of its client, runs no hook twice, ends only in an allowed outcome, and has an effect that is legal for the handles the task has |
| Candidate.ActionFollowsHistory | fsthttp/cache.go:307-342 | the final action is a function of the suggestion and the calls alone: the last call decides, and SetCacheable keeps an update only if nothing refused it before |
| Candidate.UpdateOnlyIfSuggested | fsthttp/cache.go:307-316 | no sequence of calls makes an update of something else; and any call makes the action one of the four |
| Candidate.FinalActionOfRun | fsthttp/cache.go:647-651 | the same over every sequence of all setter and getter calls, from what was suggested and whether a cookie is set to the action that finalizeOptions returns |
| Candidate.ReportedIsWritten | fsthttp/cache.go:447-568 | what a getter reports is what finalizeOptions writes and what the flushed record loads back as, whatever calls come in between except the setter of the same option, and whatever the host would answer if asked again |
| Candidate.ReportedFreshness | fsthttp/cache.go:406-444 | from a reported remaining freshness to the lifetime that is written, over any calls in between that do not set the TTL: the exact condition under which they are equal |
| Candidate.SetIsWritten | fsthttp/cache.go:447-568 | for each of the five setters of an option, any candidate, value and later calls that spare the option: the getter reports the value without asking the host, and the field of that name in the options, and in what the flushed record loads back as, is the value |
| Candidate.SetTTLIsWritten | fsthttp/cache.go:664-670 | after SetTTL the maximum age is the value, and what is written is the value less the age if and only if the value covers the age; otherwise it is the suggested lifetime |
| Candidate.LengthIsWritten | fsthttp/cache.go:672-712 | the length is given exactly when it is known and the last SetTransform left no transformation |
| Candidate.SuggestionIsReported | fsthttp/cache.go:603-645 | without an override each getter reports the host's own field, in seconds; the surrogate keys are the suggested ones, the extra ones and the header's, joined |
| Candidate.NewCandidate | fsthttp/cache.go:230-276 | exactly which overrides the options of the request set, the action with and without a cookie, and the extra keys |
| Candidate.GetFillsMemo | fsthttp/cache.go:591-601 | a getter changes nothing but an empty memo, and once filled nothing at all |
| Candidate.KeysAreJoined | fsthttp/cache.go:603-630 | the suggested surrogate keys are the space-separated list of the non-empty suggestion, extra keys and header values |
| Candidate.GrowKeys | fsthttp/cache.go:616-627 | the loop that grows the key string yields the keys appended in order |
| Candidate.RemainingFreshness | fsthttp/cache.go:406-422 | TTLRemaining is max(0, lifetime - age), for all 32-bit values |
| Candidate.WrittenLifetime | fsthttp/cache.go:664-670 | the lifetime that is written, and exactly when it is the remaining freshness that is reported |
| Candidate.ShortTTLIgnored | fsthttp/cache.go:664-668 | an input with an override below the age: the suggested lifetime is written though no freshness is left |
| Candidate.CandidateResponse.constructor | fsthttp/cache.go:230-276 | the initial state, with cookies making a response uncacheable unless it is already not to be stored |
| Candidate.CandidateResponse.SetCacheable | fsthttp/cache.go:307-316 | keeps an action that is an update and makes any other an insert, in the history `FinalActionOfRun` is about; no other field changes |
| Candidate.CandidateResponse.GetSuggested | fsthttp/cache.go:591-601 | the host is asked only while there is no memo, and a refusal leaves none |
| Candidate.CandidateResponse.BuildFresh | fsthttp/cache.go:603-630 | the suggestion that is built from one answer of the host, or the error of whichever of its two calls failed |
| Candidate.CandidateResponse.TTLRemaining | fsthttp/cache.go:406-422 | the remaining freshness of the override, else of the suggestion, which is asked for only once; a refusal is returned and changes nothing |
| Candidate.CandidateResponse.FinalizeOptions | fsthttp/cache.go:647-712 | the action and the options of all overrides over the remembered suggestion, or over a new one that is not remembered; the candidate does not change |
| CacheOptions.SecondsSurvive | fsthttp/cache.go:67-70 | a 32-bit number of seconds becomes nanoseconds without int64 overflow and comes back |
| CacheOptions.NanosecondsReadExactly | fsthttp/cache.go:67-70 | nanoseconds are read as their whole seconds if and only if those fit in 32 bits |
| CacheOptions.FlushThenLoad | fsthttp/cache.go:72-98 | flush then load restores every field but the length, which stays what the record had |
| CacheOptions.FlushedFields | fsthttp/cache.go:72-80 | which field of the record each option becomes, in nanoseconds, and exactly which flags |
| CacheOptions.LengthNeverFlushed | fsthttp/cache.go:72-80 | a fresh record never carries a length; all options survive if and only if there was none |
| CacheOptions.CacheWriteOptions.FlushToABI | fsthttp/cache.go:72-80 | the whole record after the flush |
| CacheOptions.CacheWriteOptions.LoadFromABI | fsthttp/cache.go:82-98 | the whole options after the load; a duration without its flag keeps its value |
| CacheOptions.ResponseTTLExactly | fsthttp/response.go:226-232 | the unguarded subtraction is the remaining freshness if and only if the age is not above the lifetime, and what it wraps to otherwise |
| Cookie.String | fsthttp/cookie.go:185-246 | the text built attribute by attribute is the printed form that the round-trip lemmas are about |
| CookieText.PrintedAttributes | fsthttp/cookie.go:202-246 | a text is an attribute of the printed cookie if and only if it is one of these, letter by letter, under its condition on the fields |
| CookieText.PrintedFlags | fsthttp/cookie.go:229-234 | Secure is printed if and only if the cookie is secure, HttpOnly if and only if it is for HTTP only |
| CookieText.PrintedOrder | fsthttp/cookie.go:185-246 | the attributes come in one fixed order, none twice |
| CookieText.PrintedLine | fsthttp/cookie.go:185-246 | cut at its semicolons the line is the name with its filtered value, in quotes exactly when that has a space or a comma, and each attribute after one space |
| CookieText.ByteClasses | fsthttp/cookie.go:427-599 | which bytes a value, a path and a name may have, written out |
| Cookie.SanitizeOrWarn | fsthttp/cookie.go:443-463 | the valid bytes in order |
| Cookie.ParseCookieValue | fsthttp/cookie.go:465-476 | a value without its quotes, or none if a byte is invalid |
| Cookie.ReadSetCookies | fsthttp/cookie.go:63-170 | the loop over lines and attributes computes the parse that the round-trip lemmas are about, in order, without the unreadable lines |
| Cookie.ReadAttribute | fsthttp/cookie.go:92-165 | one round of the attribute loop |
| CookieReading.LineRead | fsthttp/cookie.go:63-170 | any Set-Cookie line is a cookie if and only if its first part is a valid name, an equals sign and a readable value; a flag is set if and only if a later part names it, in either case, with a readable value; domain, path, max-age, samesite and expires come from the last such part; and exactly the unknown or refused parts are kept, in order |
| CookieReading.SetCookiesSound | fsthttp/cookie.go:63-170 | whatever the lines, every cookie read has a valid name and a value of valid bytes |
| CookieReading.ValueRead | fsthttp/cookie.go:465-476 | a value is read if and only if, less one pair of quotes where they are allowed, all its bytes are valid |
| CookieReading.PartFields | fsthttp/cookie.go:92-165 | what one part changes in every field, for any part |
| CookieReading.NumberRead | fsthttp/cookie.go:139-147 | signed and unsigned digits are read as the number they write if it is in range |
| CookieReading.NotANumber | fsthttp/cookie.go:139-147 | no other text is a number |
| CookieRoundTrip.SetCookieReparsed | fsthttp/cookie.go:63-246 | what printing and parsing gives for every validly named cookie, with no condition on its path |
| CookieRoundTrip.SetCookieRoundTrip | fsthttp/cookie.go:63-246 | it is the normal form, with nothing unparsed, if and only if the cleaned path has no quote, backslash or trailing space |
| CookieRoundTrip.PrintStable | fsthttp/cookie.go:185-246 | printing what was read back gives the same line if and only if no path was given or it survives and is not empty |
| CookieRoundTrip.PrintInjective | fsthttp/cookie.go:185-246 | equal lines list equal attributes |
| CookieRoundTrip.SetCookiesRoundTrip | fsthttp/cookie.go:63-179 | any list of cookies set on a response reads back in order, without the ones that have no valid name |
| CookieRoundTrip.SetAndRead | fsthttp/cookie.go:63-179 | the same end to end, from the printer's loop over the lines to the reader's |
| Cookie.ReadCookies | fsthttp/cookie.go:283-322 | the scan ends, and computes the read that the lemmas on the Cookie header are about |
| CookieReading.PieceRead | fsthttp/cookie.go:300-318 | a piece of a Cookie line is read if and only if its name is valid and its value, less one pair of quotes, has only valid bytes; a piece without an equals sign has an empty value |
| CookieReading.ReadCookiesSound | fsthttp/cookie.go:283-322 | whatever the header and the filter, every cookie read has a valid name, that of the filter if there is one, and a value of valid bytes |
| CookieHeader.ReadsUpToEmptyPiece | fsthttp/cookie.go:295-299 | for any line, exactly the cookies of the pieces before the first empty one are read |
| CookieHeader.ReadsAllExactly | fsthttp/cookie.go:295-299 | all the pieces of a line are read if and only if nothing from its first empty piece on is a cookie |
| CookieHeader.EmptyPieceHidesRest | fsthttp/cookie.go:295-299 | nothing is read from a remainder that begins with a semicolon |
| CookieHeader.FilterLaw | fsthttp/cookie.go:283-322 | for any header, reading with a name filter is filtering the unfiltered read |
| CookieHeader.AddThenRead | fsthttp/request.go:369-376 | any list of validly named cookies added to a request without a Cookie header reads back with the same names in order and filtered values |
| CookieHeader.AddAndRead | fsthttp/request.go:345-376 | the same end to end: any list of validly named cookies, the empty one included, added to a request object and read back by the loop |
| Cookie.Request.AddCookie | fsthttp/request.go:369-376 | the header becomes one line: the old one, if any, and the new pair |
| DomainName.IsCookieDomainName | fsthttp/cookie.go:344-394 | accepts exactly the names of the label grammar |
| DomainName.ScanLabels | fsthttp/cookie.go:360-393 | the loop with its early returns gives the verdict of the scan |
| DomainName.ScanDecides | fsthttp/cookie.go:360-393 | from whatever point it has reached, the scan accepts if and only if the whole name is in the grammar |
| DomainName.WithoutDotIsName | fsthttp/cookie.go:202-212 | dropping the optional leading dot of a domain name leaves a domain name that does not begin with a dot |
| HostValues.ReadAll | internal/abi/fastly/types.go:457-495 | the list read is the host's list, for every buffer capacity and every way the host cuts it into pages, and only an error makes it shorter |
| HostValues.Values.Next | internal/abi/fastly/types.go:457-495 | yields the next value of the host's list, false only at its end or after an error, and the error stays |
| HostValues.Values.NextValue | internal/abi/fastly/types.go:427-451 | one page after at most one resize, so at most two calls, and no value is lost by the resize |
| HostValues.Values.CutPending | internal/abi/fastly/types.go:488-494 | the window is cut at its first terminator; a missing one is an error unless the iteration is finished |
| HostValues.EncodingInverts | internal/abi/fastly/http_guest.go:2938-2953 | the encoding of a list is read back as that list if and only if no value contains a NUL |
| HostValues.EncodeHeaderValues | internal/abi/fastly/http_guest.go:2938-2943 | the buffer that is sent is that encoding |
| HostValues.SetThenRead | internal/abi/fastly/http_guest.go:2896-2953 | values set on a host that keeps them read back as they were, without an error, if and only if none contains a NUL |
| Buffers.WithAdaptiveBuffer | internal/abi/fastly/adaptivebuf.go:10-24 | exactly the host's string, after one call if it fits in the initial buffer and after two if it does not, for every length and initial size |
| Buffers.SuggestedCacheOptions | internal/abi/fastly/httpcache_guest.go:660-718 | exactly what was asked for of the host's suggestion after at most two calls, one if both strings fit, also when both buffers are too small at once |
| Buffers.EveryOptionIsReported | internal/abi/fastly/httpcache_guest.go:715-717 | asked for every option, the SDK reports each as there, and the data as sensitive, whatever the host said |
| Body.HTTPBody.Write | internal/abi/fastly/http_guest.go:2444-2459 | reports n with exactly the first n bytes delivered, all of them if and only if there is no error, whatever pieces the host takes; an error is that of the last write made, every earlier one succeeded, and a host that does not fail causes none |
| Body.HTTPBody.Close | internal/abi/fastly/http_guest.go:2481-2489 | the host is told only about a streaming body |
| Body.HTTPBody.Abandon | internal/abi/fastly/http_guest.go:2509-2517 | the host is told only about a streaming body |
| Streams.Copy | fsthttp/request.go:897 | what arrives is a prefix of the rest of the source, and without an error all of it; an error is that of the last write, or else of the last read, and reliable ends cause none |
| Streams.CopyBody | fsthttp/request.go:887-908 | the stream is first ended by a close only if the whole source arrived, a failed copy is abandoned, and the errors come in order, each with its cause |
| Streams.Fill | fsthttp/cache.go:745-752 | the same for the inserted body; an error has its cause, and on one the body is neither closed nor abandoned |
| Streams.EndsWell | cache/simple/simple.go:84-97 | writes followed by a close of the whole or by an abandon are never a truncated stream that is marked complete |
| SimpleCache.GetOrSet | cache/simple/simple.go:61-105 | the function runs at most once and only for an elected caller; its error is returned and saves nothing; an inserted stream is first ended by a close only if it is whole; every writer made for a failed insertion is abandoned, also one given up on the way, and no successful one is; the transaction is closed exactly once on every path; with a reliable host it succeeds on every entry that is found and every whole body |
| SimpleCache.FillAndEnd | cache/simple/simple.go:84-97 | the copy, the close or abandon, and the deferred second close |
| SimpleCache.Transaction.InsertAndStreamBack | cache/core/core.go:664-690 | an open writer, or an error; a writer made on the way to an error is abandoned and its entry closed |
| SimpleCache.Transaction.Close | cache/core/core.go:737-744 | the host's entry is closed once, however often this is called |
| ResponseRuns.Handle | fsthttp/response.go:371-532 | after any sequence of calls: at most one response that is not early hints and nothing sent after it; no body call before it; trailers together, each once, right before the only end of the stream; and once it was sent its error is the answer of every later call |
| ResponseRuns.FollowsIsDisciplined | fsthttp/response.go:371-532 | the invariant of the writer's log gives these properties |
| ResponseRuns.Serve | fsthttp/handle.go:30-53 | panics if and only if the request or the writer cannot be made or the handler left an error, that of the last thing sent; otherwise the writer is closed, and an error stays unreported if and only if the handler sent no response and the one this close sends is refused |
| ResponseRuns.UnreportedError | fsthttp/handle.go:47-52 | an input: the handler does nothing, the host refuses the response, and serve returns |
| ResponseRuns.AnnounceAndWrite | fsthttp/response.go:371-514 | end to end: every name announced with the response that has a value before the close is written, and then the stream is ended |
| ResponseWriter.Writer.WriteHeader | fsthttp/response.go:371-422 | nothing after the response; before it the host gets every header it does not refuse, without line breaks and for early hints without the ones about the body, and its answer and the trailer names are kept |
| ResponseWriter.UpdatedKeepsClean | fsthttp/response.go:380-397 | no header that is ever sent contains a line break, and early hints never describe a body |
| ResponseWriter.Writer.Write | fsthttp/response.go:444-456 | the error of the response if there is one; else the response is sent first if it was not, and then as much of the data as the host takes |
| ResponseWriter.Writer.Append | fsthttp/response.go:520-532 | the same with the whole of another body, or an error that leaves the body as it was |
| ResponseWriter.Writer.Close | fsthttp/response.go:458-475 | nothing the second time; else every trailer and then the end of the stream, which is left out exactly when sending the response failed |
| ResponseWriter.CollectTrailers | fsthttp/response.go:487-503 | for every name, exactly the values of the announced header, or else of the prefixed one |
| ResponseWriter.AppendTrailers | fsthttp/response.go:505-511 | one trailer for each name, with its first value, in any order |
| ResponseWriter.ParseTrailers | fsthttp/response.go:424-434 | the trimmed non-empty names of all values in order |
| ResponseWriter.TrailerNamesExactly | fsthttp/response.go:424-434 | a name is in the list if and only if it is not empty and some line lists it between commas, blanks aside |
| ResponseWriter.TrailerWritten | fsthttp/response.go:487-511 | an announced name with a value is written with its first one, else a prefixed one is, and no other name is written |
| ResponseWriter.Writer.SendDownstream | internal/abi/fastly/http_guest.go:3116-3135 | the body becomes closable exactly when it is sent as a stream without an error |
| KvList.ListAll | kvstore/kvstore.go:278-374 | every matching key from the cursor on, once, in order, whatever the sizes of the pages; less only with an error |
| KvList.ListIter.Next | kvstore/kvstore.go:278-334 | a page of exactly the keys that come next; false at the end, without a call if the last page said so, and for ever after an error, which a reliable store never causes |
| KvList.ListIter.constructor | kvstore/kvstore.go:358-374 | the first request is for the prefix, the limit, the cursor and the mode of the configuration |
| KvList.ModeSurvives | kvstore/kvstore.go:232-247 | a mode survives its name if and only if it has one, the names being given; any other is sent as strong |
| ServeMany.ServeMany | fsthttp/handle.go:74-122 | the k-th request carries count k; a positive limit bounds the requests, and the number served is exactly the limit or all there are when nothing else stops the loop; the loop stops at the first turn that may not be served; it panics if and only if the first request, a promise or an arrival fails or the last request served panics; otherwise it returns if and only if no revalidation of any cache key is live, and else still waits |
| ServeMany.LimitIsExact | fsthttp/handle.go:74-95 | when nothing but the limit keeps a turn from being served, the number served is the smaller of the two, and one under a negative limit |
| ServeMany.Take | fsthttp/request.go:661-673 | with every move of any send the counter stays the number of live revalidations of all keys, so it never goes below zero |
| ServeMany.Wait | fsthttp/handle.go:121 | returns at the first moment at which none is live |
| ServeMany.WaitCanReturn | fsthttp/handle.go:121 | whatever has happened, background moves alone can bring the wait to its end |
| ServeMany.ServeOne | fsthttp/handle.go:30-53 | panics exactly when its request or writer cannot be made or the error its handler left says so; the log of its writer is disciplined |

## Left out

- GuestCacheRuns.ObligationOwned: one cache key, since the host keeps transactions of different keys apart; the host's own timeouts for obligations are not part of the documented contract and not modelled.
- GuestCacheRuns.HowASendEnds: host answers outside its contract (a storage action above 3, an update without a found response, no entry after a successful choose_stale, no response to read back after an insert or update, which the code would dereference as well, fsthttp/cache.go:754-769 and 797) are not steps; a storage call that fails is taken to leave the obligation where it was.
- GuestCacheRuns.CallsAreDisciplined: consecutive calls on one handle are one event: the reads of a found entry's metadata are part of the found-response event, and the calls an AfterSend hook makes through its candidate are one event, whether it makes any or not.
- CookieRoundTrip.SetCookieRoundTrip: parsing and formatting of times is a parameter that satisfies `TimeLaw`, because package time is not part of this model; cookies without an expiry need nothing of it.
- What net.ParseIP accepts without a colon is written out as dotted quads (`DomainName.IsIPv4`); texts with a colon are refused by the source anyway.
- CookieHeader.AddThenRead: header names are plain map keys, without the canonical spelling of net/textproto.
- HostValues.ReadAll: a list has fewer than 2^32 values, the range of the host's cursor.
- Buffers.SuggestedCacheOptions: a string the host does not have leaves its length field as it was, namely zero.
- Body.HTTPBody.Write: a host that reports success takes at least one byte; with one that does not, the source's loop would not end.
- Streams.Copy: a reader that reports neither bytes nor an end is not modelled, nor the shortcuts of io.Copy for readers and writers that copy themselves.
- ResponseWriter.Writer.WriteHeader: the framing mode and the status code are part of the one send event; header names are plain map keys.
- SimpleCache.GetOrSet: the key, its surrogate keys (a SHA-256 digest) and the TTL are passed through and not modelled; a panic in the function is not modelled.
- KvList.ListIter.Next: the decoding of JSON and the mapping of error codes; a page arrives decoded or as an error.
- ServeMany.ServeMany: clocks and promises are answers of the environment, which gives finitely many turns; all sends an instance will make are in its systems from the start, not yet begun; a handler's sends are moves that happen while it is served, not tied to its calls on the writer.
- `IsStale`, `StaleIfErrorAvailable`, header and status access of a candidate, and the metadata of a found response: one branch each.
- The response headers that report cache hits (`updateFastlyCacheHeaders`) and the transformation of request bodies by `SetBody`.
- The sends that leave caching to the host, polling with its sleep intervals, and contexts with deadlines.
- Wrappers around single host calls (ACLs, geolocation, device detection, rate limiting, config, dictionary and secret stores, shielding, purging, backends): one branch settles each.
- Image optimisation, logging, the net/http adapter, the generated host-call imports and unsafe pointers.
