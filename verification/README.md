# Verification of the job marketplace, its calls, paging and sessions

The repository is a two-sided marketplace: a seeker broadcasts a request, providers nearby offer
to help, the seeker accepts one offer, the two chat and call each other while the engagement is
active, the seeker completes and reviews the job. This project models its stateful parts in Dafny
and proves what they keep over whole runs.

| file | models |
|---|---|
| `Keyset.dfy` | cursor pagination, both list endpoints, and the client's page walk |
| `LivePaging.dfy` | that walk while rows are added between its fetches |
| `Marketplace.dfy` | the tables of requests, offers, engagements, reviews, profiles and the Redis rejection sets; one function per service call |
| `Answers.dfy` | what each of those calls answers and changes, row by row of the tables |
| `Lifecycle.dfy` | the joint invariant of those tables, permanent rejection, conservation of ratings |
| `JobPaging.dfy` | paging through completed jobs while the marketplace runs |
| `Expiry.dfy` | lazy expiry is indistinguishable from swept expiry |
| `Feed.dfy` | what `incoming` shows, and that push and pull agree |
| `Services.dfy` | class `Store`: the service methods statement by statement, loops over rows included, each handler keeping the joint invariant |
| `AwaitAccept.dfy`, `AwaitRaces.dfy`, `RejectRaces.dfy` | the same calls interleaved at their awaits: what every interleaving keeps, and exactly what some can break |
| `Undisturbed.dfy` | a call cut at its awaits, left to itself, is the atomic call |
| `CallPeer.dfy`, `CallEngine.dfy` | one side of a call as a transition function, and as the class of refs and handlers |
| `CallNetwork.dfy`, `CallLiveness.dfy`, `CallRinging.dfy` | two peers and the relay between them |
| `CallCandidates.dfy` | ICE candidates between the two peers, and that a call connects |
| `IceDrain.dfy` | ICE candidates of one peer, interleaved at the awaits |
| `Relay.dfy` | who a call signal reaches |
| `Sessions.dfy`, `SessionClient.dfy`, `AuthServices.dfy` | refresh-token rotation, the 401 interceptors of the tabs of one browser, and both as classes |
| `SessionRaces.dfy` | rotation interleaved at its awaits |
| `Providers.dfy`, `ProviderServices.dfy` | the provider application, its documents and roles, the wizard's resume step, and the services as a class |
| `ProviderAnswers.dfy` | what each of those calls answers and changes, field by field |
| `Pictures.dfy` | what the files of an application under review hold |

Code that changes state is written twice: as a total function from state to state (and reply),
about which everything is proved, and as a method of a class with the source's fields, proved to
be that function. What a step answers in every case and which rows it changes is stated in words of
the tables, apart from its definition. A run is any sequence of calls with any arguments, time passing in between.

## Assumptions

- A service call is one atomic step, except in `AwaitAccept`, `AwaitRaces` and `RejectRaces` (where SADD with EXPIRE is
  one operation) and, for `rotate`, in `SessionRaces`. There is one clock, in milliseconds,
  for Node, the database's `now()` and Redis.
- A new row's id is an argument of the call; an id already taken is refused. Call and session ids
  are never drawn twice. Hashing is injective and tokens are values: user, session, issue second.
- Distance is any function of two places. Rows at the same distance are ordered by id.
- Cursors: base64url and JSON are an injective code with a total decoder. Ids are numbers; only
  their order is used. `earth_box` contains the ball it prefilters for. Averages are over the reals.
- Calls: each side has one connected socket and the engagement stays active, so a message carries
  its call id only. The network may lose and reorder messages but not repeat them. Handlers run to
  completion, with the microphone and the browser's success as part of the event, except in
  `IceDrain`. There, what follows `await setRemoteDescription` runs before the next event, and on a
  closed connection that await never returns; and `createPeer` runs at most once per call, which is
  `CallPeer.HandleKeeps` for the callee and `CallLiveness.AcceptFindsCaller` for the caller.
- A React `status` update is rendered, and `useSocketEvent` has swapped in the new listener, before
  the next socket event. (Until then `call:invite` would read the previous `status`; the refs are
  always current.)
- The tabs of one browser share the cookie and nothing else of the refresh. The page Google redirects
  to sends no request before its own refresh has settled, and effects run once, as in a production
  build. The cookie is that of one session throughout. A refresh the browser has given up has been
  handled by then or never is.
- `SCAN` gives its documented guarantee: between them the batches name every matching key that is
  there throughout.
- A profile is named by its user (`userId` is unique). Whether sharp can make a thumbnail, and
  what was uploaded when, are inputs. A presigned key is new.

## Where the code and its documentation differ

- `auth.service.ts` says a rotation invalidates the old refresh token. Within the second the token
  was issued in, it does not: the new token is the same string (`Sessions.OldTokenRefusedIff`).
- `user-role.enum.ts` says a user can be a seeker and a provider over time. The role methods make
  the two exclusive at every moment and never take a provider back (`Providers.SubmittedMeansComplete`,
  `Providers.ApplicantsAreProviders`).
- `docs/calling-feature.md` has the callee create its connection when the offer arrives; the code
  creates it on accept, and `CallPeer` follows the code.
- FULFILLED exactly when engaged, and offers on OPEN requests only, hold for atomic calls. With calls
  interleaved at their awaits both can fail, from empty tables (`AwaitRaces.StaleCancelReached`,
  `AwaitRaces.LateOfferReached`); `AwaitRaces.StaysFulfilledIff` and `AwaitRaces.StaysClearedIff` say
  exactly when they cannot.
- A rejection is permanent and a revocation final for atomic calls. With calls interleaved at their
  awaits an offer can follow a rejection, and the rejected provider be engaged, exactly when a respond had
  passed its check (`RejectRaces.OffersDespiteRejectionIff`, `RejectRaces.RejectedIsEngaged`); and a logout
  is undone exactly by a rotation that had read the session (`SessionRaces.RevivesIff`,
  `SessionRaces.LogoutUndone`).
- `refreshPromise` is one per tab. Two tabs whose access token runs out together revoke an honest
  client's session unless the first of their refreshes is handled in the second its token was issued in
  (`SessionClient.TwoTabsTripIff`). One tab never does as long as no refresh response is lost
  (`SessionClient.OneTabNeverTrips`). After a loss it can, exactly when the lost answer carried a token of
  another second than the cookie and the cookie still verifies (`SessionClient.LossSetsAdriftIff`,
  `SessionClient.OneTabTripsIff`, and from the login on `SessionClient.FirstAnswerLostIff`).
- `providers.service.ts` locks an application under review, but a PUT URL presigned before stays valid for
  five minutes: until then the pictures an admin sees can be written over (`Pictures.PicturesCanChangeIff`,
  `Pictures.SwappedBeforeApproval`); after that they are final (`Pictures.FinalAfterFiveMinutes`).
- Three more claims a reader may expect fail, with the exact condition proved beside each: the
  wizard and `submit` disagree after a null phone number (`Providers.NullPhoneSplitsThem`), a
  repeated `confirmDocument` deletes the picture it confirms (`Providers.RetryLosesThePicture`),
  and a soft-deleted account can submit without being promoted (`Providers.DeletedAccountSubmits`).

## Model

| member | source | states |
|---|---|---|
| Keyset.CursorRoundTrip | backend/src/common/pagination.ts:23-37 | With the text encoding taken as a code: a cursor decodes to a row exactly when it is that row's encoding but for fields of no meaning; everything else (absent, malformed, missing or ill-typed parts) means "from the start" |
| Keyset.ListingUnique | backend/src/engagements/engagements.service.ts:164-176 | Ordering by (t DESC, id DESC) determines the list |
| Keyset.PageSizeMeans | backend/src/engagements/engagements.service.ts:164-224 | A fetch delivers min(limit, rows visible) rows for a limit of 1 to 50, at most one below, at most fifty above; a cursor comes with it exactly when more are visible, and names the id and the rounded time of the last row delivered |
| Keyset.PageMeans | backend/src/engagements/engagements.service.ts:168-192 | What it delivers are the newest rows its cursor sees, in order |
| Keyset.WalkIsListWalk | frontend/src/features/jobs/index.ts:40-52 | Following `nextCursor` from any cursor yields, page for page, cuts of the plain sorted list of what the cursor can see; the walk terminates |
| Keyset.PagingExactIff | backend/src/reviews/reviews.service.ts:99-149 | For any limits the walk delivers the whole sorted list if and only if at every page boundary the next row lies below the rounded cursor |
| Keyset.PagingExact | backend/src/engagements/engagements.service.ts:159-225 | With whole-unit timestamps (completed jobs: milliseconds) and any limits the walk delivers the sorted list, every row once |
| Keyset.PageCount | backend/src/engagements/engagements.service.ts:159-225 | With a fixed limit from 1 to 50 the walk takes max(1, ceil(n / limit)) requests |
| Keyset.ReviewPaging | backend/src/reviews/reviews.service.ts:103-147 | With a truncated cursor nothing is delivered twice or out of order, and only rows sharing a unit with the last row of a page can be missing |
| Keyset.MicrosecondReviewLost | backend/src/reviews/reviews.service.ts:143-147 | Two reviews in one millisecond and pages of one: the second is never shown |
| LivePaging.PagingUnderWrites | backend/src/engagements/engagements.service.ts:178-187 | Whatever rows are added between fetches: nothing twice, nothing invented, and every row of the first fetch delivered by the end |
| LivePaging.PagingUnderNewerWrites | backend/src/engagements/engagements.service.ts:178-187 | If the added rows are all newer the walk returns exactly the list of the first fetch |
| LivePaging.ReviewPagingUnderWrites | backend/src/reviews/reviews.service.ts:103-147 | With a truncated cursor, while reviews arrive between fetches: nothing twice, out of order or invented, and a review of the first fetch can be missing at the end only by sharing its unit with the last row of a page |
| LivePaging.LiveWalkEnds | frontend/src/features/jobs/index.ts:40-52 | A walk whose fetches see nothing outside a finite set reaches a null cursor within its size |
| Lifecycle.NextKeeps | backend/src/requests/requests.service.ts:80-407 | Every call, the sweep and the passing of time keep the joint invariant: one OPEN request per seeker, none while an engagement is ACTIVE, offers on OPEN requests only, FULFILLED exactly when engaged and by the same seeker, one engagement per request, one ACTIVE per seeker and per provider, COMPLETED exactly when stamped, 30-minute TTL kept, reviews unique and of COMPLETED jobs |
| Lifecycle.ReachableInv | backend/src/engagements/engagements.service.ts:56-98 | The joint invariant holds in every state reachable from empty tables |
| Answers.SweepAnswers | backend/src/requests/requests.service.ts:80-94 | Exactly the OPEN requests whose time is up become EXPIRED and lose their offers |
| Answers.CreateAnswers | backend/src/requests/requests.service.ts:98-114 | A request is made exactly for a known skill and a seeker without an ACTIVE engagement; which refusal each other case gets; a refused call changes nothing |
| Answers.CreateLeaves | backend/src/requests/requests.service.ts:116-130 | The seeker's OPEN requests are CANCELLED without offers, and the new row is OPEN for thirty minutes; no other row changes |
| Answers.CreateShows | backend/src/requests/requests.service.ts:132-152 | Told are exactly the approved, available, located providers by role with the skill, in reach and without an ACTIVE engagement; shown to the seeker also those with one |
| Answers.CancelAnswers | backend/src/requests/requests.service.ts:210-216 | Goes through exactly for the seeker's own request, and closes it if OPEN; the refusals; nothing else changes |
| Answers.RespondAnswers | backend/src/requests/requests.service.ts:298-321 | Goes through exactly for an OPEN, unexpired request the live rejection set does not name; the refusals in their order; adds that one offer, once |
| Answers.WithdrawAnswers | backend/src/requests/requests.service.ts:334-344 | That one offer is gone; every other stays |
| Answers.RejectAnswers | backend/src/requests/requests.service.ts:349-353 | Goes through exactly for the seeker's own request; the refusals |
| Answers.RejectLeaves | backend/src/requests/requests.service.ts:354-361 | That one offer is gone; the provider's key names the request besides what it named while live, for two hours; no other key changes |
| Answers.AcceptAnswers | backend/src/engagements/engagements.service.ts:56-74 | Goes through exactly for the seeker's own OPEN, unexpired request with that provider's offer, when neither has an ACTIVE engagement; which refusal each other case gets; a refused call changes nothing |
| Answers.AcceptLeaves | backend/src/engagements/engagements.service.ts:76-92 | One ACTIVE engagement of that request, seeker and provider more; the request FULFILLED and without offers; no other row changes |
| Answers.CompleteAnswers | backend/src/engagements/engagements.service.ts:228-243 | Goes through exactly for the seeker's own engagement; an ACTIVE one is COMPLETED and stamped with the time; nothing else changes |
| Answers.ReviewAnswers | backend/src/reviews/reviews.service.ts:31-52 | Goes through exactly for the seeker's own COMPLETED engagement without a review; the refusals in their order |
| Answers.ReviewLeaves | backend/src/reviews/reviews.service.ts:53-67 | One review more; the provider's count up by one and sum by the rating; no other row changes |
| Answers.AverageMeans | backend/src/requests/requests.service.ts:203 | The rating shown is a whole number of tenths within half a tenth of the mean, the upper one at a tie, and there is one exactly when there are reviews |
| Answers.OneShownRating | backend/src/requests/requests.service.ts:203 | Which determines it |
| Answers.MineAnswers | backend/src/requests/requests.service.ts:155-207 | With at most one OPEN request, `mine` shows exactly the one that has not expired, with exactly its responders, each with its distance, rating and review count from its profile |
| Lifecycle.RunLater | backend/src/requests/requests.service.ts:365-407 | Over any run a request that left OPEN never changes status again, a completed engagement keeps its stamp, no row or review is lost or rewritten |
| Lifecycle.RejectBlocks | backend/src/requests/requests.service.ts:349-361 | A rejection leaves no offer, and its key outlives the request while that is live |
| Lifecycle.RejectionIsPermanent | backend/src/requests/requests.service.ts:298-361 | After reject(r, p) no later state of any run has an offer of p on r, and no engagement of r with p is added, though the Redis key expires |
| Lifecycle.NextConserves | backend/src/reviews/reviews.service.ts:56-64 | Each call keeps, in both directions, the agreement of the aggregate with the review rows |
| Lifecycle.RunConserves | backend/src/reviews/reviews.service.ts:31-67 | The same over any run |
| Lifecycle.AverageHonest | backend/src/reviews/reviews.service.ts:125-127 | The rounded average lies in 1..5 and within 0.05 of the true mean |
| Lifecycle.RatingsConserved | backend/src/providers/providers.service.ts:55-58 | From a profile without ratings, after any run: count and sum are those of its reviews, a rating is shown exactly when there is one, and it is honest |
| JobPaging.JobsPagedWhileRunning | backend/src/engagements/engagements.service.ts:159-243 | Paging through completed jobs while the marketplace runs: no job twice, and once a null cursor is reached every job completed before the first fetch has been delivered |
| JobPaging.JobsWalkEnds | backend/src/engagements/engagements.service.ts:178-237 | A null cursor is reached however many jobs complete meanwhile: new ones are stamped at or after the first fetch, and only finitely many can sort below a row of it |
| JobPaging.JobsPagedToTheEnd | backend/src/engagements/engagements.service.ts:159-243 | So a walk followed long enough delivers every job completed before its first fetch, and none twice |
| JobPaging.JobsPagedExactly | backend/src/engagements/engagements.service.ts:178-237 | If the first fetch comes in a later millisecond than the last completion, the walk returns exactly the list of that fetch |
| JobPaging.JobsListed | backend/src/engagements/engagements.service.ts:172-174 | Listed are exactly the provider's COMPLETED engagements, under the time they were completed |
| Expiry.SweepUnnoticed | backend/src/requests/requests.service.ts:80-94 | A sweep keeps the simulation between a swept and an unswept database |
| Expiry.WriteBoth | backend/src/requests/requests.service.ts:98-361 | Every call gives the same status on two databases that differ only in overdue OPEN rows and dead offers, and leaves them so |
| Expiry.MineNeedsLive | backend/src/requests/requests.service.ts:155-168 | With one OPEN row per seeker `mine` returns a request exactly when a live one exists, and then that one with its responders |
| Expiry.Lockstep | backend/src/requests/requests.service.ts:219-282 | From similar states a run and the same run without its sweeps give the same replies |
| Expiry.SweepsAreInvisible | backend/src/requests/requests.service.ts:68-94 | Two runs that differ only in when, or whether, the sweep runs answer every caller the same |
| Feed.NearestMeans | backend/src/requests/requests.service.ts:257-258 | At most a hundred rows, nearest first, and no row left out is nearer than one taken |
| Feed.IncomingMeans | backend/src/requests/requests.service.ts:219-295 | In words of the tables: everything shown is OPEN, not expired, of a skill of the provider's, within its radius and not in the live rejection set, and the provider is approved, available, located and without an ACTIVE engagement; with the right distance and offer mark, nearest first. A request that meets the list is missing only when a hundred others that meet all but the rejection set, at most as far away, crowd it out |
| Feed.PushMatchesPull | backend/src/requests/requests.service.ts:219-251 | The query behind the push (lines 409-441) and the query behind `incoming`, written separately, agree: told about a new request are exactly the providers with the role whose feed selects it |
| Feed.PushedIsShown | backend/src/requests/requests.service.ts:130-141 | After any run whoever is told about a request finds it in the feed, unless crowded out |
| Services.Store.SweepExpired | backend/src/requests/requests.service.ts:80-94 | The loop over fetched rows closes exactly the overdue OPEN rows as EXPIRED and drops their offers; none is left and the joint invariant is kept |
| Services.Store.CloseRows | backend/src/requests/requests.service.ts:89-93 | The loop over fetched rows that sweep and supersede share: exactly those rows leave OPEN, their offers with them |
| Services.Store.CancelOpenForSeeker | backend/src/requests/requests.service.ts:382-387 | The loop closes exactly the seeker's OPEN rows as CANCELLED and drops their offers |
| Services.Store.MarkRemoved | backend/src/requests/requests.service.ts:391-407 | One row leaves OPEN together with its offers, all else unchanged |
| Services.Store.CreateRequest | backend/src/requests/requests.service.ts:98-126 | The create step; the joint invariant is kept; goes through exactly for a new id, a known skill and a free seeker, and then the new request is the seeker's only OPEN one, without offers |
| Services.Store.CancelRequest | backend/src/requests/requests.service.ts:210-216 | The cancel step; the joint invariant is kept; goes through exactly for the seeker's own request, which is then not OPEN and without offers |
| Services.Store.RespondTo | backend/src/requests/requests.service.ts:298-331 | The respond step; the joint invariant is kept; it succeeds exactly for a live request from which the provider was not rejected, and then the offer is there |
| Services.Store.WithdrawFrom | backend/src/requests/requests.service.ts:334-344 | The withdraw step; the joint invariant is kept and exactly that offer is gone |
| Services.Store.RejectOffer | backend/src/requests/requests.service.ts:349-361 | SADD and EXPIRE on the provider's key, expired keys starting empty: the reject step; goes through exactly for the seeker's own request, and the provider is then blocked from it for as long as it is live |
| Services.Store.MarkFulfilled | backend/src/requests/requests.service.ts:365-378 | The request, if there, becomes FULFILLED and loses its offers |
| Services.Store.AcceptOffer | backend/src/engagements/engagements.service.ts:56-98 | The accept step; the joint invariant is kept; goes through exactly when `Answers.AcceptDue` holds of the old tables, and then the engagement is the one of that request with that provider, the seeker has no OPEN request and the request no offers |
| Services.Store.CompleteJob | backend/src/engagements/engagements.service.ts:228-243 | The complete step; the joint invariant is kept; goes through exactly for the seeker's own job, which is then COMPLETED, and if it was ACTIVE the seeker is free again |
| Services.Store.CreateReview | backend/src/reviews/reviews.service.ts:31-67 | The review step, aggregate included; the joint invariant is kept; goes through exactly for the seeker's own COMPLETED job without a review |
| AwaitAccept.SaveOneEngagement | backend/src/database/migrations/1781700000000-CreateEngagements.ts:28-46 | The unique indexes alone keep one engagement per request and one ACTIVE per seeker and provider |
| AwaitAccept.FailedAcceptWritesNothing | backend/src/engagements/engagements.service.ts:56-90 | An accept writes nothing unless its save goes through; the save adds one engagement, exactly when no engagement has the request and no ACTIVE one the seeker or provider |
| AwaitAccept.FailedInsertWritesNothing | backend/src/database/migrations/1781600000000-OneOpenRequestPerSeeker.ts:13-15 | A request is inserted exactly when the id is new and the seeker has no OPEN one, an offer exactly when it is new; a violation writes nothing |
| Undisturbed.AloneIsAtomic | backend/src/requests/requests.service.ts:80-361 | From tables that meet the joint invariant every accept, sweep, cancel, create, respond, reject and complete that runs with nothing in between ends with the answer and the tables of the atomic call |
| AwaitAccept.PerformKeeps | backend/src/requests/requests.service.ts:80-152 | Every table operation of every call in flight keeps the await-level invariant |
| AwaitAccept.FromEmptyTables | backend/src/engagements/engagements.service.ts:76-92 | In every interleaving: one engagement per request, one ACTIVE per seeker and provider, one OPEN request per seeker, and an engaged request is OPEN only while an accept is between its two saves for it |
| AwaitAccept.SettledMeansClosed | backend/src/requests/requests.service.ts:365-370 | Once no accept is between its saves for an engagement, the request is not OPEN |
| AwaitAccept.AcceptRuns | backend/src/engagements/engagements.service.ts:56-92 | An undisturbed accept reaches its end: engagement saved, request FULFILLED |
| AwaitRaces.StaysFulfilledIff | backend/src/requests/requests.service.ts:382-397 | A FULFILLED request stays so in every continuation if and only if no sweep, cancel or create in flight fetched it while OPEN and has yet to save it |
| AwaitRaces.StaysClearedIff | backend/src/requests/requests.service.ts:298-321 | A closed request whose offers are cleared stays without offers in every continuation if and only if no respond in flight found it open and has yet to insert (one that has yet to read the rejection set may wait between two awaits until the two hours of its key are over; `RejectRaces` has the bounded form) |
| AwaitRaces.StaleCancelReached | backend/src/requests/requests.service.ts:210-216 | From empty tables: post, respond, a cancel that has read the row, accept, then the cancel's save; an engaged request is CANCELLED |
| AwaitRaces.LateOfferReached | backend/src/requests/requests.service.ts:314-321 | From empty tables: post, a respond about to insert, a whole cancel, then the insert; a CANCELLED request has an offer |
| RejectRaces.OffersDespiteRejectionIff | backend/src/requests/requests.service.ts:298-361 | Once reject has recorded (r, p), in some interleaving p has an offer on r while the key lives if and only if a respond of p on r was past its rejected check by then |
| RejectRaces.RejectedIsEngaged | backend/src/requests/requests.service.ts:306-331 | From empty tables: post, a respond past its check, a whole reject, the insert, an accept; the rejected provider is engaged while the key still names the request |
| AwaitAccept.StaleCancelWins | backend/src/engagements/engagements.service.ts:83-92 | Whenever an accept goes through while a cancel holds the row, the cancel can still overwrite FULFILLED |
| CallPeer.HandleKeeps | frontend/src/features/calls/call-provider.tsx:79-347 | Every handler keeps: a call exactly in the four live states, ring timer exactly while ringing and for the current call, linger timer exactly when ended, grace timer for the current call, no candidates queued beside a set description |
| CallPeer.TimersEndTheirOwnCall | frontend/src/features/calls/call-provider.tsx:79-129 | After any events a firing ring or grace timer ends the call it was armed for, and the linger timer ends none |
| CallPeer.HangUpThenRest | frontend/src/features/calls/call-provider.tsx:101-129 | From every reachable state a hang-up and the linger timer lead back to rest: nothing survives a call |
| CallPeer.FoundGoesOut | frontend/src/features/calls/call-provider.tsx:161-164 | A found candidate goes out for call c exactly while the peer is in c with a connection |
| CallEngine.Engine.DrainPendingIce | frontend/src/features/calls/call-provider.tsx:194-200 | The loop hands over the queued candidates in order, after those handed over before: none lost, doubled or overtaken |
| CallEngine.Engine.DoFinish | frontend/src/features/calls/call-provider.tsx:101-129 | Whatever was going on, afterwards no call, connection or candidate is left, and only the linger timer is armed |
| CallEngine.Engine.TapCall | frontend/src/features/calls/call-provider.tsx:226-243 | An invite goes out exactly when a resting peer with an engagement and a microphone calls, and then its ring timer is armed for that call |
| CallEngine.Engine.TapAccept | frontend/src/features/calls/call-provider.tsx:245-259 | A ringing peer, and only it, answers the call its ring timer was armed for, by accept over a new connection or by decline, and the timer is disarmed |
| CallEngine.Engine.TapHangUp | frontend/src/features/calls/call-provider.tsx:266-269 | The end of the current call is sent exactly when one is on |
| CallEngine.Engine.HearInvite | frontend/src/features/calls/call-provider.tsx:280-294 | A busy peer turns the invite away and is otherwise untouched; a resting one rings for it with the timer armed |
| CallEngine.Engine.HearAccept | frontend/src/features/calls/call-provider.tsx:296-306 | An offer goes out exactly for the current call with a microphone, over a new connection, the ring timer disarmed |
| CallEngine.Engine.HearOffer | frontend/src/features/calls/call-provider.tsx:308-319 | An answer goes out exactly for the current call with a connection, every candidate received so far handed over in order by then |
| CallEngine.Engine.HearAnswer | frontend/src/features/calls/call-provider.tsx:321-329 | Likewise every candidate received so far is handed over in order |
| CallEngine.Engine.HearIce | frontend/src/features/calls/call-provider.tsx:331-339 | A candidate of the current call comes last of all received, handed over at once exactly when the description is set; others leave no trace |
| CallEngine.Engine.Hear | frontend/src/features/calls/call-provider.tsx:280-347 | Every message reaches its listener, keeps the peer's invariant, and is answered for its own call only |
| CallEngine.Engine.RingTimeout | frontend/src/features/calls/call-provider.tsx:216-222 | The signal names the call the timer was armed for |
| CallEngine.Engine.FailTimeout | frontend/src/features/calls/call-provider.tsx:91-97 | The call that ends is the one whose connection the timer was armed for |
| CallEngine.Engine.EndedTimeout | frontend/src/features/calls/call-provider.tsx:124-128 | Back to rest; no call is ended by it |
| CallEngine.Engine.IceFailed | frontend/src/features/calls/call-provider.tsx:182-214 | The grace timer is armed for this connection's call, and an offer for it goes out exactly from the caller |
| CallEngine.Engine.IceConnected | frontend/src/features/calls/call-provider.tsx:169-177 | Active, with neither a ring nor a grace timer left to end the call |
| CallEngine.Engine.IceDisconnected | frontend/src/features/calls/call-provider.tsx:178-181 | The grace timer is armed for this connection's call, once |
| CallEngine.Engine.IceCandidateFound | frontend/src/features/calls/call-provider.tsx:161-164 | Every candidate the connection finds is signalled for this connection's call, and nothing changes |
| CallNetwork.NextKeeps | frontend/src/features/calls/call-provider.tsx:226-347 | Every local event, delivery in any order and loss keeps the two-party invariant |
| CallNetwork.CallAgreement | frontend/src/features/calls/call-provider.tsx:296-329 | Under any loss and reordering, two peers that both hold a connection with a remote description hold the same call, and exactly one is its caller |
| CallNetwork.SharedCallHasOneCaller | frontend/src/features/calls/call-provider.tsx:226-294 | A call both peers are in has exactly one caller |
| CallNetwork.SingleOfferer | frontend/src/features/calls/call-provider.tsx:204-214 | Only the peer that started a call has offers for it under way, so offers of one call never cross |
| CallLiveness.NoCallerWaitsOnNobody | frontend/src/features/calls/call-provider.tsx:226-306 | With nothing lost, in any order: while a peer is calling, its invite is in flight, or the other side rings for it, or an accept, decline or end is in flight back |
| CallLiveness.CanWaitAloneIff | frontend/src/features/calls/call-provider.tsx:226-306 | From any state that loss and reordering lead to, a lossless run can leave a caller waiting alone if and only if one is waiting alone already |
| CallLiveness.WaitingAloneNeverConnects | frontend/src/features/calls/call-provider.tsx:296-306 | Once a caller waits alone, no run at all takes it past calling in that call |
| CallRinging.NothingRingsAlone | frontend/src/features/calls/call-provider.tsx:280-294 | With nothing lost and no end or decline delivered past the invite of its call: while a peer rings, the other side is calling it, or the news that the call is over is in flight |
| CallRinging.InOrderIsEnough | backend/src/calls/calls.gateway.ts:78-100 | Messages that arrive in the order sent never overtake their invite |
| CallRinging.CanRingAloneIff | frontend/src/features/calls/call-provider.tsx:280-347 | From any state that loss and reordering lead to, such a run can end ringing alone if and only if some invite in flight or some ringing is for a call neither being made nor about to be told over |
| CallLiveness.AcceptFindsCaller | frontend/src/features/calls/call-provider.tsx:296-306 | Under any loss and reordering an accept under way is the only one and finds its caller calling, without a connection, so no connection is ever replaced |
| CallRinging.OvertakenInviteRings | frontend/src/features/calls/call-provider.tsx:280-294 | The condition is needed: an end that overtakes its invite leaves a peer ringing alone |
| CallLiveness.LostInviteWaits | frontend/src/features/calls/call-provider.tsx:240-241 | No loss is needed: after a lost invite the caller waits for its ring timer |
| CallCandidates.CandidatesCross | frontend/src/features/calls/call-provider.tsx:161-339 | Under any loss and reordering, while the other side is in call c: the candidates found for c on this side are, with multiplicity, those received there, under way or lost by the relay |
| CallCandidates.AllCandidatesArrive | frontend/src/features/calls/call-provider.tsx:194-200 | With nothing lost and none under way, a described connection was handed exactly the candidates the other side found for the call |
| CallCandidates.CallConnects | frontend/src/features/calls/call-provider.tsx:226-329 | From any state in which both peers rest, whatever is still under way: a call picked up leads both into the same call, described and active, with the caller as caller |
| IceDrain.CandidatesConserved | frontend/src/features/calls/call-provider.tsx:308-339 | In every interleaving of the awaits: received = handed + draining + pending for the live call, nothing handed before the description is set, and no connection ever gets another call's candidate |
| IceDrain.AllHandedOver | frontend/src/features/calls/call-provider.tsx:194-200 | Once the description is set and the drains have run out, every candidate received was handed over exactly once |
| IceDrain.DescribedThenDrained | frontend/src/features/calls/call-provider.tsx:194-200 | A description for the live call, left to itself, ends with everything received handed over |
| IceDrain.JoinsAndConnects | frontend/src/features/calls/call-provider.tsx:245-259 | A resting peer that joins a call and makes its connection is in it with an empty connection |
| IceDrain.ArrivesOnce | frontend/src/features/calls/call-provider.tsx:331-339 | A candidate of the live call is received once; any other leaves no trace |
| IceDrain.HangUpClears | frontend/src/features/calls/call-provider.tsx:101-115 | Hanging up leaves no call, candidate or open connection, and touches no other connection |
| Relay.RelayIsTwoWay | backend/src/calls/calls.gateway.ts:78-100 | A signal passes only inside an ACTIVE engagement, between its two people, and can be answered along it |
| Relay.ReachesTheOther | backend/src/calls/calls.gateway.ts:78-100 | A signal is forwarded exactly when it names a call and an ACTIVE engagement of its sender, and then to the other person of it |
| Relay.OnePartner | backend/src/calls/calls.gateway.ts:86-97 | In a reachable state a user in one role reaches people along one engagement only |
| Sessions.RevokedForGood | backend/src/auth/auth.service.ts:83-106 | A session that was issued and is not live stays so in every run |
| Sessions.RevokedIffEnded | backend/src/auth/auth.service.ts:114-180 | One call revokes a live session if and only if its time runs out, it or its user is logged out, or a token of it is presented that is not the stored one or whose user is gone |
| Sessions.RevokedNeverRotates | backend/src/auth/auth.service.ts:114-151 | Once a session is deleted or has expired no token of it ever rotates again |
| Sessions.OldTokenRefusedIff | backend/src/auth/auth.service.ts:108-136 | The rotated token is refused (and the session revoked) if and only if the rotation fell into a later second |
| Sessions.SameSecondReplay | backend/src/auth/auth.service.ts:144-145 | Within one second the old token rotates again |
| Sessions.LogoutEverywhere | backend/src/auth/auth.service.ts:166-180 | After a logout everywhere no token any session of the user ever had rotates again in any run, and the answer to anyone else's token has not changed |
| Sessions.IssueAnswers | backend/src/auth/auth.service.ts:83-106 | A login stores its token under the new session id for a session's lifetime; no other key changes |
| Sessions.RotateAnswers | backend/src/auth/auth.service.ts:114-151 | A new token exactly for the stored one, unexpired, of a live session and a user that exists; which refusal each other case gets |
| Sessions.RotateLeaves | backend/src/auth/auth.service.ts:131-151 | A rotation stores the new token for a session's lifetime, reuse and a missing user delete the key, other refusals change nothing, no other key changes |
| Sessions.LogoutLeaves | backend/src/auth/auth.service.ts:154-163 | An unexpired token deletes its session's key and no other |
| Sessions.LogoutAllLeaves | backend/src/auth/auth.service.ts:166-180 | Exactly the user's keys are gone |
| SessionRaces.RevivesIff | backend/src/auth/auth.service.ts:127-145 | With rotations interleaved at their awaits a session that is gone can come back if and only if a rotation of it was past its GET |
| SessionRaces.LogoutUndone | backend/src/auth/auth.service.ts:154-163 | From any live session: a rotation reads it, the user logs out, the rotation writes it back |
| SessionRaces.AloneIsRotate | backend/src/auth/auth.service.ts:114-151 | A rotation with nothing in between ends with the answer and the keys of the atomic one |
| SessionClient.HonestClientSafe | frontend/src/lib/axios.ts:69-116 | In every interleaving over any number of tabs: a tab has at most one refresh in flight, a request is sent at most twice and waits only for its tab's; and as long as two refreshes in flight together never meet a second token and no response with a new token is lost, reuse detection does not trip and every refresh about to reach a live session carries the stored token |
| SessionClient.RefusedJoins | frontend/src/lib/axios.ts:97-107 | A first 401 of a tab's request makes it wait, marked as retried, for the refresh its tab has in flight; any other 401 settles it; no other request changes |
| SessionClient.RefusedStarts | frontend/src/lib/axios.ts:103-106 | A refresh starts exactly at a first 401 in a tab without one, with the cookie of that moment |
| SessionClient.SettledWakes | frontend/src/lib/axios.ts:107-115 | A refresh that brought a token sends each waiting request exactly once more, one that brought none settles each unsent; no other request changes |
| SessionClient.SettledForgets | frontend/src/lib/axios.ts:71-86 | The new token is the cookie, the refresh is over and its tab may start another; nothing else in flight changes |
| SessionClient.ServedMeans | backend/src/auth/auth.service.ts:114-151 | The refresh is answered with a token exactly when its cookie is the stored, unexpired one, and then with the one stored from then on |
| SessionClient.AnswerArrives | frontend/src/lib/axios.ts:107-115 | When the answer arrives a waiting request is in flight a second time with the new token, or given up after its first |
| SessionClient.RefusedThenRefreshed | frontend/src/lib/axios.ts:89-116 | Through a whole refresh: a request refused for the first time is sent again with a new token if the cookie is the session's stored token, and given up otherwise |
| SessionClient.AnsweredSettles | frontend/src/lib/axios.ts:90-91 | Any other answer settles its request and does nothing else |
| SessionClient.TabsOpenAndSend | frontend/src/lib/axios.ts:71-77 | A tab opens with nothing in flight, or on the callback page with a refresh of its own that carries the cookie; a request is sent once |
| SessionClient.TripsIffLate | backend/src/auth/auth.service.ts:127-145 | In every interleaving over any number of tabs, losses included, reuse detection trips exactly when some refresh handled for the live session carries a token issued in another second than that of the last refresh handled before it (at first: the login) |
| SessionClient.OneTabNeverTrips | frontend/src/lib/axios.ts:89-112 | Single flight: in one tab, whatever 401s race and also if it opened on the callback page, at most one refresh is ever in flight; and unless a refresh is lost, reuse detection never trips |
| SessionClient.OneTabTripsIff | frontend/src/lib/axios.ts:71-86 | One tab after any losses: some run without a further loss trips reuse detection if and only if the session lives, its stored token is of another second than the cookie's, no answer is bringing it, and the cookie still verifies |
| SessionClient.LossSetsAdriftIff | frontend/src/lib/axios.ts:77-86 | One loss brings that about exactly when it is of an answer with a token of another second than the cookie, while the cookie still verifies |
| SessionClient.FirstAnswerLostIff | backend/src/auth/auth.service.ts:131-145 | The failing run: the first refresh after the login is answered and the answer lost; the tab is adrift if and only if it was handled in another second than the login |
| SessionClient.TwoTabsTripIff | frontend/src/lib/axios.ts:69-107 | Two tabs that refresh together with one cookie revoke an honest client's session if and only if the server handles the first in another second than its token was issued in |
| AuthServices.AuthService.IssueSession | backend/src/auth/auth.service.ts:83-106 | The issue step; a fresh session id gives a session that was not there, live and holding the token handed out |
| AuthServices.AuthService.RotateToken | backend/src/auth/auth.service.ts:114-151 | The rotate step; a token handed out is the stored one of the same live session, a reuse or a missing user leaves the session revoked, any other refusal changes nothing |
| AuthServices.AuthService.RevokeFromToken | backend/src/auth/auth.service.ts:154-163 | The logout step; after a token that verifies its session is not live |
| AuthServices.AuthService.RevokeAllSessions | backend/src/auth/auth.service.ts:166-180 | The cursor loop ends with exactly the user's sessions removed, and none of that user's left |
| AuthServices.Browser.RefreshAccessToken | frontend/src/lib/axios.ts:71-77 | A new refresh is in flight, with the cookie of the moment |
| AuthServices.Browser.Unauthorized | frontend/src/lib/axios.ts:97-107 | A first 401 inside the app starts its tab's refresh or joins it, any other settles the request; the tab still has at most one |
| AuthServices.Browser.WakeWaiters | frontend/src/lib/axios.ts:107-114 | Exactly the requests waiting for that refresh go on: in flight with one more send after a success, settled with none more after a failure |
| AuthServices.Browser.Refreshed | frontend/src/lib/axios.ts:77-107 | The tab forgets the settled promise, nobody is left waiting for it, and each that was is sent once more or given up, as the refresh brought a token or not |
| Providers.SubmittedMeansComplete | backend/src/providers/providers.service.ts:98-236 | Over any run: a SUBMITTED or APPROVED application has name, verified phone, skill, selfie and ID; at most one document per kind; nobody is both seeker and provider |
| Providers.FrozenUnderReview | backend/src/providers/providers.service.ts:492-501 | From submission until a rejection the form fields and the document rows cannot change; an approval is final (what the files hold is for `Pictures`) |
| Pictures.PicturesCanChangeIff | backend/src/storage/storage.service.ts:50-57 | The pictures of an application under review can change before a rejection if and only if a PUT URL of one of them is still valid; otherwise what is approved is what was submitted |
| Pictures.FinalAfterFiveMinutes | backend/src/storage/storage.service.ts:8-9 | Five minutes after a submission, whatever went on in between, no run without a rejection changes its pictures |
| Pictures.SwappedBeforeApproval | backend/src/providers/providers.service.ts:292-300 | With a PUT URL still valid: submit, write over a picture, approve; what is approved is not what was submitted |
| Providers.ResumeMeans | frontend/src/features/providers/components/wizard/provider-wizard.tsx:18-26 | Step 5 exactly when nothing is missing and a phone number is on file; otherwise the first step with a gap |
| Providers.ResumeAgreesWithSubmit | backend/src/providers/providers.service.ts:209-236 | With well-typed bodies, in every reachable editable state: step 5 if and only if submit would go through |
| Providers.NullPhoneSplitsThem | backend/src/providers/dto/update-application.dto.ts:18-23 | A null number on any complete draft with a code under way: the wizard is at step 1 and submit goes through |
| Providers.SubmitPromotesIff | backend/src/users/users.service.ts:151-161 | After a successful submit the user is a provider and no seeker if and only if the account is not deleted or was that already; admin is preserved |
| Providers.ApplicantsAreProviders | backend/src/providers/providers.service.ts:230-233 | If deleted accounts do not submit, whoever got past a draft is a provider for good |
| Providers.DeletedAccountSubmits | backend/src/users/users.service.ts:31-33 | A seeker who deletes, submits and signs in again stays a seeker with an application under review |
| Providers.FolderIsPrivate | backend/src/providers/providers.service.ts:176-178 | The prefix check puts a key into one user's folder only |
| Providers.ReplacedStaysHome | backend/src/providers/providers.service.ts:187-197 | Replacing a document changes nothing in other users' folders |
| Providers.ConfirmKeepsBackedIff | backend/src/providers/providers.service.ts:169-206 | A confirmation leaves every document with its file if and only if its key is none of the replaced document's files and no other document lives on one of those |
| Providers.RetryLosesThePicture | backend/src/providers/providers.service.ts:191-197 | Confirming the same upload twice succeeds twice and deletes the picture |
| Providers.EveryDocumentHasItsPicture | backend/src/providers/providers.service.ts:151-206 | If every upload is confirmed once, in every reachable state every document has its file |
| Providers.FromTheStart | backend/src/providers/providers.service.ts:80-236 | All of these from a database without applications |
| ProviderAnswers.UpdateAnswers | backend/src/providers/providers.service.ts:98-103 | Goes through exactly for a well-formed body, a known user and an application not under review; which refusal each other case gets |
| ProviderAnswers.UpdateLeaves | backend/src/providers/providers.service.ts:105-120 | Given fields are stored, null clears, absent ones stay; the number stays verified exactly when unchanged; skills are the known ones of those given; nothing else changes |
| ProviderAnswers.SendOtpAnswers | backend/src/providers/providers.service.ts:123-137 | A code is stored for a quarter of an hour exactly when a number is on file; the refusals |
| ProviderAnswers.VerifyOtpAnswers | backend/src/providers/providers.service.ts:139-149 | Exactly the user's live code verifies the number, and is spent |
| ProviderAnswers.PresignAnswers | backend/src/providers/providers.service.ts:152-166 | A URL for five minutes, in the user's folder |
| ProviderAnswers.PutAnswers | backend/src/storage/storage.service.ts:50-57 | A PUT writes the file exactly while its URL is valid |
| ProviderAnswers.ConfirmAnswers | backend/src/providers/providers.service.ts:169-185 | Goes through exactly for an uploaded file of at most five megabytes in the user's own folder, with the application not under review; the refusals in their order |
| ProviderAnswers.ConfirmLeavesRows | backend/src/providers/providers.service.ts:187-206 | The user's documents of the kind make way for the new one; no other row changes |
| ProviderAnswers.ConfirmLeavesFiles | backend/src/providers/providers.service.ts:191-197 | Their files are gone, a thumbnail is added exactly when one can be made of a file still there, every other file is as before |
| ProviderAnswers.MissingMeans | backend/src/providers/providers.service.ts:213-220 | Each part is missing exactly when it is not there |
| ProviderAnswers.MissingInOrder | backend/src/providers/providers.service.ts:213-220 | They come in the form's order |
| ProviderAnswers.SubmitAnswers | backend/src/providers/providers.service.ts:209-226 | Goes through exactly for a complete application not under review; the refusals |
| ProviderAnswers.SubmitLeaves | backend/src/providers/providers.service.ts:227-236 | SUBMITTED with the time and no rejection reason; an account that is not deleted is a provider and no seeker, other roles kept |
| ProviderAnswers.ApproveAnswers | backend/src/providers/providers.service.ts:250-272 | Exactly a SUBMITTED application is APPROVED and stamped; the refusals |
| ProviderAnswers.RejectAnswers | backend/src/providers/providers.service.ts:275-289 | Exactly a SUBMITTED one is REJECTED with its reason; the refusals |
| ProviderAnswers.ViewAnswers | backend/src/providers/providers.service.ts:80-96 | Viewing makes an empty draft where there is none |
| ProviderAnswers.ChooseSeekerAnswers | backend/src/users/users.service.ts:138-147 | Exactly a provider is refused; anyone else with an account becomes a seeker; no other user changes |
| ProviderServices.Registry.UpdateApplication | backend/src/providers/providers.service.ts:98-120 | The update step; soundness (`Providers.SubmittedMeansComplete`) is kept, and a number is verified afterwards only if it is the number verified before |
| ProviderServices.Registry.EditFields | backend/src/providers/providers.service.ts:103-118 | Field by field, present, null or absent, the edited form |
| ProviderServices.Registry.SendPhoneOtp | backend/src/providers/providers.service.ts:123-137 | The send step; soundness is kept, a live code exists on success, which needs a number on file, and no code is touched otherwise |
| ProviderServices.Registry.VerifyPhoneOtp | backend/src/providers/providers.service.ts:139-149 | The verify step; soundness is kept, success needs the live code, marks the phone verified, and no code works after it |
| ProviderServices.Registry.RemovePrevious | backend/src/providers/providers.service.ts:187-197 | The loop drops exactly the user's documents of the kind and their files |
| ProviderServices.Registry.PresignDocument | backend/src/providers/providers.service.ts:152-166 | The presign step: a URL in the user's folder, for a key no URL was valid for |
| ProviderServices.Registry.ReplaceDocument | backend/src/providers/providers.service.ts:187-205 | Old rows and files out, the new row in, with a thumbnail exactly when the file is still there to make one of |
| ProviderServices.Registry.ConfirmDocument | backend/src/providers/providers.service.ts:169-206 | The confirm step; soundness is kept, and on success the upload is the user's one document of its kind, in the user's folder, and nothing under review was touched |
| ProviderServices.Registry.MissingParts | backend/src/providers/providers.service.ts:213-220 | The list built part by part is what the application lacks, in order |
| ProviderServices.Registry.SubmitApplication | backend/src/providers/providers.service.ts:209-236 | The submit step; soundness is kept, success means complete and SUBMITTED, an incomplete application is told at least one missing part and stays editable |
| ProviderServices.Registry.ApproveApplication | backend/src/providers/providers.service.ts:250-272 | The approve step, which goes through exactly for a SUBMITTED application and leaves it APPROVED and complete |
| ProviderServices.Registry.RejectApplication | backend/src/providers/providers.service.ts:275-289 | The reject step; soundness is kept, success needs a SUBMITTED application and leaves it editable, a refusal changes nothing |
| ProviderServices.Registry.AddRole | backend/src/users/users.service.ts:124-132 | The role is in the user's set afterwards, nothing else changes |
| ProviderServices.Registry.AssignSeekerRole | backend/src/users/users.service.ts:138-147 | A provider is refused; anyone else with an account becomes a seeker and no provider |
| ProviderServices.Registry.PromoteToProvider | backend/src/users/users.service.ts:153-161 | Provider in, seeker out, admin untouched |

## Left out

- Controllers, guards, DTO validation other than the application form's, storage and image processing, mail, cron, health, metrics: calls into libraries.
- The React UI, maps, sounds and query caches; muting and the call's start time.
- Chat messages, read marks, the seeker's history, the pending-review prompt: queries that only add easy members.
- Closing or reloading a tab, a second login in the same browser, and the development build's double run of effects.
- Google and password login, access tokens and cookies' attributes; the client clearing its access token after a failed refresh.
- Account purge and the demo seed, which change rows behind the services' backs; `setRoles`, which nothing calls.
- The distances on `findNearby`'s cards and its cut at a hundred rows (its skills join can return more raw rows than entities): the model has the set of providers its query selects.
- Realtime delivery of `request:new` and `request:removed` beyond the set of providers told.
- That the verified number is the one a code was sent to: the code is keyed by user.
- Leaving `connecting`: no timer is armed there until ICE reports a problem, so no liveness is stated for it.
- The window while `startCall` or `createPeer` awaits the microphone: a hang-up in it can leave a timer or a connection behind.
- Stale saves of whole rows other than in accept, cancel, create, respond, sweep and complete (reading marks, profile edits beside a review): rating conservation and terminal statuses are stated for atomic calls.
- AwaitAccept.FromEmptyTables: does not say that offers exist on OPEN requests only or that an engaged request is FULFILLED, because at await level neither holds; `AwaitRaces` says when they do.
- A cursor whose `t` is text but no date: what the query then does is left to the database.
- Interleavings of `revokeAll`'s own cursor loop with a login: in `SessionRaces` only `rotate` is split at its awaits.
- Keyset.CursorRoundTrip: does not model bytes, base64url or JSON, because the cursor is taken as an injective code with a total decoder.
- Lifecycle.AverageHonest: does not model doubles, because rounding of the quotient itself is not the point; at an exact tie the strict bound is that of real numbers.
- CallNetwork.CallAgreement: does not model repeated messages, because Socket.IO delivers at most once.
- Roles are a set and skills of a profile are a set: the order of the stored arrays is not modelled.
