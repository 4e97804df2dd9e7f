# HSP: a verified model of the object store

HSP keeps immutable objects under their content identifiers (CIDs) and names
them through versioned namespaces. This project models the service that does
it, the distribution layer and the CDN cache above it, and proves what they
guarantee over whole runs.

| module | what it models |
|---|---|
| `Paths` | percent-decoding, canonical paths, segment prefixes |
| `Cbor`, `Records` | the canonical CBOR encoder, manifests, signed mutations, cursors |
| `Calendar` | civil dates and X-Amz-Date |
| `Chunker`, `Reading` | fixed-size chunking, one-shot and streaming; range reads |
| `Namespaces`, `Listing` | bind and unbind with a journal, snapshots, paging |
| `Policy`, `Events` | token checks, replay protection, the event log |
| `Service` | one tenant's store and every request as one step on it; runs of any number of instances with restarts |
| `ServiceInvariants`, `ServiceTheorems`, `BindIdempotency`, `ReplayRuns`, `Clients` | what every request keeps, and what follows over runs for histories, live bindings, retries, replay protection, paging clients, resolvers and subscribers |
| `Access`, `Replies` | who may do what, and what each mutating request answers and writes, field by field |
| `Distribution`, `Uploads`, `Objects`, `Completeness`, `Tokens` | objects under bucket and key: upload, read back, copy, delete, object lock, and the token ids that uploads use up |
| `ObjectOps`, `Retention` | puts, copies, deletes, gets and lock requests from the outside: when they succeed and what they leave |
| `Sites`, `Locks` | runs of the distribution service: what is put reads back, what is locked stays |
| `Scenarios`, `SharedIds` | short runs that show where a promise ends |
| `Cdn`, `CdnReads` | the cache, its keys and its invalidation worker; what is answered from the origin and for how long from the cache |
| `Alpha`, `Uploader`, `Gateway` | `AlphaService`, the streaming chunk uploader and `DistributionService` as objects whose methods update their fields, each proved to take exactly the step specified |

Texts are UTF-8 byte sequences. The content hash is a function with
collision-freedom as a hypothesis (`CollisionFree`); signature verification is a
function from signed texts to records, and `Trusted` says that the registry
accepts what the distribution service signs. Time is a parameter of every
request. Requests are serialised and storage does not fail.

`Service` states each step as a function of the store; `Alpha` and `Gateway`
are the imperative form. A request-level theorem about the functions is
therefore a theorem about the methods.

## What the code does that its users may not expect

- A canonical path is its own canonical form exactly when it is ASCII without
  `%`; other names change or fail when another layer canonicalises them, and no
  object can be put under them (`CanonicalPathAgain`, `NonAsciiIsRecoded`,
  `PutThenGet`).
- A list page of limit 0 returns a cursor that never decodes (`LimitZeroIsStuck`).
- A filtered subscriber whose full window holds no match receives nothing more at
  that batch_max or a smaller one (`FullWindowWithoutMatchIsFinal`).
- A token whose canonical path prefix is not ASCII is shown paths outside it,
  because authorisation canonicalises the list prefix a second time; for ASCII
  prefixes this never happens (`ListedPathsInScope`, `ListingEscapesScope`,
  `EscapeReached`).
- A commit whose bind fails deletes the manifest even when an earlier commit had
  stored it and a live binding names it; live bindings stay resolvable exactly
  unless that happens (`CommitResolvedIff`, `RollbackLosesLive`).
- An instance's replay cache can keep a key that differs from the durable one and
  then, and only then, refuses the right one (`RecordedKeyAcceptedIff`,
  `CacheMayHoldAnotherKey`).
- A token scoped to a path or namespace prefix can never send a chunk, because
  put_chunk names neither (`ScopedTokenPutsNothing`).
- delete_object looks its lock up under the bucket as the request spells it, so a
  delete spelled `b%61` ignores the legal hold on bucket `ba`
  (`DeleteGoesThroughIff`, `HeldObjectDeleted`).
- Two tokens that share an id can overwrite an object on legal hold: the narrow
  one initialises, the wide one commits the narrow one's bind
  (`SharedIdOverwritesHeld`). With one token per id this cannot happen
  (`LockedObjectsStay`).
- A chunk cannot be sent again with the token that sent it: put_chunk carries no
  idempotency key, so a retry is refused as a replay (`ChunkAgainRefused`).
- A CDN hit asks the origin nothing, so it also answers callers whom the origin
  refuses and outlives the manifest (`HitIgnoresOrigin`).
- The CDN's invalidation worker starts from event 0, which the service grants only
  while the tenant's event counter is at most 3600 (`WorkerStartsIff`).
- CDN keys of different tenants coincide when CIDs may contain colons
  (`CidKeysCollide`); the service's CIDs contain none.

## Model

| member | source | states |
|---|---|---|
| Paths.PercentDecodeOnce | crates/hsp-path/src/lib.rs:55-72 | the decoding loop computes one round of percent-decoding, whose meaning DecodeSpelled and DecodableIsSpelled state; malformed escapes are an error |
| Paths.DecodeSpelled | crates/hsp-path/src/lib.rs:55-81 | decoding undoes every way of writing a text, each byte literally or as `%` and two digits of either case: an ASCII text comes back itself, any other byte as the character of its code |
| Paths.DecodableIsSpelled | crates/hsp-path/src/lib.rs:55-81 | and only such texts decode |
| Paths.CanonicalOfSpelled | crates/hsp-path/src/lib.rs:22-87 | every spelling of an ASCII path canonicalises to that path, or is refused exactly when the path itself still holds an escape |
| Paths.CanonicalPathIsDecoded | crates/hsp-path/src/lib.rs:22-33 | canonicalising succeeds exactly when one decoding succeeds and leaves no nested escape, and splitting and joining segments adds nothing to it |
| Paths.SegmentPrefixMatchesExactly | crates/hsp-path/src/lib.rs:35-53 | a prefix matches iff both sides canonicalise and the candidate equals the prefix or extends it after a slash |
| Paths.SegmentPrefixMatchesTransitive | crates/hsp-path/src/lib.rs:35-53 | segment-wise prefix matching is transitive |
| Paths.CanonicalPathAgain | crates/hsp-path/src/lib.rs:22-33 | a canonical path is a fixpoint iff it is ASCII without `%`; with `%` it is refused, otherwise it grows |
| Paths.LayersDecodeOnce | crates/hsp-path/src/lib.rs:22-87 | for an ASCII canonical form, any number of canonicalising layers give the same path or an error, so a path is decoded at most once |
| Paths.NonAsciiIsRecoded | crates/hsp-path/src/lib.rs:55-72 | a concrete path whose canonical form changes when canonicalised again |
| Paths.MatchedPrefixCovers | crates/hsp-path/src/lib.rs:35-53 | a prefix that matches a canonical path, which the match canonicalises once more, lies over everything below that path iff its canonical form is ASCII |
| Cbor.Output.EncodeMajor | crates/hsp-core/src/lib.rs:1425-1445 | appends exactly the shortest head for the major type and argument |
| Cbor.Output.EncodeValue | crates/hsp-core/src/lib.rs:1396-1423 | appends exactly the value's encoding to the buffer |
| Cbor.Output.EncodeItems | crates/hsp-core/src/lib.rs:1407-1412 | the array loop appends the items' encodings in order |
| Cbor.Output.EncodeEntries | crates/hsp-core/src/lib.rs:1413-1419 | the map loop appends key and value of every entry in key order |
| Cbor.HeadExact | crates/hsp-core/src/lib.rs:1425-1445 | a reader of heads inverts the encoder of heads, both ways |
| Cbor.HeadShortest | crates/hsp-core/src/lib.rs:1425-1445 | no form that section 4.2.1 of RFC 8949 allows for a head is shorter |
| Cbor.ReaderExact | crates/hsp-core/src/lib.rs:1390-1445 | a deterministic-CBOR reader returns a value and leaves a rest iff the input is that value's encoding followed by the rest |
| Cbor.EncodingPrefixFree | crates/hsp-core/src/lib.rs:1390-1445 | no encoding begins another, so the encoding is injective |
| Cbor.HeadOrder | crates/hsp-core/src/lib.rs:1425-1445 | numeric order of arguments is bytewise order of heads |
| Cbor.MapKeysAscend | crates/hsp-core/src/lib.rs:1413-1419 | encoded map keys come out in strictly increasing bytewise order |
| Records.ManifestBytesInjective | crates/hsp-core/src/lib.rs:378-407 | distinct manifests have distinct canonical bytes, across chunk lists, wrapped keys, optional fields and metadata |
| Records.ManifestCidIdentifies | crates/hsp-core/src/lib.rs:382-384 | up to hash collision, equal manifest CIDs mean equal manifests |
| Records.MutationBytesInjective | crates/hsp-core/src/lib.rs:630-658 | distinct signed mutation records have distinct canonical bytes |
| Namespaces.RecordCidIdentifies | crates/hsp-core/src/lib.rs:630-658 | up to hash collision, equal record CIDs mean equal signed mutations |
| Records.ListCursorRoundTrip | crates/hsp-core/src/lib.rs:765-812 | a list cursor decodes to itself iff its required texts are non-empty, whatever trails it |
| Records.EventCursorRoundTrip | crates/hsp-core/src/lib.rs:903-942 | likewise for event cursors |
| Calendar.NextDayIsSuccessor | crates/hsp-distribution/src/lib.rs:3955-3962 | the day number rises by exactly one per Gregorian calendar day, in every year |
| Calendar.CivilRoundTrip | crates/hsp-distribution/src/lib.rs:3955-3977 | every integer is the day number of the valid date it converts to |
| Calendar.DateRoundTrip | crates/hsp-distribution/src/lib.rs:3955-3977 | every valid date is the date its day number converts to |
| Calendar.AmzDateRoundTrip | crates/hsp-distribution/src/lib.rs:3820-3989 | parsing a printed X-Amz-Date gives the time rounded down to the second, 1970 through 9999 |
| Chunker.FixedChunker.Append | crates/hsp-distribution/src/lib.rs:3460-3587 | adds one chunk reference at the cursor and advances it; fails exactly on 32-bit index or 64-bit offset overflow |
| Chunker.FixedChunker.Collect | crates/hsp-distribution/src/lib.rs:3415-3501 | taking in bytes keeps: emitted chunks are the one-shot chunks of what is complete, the rest is pending |
| Chunker.FixedChunker.Flush | crates/hsp-distribution/src/lib.rs:3441-3526 | afterwards the emitted chunks are the one-shot chunks of everything consumed and the offset is its length |
| Chunker.StreamParts | crates/hsp-distribution/src/lib.rs:2173-2207 | for every split into parts, streaming gives exactly the one-shot chunks of the concatenation and its length, and refuses exactly objects of 2^32 chunks or more |
| Chunker.ChunksAre | crates/hsp-distribution/src/lib.rs:3599-3612 | the i-th chunk of an object holds its bytes from i mebibytes on, 1048576 of them or what is left, with index, offset, lengths and hash accordingly, and there are as many as needed |
| Reading.ReadFragments | crates/hsp-service/src/lib.rs:997-1048 | the clipping loop returns the fragments of the range in order, or the first error |
| Reading.RangeReadExact | crates/hsp-service/src/lib.rs:984-1048 | for chunks that tile an object, any range inside it reads as exactly that inclusive slice, in fragments that tile it |
| Reading.ChunkedIsTiled | crates/hsp-distribution/src/lib.rs:3599-3612 | fixed-size chunking tiles the object |
| Namespaces.TakeSnapshot | crates/hsp-service/src/lib.rs:2015-2066 | the replay loop computes the bindings as of a revision |
| Namespaces.BindKeepsInv | crates/hsp-service/src/lib.rs:1605-1630 | a bind whose signed record names the same path, kind and precondition keeps journal, counter and bindings in agreement |
| Namespaces.UnbindKeepsInv | crates/hsp-service/src/lib.rs:1748-1780 | likewise for tombstones and hard deletes |
| Namespaces.CurrentIsReplay | crates/hsp-service/src/lib.rs:2015-2066 | replaying the journal to the current revision gives exactly the current bindings |
| Namespaces.HistoryImmutable | crates/hsp-service/src/lib.rs:2015-2066 | later mutations never change what an earlier revision reads |
| Namespaces.BeyondIsCurrent | crates/hsp-service/src/lib.rs:2015-2066 | a revision at or beyond the current one reads the current bindings |
| Namespaces.RevisionUsedOnce | crates/hsp-service/src/lib.rs:1582-1616 | no two applied mutations of one path state the same non-zero if_revision, hard deletes in between or not |
| Namespaces.BindingOrigin | crates/hsp-service/src/lib.rs:2027-2066 | every replayed binding was written by the last journal entry for its path, whose revision and target it carries |
| Listing.ItemsExact | crates/hsp-service/src/lib.rs:1186-1200 | a listing shows a binding iff the snapshot holds it and it is wanted, which ListedIff writes out |
| Listing.ListedIff | crates/hsp-service/src/lib.rs:1186-1200 | a listing shows a path iff it is bound, lies under the prefix and is either live or a tombstone that was asked for; what is shown is its binding |
| Listing.PageSize | crates/hsp-service/src/lib.rs:1188-1242 | a page holds at most its limit, exactly its limit when truncated, and names the revision it was cut from |
| Listing.CursorAcceptedIff | crates/hsp-service/src/lib.rs:1165-1184 | a cursor is accepted iff it was cut for this tenant, namespace and prefix and names a path, and then its revision is the page's |
| Listing.PagingExact | crates/hsp-service/src/lib.rs:1165-1242 | following next_cursor visits exactly the first snapshot's filtered items, in path order, once each, and ends, whatever happens between the calls |
| Listing.LimitZeroIsStuck | crates/hsp-service/src/lib.rs:1188-1235 | a non-empty listing at limit 0 yields a cursor that every later call refuses |
| Policy.ReplayCache.Observe | crates/hsp-auth/src/lib.rs:266-292 | first sight of a key is fresh and remembered, the same idempotency key is a retry, another is refused |
| Policy.AcceptedRecorded | crates/hsp-service/src/lib.rs:1385-1429 | an accepted attempt leaves its idempotency key in the durable record and is fresh iff there was none |
| Policy.FreshAtMostOnce | crates/hsp-service/src/lib.rs:1373-1429 | the two-layer record by itself, over any attempts, restarts and instances: only the first accepted attempt per key is fresh and later ones state its idempotency key |
| Policy.RecordedKeyAcceptedIff | crates/hsp-auth/src/lib.rs:266-292 | the recorded idempotency key is accepted by an instance iff its cache holds no other key for it, and no other key ever is |
| Policy.CacheMayHoldAnotherKey | crates/hsp-auth/src/lib.rs:266-292 | a run in which cache and durable record disagree and the right key is refused |
| Access.PolicyAllowsIff | crates/hsp-auth/src/lib.rs:145-262 | the policy raises no objection iff: the time lies in the token's window, tenant and scope fit (per scope a table of operations), mutations have a bound channel and a token id, uploads name key policy and profile, and key policy, visibility, path and namespace prefix, size and storage class fit |
| Access.DenialNames | crates/hsp-auth/src/lib.rs:145-262 | and the reason it gives names a condition that fails |
| Access.GrantsIsScope | crates/hsp-auth/src/lib.rs:324-346 | per scope, the operations it grants |
| Access.AuthorizedIff | crates/hsp-service/src/lib.rs:1373-1429 | a request is authorised iff all this holds and, for a mutation, the token has no record for it or the same idempotency key in store and cache |
| Access.RefusalIsLogged | crates/hsp-service/src/lib.rs:1373-1467 | a refusal appends exactly one denial event that names what was asked for; a grant appends none |
| Access.OnlyTheEntitled | crates/hsp-service/src/lib.rs:336-1371 | each request: without a token in force, of this tenant, with the scope, and whose prefixes, size and classes cover what the request names, there is no answer and nothing but log and replay records changes |
| Access.RunOnlyTheEntitled | crates/hsp-service/src/lib.rs:336-1371 | so over every run of any instances: a call with an expired, foreign or insufficient token is not answered and changes no chunk, manifest, session, namespace or recorded reply |
| Access.CommitBindsOnlyIfEntitled | crates/hsp-service/src/lib.rs:713-749 | the bind inside a commit happens only for a token that may bind at the place of the bind |
| Events.ReadRecordsAfter | crates/hsp-service/src/lib.rs:2075-2096 | the read loop returns the first events at or after a number, in order |
| Events.MatchingIff | crates/hsp-service/src/lib.rs:2123-2150 | an event is due to a subscriber iff it lies in the stretch and some filter, field by field, lets it through |
| Events.MatchingInOrder | crates/hsp-service/src/lib.rs:2075-2096 | what is due comes in the order of event numbers |
| Events.StartAtIs | crates/hsp-service/src/lib.rs:1298-1320 | a subscription starts at its own tenant's cursor, else at the number asked for, else at the end, and is refused iff that lies more than 3600 events back |
| Events.PollSize | crates/hsp-service/src/lib.rs:1322-1371 | a poll delivers at most batch_max events |
| Events.PollMovesIff | crates/hsp-service/src/lib.rs:1322-1371 | a poll moves the cursor iff its window holds a match |
| Events.DeliveredExactly | crates/hsp-service/src/lib.rs:1322-1371 | whatever is appended between polls, a subscriber receives exactly the matching events from its first cursor to its current one, in order |
| Events.UnfilteredReachesEnd | crates/hsp-service/src/lib.rs:1322-1371 | an unfiltered subscriber with batches of at least one reaches the end of a log that has stopped growing |
| Events.FullWindowWithoutMatchIsFinal | crates/hsp-service/src/lib.rs:1342-1371 | after a full window without a match, whatever is appended, no poll of that batch_max or less delivers anything, and a larger one moves iff it finds a match beyond that window |
| ServiceInvariants.AuthorizeVerdict | crates/hsp-service/src/lib.rs:1373-1429 | an authorised mutation carries a token id, is fresh iff its key had no durable record, and leaves its idempotency key there |
| ServiceInvariants.BindStepKeeps | crates/hsp-service/src/lib.rs:1536-1670 | bind keeps the store invariant: chunks under their hashes, manifests complete, journals consistent, log without gaps; nothing recorded is lost |
| ServiceInvariants.UnbindStepKeeps | crates/hsp-service/src/lib.rs:1672-1839 | likewise unbind |
| ServiceInvariants.InitStepKeeps | crates/hsp-service/src/lib.rs:336-482 | likewise put_init |
| ServiceInvariants.ChunkStepKeeps | crates/hsp-service/src/lib.rs:484-628 | likewise put_chunk |
| ServiceInvariants.CommitStepKeeps | crates/hsp-service/src/lib.rs:630-820 | likewise put_commit, with the bind inside it and the rollback |
| ServiceInvariants.RunKeeps | crates/hsp-service/src/lib.rs:336-1371 | in every run of any instances with restarts the invariant holds throughout and later stores extend earlier ones |
| ServiceTheorems.RunHistory | crates/hsp-service/src/lib.rs:2015-2066 | in every reachable state the journal replays to the current bindings and old revisions read as before |
| Clients.ResolveAnswers | crates/hsp-service/src/lib.rs:1063-1113 | a resolve looks the path up in the bindings of the revision asked for; an unbound path, another if_revision and a token not allowed are the only refusals |
| Clients.RunResolve | crates/hsp-service/src/lib.rs:1063-1113 | over every run, a resolve at the revision the namespace had at any earlier moment replies the binding of that moment, or path_not_bound if there was none; without a revision, or at one not yet reached, the present one; if_revision refuses exactly another revision, and only a token that is not allowed is denied |
| ServiceTheorems.RunRevisionUsedOnce | crates/hsp-service/src/lib.rs:1997-2013 | over a run, at most one mutation of a path with a given non-zero if_revision is applied, and revisions strictly increase |
| Clients.RunPaging | crates/hsp-service/src/lib.rs:1127-1243 | in every run, the pages a client gets by following next_cursor are a growing beginning of the first page's listing in path order, each path once; a finished walk shows a path iff it was bound in the first state, lies under the prefix, and is live or tombstones were asked for |
| Clients.ListReplyShows | crates/hsp-service/src/lib.rs:1127-1243 | every item of a list reply lies under the canonical prefix, is a tombstone only if asked for, and there are at most limit of them, 100 without one |
| Clients.RunDelivery | crates/hsp-service/src/lib.rs:1322-1371 | the events in the run's own poll replies, cursor threaded, are exactly the matching ones from the first cursor to the last, in order |
| Clients.RunDelivered | crates/hsp-service/src/lib.rs:1322-1371 | event by event: delivered over the run is exactly what lies between the cursors in the log and passes a filter, each field of it, in order |
| Clients.PageOfIs | crates/hsp-service/src/lib.rs:1127-1243 | an authorised list reply is a page of the namespace as the call finds it |
| Clients.PollOfIs | crates/hsp-service/src/lib.rs:1245-1371 | an authorised poll reply is a poll of the log as the call finds it |
| ServiceTheorems.ListedPathsInScope | crates/hsp-service/src/lib.rs:1150-1199 | every path in the reply to a path-scoped token lies segment-wise under the token's canonical prefix iff that prefix is ASCII, whatever prefix was asked for |
| ServiceTheorems.ListingEscapesScope | crates/hsp-service/src/lib.rs:1150-1199 | wherever "%E9" is live, a token restricted to U+00E9 that lists it is shown a path outside its prefix |
| Scenarios.EscapeReached | crates/hsp-service/src/lib.rs:1150-1199 | such a store is reached from the empty one by an upload |
| ReplayRuns.RunFreshAtMostOnce | crates/hsp-service/src/lib.rs:1373-1429 | in every run of the service's own requests, with restarts and instances, only the first granted authorisation per replay key is fresh and later ones state its idempotency key, both authorisations of a commit included |
| ReplayRuns.CallRecords | crates/hsp-service/src/lib.rs:1385-1429 | every granted authorisation of every request is fresh iff its key was unrecorded before the call and is recorded after it |
| ServiceTheorems.BindStepShape | crates/hsp-service/src/lib.rs:1536-1670 | a bind leaves namespaces alone or applies exactly one verified mutation whose precondition held; a failed one changes no namespace |
| ServiceTheorems.UnbindStepShape | crates/hsp-service/src/lib.rs:1672-1839 | likewise unbind |
| Replies.BindReadyIff | crates/hsp-service/src/lib.rs:1536-1616 | a bind is in order iff both names canonicalise, the signed record says for this place what the request says, and the precondition holds of the path's binding |
| Replies.BindWrites | crates/hsp-service/src/lib.rs:1536-1670 | a bind that takes effect gives exactly its path exactly the target and metadata asked and signed, under the next revision, which the reply names, announced under the event number the reply names |
| Replies.UnbindWrites | crates/hsp-service/src/lib.rs:1672-1839 | an unbind that takes effect had named the binding's revision; it leaves a tombstone at exactly its path, or nothing with hard_delete, which needs admin.repair; revision, record and event are those of the reply |
| Replies.InitInvalidIff | crates/hsp-service/src/lib.rs:336-396 | the manifests and requests put_init accepts |
| Replies.InitOpens | crates/hsp-service/src/lib.rs:397-482 | an init that is no retry opens a session for exactly the manifest and bind of the request |
| Replies.MissingExact | crates/hsp-service/src/lib.rs:423-429 | the chunks reported missing are exactly those of the manifest that are not stored |
| Replies.ChunkWrites | crates/hsp-service/src/lib.rs:484-628 | an accepted chunk has the hash, offset and length that the session's manifest gives its index and at most 4 MiB; it is stored once and the reply says whether it was there |
| Replies.CommitWrites | crates/hsp-service/src/lib.rs:703-820 | a commit that takes effect stores the session's manifest, closes the session and names the event it appended |
| Replies.BindAgain | crates/hsp-service/src/lib.rs:1546-1572 | a bind that was answered is answered the same when sent again, and changes nothing |
| Replies.UnbindAgain | crates/hsp-service/src/lib.rs:1710-1730 | likewise unbind |
| Replies.InitAgain | crates/hsp-service/src/lib.rs:397-421 | likewise put_init |
| Replies.CommitAgain | crates/hsp-service/src/lib.rs:630-701 | likewise put_commit |
| Replies.ChunkAgainRefused | crates/hsp-service/src/lib.rs:572-588 | put_chunk has no idempotency key: sent again with the same token a chunk is refused |
| Replies.BlankIsSpaces | crates/hsp-core/src/lib.rs:601-616 | a text is blank only when it is made of Unicode white space |
| Replies.SpacesAreBlank | crates/hsp-core/src/lib.rs:601-616 | and whenever it is |
| ServiceTheorems.CommitResolvedIff | crates/hsp-service/src/lib.rs:713-749 | through a commit live bindings stay resolvable iff it does not roll back a live manifest, where rolling back is stated on the state before: session, token, chunks, and a bind that is not canonical, not verified, not permitted or whose precondition fails |
| ServiceTheorems.BindSucceedsIff | crates/hsp-service/src/lib.rs:1536-1616 | a bind inside a commit succeeds iff names, record, token and precondition are in order |
| ServiceTheorems.AuthorizeIff | crates/hsp-service/src/lib.rs:1373-1429 | a mutation is authorised iff the policy allows it, which Access.PolicyAllowsIff writes out, and the replay record does not refuse it |
| Scenarios.SecondCommitLosesLive | crates/hsp-service/src/lib.rs:728-749 | whoever initialises a live object's manifest again with an if_absent bind at its path, and commits, deletes the manifest and keeps the binding |
| Scenarios.RollbackLosesLive | crates/hsp-service/src/lib.rs:728-749 | a run of five calls from the empty store after which a live path names no stored manifest |
| ServiceTheorems.RunResolved | crates/hsp-service/src/lib.rs:491-749 | in every run chunks hash to their CIDs and manifests have all their chunks; without such a rollback every live binding resolves |
| BindIdempotency.BindAtMostOnce | crates/hsp-service/src/lib.rs:1546-1669 | of all direct binds with one token id, subject and idempotency key, interleaved with anything, at most one changes a namespace |
| BindIdempotency.BindRepliesEqual | crates/hsp-service/src/lib.rs:1546-1669 | every later success of them repeats the first reply, unless another bind reuses the idempotency key |
| Uploads.DescriptorAccepted | crates/hsp-service/src/lib.rs:484-571 | every chunk that chunking stages passes put_chunk's checks against the object's session |
| Uploads.UploadFailsOnlyByDenial | crates/hsp-distribution/src/lib.rs:1427-1441 | the chunk loop can fail only by a refused token |
| Uploads.CommitShape | crates/hsp-service/src/lib.rs:630-820 | a commit leaves namespaces alone or applies exactly its session's bind; success means manifest stored and bound |
| Uploads.CommittedReadsBack | crates/hsp-service/src/lib.rs:984-1048 | a committed chunked object reads back exactly, for every range, out-of-range ones an error |
| Uploads.SignedBindPlace | crates/hsp-service/src/lib.rs:1841-1872 | a bind happens at exactly the bucket and key its record was signed for and touches no other path |
| Objects.BoundReadsBack | crates/hsp-service/src/lib.rs:893-1061 | a key bound to a chunked object's manifest reads as that object under every spelling of the key |
| Objects.RunReadable | crates/hsp-service/src/lib.rs:336-1371 | an object stays readable over every run in which no call applies a mutation to its path and no commit rolls its manifest back |
| Objects.PutThenGet | crates/hsp-distribution/src/lib.rs:1289-1459 | in any sound store, after a successful put_object by a token id that has not uploaded this manifest, the key reads back the payload and every range of it, until a mutation is applied to its path or its manifest is rolled back |
| Objects.CompleteThenGet | crates/hsp-distribution/src/lib.rs:2136-2339 | likewise a completed multipart upload reads back the concatenated parts |
| Tokens.SecondUploadFails | crates/hsp-distribution/src/lib.rs:1409-1450 | an upload by a token that is scoped, or whose id has spent the manifest's first chunk key, fails and changes no namespace, whatever session it is given |
| Tokens.StoreKeepsTokens | crates/hsp-distribution/src/lib.rs:1351-1450 | with one token per id, storing keeps the order of spent keys, and fails without effect when the id has initialised the manifest before |
| Sites.RunSound | crates/hsp-distribution/src/lib.rs:1289-2339 | every run of distribution operations keeps the store sound and the token ids in order |
| Sites.RunPutThenGet | crates/hsp-distribution/src/lib.rs:1289-1459 | in every run from an empty site with one token per id, what a put_object reports stored reads back, with no condition on the token's history |
| Sites.RunCompleteThenGet | crates/hsp-distribution/src/lib.rs:2136-2339 | likewise for completed multipart uploads |
| ObjectOps.MayChangeIff | crates/hsp-distribution/src/lib.rs:1296-1303 | bucket and key of a request pass iff the bucket is one non-blank segment that exists, the key canonicalises, and the caller is of the tenant, holds a mutating scope and has prefixes that cover both |
| ObjectOps.OnlyThoseWhoMayChange | crates/hsp-distribution/src/lib.rs:1289-2023 | a put, delete or copy by anyone else leaves the whole site as it is |
| ObjectOps.PutRecords | crates/hsp-distribution/src/lib.rs:1289-1459 | a put that succeeds with a token id new to the manifest records the payload's chunks and size and everything the caller said, under the class named or "hot" |
| ObjectOps.CopyCopies | crates/hsp-distribution/src/lib.rs:1917-2023 | a copy that takes effect binds exactly the destination to what the source's live binding names, past no lock, under the revision it replies |
| ObjectOps.CopyGoesThroughIff | crates/hsp-distribution/src/lib.rs:1917-2023 | with names in order and an unused token a copy succeeds iff the source is live with a stored object and the destination is not locked |
| ObjectOps.DeleteLeaves | crates/hsp-distribution/src/lib.rs:1787-1859 | a delete that goes through leaves a tombstone at exactly its key under the next revision, which it replies |
| ObjectOps.DeleteFindsNothing | crates/hsp-distribution/src/lib.rs:1787-1859 | deleting what is not live is answered as not found and changes nothing |
| ObjectOps.GetAnswers | crates/hsp-service/src/lib.rs:893-1061 | a get: which selectors and ranges are refused with which error, whose manifest a path stands for now, and that the answer is a read of that manifest |
| Completeness.ReplayKeyInjective | crates/hsp-auth/src/lib.rs:266-292 | replay keys tell mutations and subjects apart, and tokens whose ids hold no bar |
| Completeness.ChunksGoThrough | crates/hsp-service/src/lib.rs:484-628 | with an unrestricted unused token the chunk loop sends every chunk and then all are stored |
| Completeness.UploadGoesThrough | crates/hsp-distribution/src/lib.rs:1409-1450 | init, every chunk, commit and the bind inside it succeed |
| Completeness.StoreGoesThrough | crates/hsp-distribution/src/lib.rs:1351-1450 | storing a valid object at a canonical key succeeds iff the key is not both live and locked |
| Completeness.ScopedTokenSendsNoChunk | crates/hsp-service/src/lib.rs:572-588 | a token with a path or namespace prefix never sends a chunk |
| Completeness.ScopedTokenPutsNothing | crates/hsp-distribution/src/lib.rs:1289-1459 | and so never puts an object |
| Locks.RecordTightens | crates/hsp-distribution/src/lib.rs:2960-2995 | no action without admin.repair loosens an active retention or lifts a hold, and no action at all loosens active compliance retention |
| Retention.RetentionWrites | crates/hsp-distribution/src/lib.rs:935-974 | put_object_retention succeeds iff the caller may change the object and no retention is running, or it is prolonged in its mode, or an administrator changes one that is not compliance; it then writes exactly the retention asked for, keeps the hold and touches no other record |
| Retention.HoldWrites | crates/hsp-distribution/src/lib.rs:976-1015 | put_object_legal_hold likewise; only an administrator lifts a hold |
| Retention.LockRefusesIff | crates/hsp-distribution/src/lib.rs:2997-3041 | a lock refuses iff there is a hold, or a retention still running and the caller is no administrator |
| Locks.ActedSpares | crates/hsp-distribution/src/lib.rs:2997-3041 | one operation by a caller without admin.repair, with its id's own token, leaves a live protected object bound as it was |
| Locks.RunProtects | crates/hsp-distribution/src/lib.rs:2960-3041 | over every run of such operations a live object under hold or unexpired retention keeps its binding, hold, mode and at least its retain-until |
| Locks.LockedObjectsStay | crates/hsp-distribution/src/lib.rs:2960-3041 | so from any state that any run from an empty site reaches |
| Retention.RetainedObjectsStay | crates/hsp-distribution/src/lib.rs:935-1015 | once put_object_retention has succeeded on a live object, its binding stays through every run of ordinary operations before the time given |
| Retention.HeldObjectsStay | crates/hsp-distribution/src/lib.rs:976-1015 | and once a legal hold has been put on it, through every run of ordinary operations |
| SharedIds.SharedIdOverwritesHeld | crates/hsp-distribution/src/lib.rs:1351-1450 | with two tokens of one id, a run of three operations that overwrites an object on legal hold |
| SharedIds.StaleSessionCommits | crates/hsp-service/src/lib.rs:397-421 | an init that is a retry returns the waiting session, and the upload then commits that session's bind |
| Locks.RunCompliance | crates/hsp-distribution/src/lib.rs:2976-2992 | over every run, admin.repair included, active compliance retention is never shortened, cleared or changed in mode |
| Locks.DeleteGoesThroughIff | crates/hsp-distribution/src/lib.rs:1787-1859 | a delete that is otherwise in order succeeds iff no lock stands under the bucket as the request spells it |
| Locks.HeldObjectDeleted | crates/hsp-distribution/src/lib.rs:1820-1826 | a concrete spelling under which an object on legal hold is deleted |
| Locks.LockKeyOfSpelling | crates/hsp-distribution/src/lib.rs:4111-4113 | two spellings of a bucket have different lock records |
| Cdn.CidKeyInjective | gateway/hsp-cdn/src/lib.rs:732-752 | keys of different tenant, mode or CID differ when CIDs hold no colon |
| Cdn.CidKeysCollide | gateway/hsp-cdn/src/lib.rs:732-734 | with colons they coincide |
| Cdn.NamespaceKeyInjective | gateway/hsp-cdn/src/lib.rs:736-752 | keys by name differ when tenant, bucket, key or mode do, for tenants without colon and buckets without slash |
| Cdn.RoutesDisjoint | gateway/hsp-cdn/src/lib.rs:732-744 | CID keys and namespace keys never coincide |
| Cdn.OnlyWholeCiphertextIsStored | gateway/hsp-cdn/src/lib.rs:412-424 | a response that is stored is neither a range nor plaintext (no-store) |
| Cdn.NoStoreNotCacheable | gateway/hsp-cdn/src/lib.rs:549-554 | the plaintext cache-control value is not cacheable |
| Cdn.RunKeepsCache | gateway/hsp-cdn/src/lib.rs:386-426 | in every run each cached CID entry holds the whole object of its tenant and CID, while stores evolve behind it |
| Cdn.HitIsFresh | gateway/hsp-cdn/src/lib.rs:280-426 | a hit on a CID returns the bytes, etag, type and length that a full read at the origin returns at that moment, and that the caller's own fetch returns when the origin grants it |
| Cdn.HitIgnoresOrigin | gateway/hsp-cdn/src/lib.rs:400-407 | a hit is the same whatever the origin's stores, the caller's binding or a refusal would say |
| CdnReads.OriginReads | crates/hsp-distribution/src/lib.rs:1679-1707 | a ciphertext read of a stored object gives its bytes or exactly the range of them, or an error for a range outside it, with the CID for an etag and the lifetime of its route |
| CdnReads.KeyAnswered | gateway/hsp-cdn/src/lib.rs:315-426 | a request by key is answered from the origin, with the object bound there now |
| CdnReads.KeyUnanswered | gateway/hsp-cdn/src/lib.rs:315-426 | an unbound or deleted key, or one whose manifest is gone, is answered as object_not_found, a refusal as that refusal, and no request by key is a hit |
| CdnReads.CidAnswered | gateway/hsp-cdn/src/lib.rs:255-314 | a request by CID that is no hit is answered from the origin with the object's bytes or range |
| CdnReads.CidBindingChecked | crates/hsp-distribution/src/lib.rs:1541-1560 | a caller scoped to a key gets the CID only if the key is bound to it |
| CdnReads.ImmutableIsCacheable | gateway/hsp-cdn/src/lib.rs:549-554 | the lifetime of immutable answers lets them be stored, whatever the configured time |
| CdnReads.AnsweredForItsLifetime | gateway/hsp-cdn/src/lib.rs:398-424 | after a whole answer by CID, later requests are hits with the same answer for exactly the configured time |
| Cdn.CdnCache.ServeCachedObject | gateway/hsp-cdn/src/lib.rs:386-426 | the answer and the new cache, as specified |
| Cdn.CdnCache.ApplyEventInvalidation | gateway/hsp-cdn/src/lib.rs:711-730 | of all entries exactly those go that the event announces for its path; the rest, every CID entry among them, stay as they are |
| Cdn.AfterEventsExact | gateway/hsp-cdn/src/lib.rs:677-685 | a batch removes exactly the namespace entries of the paths it announces and leaves the others unchanged |
| Cdn.CidEntriesSurvive | gateway/hsp-cdn/src/lib.rs:711-730 | no batch of events touches an entry by CID |
| Cdn.WorkerClears | gateway/hsp-cdn/src/lib.rs:650-687 | once the worker's cursor has passed the event of a change, no namespace entry from before the change is left |
| Cdn.BindAnnounced | crates/hsp-service/src/lib.rs:1631-1655 | every bind that changes a namespace is announced by the next event |
| Cdn.UnbindAnnounced | crates/hsp-service/src/lib.rs:1784-1815 | and every unbind |
| Cdn.WorkerStartsIff | gateway/hsp-cdn/src/lib.rs:655-670 | a worker without a cursor is admitted iff the event counter is within the replay window |
| Cdn.CdnCache.ApplyBatch | gateway/hsp-cdn/src/lib.rs:677-685 | the loop over a batch leaves exactly the unannounced entries |
| Alpha.AlphaService.AppendEvent | crates/hsp-service/src/lib.rs:2068-2073 | stores the event under the counter and advances it |
| Alpha.AlphaService.Authorize | crates/hsp-service/src/lib.rs:1373-1429 | policy, cache and durable record in this order; the new state is that of the specified step, granted as Access.AuthorizedIff says |
| Alpha.AlphaService.BindInternal | crates/hsp-service/src/lib.rs:1536-1670 | takes exactly the bind step |
| Alpha.AlphaService.UnbindInternal | crates/hsp-service/src/lib.rs:1672-1839 | takes exactly the unbind step |
| Alpha.AlphaService.PutInit | crates/hsp-service/src/lib.rs:336-482 | takes exactly the init step |
| Alpha.AlphaService.PutChunk | crates/hsp-service/src/lib.rs:484-628 | takes exactly the chunk step |
| Alpha.AlphaService.ChunksPresent | crates/hsp-service/src/lib.rs:703-711 | the loop answers whether every chunk is stored |
| Alpha.AlphaService.StoreAndBind | crates/hsp-service/src/lib.rs:713-749 | stores the manifest, binds it, and deletes it again when the bind fails |
| Alpha.AlphaService.PutCommit | crates/hsp-service/src/lib.rs:630-820 | takes exactly the commit step |
| Alpha.AlphaService.Get | crates/hsp-service/src/lib.rs:893-1061 | takes exactly the chunk-stream get step |
| Alpha.AlphaService.Resolve | crates/hsp-service/src/lib.rs:1063-1113 | takes exactly the resolve step, whose replies over runs are those of Clients.RunResolve |
| Alpha.AlphaService.List | crates/hsp-service/src/lib.rs:1127-1243 | takes exactly the list step, whose replies are those of Clients.ListReplyShows and RunPaging |
| Alpha.AlphaService.AuthorizeSubscription | crates/hsp-service/src/lib.rs:1279-1297 | every filter is authorised on its own, in order |
| Alpha.AlphaService.DeliverAfter | crates/hsp-service/src/lib.rs:1330-1349 | delivers the window's matches and moves the cursor past the last one |
| Alpha.AlphaService.SubscribePoll | crates/hsp-service/src/lib.rs:1322-1371 | takes exactly the poll step |
| Gateway.DistributionService.PutObjectRetention | crates/hsp-distribution/src/lib.rs:935-974 | takes exactly the step that Retention.RetentionWrites specifies |
| Gateway.DistributionService.PutObjectLegalHold | crates/hsp-distribution/src/lib.rs:976-1015 | takes exactly the step that Retention.HoldWrites specifies |
| Gateway.DistributionService.SendChunks | crates/hsp-distribution/src/lib.rs:1426-1441 | the loop sends the staged chunks in order up to the first refusal |
| Gateway.DistributionService.Put | crates/hsp-distribution/src/lib.rs:1289-1459 | takes exactly the put_object step |
| Uploader.FixedUploader.PutFixedChunk | crates/hsp-distribution/src/lib.rs:3528-3552 | sends the chunk at the cursor and advances it |
| Uploader.FixedUploader.Upload | crates/hsp-distribution/src/lib.rs:3471-3501 | taking in bytes keeps: what is complete has been sent as the one-shot chunks would be; a refusal leaves what sending the whole object leaves |
| Uploader.FixedUploader.Flush | crates/hsp-distribution/src/lib.rs:3503-3526 | afterwards the state is that of sending the whole object's one-shot chunks |
| Uploader.UploadParts | crates/hsp-distribution/src/lib.rs:2286-2312 | for every split into parts the second pass, put_chunk inside the loop, does exactly what sending the one-shot chunks of the concatenation does, up to the first refusal |
| Uploader.UploadSplit | crates/hsp-distribution/src/lib.rs:3471-3526 | sending a longer list goes on where a shorter one ended or stops where it stopped |
| Gateway.DistributionService.CompleteMultipartUpload | crates/hsp-distribution/src/lib.rs:2136-2339 | both streaming passes over the parts take exactly the step of storing their concatenation |
| Gateway.DistributionService.Delete | crates/hsp-distribution/src/lib.rs:1787-1859 | takes exactly the delete step |
| Gateway.DistributionService.Copy | crates/hsp-distribution/src/lib.rs:1917-2023 | takes exactly the copy step, see ObjectOps.CopyCopies |

## Left out

- Cryptography: AES-GCM, XChaCha20-Poly1305, HKDF, SHA-256, Ed25519, COSE_Sign1 and KMS calls appear only as the hash, the signature check and the CDN's opening of plaintext.
- Storage I/O and its failures, the filesystem and S3 back ends; the store is a map per record kind, encryption at rest the identity.
- Concurrency inside one request: counters are read and written by separate operations in the source, each request is one step here. Counters are unbounded.
- HTTP, QUIC and wire framing, SigV4 request text and signatures, base64 and edge tokens.
- Audit records, metrics, logs, event payload texts and the timestamps of lock and bucket records.
- HEAD, INFO, manifest-only and raw reads, upload deadlines (the source records but never enforces them), ttl expiry of bindings.
- ACL, lifecycle, website and replication configuration; bucket creation and deletion appear in lock runs as arbitrary changes of the bucket set, a replication run is a sequence of copies, and the read check of copy_object is a parameter.
- Trusted-edge plaintext uploads, and get_object's If-Match and If-None-Match.
- Gateway.DistributionService.CompleteMultipartUpload: takes the parts as already fetched and checked against their ETags; session lookup, part numbering and the completed flag are not modelled.
- Cbor.ReaderExact: the reader is a reference that accepts deterministic encodings only; the library reader behind the cursors accepts more.
- Listing.PagingExact: the cursor does not record include_tombstones, so the client must repeat it.
- Locks.RunProtects: for delete requests that spell the bucket canonically (DeleteGoesThroughIff is the exact condition) and for token ids without a bar that belong to one token each (SharedIdOverwritesHeld shows what happens otherwise).
- Locks.ActedSpares: under the same two conditions.
- Cdn.HitIsFresh: a hit outlives the manifest at the origin and the caller's permission (HitIgnoresOrigin); entries live until they expire.
- Cdn.WorkerClears: for the rounds in which the service answers the worker's poll.
- Objects.PutThenGet: for token ids that have not initialised or committed the very same manifest before, since the store may also have been used through AlphaService directly; Sites.RunPutThenGet needs no such condition.
- Objects.CompleteThenGet: under the same condition; Sites.RunCompleteThenGet needs none.
- Policy.FreshAtMostOnce: about the replay records alone; ReplayRuns.RunFreshAtMostOnce is about the service's requests.
- ObjectOps.PutRecords: under the same condition as Objects.PutThenGet.
- ObjectOps.CopyGoesThroughIff: for tokens without restrictions that have not been used; CopyCopies holds for all.
