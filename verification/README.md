# CairnMark: keeping an object store and a metadata table consistent

CairnMark stores each file twice: its bytes in an object store, its row in a
Postgres table, with idempotency keys beside it. The two stores cannot commit
together and no lock is held across calls, so safety rests on the order of the
calls, on fresh ids and keys, on soft deletes that are never undone, and on two
time bounds. This project models that protocol, the byte pipeline around it, the
paged listing and the ranged download, and proves what they promise.

It has two layers, joined by proof.

* **A transition system** (`Protocol`). Every call to the object store or the
  database is one atomic step; any number of uploads, downloads and sweeps are
  under way, and any of them may fail at any call or crash; the clock ticks in
  between. A label that does not fit the state leaves the world unchanged, so
  every sequence of labels is a run, and a theorem over all label sequences is a
  theorem over all runs.
* **The code itself, as classes and methods** (`Stores`, `Service`,
  `Collector`, `Uploading`, `Serving`): the same calls, loops and failure
  branches. A `Deployment` starts from the empty state, lets any number of other
  processes act before each call, and records each step; its `Valid()` says that
  the present state is the end of the recorded run. Its lemmas carry the theorems
  over to that state: `BackedNow`, `VisibleNow`, `OncePerKey`, `AnswerEarned` and
  `DownloadNow`. Each method also states exactly what it does when it is
  undisturbed: nobody else acts (`alone`), and, where the table says so, no call
  fails (`steady`). Between the two, a store may name objects and rows whose
  delete does not fail (`firm`), any set of them, while everything else may; and a
  sweep's `Context` may be cancelled at any time, after which it stays so.

| module | subject |
|---|---|
| `Types`, `Protocol` | rows, objects, keys; steps and runs |
| `Soundness` | the invariant of every run, with no timing assumption |
| `Safety` | no sweep destroys a live file, and the exact timing condition |
| `Idempotency` | one commit per key between expiries, and the exact condition |
| `Refinement` | the two stores behave as one atomic map of files |
| `Calls`, `Answers` | what a key answers is traced to the call's begin, claim and reads, and earned |
| `Downloads` | every answer of a download, explained by what clients could see |
| `Orphans` | no leak, and the order of hard deletes |
| `Streaming` | cap, tee, buffer, hash, and the verified way back |
| `Stores`, `Deployment` | the stores' calls; interference and recording |
| `Filing`, `Service` | uploads, deletes and downloads call by call |
| `Uploading` | the upload handler: cap, key and status |
| `Sweeping`, `Collector` | one sweep call by call, alone and under interference |
| `Convergence` | repeated sweeps settle |
| `Paging` | one page, and whole walks over a changing table |
| `Range`, `Serving` | the Range header, RFC 9110, and the bytes that are sent |

## Assumptions

* Generated ids and storage keys were never handed out before; `storage_key` is
  unique and the idempotency key is a primary key.
* A commit, delete or release that returns an error had no effect. A failed put
  may leave any prefix of the object.
* There is one clock. `D` bounds commit time minus the object's LastModified,
  `S` bounds the orphan cutoff's time minus the time the storage keys were read,
  `B` bounds the time from an idempotency claim to the owner's last effect on
  the key. The code enforces none of the three; they are assumptions of the
  theorems that name them, and those theorems say exactly when they suffice.
* The hash is an arbitrary function of the bytes.
* A request body or stored object may deliver its bytes in chunks of any size,
  with or after the end mark, and returns only finitely many empty reads; once
  it has ended it keeps reporting the same end.

## Where the code and its documentation differ

`internal/config/config.go:26-31` asks for a grace period longer than the longest
upload, that is `D < grace`. The cutoff is computed after the key snapshot was
read (`internal/gc/gc.go:158-162`) and an object exactly as old as the cutoff is
reclaimed, so the condition is `D + S < grace`. `Safety.GraceIsExact` proves it
sufficient and necessary, and `Safety.DocumentedRuleFallsShort` gives the run in
which the documented rule holds and a live file loses its object.

The completing update and the release identify a claim by key only
(`internal/metadata/postgres/idempotency.go:57-59`, `:74-77`), so "one file per
key" needs owners that finish within the time to live: `Idempotency.TtlIsExact`.

## Model

| member | source | states |
|---|---|---|
| Soundness.StepSound | internal/files/service.go:34-99 | every call of every process, failed or not, keeps the invariant: ids and storage keys have one owner, objects hold what was put, a row carries the hash of its object's bytes, a completed key names a row committed under it, a row is removed only after its object |
| Soundness.RunSound | internal/gc/gc.go:109-177 | that invariant holds after every run, without any timing assumption |
| Safety.RunGuarded | internal/gc/gc.go:157-177 | with D + S < grace every timely run keeps every live row's object out of reach of every sweep's stale snapshot |
| Safety.LiveFilesSurvive | internal/gc/gc.go:135-176 | with D + S < grace, after any timely interleaving of uploads, deletes, crashes and sweeps, every live row's object is present with the uploaded bytes |
| Safety.LateCutoffDestroys | internal/gc/gc.go:158-169 | for every D, S and grace with D + S >= grace there is a timely run in which a sweep deletes the object of a live row |
| Safety.GraceIsExact | internal/gc/gc.go:157-170 | live files survive every timely run if and only if D + S < grace |
| Safety.DocumentedRuleFallsShort | internal/config/config.go:26-31 | for any grace period longer than the longest upload there is a snapshot delay for which a live file is destroyed |
| Idempotency.RunExclusive | internal/files/idempotency.go:19-56 | with prompt owners at most one upload in flight may still act on a key, and its pending row is still there |
| Idempotency.CompletedUntilExpiry | internal/metadata/postgres/idempotency.go:57-59 | once a commit completed a key, the key keeps that file id until it expires |
| Idempotency.PromptOwnersCommitOnce | internal/files/idempotency.go:39-55 | with owners that finish within the time to live, or no expiry, two commits under one key always have an expiry of that key between them |
| Idempotency.LateOwnerDuplicates | internal/metadata/postgres/idempotency.go:57-69 | for every positive time to live, owners one unit slower can leave two live files, both committed under one key |
| Idempotency.TtlIsExact | internal/files/idempotency.go:39-55 | at most one commit per key between expiries holds of all runs if and only if B <= ttl or expiry is off |
| Refinement.StepRefines | internal/files/service.go:34-44 | each step changes the visible map of files by exactly one publish (with the bytes this upload put), one withdrawal, or not at all; an id that ever had a row is never published |
| Refinement.RunRefines | internal/gc/gc.go:135-177 | after any timely run clients see exactly the files published and not withdrawn, with their own bytes: staging, cleanup, purges and reclaims never show |
| Answers.ReplayIsEarned | internal/files/idempotency.go:20-40 | an answer under a key went to a call begun under that very key, whose claim found it taken; a conflict then read that the key was not completed; a replay and a "gone" read that it was, by a commit under it at an earlier step: a replay found the file live and returns the row that commit inserted, a "gone" found it deleted since |
| Answers.CommitIsClaimed | internal/files/idempotency.go:39-55 | a commit under a key was made by a call begun under that key, whose claim had found it free |
| Answers.CompletedKeyIsReal | internal/metadata/postgres/idempotency.go:17-71 | a completed key always names a row inserted by a commit under that key, although the claim is two statements |
| Downloads.DownloadExplained | internal/files/service.go:131-141 | every finished download was opened at a step b and read its row at a later step r; served bytes were the visible file's at r, "no row" means the file was not visible at r, and "no object" means it was visible at r and was deleted between the two reads |
| Downloads.ServedIsPublished | internal/files/service.go:131-141 | with no timing assumption, served bytes are those the file was published with, and hash to the row's checksum |
| Downloads.PublishedOnce | internal/files/service.go:198-207 | no id is published twice in any run, not even after its row was purged |
| Orphans.UploadEndsClean | internal/files/service.go:34-44 | however an upload ends (success, any failure, crash) its object is named by its row or abandoned: no row names it and no running upload can |
| Orphans.AbandonedForever | internal/gc/gc.go:163-176 | an abandoned object stays abandoned in every continuation, never changes and never comes back |
| Orphans.HardDeleteComesLast | internal/gc/gc.go:144-152 | no step of any process hard-deletes a live row or a row whose object still exists |
| Streaming.LimitReader.Read | internal/api/limit.go:22-43 | what was handed on is always a prefix of at most the cap; the error is too-large exactly when more than the cap exists and all of the cap was delivered, and then for ever |
| Streaming.BufReader.Fill | internal/files/service.go:61-65 | filling the 512-byte buffer through the tee keeps: hashed bytes are those consumed followed by those still buffered |
| Streaming.BufReader.Peek | internal/files/service.go:67-71 | looking at the head consumes nothing and loses no byte and no cap breach, whatever error it drops |
| Streaming.BufReader.Read | internal/files/service.go:61-65 | each read hands on the next bytes of the body, and an error only when every byte has been handed on |
| Streaming.ReadAll | internal/storage/memory/memory.go:38-47 | a store that reads to the end gets the whole admitted body and its final error, and exactly these bytes were hashed |
| Streaming.StreamBody | internal/files/service.go:61-99 | for any body and chunking, sniffed or not, the recorded checksum is the hash of exactly the stored bytes |
| Uploading.HandleUpload | internal/api/files.go:42-96 | for any store, key, failures and interference: 409 if and only if the service found the key still in flight; 410 if and only if it found the key's file gone, and then that file was committed under this key and deleted; a replay or a 201 if and only if it said so, about that very key or with a file of exactly this body; 413 if and only if the declared length is over the cap, or the call failed having read past the cap, so always for a true breach; 500 otherwise; an answered key leaves the body unread; if no call fails, 413 exactly when a length is over the cap and no key answered; undisturbed, a pending key is 409, a completed key is replayed with its row if that is live and 410 if not, and a free key goes by the lengths and the body's end |
| Streaming.VerifyingReader.Read | internal/files/verify.go:31-43 | the first clean end is replaced by the mismatch error exactly when the delivered bytes do not hash to the recorded checksum; later ends are clean |
| Streaming.Download | internal/files/verify.go:24-43 | a drained download delivers the stored bytes and ends cleanly if and only if they hash to the recorded checksum or none was recorded |
| Streaming.UploadThenOpen | internal/files/verify.go:24-43 | whatever bytes a store returns for an uploaded body, reading them ends cleanly if and only if they hash like the body |
| Stores.Backend.Put | internal/storage/memory/memory.go:38-47 | stores the whole body at once, or fails, perhaps before it has read everything, and leaves nothing or a prefix of the body |
| Stores.Backend.GetRange | internal/storage/memory/memory.go:67-82 | the bytes from offset, cut at the object's end; an offset past the end is an error |
| Stores.Backend.List | internal/storage/memory/memory.go:91-112 | a snapshot that names every object exactly once with its modification time |
| Stores.Repo.InsertClaim | internal/metadata/postgres/idempotency.go:18-27 | inserts a pending key exactly if there was none |
| Stores.Repo.CreateForKey | internal/metadata/postgres/idempotency.go:47-71 | row and completed key together or neither; fails if the claim has vanished |
| Stores.Repo.ReleaseIdempotencyKey | internal/metadata/postgres/idempotency.go:74-82 | removes the key only while it is pending, whoever claimed it |
| Stores.Repo.PurgeIdempotencyKeys | internal/metadata/postgres/idempotency.go:85-91 | removes exactly the keys created before the bound and counts them |
| Stores.Repo.InsertFile | internal/metadata/postgres/postgres.go:37-62 | adds one row, or nothing if id or storage key is taken |
| Stores.Repo.Delete | internal/metadata/postgres/postgres.go:85-97 | stamps a live row once; a deleted or missing row is reported and untouched |
| Stores.Repo.ListDeleted | internal/metadata/postgres/gc.go:12-35 | exactly as many soft-deleted rows as the limit, or all of them if there are fewer (500 when the limit is not positive), with their storage keys, in order of deletion, and none that was left out was deleted before one that is listed |
| Stores.Repo.StorageKeys | internal/metadata/postgres/gc.go:48-67 | the storage keys of all rows, live and soft-deleted |
| Deployment.Deployment.BackedNow | internal/gc/gc.go:135-176 | after any methods and interference, if the recorded run was timely and D + S < grace, every live file has its object with the bytes that were put |
| Deployment.Deployment.VisibleNow | internal/gc/gc.go:135-177 | under the same bounds, clients see exactly what the recorded run published and did not withdraw |
| Deployment.Deployment.OncePerKey | internal/files/idempotency.go:19-56 | if owners were prompt in the recorded run, it committed at most one file per key between expiries |
| Service.Service.StageObject | internal/files/service.go:51-80 | whoever else acts, the object was put with the whole body and the record has the body's hash; undisturbed (alone), it stands in the store and no table knows its fresh id and key |
| Service.Service.Stage | internal/files/service.go:51-99 | whoever else acts, the record has the body's hash and the declared size, or the stored length when none was declared, which is the body's |
| Service.Service.Upload | internal/files/service.go:34-44 | whoever else acts, success means a live row with the body's size and hash was inserted for an object put with exactly the body; undisturbed (alone) it adds exactly that row and object, and failure adds no row |
| Service.Service.ClaimIdempotencyKey | internal/metadata/postgres/idempotency.go:17-41 | claims a free key, or reports the state of the taken one, as two separate statements |
| Service.Service.UploadIdempotent | internal/files/idempotency.go:19-56 | whoever else acts, success commits such a row under the key that was asked; a replay, "gone" or conflict is about that key, is earned as in Answers.ReplayIsEarned, and leaves the body unread; undisturbed (alone), a free key ends completed together with its one new file or without a row, and a taken key changes nothing |
| Service.Service.CommitOrRelease | internal/files/idempotency.go:48-54 | success commits row and key together; undisturbed (alone), failure leaves no row, nor the object unless its delete fails too, and if no call fails (steady), no pending key |
| Service.Service.Delete | internal/files/service.go:188-196 | afterwards the file is not live, and a file that ever had a row counts as deleted; undisturbed (alone), only its stamp changed |
| Service.Service.Open | internal/files/service.go:131-141 | whoever else acts, what is opened is a verifying reader over the bytes put for the row that was read, and ends cleanly unless severed; a deleted file is never opened; with D + S < grace every answer is explained as in Downloads.DownloadExplained, and a file that had a row is missed only if it was deleted; undisturbed (alone), the answer is given by the two tables |
| Service.Service.OpenRange | internal/files/service.go:148-154 | a ranged read yields the named slice of an object whose whole content hashes to the row's checksum |
| Service.Service.RoundTrip | internal/files/service.go:34-141 | upload, download, delete, download: whoever else acts and whatever fails, a download that is served delivers the uploaded body and passes its check; with D + S < grace an uploaded file is not served only if a call failed or the file had been deleted; after the delete it is not served; undisturbed (alone and steady), it is served, then not found |
| Collector.Collector.PurgeOne | internal/gc/gc.go:144-152 | the object goes before the row; if either delete fails the row stays for the next sweep |
| Collector.Collector.PurgeDeleted | internal/gc/gc.go:135-155 | it stops short only if the listing failed or the context was cancelled; alone, rows before are rows after plus the count, unnamed objects and live rows are untouched, and once it is through, every object and row of the full oldest batch is gone unless its own delete failed; without failures exactly that batch and its objects are gone |
| Collector.Collector.PurgeListed | internal/gc/gc.go:140-154 | unless the context was cancelled every row of the batch is tried, whatever became of the others; alone, gone are exactly the rows whose two deletes succeeded and the objects whose first did, and the count is their number |
| Collector.Collector.ReclaimOne | internal/gc/gc.go:163-176 | deletes an object only if no key of the snapshot names it and it is not newer than the cutoff |
| Collector.Collector.ReclaimListed | internal/storage/memory/memory.go:103-110 | unless the context was cancelled every listed object is looked at: each that is due and whose delete does not fail was deleted, whatever became of the others, and nothing that is not due |
| Collector.Collector.ReclaimOrphans | internal/gc/gc.go:157-177 | it stops short only if the key snapshot or the listing failed or the context was cancelled; alone, the count is the number of unnamed objects removed; once it is through, whoever else runs, every abandoned object that the cutoff reaches is gone, unless its own delete failed |
| Collector.Collector.ExpireKeys | internal/gc/gc.go:123-133 | whoever else acts, no key older than the time to live is left; undisturbed (alone), exactly those keys go and are counted, and none when expiry is off |
| Collector.Collector.RunOnce | internal/gc/gc.go:109-121 | a sweep stops short only if its context was cancelled or one of the four calls its phases hang on failed; with any failures or a stop anywhere, a sweep alone accounts for every row, unnamed object and key that left and keeps all live rows; one that is through has removed every abandoned object its cutoff reaches and, alone, its whole batch, except where that very delete failed; without failures its result is exactly determined |
| Convergence.SweepShrinks | internal/gc/gc.go:135-155 | each sweep without failures purges exactly `batch` soft-deleted rows, or all that are left (500 when no batch is set) |
| Convergence.Sweep | internal/gc/gc.go:109-177 | after k quiet sweeps n soft-deleted rows are max(0, n - k * batch), with 500 for a batch that is not positive; once k * batch >= n, and given old enough orphans, only the live rows and exactly their objects remain |
| Paging.QueryLimit | internal/metadata/postgres/query.go:81-87 | the repository's clamp agrees with the handler's for every integer: 50 for none or a negative one, 500 above 500, and else unchanged |
| Paging.List | internal/metadata/postgres/query.go:55-112 | a page lists only rows that are not deleted, match the filter and are older than the cursor, newest first; a matching row that is not deleted is missing only if it is not older than the cursor, or the page is full of newer ones |
| Paging.ListPage | internal/api/metadata.go:91-122 | the same of the response: a missing next_cursor means that every matching row older than the cursor was listed; a present one, the last id of a full page, that the others are below it |
| Paging.PageUnique | internal/metadata/postgres/query.go:55-112 | table, filter, cursor and limit determine the page |
| Paging.WalkDescends | internal/api/metadata.go:88-122 | with arbitrary changes of the table between pages, a walk is strictly descending and never repeats an id |
| Paging.WalkExact | internal/metadata/postgres/query.go:55-112 | an id the walk has passed was returned if and only if it matched in the table its page was read from |
| Paging.Walk | internal/api/metadata.go:91-122 | following next_cursor ends after floor(n / limit) + 1 pages with n ids; each id was undeleted and matched in some page's table, every id that was so in all of them is returned, and over a table at rest exactly these |
| Range.ParseSingleRange | internal/api/range.go:26-82 | no intermediate value leaves 64 bits, and a range that is served is nonempty and lies within the object |
| Range.ParseSpec | internal/api/range.go:26-82 | what the parser makes of every range of the RFC's form with any optional white space, alone or first in a list |
| Range.ActedOn | internal/api/range.go:26-82 | out of all strings, the headers that are not ignored are exactly `bytes=` and an element, up to the first comma, that is a range within any of 25 white-space characters whose numbers, perhaps with a plus sign, fit 64 bits and are not reversed |
| Range.ParseForm | internal/api/range.go:26-82 | and each of these is answered as the range its digits denote |
| Range.Places | internal/api/range.go:47-61 | numbers are read in base ten, most significant digit first |
| Range.RfcAgreement | internal/api/range.go:26-82 | on a range, or the first of a list, the parser agrees with section 14.1.2 of RFC 9110 if and only if all numbers fit 64 bits and it is no nonempty suffix of an empty object, or the range is invalid anyway |
| Range.PrintThenParse | internal/api/range.go:26-82 | a range printed in decimal parses back to itself, cut off at the object's end |
| Serving.DownloadRange | internal/api/files.go:150-189 | a 206 carries the slice of an object that hashes to its row's checksum, and exactly the bytes its headers announce whenever the row's size is the stored length; 404 exactly when the row or the object is missing, 500 exactly when a call failed or the size does not fit its column |
| Serving.PartialIsExact | internal/api/files.go:170-189 | for every header, if row and object agree on the size, body, Content-Length and Content-Range agree |
| Serving.ShortBody | internal/api/files.go:170-189 | a partial body has the announced length if and only if its last position lies within the object |
| Serving.ExactIsSameSize | internal/api/files.go:170-189 | every answer of a nonempty row is truthful if and only if the row's size is the stored length |
| Serving.ServesRfc | internal/api/files.go:150-189 | a well-formed range, alone or first in a list, is answered with the bytes RFC 9110 selects, with 416, or as if there were no header |

## Left out

* HTTP routing, headers, JSON, configuration loading, metrics, logging and the collector's ticker: no state worth proving.
* The S3 backend and presigned URLs: a foreign client; the in-memory store and the backend interface give the store's meaning. A listing is one atomic snapshot here, as in the in-memory store.
* SQL text and the driver: each statement is one atomic table operation, `CreateForKey` one transaction.
* SHA-256 and UUIDv7: an arbitrary function, and a supply of fresh, totally ordered names. Malformed ids (400) are not modelled.
* Commits whose error is returned although they took effect, clock skew between hosts, and a body reader that changes its mind after its end.
* Uploading.HandleUpload: the tags of an upload (400 when malformed) are not modelled.
* Content-type sniffing, filenames, tags and the PATCH of metadata: the listing's filter is any predicate on a row's attributes.
* The 302 redirect and the headers of a full download; of a list of ranges, agreement with the RFC is about the first, as the code serves no other.
* Convergence.Sweep: counts sweeps of a deployment in which nobody else acts; sweeps under interference are covered by Collector.Collector.RunOnce and the run theorems.
* Serving.DownloadRange: a row whose size does not fit a signed 64-bit column, which the schema cannot hold, is answered as a server error.
