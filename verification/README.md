# Tokenizer: a Dafny model of the tokenize/detokenize protocol

The Go package `tokenizer` swaps a text for an opaque token and can get the text back
from the token. Its state is one MongoDB collection, "tokens". Each document pairs an
original text with its token. The collection carries two unique indexes, one on the
original and one on the token. `Tokenize` loops. It looks the original up and
returns the stored token if there is one. Otherwise it draws a guid, encodes it as a
candidate token and inserts `{original, token}`. When the insert hits a unique index
(duplicate-key error 11000), it starts again from the lookup. `Detokenize` looks a
token up.

The model is sequential and purely functional:

- `wrappers.dfy`: `Option` and `Result`.
- `store.dfy` (module `TokenStore`): the collection is a `seq<TokenRecord>` in
  insertion order. `Valid` is the conjunction of the two unique indexes. The module
  also models the driver's `Find(...).One(...)` and `Insert`, and `Interleave`, the
  inserts of other writers.
- `tokenizer.dfy` (module `Tokenizer`): `FetchToken`, one loop iteration `Step`,
  the loop `Tokenize`, and `Detokenize`.
- `properties.dfy` (module `TokenizerProperties`): lemmas relating several calls.

The outside world is passed in as data.

- Driver failures are `Option<DbError>` values, one per driver call.
- The guid generator is a sequence of draws, one per iteration, each either a
  candidate token or a generator failure.
- Other processes writing to the collection are a list of inserts applied between
  our generator call and our insert. Each goes through the same unique indexes.

These inputs are bundled per iteration as a `Round`. `Tokenize` consumes one
`Round` per iteration. When the script runs out it ends with `Exhausted`. That
outcome is a modelling artefact. It stands for "the loop would still be running".
No termination is claimed beyond it.

Behaviour reproduced as the code has it:

- `Tokenize` declares `err` at tokenizer.go:62. The statement
  `guid, err := guid.NextId()` (:89) declares a second `err` inside the loop body, and
  the insert's error goes into that one (:103). The function returns the outer `err`
  (:122), which still holds whatever the last lookup left in it (:69). So every return
  after a lookup miss reports that lookup's `NotFound`:
  - A fresh token that was inserted successfully comes back as `(token, NotFound)`,
    not `(token, nil)`. Only a token found by the lookup comes with a nil error.
  - An insert that fails with anything but a duplicate key comes back as
    `("", NotFound)`. The insert's own error is lost.

  The comment at :90-92 says MongoDB errors are returned because the caller might
  want to deal with them. The insert's errors never are.
- A failing guid generator makes `Tokenize` call `log.Panic(err)` (:93-95). The
  panic value is the text of the generator's error, recorded as `Panicked(message)`.
- Any lookup failure other than `NotFound` makes `Detokenize` call `log.Panic(err)`
  (:138-139). Its `err` is still nil at that point, not the driver's error, so the
  panic value is the text `"<nil>"`. The model records this as
  `Panicked(NilErrorText)`.

## Model

| member | source | states |
|---|---|---|
| TokenStore.FirstMatch | tokenizer.go:132-133 | the position it returns holds a document matching the query and no earlier one matches; no position means no document matches |
| TokenStore.FindOne | tokenizer.go:51-52 | `One()` yields a stored document matching the query; without a driver fault it fails exactly when nothing matches, and then with NotFound; a driver fault is passed through |
| TokenStore.OnlyMatch | tokenizer.go:153-164 | under the two unique indexes the document a query returns is the only matching one |
| TokenStore.Insert | tokenizer.go:98-103 | without a fault the insert succeeds exactly when both unique indexes still hold afterwards, then appends exactly the one document; otherwise it fails with duplicate-key code 11000 |
| TokenStore.ClashBreaksIndex | tokenizer.go:153-164 | a document sharing its original or its token with a stored one breaks a unique index |
| TokenStore.Interleave | tokenizer.go:110-114 | other writers' inserts only append documents of theirs and keep both unique indexes |
| Tokenizer.FetchToken | tokenizer.go:47-57 | a returned token is stored against the original; under the indexes it is that document's token; NotFound exactly when no document has the original |
| Tokenizer.Step | tokenizer.go:64-121 | one iteration: a stored original returns its token with a nil error and no write; a lookup error other than NotFound is returned with ""; a clean miss with a failing generator panics with the generator's message and writes nothing; a clean miss with a clean insert stores `{s, candidate}` and returns the candidate with the lookup's NotFound; a non-duplicate insert failure returns "" with NotFound; a clean insert refused by a unique index, or a duplicate-key failure, retries with only the other writers' documents added, and a retry follows only those; the only panic is the generator's; both indexes are kept |
| Tokenizer.Tokenize | tokenizer.go:59-123 | the collection only grows and keeps both unique indexes; a token handed out, with a nil error or with NotFound, is stored against the original |
| Tokenizer.TokenizeWrites | tokenizer.go:96-118 | every document a call adds is another writer's, except at most one, the last, which is `{s, token}` for the token handed out with NotFound |
| Tokenizer.TokenizeReports | tokenizer.go:69-122 | an error handed out is some round's lookup error or NotFound; a token comes with an error only as NotFound |
| Tokenizer.TokenizePanics | tokenizer.go:89-95 | a panic carries the message of some round's failing generator call |
| Tokenizer.Detokenize | tokenizer.go:125-145 | a returned original is stored against the token; under the indexes it is the one document's original; "" with TokenNotFound exactly when no document has the token; a panic with the message `"<nil>"` exactly when the lookup fails otherwise than NotFound |
| TokenizerProperties.FoundTokenReturned | tokenizer.go:69-73 | a clean first lookup that finds the original returns its stored token with a nil error and writes nothing |
| TokenizerProperties.LookupErrorReturned | tokenizer.go:75-77 | a first lookup failing otherwise than NotFound is returned at once with "" and that error, and nothing is written |
| TokenizerProperties.GeneratorFailurePanics | tokenizer.go:89-95 | a clean first miss followed by a failing generator panics with the generator's message and writes nothing |
| TokenizerProperties.RoundTrip | tokenizer_test.go:27-38 | a token `Tokenize(s)` hands out, found with a nil error or freshly stored with NotFound, detokenizes to `s` on the resulting collection |
| TokenizerProperties.Idempotent | tokenizer.go:66-73 | after `Tokenize(s)` handed out a token, a second call whose lookup is answered returns the same token with a nil error and writes nothing |
| TokenizerProperties.DistinctTokens | tokenizer.go:159-164 | two different originals tokenized in turn, each handed a token with a nil error or with NotFound, get different tokens |
| TokenizerProperties.FreshCandidateStored | tokenizer.go:96-108 | a fresh candidate with no interference is returned with the lookup's NotFound, and the collection becomes the old one plus exactly `{s, candidate}` |
| TokenizerProperties.DuplicateKeyRetries | tokenizer.go:110-118 | a duplicate-key insert failure, whether a unique index refused our document (a candidate colliding with any stored or rival token, or a rival storing `s` first) or the driver reported it, is not returned: the call continues from the lookup with the next round, on the collection with only the other writers' documents added |
| TokenizerProperties.CollisionRetries | tokenizer.go:110-114 | a candidate equal to a stored token is absorbed by retrying with the next candidate |
| TokenizerProperties.RaceConverges | tokenizer.go:110-118 | when another caller stores `{s, t}` between our lookup and our insert, we return `t` and exactly one document for `s` exists |
| TokenizerProperties.InsertErrorIsLost | tokenizer.go:89-122 | after a miss, a non-duplicate insert failure yields `("", NotFound)` and never the insert's own error |
| TokenizerProperties.FreshTokenExample | tokenizer.go:96-122 | a concrete first call for "x" stores `{x, "Yw=="}` and answers `("Yw==", NotFound)` |
| TokenizerProperties.InsertErrorIsLostExample | tokenizer.go:103-122 | a concrete call whose insert loses its connection is answered with `("", NotFound)` |

## Left out

- The MongoDB driver, session, collection handles, `EnsureIndex` and
  `NewMongoTokenizer` (tokenizer.go:40-44, 147-172). They are a foreign library. Only
  the two unique indexes they create are kept, as `TokenStore.Valid` and the
  duplicate-key refusal in `TokenStore.Insert`.
- `guid.NextId` and the base64 encoding of the guid (tokenizer.go:89, 96-97). A
  candidate token is an opaque, non-empty string (`Tokenizer.Token`) supplied by the
  script, since base64 of a formatted guid is never empty.
- The `log.Println` calls. They have no effect on behaviour.
- The Go-level shadowing of the `guid` package name by the local variable.
- Real concurrency. Other processes appear only as the sequential `rivals` step of
  a round, between the generator call and the insert.
- The field-name mismatch. `tokenRecord` stores its original in a field `Text` with
  no bson tag (tokenizer.go:29-31), but the query and the unique index use the key
  "original" (:52, :154). As written, the lookup by original may never match a
  stored document, and the sparse index on "original" may constrain nothing. The
  model keys lookups and the index by the record's original text, as the code
  intends.
- Tokenizer.Tokenize: termination is not modelled. The loop is cut off by the
  finite script of rounds, with the outcome `Exhausted`.
- tokenizer_test.go calls `Tokenize` with one result, which does not match the
  two-result signature at tokenizer.go:24. The test is used only as evidence for
  the round-trip property.
