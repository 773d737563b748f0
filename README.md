# Complaint intake backend — Dafny model

This project models the request handling of a small complaint backend
(`server.js`). A reporter submits a complaint and gets back an id and a
six-digit PIN. The store keeps the title, description and location
encrypted, plus the SHA-256 hash of the PIN, never the PIN itself. Later the
reporter tracks the complaint's status with the id and the PIN. An
administrator, authenticated by a bearer token, lists the complaints as
non-sensitive summaries and sets a status from the fixed set
{"Open", "In Review", "Resolved"}.

Layout (one module per file):

- `js.dfy` (`Js`): the JavaScript semantics the handlers rely on. This covers truthiness of JSON request values (`!x`, `!!x`), `a || b` on an optional string, `Number.prototype.toString` on a non-negative integer, and `String.prototype.split(" ")`.
- `helpers.dfy` (`Helpers`): the encryption key and its development default, `encrypt`, `sha256` and `randomPin`.
- `complaints.dfy` (`Complaints`): the stored document, the request and reply types, and the handlers that only read the store. These are track, the token middleware and the admin listing. They are functions of the store's contents, so they cannot change it.
- `store.dfy` (`Store`): class `ComplaintStore`, which holds the `complaints` collection as a map plus the ids newest first. Its methods `Submit` and `UpdateStatus` change that state in place.
- `properties.dfy` (`Properties`): lemmas relating the handlers to each other, and a client run through the store.

External collaborators become parameters:

- AES and SHA-256 are opaque functions, injected via `Crypto`. With a passphrase key, CryptoJS AES draws a fresh random salt on every call. So the model's cipher is a function of the text, the key and that call's salt, and a submission is given one salt for each of its three encryptions. SHA-256 (`sha256`, server.js:21-23) is unsalted: its digest is a function of the input alone, and the model uses the injected function directly. No other property of either is assumed, so nothing relies on collision resistance or decryptability.
- `Math.random()` becomes an integer `draw` in [0, 900000).
- The id that the store's `add` assigns is a parameter that is fresh and non-empty.
- The server timestamp is an integer `now`. It is no earlier than any stored timestamp, because the server clock does not run backwards.
- The identity provider's `verifyIdToken` is a predicate on the extracted token.

Some behaviours a reader might expect of such a service are not in the code, and the model follows the code:

- Track answers an unknown id with 404 "Not found" and a wrong PIN with 401 "Invalid PIN". The two are distinguishable.
- An administrator may set any of the three statuses at any time, including moving out of "Resolved". Nothing enforces a lifecycle order.
- Updating a missing id is not a validation error. The store's update throws, and the handler answers 500.
- No commitment hash is computed and nothing is anchored on a ledger. The server never uses the ledger client.
- The admin listing is ordered by the store's query on `createdAt`, newest first. The class keeps the ids in that order; its invariant says every document has a timestamp and the timestamps never increase along the ids.

## Model

| member | source | states |
|---|---|---|
| `Js.Truthy` | server.js:54 | `!!v` is false exactly for undefined, null, false, 0 and the empty string, and true for everything else, objects and arrays included |
| `Js.Missing` | server.js:41 | `!v` on an optional string holds unless the value is present and non-empty |
| `Js.OrElse` | server.js:53 | the JavaScript default `v or d` is `d` for a missing or empty value and the value itself otherwise, which is then non-empty |
| `Helpers.EncKey` | server.js:15 | the key is ENC_KEY when it is set and non-empty, and otherwise the fixed development key; it is never empty |
| `Helpers.Encrypt` | server.js:17-20 | a missing or empty text encrypts to "" and any other text to the cipher's output for that text under the key and the call's salt |
| `Helpers.EncryptMissingIgnoresCipher` | server.js:18 | for a missing or empty text the result does not depend on the cipher, the key or the salt (the cipher is never consulted) |
| `Helpers.RandomPin` | server.js:24-26 | the PIN is exactly six decimal digits, its first digit is not '0', and its decimal value is 100000 + draw, so the value lies in [100000, 999999] |
| `Helpers.RandomPinInjective` | server.js:24-26 | different draws give different PINs, so 900000 distinct PINs are possible |
| `Js.NumberToString` | server.js:25 | `toString` of a non-negative integer is a non-empty string of decimal digits whose first digit is '0' only for zero |
| `Js.DecimalValueOfNumberToString` | server.js:25 | reading the printed digits back gives the number: printing is lossless |
| `Js.NumberToStringLength` | server.js:25 | a number in [10^k, 10^(k+1)) prints as exactly k+1 digits |
| `Js.SplitOnSpace` | server.js:78 | `split(" ")` yields at least one piece, no piece contains a space, joining the pieces with spaces gives the input back, and there is one piece exactly when the input has no space |
| `Js.SplitAfterWord` | server.js:78 | a space-free prefix followed by a space splits off as the first piece |
| `Js.SplitWord` | server.js:78 | a space-free string splits into itself alone |
| `Complaints.IsStatus` | server.js:117 | a status is accepted exactly when it is present and is "Open", "In Review" or "Resolved"; a missing status is not accepted |
| `Complaints.PinMatches` | server.js:142 | a PIN matches a document exactly when the document has a PIN hash and it equals the hash of the PIN; a document without a hash matches no PIN |
| `Complaints.ShownStatus` | server.js:147 | the status shown is never empty: it is "Open" when the stored status is missing or empty, and the stored status otherwise |
| `Complaints.BearerToken` | server.js:78 | `header.split(" ")[1]` is defined exactly when the header contains a space, and it contains no space |
| `Complaints.BearerTokenOfScheme` | server.js:78 | for a header `<scheme> <token>` the extracted token is `<token>` |
| `Complaints.Authorize` | server.js:72-87 | a missing or empty Authorization header is refused ("No auth header"); otherwise access is granted exactly when the verifier accepts the extracted token, and refused ("Invalid token") when it does not |
| `Complaints.Track` | server.js:130-152 | 400 exactly when the id or PIN is missing or empty; 404 exactly when both are present and the id is unknown; 401 exactly when the document's PIN hash is not the hash of the given PIN; 200 otherwise, with the stored status or "Open" when there is none; the store is not changed |
| `Complaints.Snapshot` | server.js:92-95 | the query result holds one entry per listed id, in order, each paired with that id's document |
| `Complaints.Project` | server.js:97-102 | one summary per document in the same order, holding only the id, the category, the status (or "Open" if missing or empty) and createdAt as stored (absent stays absent, the JSON null) |
| `Complaints.AdminList` | server.js:90-109 | the listing is produced exactly when the token middleware grants access, and then it is the summary of every listed document in the order of the ids; when the store keeps its ids newest first, every row has a createdAt and the timestamps never increase down the listing; otherwise the refusal carries the middleware's reason |
| `Store.ComplaintStore.constructor` | server.js:12-15 | the server starts on an existing collection whose ids are newest first, with the injected cipher and hash and the key chosen from the environment |
| `Store.ComplaintStore.Submit` | server.js:37-69 | 400 exactly when the title, category or description is missing or empty, and then the store is unchanged. Otherwise exactly one new document is added under the new id, at the head of the order, and no existing document changes. The ids stay newest first. The new document holds the title, description and location, each encrypted under its own salt (an absent location is encrypted as ""), the category in clear, the date or "", anonymous coerced to a boolean, status "Open", the hash of the PIN and the timestamp. The reply returns the id and the same PIN. |
| `Store.ComplaintStore.UpdateStatus` | server.js:112-127 | refused with the middleware's reason when unauthenticated. 400 exactly when the status is not one of Open, In Review or Resolved. 500 exactly when the id has no document. Otherwise that document's status becomes the given one. In every case but success the store is unchanged, and on success no other field or document changes. |
| `Properties.TrackAfterSubmit` | server.js:45-58 | tracking a freshly submitted document with its id and PIN answers "Open"; a non-empty PIN with a different hash gets 401 "Invalid PIN"; tracking any other id answers exactly as before the submission |
| `Properties.TrackAfterUpdate` | server.js:121 | after a valid update, a request that tracked that id successfully now sees the new status, and every other track request gets the same answer as before |
| `Properties.TrackIgnoresOtherFields` | server.js:142-147 | tracking depends only on the PIN hashes, the statuses and the hash function, not on ciphertexts, clear fields, timestamps or the key |
| `Properties.ListAfterSubmit` | server.js:48-58 | after a submission the listing is the new document's summary followed by the previous listing |
| `Properties.ListAfterUpdate` | server.js:97-102 | a valid update changes the listing only in the status of the updated document's rows; length, order and all other fields stay |
| `Properties.ListIgnoresOtherFields` | server.js:97-102 | two stores that agree on category, status and createdAt list identically, so no ciphertext, date, anonymity flag or PIN hash reaches the listing |
| `Properties.SubmitTrackAndResolve` | server.js:37-152 | a submit followed by track gives "Open"; setting the status "Deleted" is refused with 400, and track still gives "Open" after it; after setting "Resolved", track gives "Resolved" |

## Left out

- Express and CORS setup, routing, the health check and `app.listen` (server.js:29-34, 154-158) are HTTP plumbing.
- Firebase initialisation and credential loading (server.js:8-12) are not modelled. Neither are the store's query, indexing and ordering internals; the listing order is taken as the class's `ids`.
- The inside of CryptoJS AES and SHA-256 is a foreign library. Both are opaque injected functions, and nothing is proved about secrecy, collisions or decryption.
- Floating-point `Math.random()` is replaced by an integer draw. The model assumes that `Math.floor(100000 + r * 900000)` equals `100000 + Math.floor(r * 900000)`, which ignores float rounding.
- Store ids and timestamps are parameters. The store itself guarantees that the id is fresh and non-empty; that is why `Submit` requires it. `Submit` also requires that the timestamp is no earlier than any stored one.
- Complaints.AdminList: the store's query sorts by the `createdAt` value and leaves out documents that have no `createdAt`. The model does not do that sort. It lists the class's ids in order and relies on the class invariant that every document has a timestamp and the ids are sorted by them, so a document without `createdAt` cannot be represented. The order among equal timestamps is whatever the ids say.
- Helpers.Encrypt: the random salt is a parameter, so the model does not capture that it is drawn uniformly, nor the OpenSSL-format output that carries it.
- `Submit` does not model a store failure during `add`, which would answer 500 without writing. The same holds for any other thrown error except the missing document on update. async/await suspension, logging and concurrency are out of scope.
- Text request fields are modelled as a string or absent. A number, boolean or object sent as a title, category, description, location, date, id or PIN is not modelled. `anonymous` is modelled as any JSON value with JavaScript truthiness.
- Firestore's rules on document ids, such as a `/` in `:id`, are not modelled.
- The ledger client (blockchain.js), commitment hashing, canonicalisation, anchoring and constant-time digest comparison are not modelled. The server never calls them.
