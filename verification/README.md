# fair-track request core in Dafny

fair-track is an expense tracker: an Express/Mongoose server for users,
profiles, categories and transactions, and a React client. This project
models the part of it that is pure request logic. That is:

- the input validators (sign-up, login, category, transaction);
- the cookie-token auth gate and the audit attributor that stamp requests on the transaction routes;
- the decision flow of every handler: validate → 400, look up → 404/409, write → 200/201, any thrown error → 500;
- the transaction repository's queries (exact-match filters, an inclusive date range, newest first);
- two client-side pieces: the sign-up form reducer, and the URL, header, error and body rules of `fetchAPI`/`apiClient`.

JavaScript values are modelled explicitly (`Js.Value`): undefined, null,
booleans, numbers, strings, dates (with Invalid Date), arrays and objects.
Truthiness, `String.prototype.trim` (the full ECMAScript white-space and
line-terminator set) and `.length` (in UTF-16 code units) follow the
language, so a validator reads a field exactly as the source does. A field
read `body.x` on an absent key gives `Undefined`.

The database is a value. Transactions are a sequence (documents in
insertion order); categories, users and profiles are maps from id to
record. A handler is a function from the store and the request to the new
store and a `Http.Response`: status, message and an optional payload. What
the model cannot compute is a parameter:

- `new Date(x)` (`newDate`, None for an Invalid Date);
- the token verifier (`verify`);
- the clock (`now`) and the id the store assigns (`newId`);
- password hashing (`hash`);
- the category name lookup (`sameName`);
- `String(v)`, URL form encoding and `JSON.stringify` (`show`, `escape`, `stringify`);
- whether the store call of a request throws (`fault`).

Module layout follows the source:

| module | source |
|---|---|
| `Js`, `Http`, `Wrappers` | JavaScript semantics, the response shape, Option |
| `TransactionValidation`, `CategoryValidation`, `UserValidation` | the three `validations.ts` files |
| `AuthGate`, `Audit` | `auth.middleware.ts`, `audit.middleware.ts` |
| `TransactionRepository` | `Transaction.repository.ts` |
| `TransactionHandlers`, `CategoryHandlers`, `UserHandlers`, `ProfileHandlers` | the four `*.middleware.ts` handler classes |
| `TransactionRoutes` | gate → audit → handler, as `TransactionRoutes.ts` wires them |
| `SignUpForm`, `ApiClient` | `client/src/modules/auth/helpers.ts`, `client/src/api/client.ts` |

Notable behaviour of the code, which the model keeps:

- There is no login handler; only the login validator exists.
- Sign-up does not create a default profile.
- The sign-up reply carries the stored user, including the password hash.
- The transaction create handler forwards only six body fields. So the `createdBy`/`updatedBy` that the audit attributor adds never reach the store.
- On POST the audit attributor keeps a truthy client-supplied `userId`. So an authenticated user can file a transaction under another user's id (`TransactionRoutes.PostTransaction`).

## Model

| member | source | states |
|---|---|---|
| Js.Trim | server/src/middlewares/Transactions/validations.ts:16-22 | the result is a slice of the input with only white space cut from both ends, and it neither starts nor ends with white space |
| Js.TrimEmptyIffBlank | server/src/middlewares/Transactions/validations.ts:16-22 | `s.trim().length === 0` holds exactly when every character of `s` is white space |
| Js.TrimIdempotent | server/src/middlewares/Categories/Category.middleware.ts:160-161 | trimming an already trimmed string changes nothing |
| Js.Utf16Length | server/src/middlewares/Transactions/validations.ts:28-30 | `.length` counts UTF-16 code units: between one and two per character |
| Js.Utf16LengthConcat | server/src/middlewares/Categories/validations.ts:8-14 | the length of a concatenation is the sum of the lengths |
| Js.Utf16LengthBmp | server/src/middlewares/User/validations.ts:13-19 | for text inside the Basic Multilingual Plane, `.length` is the character count |
| Js.LengthOf | server/src/middlewares/User/validations.ts:13-19 | `.length` of a field value: code units of a string, items of an array, the numeric `length` key of an object, none otherwise |
| Js.Utf16LengthAstral | server/src/middlewares/User/validations.ts:13-19 | a character outside the Basic Multilingual Plane counts twice toward `.length` |
| TransactionValidation.ValidCreate | server/src/middlewares/Transactions/validations.ts:3-37 | accepts exactly when amount is a number above 0, type is "credit" or "debit", userId and categoryId are strings non-blank after trimming, a truthy note is a string of at most 500 code units, and a truthy date is a Date |
| TransactionValidation.ValidUpdate | server/src/middlewares/Transactions/validations.ts:39-69 | accepts exactly when each truthy field among amount, type, note and date meets its create bound |
| TransactionValidation.ZeroAmountRejected | server/src/middlewares/Transactions/validations.ts:4-10 | amount 0 is refused on create, and on update it counts as no amount |
| TransactionValidation.UpdateIgnoresOwnership | server/src/middlewares/Transactions/validations.ts:39-69 | the update verdict does not depend on userId or categoryId |
| TransactionValidation.FalsyPatchValid | server/src/middlewares/Transactions/validations.ts:39-69 | a patch whose fields are all absent or falsy is valid |
| TransactionValidation.CreateValidImpliesUpdateValid | server/src/middlewares/Transactions/validations.ts:3-69 | data valid for create is valid for update |
| CategoryValidation.ValidCreate | server/src/middlewares/Categories/validations.ts:3-25 | accepts exactly when the name is a string of at least 2 code units after trimming and at most 100 before, userId is truthy, and a truthy description is a string of at most 500 |
| CategoryValidation.ValidUpdate | server/src/middlewares/Categories/validations.ts:27-49 | the same name and description bounds, applied only to truthy fields |
| CategoryValidation.CreateValidImpliesUpdateValid | server/src/middlewares/Categories/validations.ts:3-49 | data valid for create is valid for update |
| CategoryValidation.EmptyUpdateValid | server/src/middlewares/Categories/validations.ts:27-49 | an empty body is a valid update |
| CategoryValidation.NameBoundsMeasureDifferentStrings | server/src/middlewares/Categories/validations.ts:8-14 | 99 spaces plus one letter fit the raw bound but fail the trimmed one; 99 spaces plus two letters pass the trimmed bound but fail the raw one |
| UserValidation.EmailPatternIff | server/src/middlewares/User/validations.ts:8-11 | `^[^\s@]+@[^\s@]+\.[^\s@]+$` matches exactly the strings without white space that have one '@', not first, and a '.' after it with at least one character between them and after it |
| UserValidation.TwoAtsRejected | server/src/middlewares/User/validations.ts:8-11 | no address with two '@' matches |
| UserValidation.WhitespaceRejected | server/src/middlewares/User/validations.ts:8-11 | no address containing white space matches |
| UserValidation.EmailExampleAccepted | server/src/middlewares/User/validations.ts:8-11 | "alice@x.com" matches |
| UserValidation.ValidSignUp | server/src/middlewares/User/validations.ts:3-22 | accepts exactly when username, email and password are truthy, the email matches, and neither the password's `.length` is below 6 nor the username's below 3 |
| UserValidation.ValidLogin | server/src/middlewares/User/validations.ts:24-38 | accepts exactly when usernameOrEmail is a string non-blank after trimming and password is a string of at least 6 code units |
| UserValidation.SignUpStringBounds | server/src/middlewares/User/validations.ts:13-19 | for string fields, an accepted sign-up has a password of at least 6 and a username of at least 3 code units |
| AuthGate.Gate | server/src/middlewares/auth.middleware.ts:13-52 | no cookie jar → 401 "Authentication failed"; falsy token → 401 "No token provided"; verifier null → 401 "Invalid or expired token"; verifier throws → 401 "Authentication failed"; a claim → continue with exactly that claim |
| AuthGate.GateDecision | server/src/middlewares/auth.middleware.ts:20-51 | the request continues iff a truthy token verifies, the principal is then the verified claim, and every refusal is a 401 with one of the three messages and no payload |
| Audit.Attribute | server/src/middlewares/audit.middleware.ts:5-43 | no principal id → body unchanged; POST → createdBy and updatedBy set to the principal, userId set only when falsy, every other key unchanged, a missing body read as {}; PUT/PATCH → only updatedBy set; other verbs → unchanged |
| Audit.AttributeIdempotent | server/src/middlewares/audit.middleware.ts:19-35 | stamping a stamped body again changes nothing |
| Audit.ClientAuditFieldsIgnored | server/src/middlewares/audit.middleware.ts:19-28 | bodies differing only in the client's createdBy/updatedBy read alike once stamped on POST |
| TransactionRepository.TypeName | server/src/models/IModels.ts:32-35 | the stored names of the two transaction types are "credit" and "debit" |
| TransactionRepository.FindById | server/src/repositories/Transactions/Transaction.repository.ts:7-10 | null exactly when no document has the id; otherwise a stored document with that id |
| TransactionRepository.FindByIdUnique | server/src/repositories/Transactions/Transaction.repository.ts:7-10 | with unique ids, looking up a document's id returns that document |
| TransactionRepository.Filter | server/src/repositories/Transactions/Transaction.repository.ts:12-52 | keeps exactly the matching documents, each as often as it is stored |
| TransactionRepository.Insert | server/src/repositories/Transactions/Transaction.repository.ts:13 | inserting into a newest-first sequence keeps it newest first and adds exactly the one document |
| TransactionRepository.SortNewestFirst | server/src/repositories/Transactions/Transaction.repository.ts:13 | the result is ordered by date, descending, and is a permutation of the input |
| TransactionRepository.Find | server/src/repositories/Transactions/Transaction.repository.ts:12-52 | each list query returns exactly the documents matching its criteria (user; user and category; user and type; user and inclusive date range), with multiplicity, date descending |
| TransactionRepository.Create | server/src/repositories/Transactions/Transaction.repository.ts:54-60 | the new document joins the store, ids stay unique, it is found by its id, lookups of other ids are unaffected |
| TransactionRepository.FindByIdAppend | server/src/repositories/Transactions/Transaction.repository.ts:54-60 | appending a document with a fresh id changes only the lookup of that id |
| TransactionRepository.Merge | server/src/repositories/Transactions/Transaction.repository.ts:62-72 | patched fields take the patch's value; id, owner, category and every unpatched field keep the stored value |
| TransactionRepository.MergeEmpty | server/src/repositories/Transactions/Transaction.repository.ts:62-72 | an empty patch leaves a document as it is |
| TransactionRepository.MergeIdempotent | server/src/repositories/Transactions/Transaction.repository.ts:62-72 | applying a patch twice is applying it once |
| TransactionRepository.Replace | server/src/repositories/Transactions/Transaction.repository.ts:66-70 | the documents with the id are patched and every other document is kept in place |
| TransactionRepository.FindAfterReplace | server/src/repositories/Transactions/Transaction.repository.ts:66-71 | after the write, the id's lookup returns the patched document (`new: true`) |
| TransactionRepository.Update | server/src/repositories/Transactions/Transaction.repository.ts:62-72 | an absent id gives null and an unchanged store; otherwise it returns the stored document merged with the patch, writes that merged document in place of the id's document, and the lookup afterwards returns it; other documents and all ids are unchanged |
| TransactionRepository.Remove | server/src/repositories/Transactions/Transaction.repository.ts:74-77 | keeps exactly the documents without the id |
| TransactionRepository.Delete | server/src/repositories/Transactions/Transaction.repository.ts:74-77 | true iff a document had the id; afterwards none has it and the rest remain; an absent id leaves the store unchanged |
| TransactionHandlers.DateField | server/src/middlewares/Transactions/Transaction.middleware.ts:24 | a truthy date is parsed with `new Date`, a falsy one becomes undefined |
| TransactionHandlers.ToDocument | server/src/middlewares/Transactions/Transaction.middleware.ts:18-33 | the stored document carries the validated amount, type, owner, category and string note; a missing date takes the current time; an Invalid Date cannot be stored |
| TransactionHandlers.CreateTransaction | server/src/middlewares/Transactions/Transaction.middleware.ts:10-50 | no body → 500; 400 iff the data fail validation; 201 iff valid, no store error and a storable date; only a 201 changes the store, appending a document built from the body's fields, and the 201 reply carries exactly that document |
| TransactionHandlers.CreateReadsOnlyItsFields | server/src/middlewares/Transactions/Transaction.middleware.ts:16-25 | body fields other than amount, type, userId, categoryId, note and date make no difference to a create |
| TransactionHandlers.GetTransaction | server/src/middlewares/Transactions/Transaction.middleware.ts:52-88 | a missing or array id → 400 before any lookup; found → 200 with the document; absent → 404; store error → 500 |
| TransactionHandlers.BuildPatch | server/src/middlewares/Transactions/Transaction.middleware.ts:270-274 | the patch holds exactly the truthy fields, the note trimmed and the date parsed |
| TransactionHandlers.UpdateTransaction | server/src/middlewares/Transactions/Transaction.middleware.ts:235-293 | no body → 500; a valid request whose id is not a string, that meets a store error, or whose date cannot be stored → 500; 400 "Transaction ID is required" iff a body and a missing id; 400 "Invalid transaction data" iff a body, an id and invalid data; 404 iff the id is absent; 200 iff body, id and data are valid, the id is a string found in the store, no store error and the patch is storable; on 200 the store is updated with the patch and the reply carries the merged document; nothing else changes the store |
| TransactionHandlers.FalsyFieldsLeaveStoredValues | server/src/middlewares/Transactions/Transaction.middleware.ts:270-274 | amount 0 or an empty note in an update keeps the stored amount and note |
| TransactionHandlers.DeleteTransaction | server/src/middlewares/Transactions/Transaction.middleware.ts:295-332 | missing id → 400; a non-string id or a store error → 500; absent → 404 with the store unchanged; present → 200 and the document is gone |
| TransactionHandlers.GetTransactionsByUser | server/src/middlewares/Transactions/Transaction.middleware.ts:90-121 | missing or array userId → 400 "User ID is required"; a non-string userId or a store error → 500; otherwise 200 with the user's transactions, newest first |
| TransactionHandlers.GetTransactionsByUserAndCategory | server/src/middlewares/Transactions/Transaction.middleware.ts:123-154 | either parameter missing or an array → 400; a non-string parameter or a store error → 500; otherwise 200 with the user's transactions in that category |
| TransactionHandlers.GetTransactionsByUserAndType | server/src/middlewares/Transactions/Transaction.middleware.ts:156-187 | either parameter missing or an array → 400; a non-string parameter or a store error → 500; otherwise 200 with the user's transactions of that type |
| TransactionHandlers.GetTransactionsByUserAndDateRange | server/src/middlewares/Transactions/Transaction.middleware.ts:189-233 | a missing userId, startDate or endDate → 400; an unparseable date → 400 "Invalid date format"; with both dates parsed, a non-string userId or a store error → 500; 200 iff all three are present, both dates parse, the userId is a string and no store error, and then the reply lists the user's transactions dated within both bounds inclusive |
| TransactionHandlers.CreateThenGetThenDelete | server/src/middlewares/Transactions/Transaction.middleware.ts:10-88 | a created transaction is fetched back by its id, and after its deletion the fetch answers 404 |
| TransactionRoutes.PostTransaction | server/src/routes/TransactionRoutes.ts:10-11 | a gate refusal is the reply and leaves the store unchanged; otherwise the stamped body goes to create, and a stored transaction's owner is the body's truthy userId or else the principal |
| TransactionRoutes.PostStoresPrincipalAsOwner | server/src/middlewares/audit.middleware.ts:26-28 | an authenticated create without a userId in the body is stored under the principal's id |
| TransactionRoutes.PutTransaction | server/src/routes/TransactionRoutes.ts:10-11 | a gate refusal is the reply; otherwise the stamped body goes to update, so behind the gate a missing id is a 400, not a 500 |
| TransactionRoutes.PutPatchIgnoresStamp | server/src/middlewares/Transactions/Transaction.middleware.ts:250-255 | the updatedBy stamp is not among the fields an update reads |
| CategoryHandlers.TrimmedDescription | server/src/middlewares/Categories/Category.middleware.ts:39 | `description?.trim()`: none for null or undefined, the trimmed text for a string, a TypeError otherwise |
| CategoryHandlers.CreateCategory | server/src/middlewares/Categories/Category.middleware.ts:10-58 | no body → 500; 400 iff invalid; 409 iff the same owner already has a matching name; 201 adds exactly one category with the trimmed name, trimmed description and the body's userId; nothing else changes the store |
| CategoryHandlers.CreateTwiceConflicts | server/src/middlewares/Categories/Category.middleware.ts:24-35 | repeating a successful create is refused with 409 and leaves the store as it is |
| CategoryHandlers.GetCategory | server/src/middlewares/Categories/Category.middleware.ts:60-96 | missing or array id → 400; absent → 404; present → 200 with the category |
| CategoryHandlers.GetCategoriesByUser | server/src/middlewares/Categories/Category.middleware.ts:98-129 | missing or array userId → 400; a non-string userId or a store error → 500; otherwise 200 with exactly the categories the user owns |
| CategoryHandlers.BuildPatch | server/src/middlewares/Categories/Category.middleware.ts:159-161 | the patch holds exactly the truthy name and description, trimmed |
| CategoryHandlers.Merge | server/src/middlewares/Categories/Category.middleware.ts:159-163 | patched fields replaced, the owner and unpatched fields kept |
| CategoryHandlers.UpdateCategory | server/src/middlewares/Categories/Category.middleware.ts:131-180 | no body → 500; missing id → 400; invalid → 400; a valid request with a non-string id or a store error → 500; 404 iff absent, store unchanged; 200 writes the merged category at that id only |
| CategoryHandlers.UpdateIdempotent | server/src/middlewares/Categories/Category.middleware.ts:159-163 | repeating a successful update leaves the store as the first left it |
| CategoryHandlers.DeleteCategory | server/src/middlewares/Categories/Category.middleware.ts:182-219 | missing id → 400; a non-string id or a store error → 500; absent → 404, store unchanged; present → 200 and exactly that id is removed |
| UserHandlers.UserTypeOr | server/src/middlewares/User/User.middleware.ts:43 | the client's type when truthy, "user" otherwise |
| UserHandlers.SignUp | server/src/middlewares/User/User.middleware.ts:10-61 | no body → 500; 400 iff invalid; 409 iff a user has the same username or the same email; 201 stores exactly username, email, hashed password and type; nothing else changes the store |
| UserHandlers.SignUpBlocksSameUsernameOrEmail | server/src/repositories/User/User.repository.ts:13-15 | after a successful sign-up, any valid sign-up repeating its username or its email gets 409 |
| UserHandlers.ClientTypeForwarded | server/src/middlewares/User/User.middleware.ts:43 | a client asking for "admin" is stored as "admin" |
| ProfileHandlers.CreateProfile | server/src/middlewares/Profiles/Profile.middleware.ts:8-33 | no body → 500; 400 iff name or userId is falsy; 201 stores exactly {name, userId} from the body; nothing else changes the store |
| ProfileHandlers.GetProfilesByUser | server/src/middlewares/Profiles/Profile.middleware.ts:35-60 | missing or array userId → 400; a non-string userId or a store error → 500; otherwise 200 with exactly the profiles the user owns |
| ProfileHandlers.CreatedProfileListed | server/src/middlewares/Profiles/Profile.middleware.ts:22-27 | a profile created for a user is listed among that user's profiles |
| SignUpForm.Reduce | client/src/modules/auth/helpers.ts:9-16 | SET_FIELD sets the named field to the payload and leaves the others; any other action returns the state |
| SignUpForm.ReduceIdempotent | client/src/modules/auth/helpers.ts:11-12 | dispatching the same action twice is dispatching it once |
| SignUpForm.ReduceAllLastWrite | client/src/modules/auth/helpers.ts:9-16 | after any action sequence, each field holds the payload of the last action setting it, or its old value |
| ApiClient.Kept | client/src/api/client.ts:37-41 | the query pairs are exactly the parameters that are neither null nor undefined, each value as `String(value)`, so a string value is sent as itself |
| ApiClient.KeptConcat | client/src/api/client.ts:37-41 | keeping distributes over concatenation, so the kept pairs keep entry order and multiplicity |
| ApiClient.KeptSingle | client/src/api/client.ts:38-40 | one entry is dropped when null or undefined and otherwise kept with `String(value)`; a string value is kept as itself |
| ApiClient.QueryString | client/src/api/client.ts:42 | the query string is empty exactly when there are no pairs |
| ApiClient.QuerySeparators | client/src/api/client.ts:42 | with an encoder that never emits '&', the query holds one '&' between consecutive pairs |
| ApiClient.BuildUrl | client/src/api/client.ts:33-46 | base URL then endpoint; '?' and the query follow only when some parameter is kept |
| ApiClient.QueryMarkIffKeptParam | client/src/api/client.ts:43-45 | a '?' follows the endpoint iff some parameter is neither null nor undefined |
| ApiClient.MergeHeaders | client/src/api/client.ts:49-52 | the caller's headers override the default Content-Type; defaults the caller leaves out remain |
| ApiClient.Decimal | client/src/api/client.ts:72 | the status prints as decimal digits without a leading zero |
| ApiClient.DecimalRoundTrip | client/src/api/client.ts:72 | reading the printed status back gives the status |
| ApiClient.DecimalInjective | client/src/api/client.ts:72 | distinct statuses print differently |
| ApiClient.ToText | client/src/api/client.ts:9-14 | `super(message)` makes the message a string: a string stays itself, anything else goes through `String` |
| ApiClient.FailureMessage | client/src/api/client.ts:72 | the body's truthy message as a string, else "HTTP " and the status |
| ApiClient.Settle | client/src/api/client.ts:54-93 | an ok response resolves with its data; a non-ok one fails with its status; an ApiError is rethrown unchanged; a TypeError, another Error, or a non-Error fails with status 0 and the network, own, or unknown message |
| ApiClient.SettleStatus | client/src/api/client.ts:70-93 | status 0 exactly when no response arrived, and a default message names the status it came from |
| ApiClient.BodyFor | client/src/api/client.ts:104 | a body is sent, stringified, exactly when it is truthy |
| ApiClient.Prepare | client/src/api/client.ts:27-78 | fetch gets the built URL, the merged headers, the caller's verb and body, and credentials included |
| ApiClient.WithoutBody | client/src/api/client.ts:96-98 | get and delete force their verb and pass the caller's options through |
| ApiClient.WithBody | client/src/api/client.ts:100-105 | post, put and patch force their verb and send the body only when it is truthy |

## Left out

- Persistence, Mongoose and MongoDB are not modelled. Each store is a value and each store error is the `fault` flag.
- Schema validators and setters are not modelled: `required`, `enum`, `minlength`/`maxlength`, the `trim` and `lowercase` setters, the unique indexes, and timestamps other than the transaction date's default. One example: the schema requires a transaction's `profileId`, which create never forwards. That gap is left as the handlers show it.
- Casts of ids are simplified. Route parameters are always strings. In the handlers that read an id or userId from the route or the query, a truthy one that is not a string is treated as a cast failure and gives 500. ObjectId casting of a malformed string id is not modelled, so such an id is absent and gives 404.
- CategoryHandlers.CreateCategory: the body's userId is stored uncast. The schema's `String` type would store a number or boolean as its text (so `userId: 5` is later listed for "5", which the model misses), and would refuse an object or array with a cast error (500 where the model answers 201).
- ProfileHandlers.CreateProfile: the body's name and userId are stored uncast, with the same consequences of the schema's `String` cast as for categories.
- UserHandlers.SignUp: the body's username, email and userType are stored uncast, with the same consequences of the schema's `String` cast.
- TransactionHandlers.GetTransactionsByUserAndDateRange: a query userId that is an array (`?userId=a&userId=b`) or an object (`?userId[$ne]=x`) is passed to the query as is. Mongoose casts it to an `$in` or operator filter and the handler answers 200. The model answers 500, because Mongoose's query casting is not modelled.
- TransactionRepository.Replace and TransactionRepository.Update: every document carrying the id is patched, where `findByIdAndUpdate` patches one. The two agree when ids are unique, which `Create` preserves.
- TransactionRepository.Remove and TransactionRepository.Delete: every document carrying the id is removed, where `findByIdAndDelete` removes one. The two agree when ids are unique.
- `TransactionHandlers.ToDocument`: a falsy note that is not a string, such as `false` or `0`, passes validation. The schema would cast it to text; the model stores no note.
- `new Date`, `Date.getTime`, bcrypt, jsonwebtoken, `String(v)`, URLSearchParams encoding and `JSON.stringify` are parameters, because they are library behaviour.
- `amount` is a mathematical real. IEEE-754 doubles and NaN are not modelled: NaN is falsy in JavaScript, and no `Num` here is.
- The category lookup's case-insensitive `$regex` is the parameter `sameName`. Because the raw name is used as the pattern, what it matches is not modelled.
- `UserValidation.ValidSignUp`: `regex.test` converts a non-string email to text (an array `["a@b.c"]` matches). Here only a string email can match.
- `Js.LengthOf`: an object's `length` property counts only when it is a number. Comparing a non-numeric `length` with 6 or 3 (coercion) is not modelled.
- The order of documents with equal dates, and the `createdAt` order of listed profiles, are not modelled. Category and profile listings are maps.
- Logging is not modelled, nor is the `error` text field of 500/401 replies, since neither affects a decision.
- The audit attributor's `catch` branch is not modelled: nothing in its body can throw once the body is an object.
- The Express routers, `this`-binding, cookies parsing, CORS, Swagger and env configuration are not modelled.
- Responses with a non-JSON content type are not modelled separately: `data` is whatever body the outcome carries.
- React components, hooks and the zustand store are not modelled, nor is `fetch` itself. Its outcome is the input of `ApiClient.Settle`.
- `ApiClient.Settle`: the `data` of a network or other thrown error is the thrown object. The model records it only for non-Error throws.
