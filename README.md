# Data source cascade and request guards

A Dafny model of the core of a TypeScript REST content backend built on
restify. Records are kept under string keys in one or more backends ("data
sources").

- **The data source contract.** Every backend answers the same calls:
  `getData`, `putData`, `getItems`, `updateData`, `searchData`, plus
  `deleteItem`, which the manager uses but the interface does not declare.
- **The data source manager.** It holds an ordered, non-empty list of backends.
  The first backend is the primary.
  - `getData` and `searchData` fail fast. The first backend with a record
    answers. A backend with nothing (null or undefined) is skipped. The first
    backend error is passed on unchanged. When every backend has nothing, the
    manager rejects with NotFound "Resource not found".
  - `getItems` tolerates failures. The first non-empty batch answers, even a
    partial one. An empty batch or a backend error moves on. When nothing is
    found, the manager rejects with the last error seen, or with
    "Resource not found" if no backend failed.
  - `putData`, `updateData` and `deleteItem` go to the primary only. The
    primary's answer is returned as it is.
- **The in-memory backend of the manager's tests (`DummySource`).** It is a
  dictionary. `putData`, `updateData` and `deleteItem` update it in place;
  the reads leave it unchanged.
- **The security middleware.** It rejects a request with NotAuthorized
  "invalid Token" when all three hold: the method is checked, the path is not
  exempt, and the authorization header is missing, empty, or not the
  configured token.
- **The route validators.** `isAlphanumeric` and `isNumeric` check one route
  parameter. `validateBodyWithSchema` checks the body. Each one either sends
  an error or runs the handler.

Files and modules:

| file | module | what it holds |
|---|---|---|
| `wrappers.dfy` | `Wrappers` | `Option` |
| `values.dfy` | `Values` | JavaScript values and their truthiness |
| `restify.dfy` | `Restify` | the errors, and what a middleware does with a request (`Effect`) |
| `data_source.dfy` | `DataSource` | the calls of the contract, settled promises, and the Success / Empty / Failure reading of an answer |
| `cascade.dfy` | `Cascade` | the two read policies as functions over the backends' outcomes, with their lemmas |
| `dummy_source.dfy` | `DummyBackend` | the in-memory backend: a class with a `map` field, plus the functions its methods are proved against |
| `data_source_manager.dfy` | `Manager` | the backend list and the manager class; its loop methods are proved equal to the `Cascade` policies |
| `manager_scenarios.dfy` | `ManagerScenarios` | the manager's test cases, built from real and stubbed backends |
| `security.dfy` | `Security` | the token middleware |
| `validation.dfy` | `Validation` | the parameter and body validators |

How the model represents the program:

- **Backends.** A backend is either the in-memory store (`Dummy`) or a
  black box (`Stub`). A black box is given by the answer it settles with for
  each call. It stands for an adapter whose code is not part of this model,
  or for a test stub.
- **Manager reads.** Each read method returns the settled result and
  `invoked`, the number of backends it called. That count is how
  "no later backend is called" is stated.
- **Write effects.** Each write method's `modifies` clause names only the
  primary's store.

Modelling choices:

- A batch that a backend resolves with a nested array is passed on as it is,
  as test/data_source_manager-spec.ts:170-193 expects. See
  `ManagerScenarios.PartialBatch`.
- The manager's own source file is not part of this model. Its behaviour is
  taken from its tests in `test/data_source_manager-spec.ts`. The tests do
  not pin two readings, and the model chooses them:
  - A batch read that resolves with null or undefined is read as Empty, like
    an empty array.
  - A single read or search is Empty only when it resolves with null or
    undefined. Other falsy values such as `false`, `0` or `""` count as
    records.

## Model

| member | source | states |
|---|---|---|
| `DataSource.Call.KeyOf` | src/data_source/base/DataSource.ts:1-12 | the single-key calls (getData, putData, updateData, deleteItem) carry a key; getItems carries a key list; searchData takes a query and no key |
| `DataSource.ContractShape` | src/data_source/base/DataSource.ts:1-12 | search has no key; put and update are keyed, distinct and both writes; deleteItem is a write that the interface does not declare |
| `DataSource.Classify` | test/data_source_manager-spec.ts:114-118 | a rejection is a Failure carrying the same error; null or undefined is Empty; for a batch read, an empty array is Empty too; anything else is a Success with the value unchanged |
| `Cascade.FailFast` | test/data_source_manager-spec.ts:107-168 | the reply consults at most every backend, none when the list is empty; every backend before the last one consulted was Empty; a resolved value is the answer of the last one consulted |
| `Cascade.FailFastFirstNonEmpty` | test/data_source_manager-spec.ts:107-168 | the first non-Empty backend decides: its value or error, with exactly the backends up to it consulted; when all are Empty, "Resource not found" after consulting them all |
| `Cascade.FailFastSkipsEmpty` | test/data_source_manager-spec.ts:137-157 | any number of leading Empty backends are skipped, and each is counted as consulted |
| `Cascade.FailFastStopsAtFailure` | test/data_source_manager-spec.ts:290-306 | a Failure after Empty backends is the reply, with nothing after it consulted, whatever the later backends hold |
| `Cascade.FailFastNotFoundIffAllEmpty` | test/data_source_manager-spec.ts:159-168 | the read rejects with "Resource not found" if and only if every backend is Empty (given that no backend itself fails with that error) |
| `Cascade.FailFastIgnoresLater` | test/data_source_manager-spec.ts:107-135 | once a backend has answered, replacing every backend after it does not change the reply |
| `Cascade.TolerantFrom` | test/data_source_manager-spec.ts:170-240 | no backend before the last one consulted answered with a Success; a scan that stops early stops at a Success; a resolved value is that Success |
| `Cascade.Tolerant` | test/data_source_manager-spec.ts:170-240 | the getItems policy: at most every backend is consulted, none only for an empty list; no backend before the last one consulted answered with a Success; a resolved batch is the Success of the last backend consulted |
| `Cascade.LastFailure` | test/data_source_manager-spec.ts:195-217 | None exactly when no backend failed |
| `Cascade.LastFailureIsLast` | test/data_source_manager-spec.ts:195-217 | the error reported is that of a Failure after which no backend fails |
| `Cascade.TolerantFirstSuccess` | test/data_source_manager-spec.ts:170-193 | the first Success answers, with exactly the backends up to it consulted, whatever Empty or Failure outcomes came before it |
| `Cascade.TolerantExhausted` | test/data_source_manager-spec.ts:195-217 | with no Success, every backend is consulted and the reply is the last Failure's error, or "Resource not found" when none failed |
| `Cascade.TolerantIgnoresLater` | test/data_source_manager-spec.ts:170-193 | once a batch has answered, replacing every backend after it does not change the reply |
| `DummyBackend.Lookup` | test/data_source_manager-spec.ts:32-36 | the stored value, or undefined for a missing key |
| `DummyBackend.SetValue` | test/data_source_manager-spec.ts:38-43 | after storing, the key maps to the value and every other key is unchanged; an undefined value leaves the dictionary as it was |
| `DummyBackend.Found` | test/data_source_manager-spec.ts:13-28 | at most one item per key; every item is truthy and is the value of a requested key; the batch is empty exactly when no requested key has a truthy value |
| `DummyBackend.Answer` | test/data_source_manager-spec.ts:11-67 | every call resolves: getData with the lookup, getItems with the found items, put and update with `{itemId: key}`, search with null, delete with true |
| `DummyBackend.Store` | test/data_source_manager-spec.ts:38-66 | reads leave the dictionary unchanged; put and update store the value; delete removes the key |
| `DummyBackend.DummySource.constructor` | test/data_source_manager-spec.ts:30 | a new store is empty |
| `DummyBackend.DummySource.GetData` | test/data_source_manager-spec.ts:32-36 | resolves with the stored value, or undefined |
| `DummyBackend.DummySource.GetItems` | test/data_source_manager-spec.ts:13-28 | the loop over the keys resolves with exactly the found items, in key order |
| `DummyBackend.DummySource.PutData` | test/data_source_manager-spec.ts:38-43 | the dictionary after the call, and the `{itemId: key}` confirmation |
| `DummyBackend.DummySource.UpdateData` | test/data_source_manager-spec.ts:49-51 | the same new state and answer as putData |
| `DummyBackend.DummySource.SearchData` | test/data_source_manager-spec.ts:57-59 | resolves with null |
| `DummyBackend.DummySource.DeleteItem` | test/data_source_manager-spec.ts:61-66 | the key is removed and the call resolves with true |
| `DummyBackend.PutThenGet` | test/data_source_manager-spec.ts:32-51 | a value put or updated under a key is what a later getData of that key resolves with |
| `DummyBackend.DeleteThenGet` | test/data_source_manager-spec.ts:32-36 | after a delete, getData resolves with undefined, which the manager reads as Empty |
| `DummyBackend.MissingKeysGiveEmptyBatch` | test/data_source_manager-spec.ts:219-240 | a store without any requested key answers getItems with an empty array, read as Empty |
| `DummyBackend.MissingKeyShortensBatch` | test/data_source_manager-spec.ts:170-193 | one missing key makes the batch shorter than the key list |
| `DummyBackend.EmptyStoreAnswersEmpty` | test/data_source_manager-spec.ts:159-168 | a fresh store answers every read with something the manager reads as Empty |
| `Manager.Read` | src/data_source/base/DataSource.ts:3-11 | invoking a read on a backend returns that backend's answer and changes nothing |
| `Manager.Write` | src/data_source/base/DataSource.ts:5-9 | invoking a write returns the backend's answer in the state before the call; only that backend's store changes |
| `Manager.DataSourceManager.constructor` | test/data_source_manager-spec.ts:130 | the manager keeps the backend list it is given, which must not be empty |
| `Manager.DataSourceManager.FailFastScan` | test/data_source_manager-spec.ts:107-168 | the loop over the backends gives the result and the call count of the fail-fast policy over their classified answers |
| `Manager.DataSourceManager.EmptyBackend` | test/data_source_manager-spec.ts:137-157 | a store holding nothing reads as Empty in the cascade, at whatever position |
| `Manager.DataSourceManager.GetData` | test/data_source_manager-spec.ts:107-168 | the result and the number of backends called are those of the fail-fast cascade over the backends' answers |
| `Manager.DataSourceManager.SearchData` | test/data_source_manager-spec.ts:308-319 | search follows the same fail-fast cascade |
| `Manager.DataSourceManager.GetItems` | test/data_source_manager-spec.ts:170-240 | the result and the number of backends called are those of the tolerant cascade |
| `Manager.DataSourceManager.PutData` | test/data_source_manager-spec.ts:242-288 | the primary's answer as it is; only the primary's store changes |
| `Manager.DataSourceManager.UpdateData` | test/data_source_manager-spec.ts:256-270 | the primary's answer as it is; only the primary's store changes |
| `Manager.DataSourceManager.DeleteItem` | test/data_source_manager-spec.ts:321-337 | the primary's answer as it is; only the primary's store changes |
| `ManagerScenarios.CallTwoSourcesAndStop` | test/data_source_manager-spec.ts:107-135 | an empty primary, then a backend with the record: that record, after two calls, so the third backend is never called |
| `ManagerScenarios.FifthBackendAnswers` | test/data_source_manager-spec.ts:137-157 | four empty stores, then a backend with an answer: both cascades resolve with that answer after five calls |
| `ManagerScenarios.FifthSourceAnswers` | test/data_source_manager-spec.ts:137-157 | four empty stores, then a backend with the record: that record, after five calls |
| `ManagerScenarios.EmptyResource` | test/data_source_manager-spec.ts:159-168 | one empty store: rejection with the message "Resource not found" |
| `ManagerScenarios.PartialBatch` | test/data_source_manager-spec.ts:170-193 | the primary's nested, partial batch, unchanged, after one call; the rejecting fallback is never called |
| `ManagerScenarios.EveryBatchRejects` | test/data_source_manager-spec.ts:195-217 | both backends reject: rejection with "Not content", after two calls |
| `ManagerScenarios.FifthSourceAnswersBatch` | test/data_source_manager-spec.ts:219-240 | four stores answer empty batches, and the fifth backend's batch is the result |
| `ManagerScenarios.InsertThenUpdate` | test/data_source_manager-spec.ts:242-270 | put, then update, both resolve with `{itemId: key}` |
| `ManagerScenarios.PrimaryPutFails` | test/data_source_manager-spec.ts:272-288 | the primary's InternalServerError on put is the result |
| `ManagerScenarios.PrimaryGetFails` | test/data_source_manager-spec.ts:290-306 | the primary's InternalServerError on read is the result, after one call, though the fallback exists |
| `ManagerScenarios.DeleteReturnsPrimaryAnswer` | test/data_source_manager-spec.ts:321-337 | deleteItem resolves with the primary's own answer |
| `Security.SecurityMiddleware` | src/server/SecurityMiddleware.ts:4-9 | the request is answered with NotAuthorized "invalid Token" if and only if the method is checked, the path is checked and the token is invalid; otherwise next runs exactly once, and never on rejection |
| `Security.ShouldValidateMethod` | src/server/SecurityMiddleware.ts:11 | a method is checked if and only if it is GET, POST, PUT, PATCH or DELETE |
| `Security.ShouldValidatePath` | src/server/SecurityMiddleware.ts:12 | a path is checked if and only if it is not "/ping" |
| `Security.TokenIsValid` | src/server/SecurityMiddleware.ts:13 | the header is valid if and only if it is present and equal to the configured token, and that token is not empty |
| `Security.EmptyTokenNeverValid` | src/server/SecurityMiddleware.ts:13 | a missing or empty token is invalid whatever the configured token |
| `Security.ConfiguredTokenPasses` | src/server/SecurityMiddleware.ts:4-13 | a request with the configured non-empty token passes on any method and path |
| `Security.UncheckedRequestsPass` | src/server/SecurityMiddleware.ts:4-12 | an unchecked method, or the ping path, passes whatever the token |
| `Validation.FieldText` | src/helper/validation/restify/validation.ts:13 | the parameter is available to match exactly when params is an object whose field holds a string |
| `Validation.AlphanumericCheck` | src/helper/validation/restify/validation.ts:12-14 | the closure throws TypeError exactly when the field is not a readable string; otherwise it returns a boolean, false exactly when the string does not match `/^[a-z0-9\-_]+$/i` |
| `Validation.NumericCheck` | src/helper/validation/restify/validation.ts:22-24 | the closure throws TypeError exactly when the field is not a readable string; otherwise it returns a boolean, false exactly when the string does not match `/^\d+$/` |
| `Validation.ParamValidation` | src/helper/validation/restify/validation.ts:65-81 | the message is sent if and only if the validation returns exactly false; the handler runs if and only if it returns anything else; a throw from the validation escapes |
| `Validation.IsAlphanumeric` | src/helper/validation/restify/validation.ts:10-17 | the handler runs if and only if the field is a non-empty string of ASCII letters, digits, '-' and '_'; otherwise "The <field> must be alphanumeric" is sent; a field that is not a string throws a TypeError |
| `Validation.IsNumeric` | src/helper/validation/restify/validation.ts:19-27 | the handler runs if and only if the field is a non-empty string of ASCII digits; otherwise "The <field> must be numeric" is sent; a field that is not a string throws a TypeError |
| `Validation.ValidateBodyWithSchema` | src/helper/validation/restify/validation.ts:33-56 | params that are exactly false get NotAcceptable "Body params can't be undefined"; a schema error gets UnprocessableEntity with its message; the handler runs if and only if neither happens |
| `Validation.NumericIsAlphanumeric` | src/helper/validation/restify/validation.ts:13-23 | every string the numeric pattern accepts, the alphanumeric pattern accepts |
| `Validation.NumericFieldPassesAlphanumeric` | src/helper/validation/restify/validation.ts:10-27 | a parameter that passes isNumeric passes isAlphanumeric |
| `Validation.EmptyFieldRejected` | src/helper/validation/restify/validation.ts:13-25 | the empty string is rejected by both validators, with their messages |
| `Validation.UndefinedBodyReachesSchema` | src/helper/validation/restify/validation.ts:41-44 | undefined body params are not caught by the `=== false` test and go on to the schema |

## Left out

- Promises and scheduling: each backend call is an already-settled answer, consumed one at a time in list order. Concurrency between requests is not modelled.
- The manager's own source file is not part of this model. Its policy is reconstructed from its tests. How it classifies a batch read that resolves with null is a modelling choice (Empty).
- Test stubs (sinon) are modelled as `Stub` backends. A stub answers one call as the test sets it up, and answers every other call as an empty store would. Writes made through a stub do not persist. The stub that throws synchronously when called is modelled as an arbitrary backend, which the scenario proves is never called.
- Two stubs differ from the tests. In test/data_source_manager-spec.ts:219-240, the fifth store's getItems runs over its stubbed getData. The model stubs getItems directly with the batch that produces. In test/data_source_manager-spec.ts:170-193, the test's own `successContent` holds objects. The model takes any items there.
- `DummySource.getItems` rejecting when one of its own getData calls rejects: its getData never rejects, so that path cannot occur. The model leaves it out.
- `DummySource.filterData` and `DummySource.updateDataRaw` are left out. Neither is in the data source contract, and the manager's tests do not use them.
- The field projection (`fields`) is carried on both read calls. The in-memory backend ignores it, as the source does. The real adapters (DynamoDB, Elasticsearch, external HTTP) are not part of this model. Any of them can appear in the list as a `Stub`, including one that rejects updateData.
- Aliasing: the same store object may appear at several positions in the list. A write to the primary is then visible at the other positions too. The `modifies` clauses allow this, and no lemma excludes it.
- The dictionary's refusal of an undefined value follows the typescript-collections `Dictionary.setValue`. That library is not part of this model.
- JavaScript numbers are integers here: no floating point and no NaN. Property lookup on request params sees only an object's own fields. Inherited properties (a string's `length`, prototype members) read as missing.
- The schema library (Joi) is a parameter: a function from the params to the first error message, or None.
- The decorator plumbing that replaces `descriptor.value` is left out. Only the pass or reject decision of each wrapper is modelled.
- Configuration loading: the configured security token is a parameter. Server bootstrap, logging and New Relic are left out.
- The Elasticsearch search test only checks that the call resolves. Its adapter is not part of this model, so search is modelled only through the cascade.
