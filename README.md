# coupon-service, modelled in Dafny

This project models the core of coupon-service, a small HTTP/JSON CRUD service for discount coupons backed by MongoDB. It covers three parts:

- **The data-access layer** (`dblayer/db.go`):
  - the filter compiler behind `SearchFromRequest`;
  - the per-coupon update loop, with its partial `$set` document and running count of modified documents;
  - the insert-document builder;
  - the `$in` lookup by identifier;
  - the constructor.
- **The validation gate** (`couponservice/validation.go`): the insert and update rules for one coupon, the batch validator, and the identifier validator.
- **Request orchestration** (`couponservice/service.go`, with the helpers of `couponservice/helpers.go` it calls): authentication, and dispatch on the HTTP method to the list, create and update pipelines.

Modules, one per program unit:

| module | file | models |
|---|---|---|
| `Wrappers` | wrappers.dfy | `Option`, `Result`, and `Wrap`, the `"context: cause"` message that `errors.Wrap` produces |
| `Api` | api.dfy | the entities of `api/api.go`: `Coupon`, `CouponFilter`, `CouponCollection`, `Request`, `Response`, a 12-byte `ObjectId`, and a `Time` of nanoseconds whose zero is Go's zero time |
| `Bson` | bson.dfy | ordered BSON documents (`seq<(string, Val)>`), unordered `bson.M` maps, and key-selection lemmas |
| `Mongo` | mongo.dfy | the driver client as a class. Its `InsertMany`, `UpdateOne` and `Find` replies are arbitrary functions of the history and the arguments, and every call is appended to `log` |
| `DbLayer` | dblayer.dfy | `dblayer/db.go` |
| `Validation` | validation.dfy | `couponservice/validation.go` |
| `DbPort` | port.dfy | `dblayer.Interface`, the port the handlers call. It is a class whose replies are arbitrary, so it stands for the real layer and for the test mock alike |
| `Helpers` | helpers.dfy | request decoding and response writing from `couponservice/helpers.go`. The response writer is an appended log of (status, envelope) entries |
| `Service` | service.dfy | `couponservice/service.go` |

How the code's constructs are modelled:

- **Imperative code.** The loops and step-by-step appends of the source are methods with loop invariants. Each method is proved equal to a specification function, and the properties the source promises are lemmas about those functions:
  - `CollectIds` is proved against `ConvertIds`, and `BuildFilterFromRequest` against `CompileFilter`;
  - `CollectSetFields` is proved against `SetFields`;
  - the document loop of `CreateCoupons` is proved against `InsertDocs`;
  - `ValidateOneForInsert` is proved against `InsertErrors`, and `ValidateMany` against `ManyErrors`;
  - `CollectCouponIds` is proved against `CouponIds`.
- **The update loop.** `UpdateCoupons` is specified by `UpdateRun`, a predicate over the transcript of driver calls it made. It states that:
  - coupon `j` is updated by call `j`, with the literal match document and the coupon's update document;
  - the loop stops at the first failure;
  - the returned count is the sum of the modified counts of the calls before that failure.
- **The handlers.** The handlers are specified by `RequestOutcome`, `ListOutcome`, `CreateOutcome` and `UpdateOutcome`. These are predicates over the port calls and the response entries a handler produced.

Foreign inputs become parameters:

- `ObjectIDFromHex` is `fromHex: string -> Result<ObjectId, string>`. It is a `Result` rather than an `Option` because its error message is what `buildFilterFromRequest` returns.
- The reading of `time.Now()` for the i-th inserted coupon is `clock(i)`.
- The JSON decoding outcomes are fields of the request values. `HttpRequest.body` is the outcome of decoding the envelope. `RawData.asCoupons` and `RawData.asFilter` are the outcomes of decoding `Data` as a collection or as a filter.

## Model

| member | source | states |
|---|---|---|
| `Wrappers.Wrap` | dblayer/db.go:69 | a wrapped error is the context, then `": "`, then the cause, unchanged |
| `DbLayer.New` | dblayer/db.go:36-48 | fails, with "a valid mongo client must be provided", iff the client is nil; otherwise it returns a fresh layer holding the client, database name and timeout |
| `DbLayer.Layer.constructor` | dblayer/db.go:41-45 | the layer keeps the client, database name and timeout it is given |
| `DbLayer.CollectIds` | dblayer/db.go:189-197 | the conversion loop over `IdIn` returns what `ConvertIds` specifies: all converted ids, or the first conversion error |
| `DbLayer.ConvertIdsSpec` | dblayer/db.go:189-201 | conversion succeeds iff every string converts. It then yields one ObjectId value per string, in input order. Otherwise it fails with the error of the first string that does not convert |
| `DbLayer.FilterIdFailure` | dblayer/db.go:191-195 | if some `IdIn` string fails to convert and all before it convert, the whole compilation fails with that error, so no partial document is returned |
| `DbLayer.BuildFilterFromRequest` | dblayer/db.go:181-251 | a nil filter gives "Search criteria must be provided"; otherwise the document appended step by step equals `CompileFilter` |
| `DbLayer.FilterClauseKeys` | dblayer/db.go:182-250 | a compiled filter's keys are exactly those of `_id`, `value`, `name`, `brand`, `expiry`, `createdAt` whose source fields are set, in that order, with no key twice |
| `DbLayer.FilterClauseValues` | dblayer/db.go:188-248 | every clause holds the intended value: `{$in: ids}` with the converted ids, a range for value, expiry and createdAt, the regex `".*" + NameContains + ".*"` with empty options, and the exact `BrandEqual` string |
| `DbLayer.BoundsShape` | dblayer/db.go:205-247 | a range sub-document has `$gte` iff the lower bound is set and `$lte` iff the upper bound is set, `$gte` first, each holding its bound |
| `DbLayer.EmptyFilterCompilesToEmptyDoc` | dblayer/db.go:182-250 | a filter with no field set compiles to the empty document |
| `DbLayer.Layer.SearchFromRequest` | dblayer/db.go:173-179 | a compile error is returned unchanged and no query is issued; otherwise exactly one `Find` with the compiled filter is issued |
| `DbLayer.CollectSetFields` | dblayer/db.go:86-99 | the fields appended for one coupon are `SetFields` of it |
| `DbLayer.SetFieldsKeys` | dblayer/db.go:86-99 | `$set` holds name iff non-empty, brand iff non-empty, value iff positive, expiry iff non-zero, in that order |
| `DbLayer.SetFieldsValues` | dblayer/db.go:86-99 | each `$set` field carries the coupon's own name, brand, value or expiry |
| `DbLayer.SetFieldsEmpty` | dblayer/db.go:86-113 | `$set` is empty iff no field qualifies, and then the update still carries `$currentDate {lastModified: true}` |
| `DbLayer.UpdateDocKeys` | dblayer/db.go:107-112 | every update document is `$set` followed by `$currentDate` |
| `DbLayer.Layer.UpdateCoupons` | dblayer/db.go:78-126 | coupon j is updated by the j-th `UpdateOne`, matched by the literal `{"item": "paper"}` whatever its id. The count is the sum of the modified counts of the updates done. On the first store error the loop stops there and returns the count so far and the wrapped error |
| `DbLayer.SumModifiedBound` | dblayer/db.go:121 | when no update modifies more than one document, the running count is at most the number of updates |
| `DbLayer.UpdatedCountBound` | dblayer/db.go:83-124 | under that condition the returned count never exceeds the number of coupons |
| `DbLayer.Layer.CreateCoupons` | dblayer/db.go:50-76 | exactly one `InsertMany` is issued, into the coupons collection, with `InsertDocs` of the input. A store error comes back wrapped as "failed to write new coupons to the db"; otherwise the inserted ids are returned |
| `DbLayer.InsertDocsShape` | dblayer/db.go:55-65 | there is one document per coupon, in order. Each has exactly the keys name, brand, value, expiry and createdAt, copied from the coupon, with createdAt from the clock. It never has an `_id` |
| `DbLayer.Layer.FindByIds` | dblayer/db.go:128-136 | exactly one `Find` is issued, with `{_id: {$in: ids}}` holding the ids in input order |
| `DbLayer.Layer.FindManyWithFilter` | dblayer/db.go:138-171 | exactly one `Find` with the given filter is issued on the coupons collection, and its outcome stays consistent with the store |
| `Mongo.Client.InsertMany` | dblayer/db.go:67 | the reply is the store's answer to the history so far, and the call is recorded |
| `Mongo.Client.UpdateOne` | dblayer/db.go:102-113 | the reply is the store's answer to the history so far, and the call is recorded |
| `Mongo.Client.Find` | dblayer/db.go:143 | the reply is the store's answer to the history so far, and the call is recorded |
| `Mongo.Client.ConsistentMeans` | dblayer/db.go:67-143 | the driver transcript of the layer's `InsertMany` (line 67), `UpdateOne` (lines 102-113) and `Find` (line 143) calls is consistent iff every logged reply is the store's answer to the calls before it |
| `DbPort.Port.CreateCoupons` | dblayer/db.go:24 | the reply is the implementation's answer to the history and the coupons, and the call is recorded |
| `DbPort.Port.UpdateCoupons` | dblayer/db.go:25 | the count and error are the implementation's answer, and the call is recorded |
| `DbPort.Port.FindByIds` | dblayer/db.go:26 | the reply is the implementation's answer to the history and the ids, and the call is recorded |
| `DbPort.Port.SearchFromRequest` | dblayer/db.go:27 | the reply is the implementation's answer to the history and the filter, and the call is recorded |
| `Validation.ValidateOneForInsert` | couponservice/validation.go:47-78 | the errors are `InsertErrors` of the coupon, and success holds iff there are none |
| `Validation.InsertErrorsOrder` | couponservice/validation.go:53-77 | there is one message per violated rule, in the order name, brand, value, expiry |
| `Validation.ViolationsEmpty` | couponservice/validation.go:53-77 | a rule list reports nothing iff the coupon satisfies every rule |
| `Validation.ViolationsMembers` | couponservice/validation.go:53-77 | a message is reported iff some rule with that message is violated |
| `Validation.ViolationsLength` | couponservice/validation.go:53-77 | a rule list reports at most one message per rule |
| `Validation.ErrorBounds` | couponservice/validation.go:47-105 | insert validation gives at most 4 messages, and update validation at most 3 |
| `Validation.NilCouponErrors` | couponservice/validation.go:49-51 | a nil coupon gives exactly the one "coupon data needs to be provided" message, in both validators |
| `Validation.ZeroValue` | couponservice/validation.go:66-69 | a zero value is rejected on insert and accepted on update |
| `Validation.ExpiryThreshold` | couponservice/validation.go:71-75 | the expiry rule holds iff the expiry is not before 2010-01-01T00:00:00Z |
| `Validation.ExpiryBoundary` | couponservice/validation.go:71-75 | an expiry exactly at the threshold is accepted; one nanosecond before it, and the zero time, are rejected |
| `Validation.ValidateOneForUpdate` | couponservice/validation.go:81-105 | the errors are `UpdateErrors` of the coupon, and ok holds iff there are none |
| `Validation.UpdateErrorsOrder` | couponservice/validation.go:87-104 | the messages are, in order: one for a zero id, one for a negative value, one for a non-zero CreatedAt |
| `Validation.UpdateIgnoresContent` | couponservice/validation.go:87-104 | update validation never looks at name, brand or expiry |
| `Validation.ValidateMany` | couponservice/validation.go:28-44 | the collected errors are `ManyErrors` of the collection, and success holds iff there are none |
| `Validation.ManyErrorsMeaning` | couponservice/validation.go:31-43 | a nil or empty collection gives exactly ["No coupon data provided"]. Otherwise there are no errors iff every item passes |
| `Validation.ItemsErrorsEmpty` | couponservice/validation.go:35-41 | the concatenated item errors are empty iff every item's list is empty |
| `Validation.ValidateManyForInsert` | couponservice/validation.go:18-20 | the batch validator is run with the insert rules |
| `Validation.ValidateManyForUpdate` | couponservice/validation.go:23-25 | the batch validator is run with the update rules |
| `Validation.ValidateCouponId` | couponservice/validation.go:107-137 | ok holds iff the id is a non-zero ObjectID, an int of at least 1, or a non-empty string. A failure gives exactly one message: "Coupon id is of unknown type" for any other type, else "Coupon id must be provided" |
| `Helpers.ParseBaseRequestOutcome` | couponservice/helpers.go:12-25 | a decoded envelope is passed on unchanged; a decode error comes back prefixed "failed to parse request" |
| `Helpers.ExtractionErrors` | couponservice/helpers.go:39-75 | extraction fails iff the request is nil or its data does not decode. The message then names the missing request, or is the "failed to parse …" prefix, `": "` and the decoder's own message. A successful decode is returned unchanged |
| `Helpers.RespondBadRequest` | couponservice/helpers.go:27-31 | exactly one entry is appended: status 400 with the single message |
| `Helpers.RespondForbidden` | couponservice/helpers.go:33-37 | exactly one entry is appended: status 403 with "Forbidden" |
| `Helpers.WriteResponse` | couponservice/helpers.go:77-85 | exactly the envelope is appended, with no status of its own |
| `Helpers.RespondWithCoupons` | couponservice/helpers.go:87-90 | an error-free envelope carrying the coupons is appended |
| `Service.AuthenticateMeaning` | couponservice/service.go:204-218 | authentication succeeds iff the request is non-nil and its key is "Valid API Key" |
| `Service.AuthenticateExamples` | couponservice/service_test.go:216-241 | "some invalid key" is refused and "Valid API Key" accepted |
| `Service.CouponService.constructor` | couponservice/service.go:19-24 | the service holds its port, timeout, listening port and debug flag |
| `Service.CouponService.HandleCouponsRequest` | couponservice/service.go:72-96 | the port calls and the responses written are those of `RequestOutcome`: parse, authenticate, then dispatch on the method |
| `Service.CouponService.HandleListCoupons` | couponservice/service.go:98-117 | `ListOutcome` holds: one search with the extracted filter, or none after a 400. The store error is answered as a single-message envelope, or the found coupons as a result envelope |
| `Service.CouponService.HandleCreateCoupon` | couponservice/service.go:119-157 | `CreateOutcome` holds: extract, validate, `CreateCoupons`, then `FindByIds` of the inserted ids, writing what each step's outcome demands |
| `Service.CouponService.HandleUpdateCoupon` | couponservice/service.go:159-202 | `UpdateOutcome` holds: extract, validate, `UpdateCoupons`, then `FindByIds` of the input coupons' ids |
| `Service.ExtractCoupons` | couponservice/service.go:121-124 | a failed extraction writes a 400 and yields nothing; a successful one writes nothing |
| `Service.RespondWithOutcome` | couponservice/service.go:108-116 | a store error is answered as a single-message envelope, and a success as the coupons found |
| `Service.CollectCouponIds` | couponservice/service.go:188-191 | the id list holds the coupons' ids, in input order |
| `Service.ParseErrorAnsweredTwice` | couponservice/service.go:75-84 | a body that does not decode writes a 400 entry, then a 403 entry, and the port is never called |
| `Service.WrongKeyForbidden` | couponservice/service.go:81-84 | a wrong key gets only a 403, and no handler runs |
| `Service.UnknownMethodRejected` | couponservice/service.go:86-95 | an authenticated method other than GET, POST or PUT gets only "unknown request", and the port is never called |
| `Service.ListDecodeFailure` | couponservice/service.go:99-108 | a filter that does not decode gets a 400, and the search still runs with a nil filter, whose outcome is written too |
| `Service.CreateDecodeFailure` | couponservice/service.go:121-134 | coupons that do not decode get a 400 and then "No coupon data provided", with no port call |
| `Service.CreateRejectsInvalidCoupon` | couponservice/service.go:130-134 | one coupon failing insert validation means neither `CreateCoupons` nor `FindByIds` is called, and a non-empty error envelope is written |
| `Service.CreatePersistsValidBatch` | couponservice/service.go:140-155 | a valid batch is inserted as given. A `CreateCoupons` error is answered alone, without `FindByIds`; otherwise `FindByIds` gets exactly the inserted ids and its outcome is the reply |
| `Service.UpdateRejectsInvalidCoupon` | couponservice/service.go:169-173 | one coupon failing update validation means `UpdateCoupons` is not called |
| `Service.UpdateRefetchesInputIds` | couponservice/service.go:179-200 | a valid batch is updated as given. An `UpdateCoupons` error is answered alone; otherwise `FindByIds` gets the input coupons' ids, in input order |

## Left out

- `couponservice/db.go` is not part of this model. It is a stale copy of the data-access code that refers to fields `CouponService` does not have, and its filter and update code is the same text as in `dblayer/db.go`.
- The handlers are proved against the abstract `DbPort.Port`, not against `DbLayer.Layer`. There are no traits in the model, so the realisation of `dblayer.Interface` by the layer (dblayer/db.go:23-28, and the `New` at couponservice/service.go:44) is not stated as a proof. What is proved of the handlers holds for any replies, including those of the layer and of the test mock.
- Mongo driver behaviour is abstract: connection, databases, `InsertMany`, `UpdateOne`, `Find`, and cursor iteration and decoding in `findManyWithFilter`. A find reply is the list of coupons already decoded, and a cursor or decode error is part of the failure reply. Regex matching semantics are not modelled either.
- `ObjectIDFromHex` is a parameter. The model uses `Result` instead of `Option` so that its error message can be returned unchanged.
- `time.Now()` in `CreateCoupons` is the clock parameter. The parse of the RFC 3339 constant at couponservice/validation.go:71 is replaced by its value, 1262304000 seconds after the Unix epoch.
- Context timeouts (`context.WithTimeout`) and the timeout fields are carried but not used. They are time and cancellation concerns.
- Decoding: JSON decoding of the request, the coupons and the filter, and JSON encoding of responses. Decoding outcomes are inputs. A failure of `json.Marshal` in `writeResponse` (helpers.go:78-82), which would write nothing, is not modelled.
- Response details: the `Content-Type` header, the implicit 200 status, and the bytes of the HTTP body. Each entry records the status its helper sets and the envelope it writes.
- Helpers.Entry: every `WriteHeader` call is recorded, but net/http keeps only the first status of a response, and the gzip wrapper passes `WriteHeader` straight through (util/respopnseWriter.go:18-21). So where a handler writes a 400 entry and later a 403 entry (a body that does not parse), or one entry with a status and later ones without, the client receives the first status only, with every envelope in one body. The log states what the handlers write, not what the server sends.
- Logging, including the debug logging of `r.Data`, is left out. It has no effect on results.
- Plumbing: `New` in service.go (it connects to MongoDB), `ListenAndServe`, `main.go`, `config/`, and the gzip response writer.
- Service.Authenticate: it is a module function rather than a method, because `authenticate` never uses its receiver.
- DbLayer.Layer.UpdateCoupons: the count is an unbounded `nat`, so a wrap-around of the `int64` `UpdatedCnt` is not modelled. Reaching it would take more than 2^63 modified documents.
- `Coupon.Value` is a `real`. It is only compared with zero, so no floating-point rounding or NaN is modelled.
- The test `TestHandleUpdateCoupon` calls `handleListCoupons` (couponservice/service_test.go:192), so it says nothing about update behaviour and is not reflected here.
