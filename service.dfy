/** Request orchestration (couponservice/service.go): authentication,
    dispatch on the HTTP method, and the list, create and update handlers,
    each a pipeline of extract, validate, persist, re-fetch and respond over
    the persistence port and the response writer. */
module Service {
  import opened Wrappers
  import opened Api
  import opened Bson
  import opened DbPort
  import opened Helpers
  import opened Validation

  /** The one key the stub authenticator accepts. */
  const ValidApiKey: string := "Valid API Key"
  const UnknownRequestMsg: string := "unknown request"

  const MethodGet: string := "GET"
  const MethodPost: string := "POST"
  const MethodPut: string := "PUT"

  /** authenticate: a shared-secret check on the decoded envelope. */
  function Authenticate(r: Option<Request>): bool {
    if r.None? then false
    else if r.value.apiKey != ValidApiKey then false
    else true
  }

  /** A request is authenticated iff it is present and carries the valid key. */
  lemma AuthenticateMeaning(r: Option<Request>)
    ensures Authenticate(r) <==> r.Some? && r.value.apiKey == ValidApiKey
  {
  }

  /** The cases of TestAuthenticate: an invalid key is refused and the valid key accepted. */
  lemma AuthenticateExamples(data: RawData)
    ensures !Authenticate(Some(Request("some invalid key", data)))
    ensures Authenticate(Some(Request(ValidApiKey, data)))
    ensures !Authenticate(None)
  {
  }

  /** The identifiers of `cs`, in order, as the store receives them. */
  function CouponIds(cs: seq<Coupon>): seq<Val> {
    seq(|cs|, i requires 0 <= i < |cs| => VObjectId(cs[i].id))
  }

  // ---------------------------------------------------------------------
  // What each handler does, as a specification over the calls `t` it makes
  // through the port and the entries `out` it writes

  /** An extraction step: a failure is answered with a 400 and leaves
      nothing extracted, and the handler carries on. */
  function ExtractStep<T>(x: Result<T, string>): (seq<Entry>, Option<T>) {
    match x
    case Failure(e) => ([BadRequest(e)], None)
    case Success(v) => ([], Some(v))
  }

  ghost predicate ListOutcome(r: Request, t: seq<PortCall>, out: seq<Entry>) {
    var step := ExtractStep(ExtractCouponFilterFromRequest(Some(r)));
    && |t| == 1 && t[0].SearchCall? && t[0].filter == step.1
    && out == step.0 + [Reply(t[0].found)]
  }

  ghost predicate CreateOutcome(r: Request, t: seq<PortCall>, out: seq<Entry>) {
    var step := ExtractStep(ExtractCouponsFromRequest(Some(r)));
    var errs := ManyErrors(ForInsert, step.1);
    if errs != [] then
      t == [] && out == step.0 + [Entry(None, ErrorEnvelope(errs))]
    else
      && step.1.Some?
      && |t| >= 1 && t[0].CreateCall? && t[0].coupons == step.1.value.coupons
      && match t[0].inserted
         case Failure(e) => |t| == 1 && out == step.0 + [Entry(None, ErrorEnvelope([e]))]
         case Success(ids) =>
           |t| == 2 && t[1].FindByIdsCall? && t[1].ids == ids && out == step.0 + [Reply(t[1].found)]
  }

  ghost predicate UpdateOutcome(r: Request, t: seq<PortCall>, out: seq<Entry>) {
    var step := ExtractStep(ExtractCouponsFromRequest(Some(r)));
    var errs := ManyErrors(ForUpdate, step.1);
    if errs != [] then
      t == [] && out == step.0 + [Entry(None, ErrorEnvelope(errs))]
    else
      && step.1.Some?
      && |t| >= 1 && t[0].UpdateCall? && t[0].coupons == step.1.value.coupons
      && match t[0].failure
         case Some(e) => |t| == 1 && out == step.0 + [Entry(None, ErrorEnvelope([e]))]
         case None =>
           && |t| == 2 && t[1].FindByIdsCall? && t[1].ids == CouponIds(step.1.value.coupons)
           && out == step.0 + [Reply(t[1].found)]
  }

  ghost predicate RequestOutcome(hr: HttpRequest, t: seq<PortCall>, out: seq<Entry>) {
    var parsed := ParseBaseRequest(hr);
    var pre := if parsed.Failure? then [BadRequest(parsed.error)] else [];
    var base := if parsed.Success? then Some(parsed.value) else None;
    if !Authenticate(base) then
      t == [] && out == pre + [Forbidden]
    else if hr.verb == MethodGet then ListOutcome(base.value, t, out)
    else if hr.verb == MethodPost then CreateOutcome(base.value, t, out)
    else if hr.verb == MethodPut then UpdateOutcome(base.value, t, out)
    else t == [] && out == [BadRequest(UnknownRequestMsg)]
  }

  /** The extraction step of the create and update handlers. */
  method ExtractCoupons(w: ResponseRecorder, r: Request) returns (col: Option<CouponCollection>)
    modifies w
    ensures var step := ExtractStep(ExtractCouponsFromRequest(Some(r)));
      col == step.1 && w.log == old(w.log) + step.0
  {
    var extracted := ExtractCouponsFromRequest(Some(r));
    col := None;
    if extracted.Failure? {
      RespondBadRequest(w, extracted.error);
    } else {
      col := Some(extracted.value);
    }
  }

  /** A store outcome is answered with its error alone, or with the coupons found. */
  method RespondWithOutcome(w: ResponseRecorder, coupons: Result<seq<Coupon>, string>)
    modifies w
    ensures w.log == old(w.log) + [Reply(coupons)]
  {
    if coupons.Failure? {
      WriteResponse(w, Response([coupons.error], None));
    } else {
      RespondWithCoupons(w, coupons.value);
    }
  }

  /** The identifier list handleUpdateCoupon re-fetches. */
  method CollectCouponIds(cs: seq<Coupon>) returns (cpnIDs: seq<Val>)
    ensures cpnIDs == CouponIds(cs)
  {
    cpnIDs := [];
    var i := 0;
    while i < |cs|
      invariant 0 <= i <= |cs|
      invariant cpnIDs == CouponIds(cs[..i])
    {
      cpnIDs := cpnIDs + [VObjectId(cs[i].id)];
      i := i + 1;
    }
    assert cs[..i] == cs;
  }

  // ---------------------------------------------------------------------
  // The handlers as the source runs them

  class CouponService {
    const db: Port
    /** The per-request timeout, in nanoseconds; only the store uses it. */
    const timeout: int
    const port: string
    /** Turns on request logging, which is not modelled. */
    const debug: bool

    constructor (db: Port, timeout: int, port: string, debug: bool)
      ensures this.db == db && this.timeout == timeout && this.port == port && this.debug == debug
    {
      this.db := db;
      this.timeout := timeout;
      this.port := port;
      this.debug := debug;
    }

    /** handleCouponsRequest: parse, authenticate, then dispatch on the method. */
    method HandleCouponsRequest(w: ResponseRecorder, r: HttpRequest)
      requires db.Valid()
      modifies w, db
      ensures db.Valid()
      ensures old(db.calls) <= db.calls && old(w.log) <= w.log
      ensures RequestOutcome(r, db.calls[|old(db.calls)|..], w.log[|old(w.log)|..])
    {
      ghost var calls0, log0 := db.calls, w.log;
      var parsed := ParseBaseRequest(r);
      var baseRequest: Option<Request> := None;
      if parsed.Failure? {
        RespondBadRequest(w, parsed.error);
      } else {
        baseRequest := Some(parsed.value);
      }

      if !Authenticate(baseRequest) {
        RespondForbidden(w);
        assert db.calls[|calls0|..] == [];
        return;
      }
      assert w.log == log0;

      if r.verb == MethodGet {
        HandleListCoupons(w, baseRequest.value);
      } else if r.verb == MethodPost {
        HandleCreateCoupon(w, baseRequest.value);
      } else if r.verb == MethodPut {
        HandleUpdateCoupon(w, baseRequest.value);
      } else {
        RespondBadRequest(w, UnknownRequestMsg);
        assert db.calls[|calls0|..] == [];
      }
    }

    /** handleListCoupons: a filter that does not decode is answered with a
        400, and the search still runs, without criteria. */
    method HandleListCoupons(w: ResponseRecorder, r: Request)
      requires db.Valid()
      modifies w, db
      ensures db.Valid()
      ensures old(db.calls) <= db.calls && old(w.log) <= w.log
      ensures ListOutcome(r, db.calls[|old(db.calls)|..], w.log[|old(w.log)|..])
    {
      ghost var calls0, log0 := db.calls, w.log;
      var extracted := ExtractCouponFilterFromRequest(Some(r));
      var filter: Option<CouponFilter> := None;
      if extracted.Failure? {
        RespondBadRequest(w, extracted.error);
      } else {
        filter := Some(extracted.value);
      }

      var coupons := db.SearchFromRequest(filter);
      RespondWithOutcome(w, coupons);
      assert db.calls[|calls0|..] == [SearchCall(filter, coupons)];
      assert w.log[|log0|..] == ExtractStep(extracted).0 + [Reply(coupons)];
    }

    /** handleCreateCoupon: extract, validate, insert, then re-fetch what was inserted. */
    method HandleCreateCoupon(w: ResponseRecorder, r: Request)
      requires db.Valid()
      modifies w, db
      ensures db.Valid()
      ensures old(db.calls) <= db.calls && old(w.log) <= w.log
      ensures CreateOutcome(r, db.calls[|old(db.calls)|..], w.log[|old(w.log)|..])
    {
      ghost var calls0, log0 := db.calls, w.log;
      var cpnCollection := ExtractCoupons(w, r);
      ghost var pre := w.log[|log0|..];

      var validationSuccess, errors := ValidateManyForInsert(cpnCollection);
      if !validationSuccess {
        WriteResponse(w, Response(errors, None));
        assert w.log[|log0|..] == pre + [Entry(None, ErrorEnvelope(errors))];
        assert db.calls[|calls0|..] == [];
        return;
      }
      assert cpnCollection.Some?;

      var res := db.CreateCoupons(cpnCollection.value.coupons);
      if res.Failure? {
        WriteResponse(w, Response([res.error], None));
        assert w.log[|log0|..] == pre + [Entry(None, ErrorEnvelope([res.error]))];
        assert db.calls[|calls0|..] == [CreateCall(cpnCollection.value.coupons, res)];
        return;
      }

      var coupons := db.FindByIds(res.value);
      RespondWithOutcome(w, coupons);
      assert w.log[|log0|..] == pre + [Reply(coupons)];
      assert db.calls[|calls0|..] == [CreateCall(cpnCollection.value.coupons, res), FindByIdsCall(res.value, coupons)];
    }

    /** handleUpdateCoupon: extract, validate, update, then re-fetch the
        input coupons by their identifiers. */
    method HandleUpdateCoupon(w: ResponseRecorder, r: Request)
      requires db.Valid()
      modifies w, db
      ensures db.Valid()
      ensures old(db.calls) <= db.calls && old(w.log) <= w.log
      ensures UpdateOutcome(r, db.calls[|old(db.calls)|..], w.log[|old(w.log)|..])
    {
      ghost var calls0, log0 := db.calls, w.log;
      var cpnCollection := ExtractCoupons(w, r);
      ghost var pre := w.log[|log0|..];

      var validationSuccess, errors := ValidateManyForUpdate(cpnCollection);
      if !validationSuccess {
        WriteResponse(w, Response(errors, None));
        assert w.log[|log0|..] == pre + [Entry(None, ErrorEnvelope(errors))];
        assert db.calls[|calls0|..] == [];
        return;
      }
      assert cpnCollection.Some?;
      var cs := cpnCollection.value.coupons;

      var updCount, err := db.UpdateCoupons(cs);
      if err.Some? {
        WriteResponse(w, Response([err.value], None));
        assert w.log[|log0|..] == pre + [Entry(None, ErrorEnvelope([err.value]))];
        assert db.calls[|calls0|..] == [UpdateCall(cs, updCount, err)];
        return;
      }

      var cpnIDs := CollectCouponIds(cs);

      var coupons := db.FindByIds(cpnIDs);
      RespondWithOutcome(w, coupons);
      assert w.log[|log0|..] == pre + [Reply(coupons)];
      assert db.calls[|calls0|..] == [UpdateCall(cs, updCount, err), FindByIdsCall(cpnIDs, coupons)];
    }
  }

  // ---------------------------------------------------------------------
  // Consequences of the specification

  /** A body that does not decode is answered with a 400 and then, since a
      missing envelope never authenticates, with a 403; no handler runs. */
  lemma ParseErrorAnsweredTwice(hr: HttpRequest, t: seq<PortCall>, out: seq<Entry>)
    requires RequestOutcome(hr, t, out) && hr.body.Failure?
    ensures t == []
    ensures out == [BadRequest(Wrap(ParseRequestMsg, hr.body.error)), Forbidden]
  {
  }

  /** A decoded envelope without the valid key is refused, and nothing else happens. */
  lemma WrongKeyForbidden(hr: HttpRequest, t: seq<PortCall>, out: seq<Entry>)
    requires RequestOutcome(hr, t, out) && hr.body.Success? && hr.body.value.apiKey != ValidApiKey
    ensures t == [] && out == [Forbidden]
  {
  }

  /** An authenticated request with a method other than GET, POST and PUT
      is answered "unknown request" and reaches no handler. */
  lemma UnknownMethodRejected(hr: HttpRequest, t: seq<PortCall>, out: seq<Entry>)
    requires RequestOutcome(hr, t, out) && hr.body.Success? && hr.body.value.apiKey == ValidApiKey
    requires hr.verb != MethodGet && hr.verb != MethodPost && hr.verb != MethodPut
    ensures t == [] && out == [BadRequest(UnknownRequestMsg)]
  {
  }

  /** A filter that does not decode gives a 400 and a search without
      criteria, whose outcome is then written as well. */
  lemma ListDecodeFailure(r: Request, t: seq<PortCall>, out: seq<Entry>)
    requires ListOutcome(r, t, out) && r.data.asFilter.Failure?
    ensures t == [SearchCall(None, t[0].found)]
    ensures out == [BadRequest(Wrap(ParseFilterMsg, r.data.asFilter.error)), Reply(t[0].found)]
  {
  }

  /** Coupons that do not decode give a 400, then the "No coupon data
      provided" envelope of the validator, and no store call. */
  lemma CreateDecodeFailure(r: Request, t: seq<PortCall>, out: seq<Entry>)
    requires CreateOutcome(r, t, out) && r.data.asCoupons.Failure?
    ensures t == []
    ensures out == [BadRequest(Wrap(ParseCouponsMsg, r.data.asCoupons.error)), Entry(None, ErrorEnvelope([NoDataMsg]))]
  {
  }

  /** One coupon that fails insert validation keeps the whole batch from
      the store: neither CreateCoupons nor FindByIds is called, and its
      messages are among those written. */
  lemma CreateRejectsInvalidCoupon(r: Request, t: seq<PortCall>, out: seq<Entry>, k: nat)
    requires CreateOutcome(r, t, out) && r.data.asCoupons.Success?
    requires k < |r.data.asCoupons.value.coupons| && InsertErrors(Some(r.data.asCoupons.value.coupons[k])) != []
    ensures t == [] && |out| == 1 && out[0].status.None? && out[0].body.error != []
  {
    ManyErrorsMeaning(ForInsert, Some(r.data.asCoupons.value));
  }

  /** A batch that passes validation is inserted as given, and on success
      exactly the inserted identifiers are re-fetched. */
  lemma CreatePersistsValidBatch(r: Request, t: seq<PortCall>, out: seq<Entry>)
    requires CreateOutcome(r, t, out) && r.data.asCoupons.Success?
    requires var cs := r.data.asCoupons.value.coupons;
      |cs| > 0 && forall i | 0 <= i < |cs| :: InsertErrors(Some(cs[i])) == []
    ensures |t| >= 1 && t[0] == CreateCall(r.data.asCoupons.value.coupons, t[0].inserted)
    ensures t[0].inserted.Failure? ==> t == [t[0]] && out == [Entry(None, ErrorEnvelope([t[0].inserted.error]))]
    ensures t[0].inserted.Success? ==> t == [t[0], FindByIdsCall(t[0].inserted.value, t[1].found)] && out == [Reply(t[1].found)]
  {
    ManyErrorsMeaning(ForInsert, Some(r.data.asCoupons.value));
  }

  /** A batch that passes update validation is updated as given; on
      success the input coupons' identifiers are re-fetched in input order. */
  lemma UpdateRefetchesInputIds(r: Request, t: seq<PortCall>, out: seq<Entry>)
    requires UpdateOutcome(r, t, out) && r.data.asCoupons.Success?
    requires var cs := r.data.asCoupons.value.coupons;
      |cs| > 0 && forall i | 0 <= i < |cs| :: UpdateErrors(Some(cs[i])) == []
    ensures |t| >= 1 && t[0] == UpdateCall(r.data.asCoupons.value.coupons, t[0].updated, t[0].failure)
    ensures t[0].failure.Some? ==> t == [t[0]] && out == [Entry(None, ErrorEnvelope([t[0].failure.value]))]
    ensures t[0].failure.None? ==>
      && |t| == 2 && |t[1].ids| == |r.data.asCoupons.value.coupons|
      && (forall i | 0 <= i < |t[1].ids| :: t[1].ids[i] == VObjectId(r.data.asCoupons.value.coupons[i].id))
      && out == [Reply(t[1].found)]
  {
    ManyErrorsMeaning(ForUpdate, Some(r.data.asCoupons.value));
  }

  /** One coupon that fails update validation keeps the whole batch from the store. */
  lemma UpdateRejectsInvalidCoupon(r: Request, t: seq<PortCall>, out: seq<Entry>, k: nat)
    requires UpdateOutcome(r, t, out) && r.data.asCoupons.Success?
    requires k < |r.data.asCoupons.value.coupons| && UpdateErrors(Some(r.data.asCoupons.value.coupons[k])) != []
    ensures t == [] && |out| == 1 && out[0].status.None? && out[0].body.error != []
  {
    ManyErrorsMeaning(ForUpdate, Some(r.data.asCoupons.value));
  }
}
