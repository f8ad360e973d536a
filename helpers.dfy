/** The request and response helpers of the service (couponservice/helpers.go):
    decoding the request envelope and its data, and writing responses. */
module Helpers {
  import opened Wrappers
  import opened Api

  const ParseRequestMsg: string := "failed to parse request"
  const NoCouponsDataMsg: string := "Coupons data must be provided"
  const ParseCouponsMsg: string := "failed to parse coupons request"
  const NoRequestDataMsg: string := "Request data must be provided"
  const ParseFilterMsg: string := "failed to parse filter from the request"
  const ForbiddenMsg: string := "Forbidden"

  const StatusBadRequest: int := 400
  const StatusForbidden: int := 403

  /** An incoming HTTP request: its method (`verb`), and what decoding its body as a
      request envelope yields. */
  datatype HttpRequest = HttpRequest(verb: string, body: Result<Request, string>)

  /** One response written: the status set before it, if any, and the envelope. */
  datatype Entry = Entry(status: Option<int>, body: Response)

  /** A response envelope carrying only errors. */
  function ErrorEnvelope(errors: seq<string>): Response {
    Response(errors, None)
  }

  /** The entry `respondBadRequest` writes. */
  function BadRequest(msg: string): Entry {
    Entry(Some(StatusBadRequest), ErrorEnvelope([msg]))
  }

  /** The entry `respondForbidden` writes. */
  const Forbidden: Entry := Entry(Some(StatusForbidden), ErrorEnvelope([ForbiddenMsg]))

  /** The entry a store outcome is answered with: a single-message error
      envelope, or the found coupons. */
  function Reply(found: Result<seq<Coupon>, string>): Entry {
    match found
    case Failure(e) => Entry(None, ErrorEnvelope([e]))
    case Success(cs) => Entry(None, Response([], Some(cs)))
  }

  /** The response writer: every response written to it, in order. */
  class ResponseRecorder {
    var log: seq<Entry>

    constructor ()
      ensures log == []
    {
      log := [];
    }

    method Write(e: Entry)
      modifies this
      ensures log == old(log) + [e]
    {
      log := log + [e];
    }
  }

  /** parseBaseRequest: a decoding error comes back wrapped. */
  function ParseBaseRequest(r: HttpRequest): Result<Request, string> {
    match r.body
    case Failure(e) => Failure(Wrap(ParseRequestMsg, e))
    case Success(req) => Success(req)
  }

  /** extractCouponsFromRequest */
  function ExtractCouponsFromRequest(r: Option<Request>): Result<CouponCollection, string> {
    if r.None? then Failure(NoCouponsDataMsg)
    else match r.value.data.asCoupons
      case Failure(e) => Failure(Wrap(ParseCouponsMsg, e))
      case Success(col) => Success(col)
  }

  /** extractCouponFilterFromRequest */
  function ExtractCouponFilterFromRequest(r: Option<Request>): Result<CouponFilter, string> {
    if r.None? then Failure(NoRequestDataMsg)
    else match r.value.data.asFilter
      case Failure(e) => Failure(Wrap(ParseFilterMsg, e))
      case Success(f) => Success(f)
  }

  /** Every extraction failure names its cause: a missing request, or the
      decoder's message prefixed by what was being decoded; a successful
      decode is passed on unchanged. */
  lemma ExtractionErrors(r: Option<Request>)
    ensures ExtractCouponsFromRequest(r).Failure? <==> r.None? || r.value.data.asCoupons.Failure?
    ensures ExtractCouponsFromRequest(r).Failure? && r.Some? ==>
      ExtractCouponsFromRequest(r).error[..|ParseCouponsMsg|] == ParseCouponsMsg
    ensures ExtractCouponFilterFromRequest(r).Failure? <==> r.None? || r.value.data.asFilter.Failure?
    ensures ExtractCouponFilterFromRequest(r).Failure? && r.Some? ==>
      ExtractCouponFilterFromRequest(r).error[..|ParseFilterMsg|] == ParseFilterMsg
    ensures r.None? ==> ExtractCouponsFromRequest(r) == Failure(NoCouponsDataMsg)
    ensures r.None? ==> ExtractCouponFilterFromRequest(r) == Failure(NoRequestDataMsg)
    ensures r.Some? && r.value.data.asCoupons.Failure? ==>
      ExtractCouponsFromRequest(r).error[|ParseCouponsMsg| + 2..] == r.value.data.asCoupons.error
    ensures r.Some? && r.value.data.asFilter.Failure? ==>
      ExtractCouponFilterFromRequest(r).error[|ParseFilterMsg| + 2..] == r.value.data.asFilter.error
    ensures r.Some? && r.value.data.asCoupons.Success? ==>
      ExtractCouponsFromRequest(r) == Success(r.value.data.asCoupons.value)
    ensures r.Some? && r.value.data.asFilter.Success? ==>
      ExtractCouponFilterFromRequest(r) == Success(r.value.data.asFilter.value)
  {
  }

  /** A decoded envelope is passed on unchanged; a decoding failure is
      reported with the "failed to parse request" prefix and the decoder's
      message after it. */
  lemma ParseBaseRequestOutcome(r: HttpRequest)
    ensures ParseBaseRequest(r).Success? <==> r.body.Success?
    ensures r.body.Success? ==> ParseBaseRequest(r).value == r.body.value
    ensures r.body.Failure? ==>
      var msg := ParseBaseRequest(r).error;
      msg[..|ParseRequestMsg|] == ParseRequestMsg && msg[|ParseRequestMsg| + 2..] == r.body.error
  {
  }

  /** respondBadRequest: status 400 and a single-message error envelope. */
  method RespondBadRequest(w: ResponseRecorder, msg: string)
    modifies w
    ensures w.log == old(w.log) + [BadRequest(msg)]
  {
    w.Write(Entry(Some(StatusBadRequest), Response([msg], None)));
  }

  /** respondForbidden: status 403 and the "Forbidden" envelope. */
  method RespondForbidden(w: ResponseRecorder)
    modifies w
    ensures w.log == old(w.log) + [Forbidden]
  {
    w.Write(Entry(Some(StatusForbidden), Response([ForbiddenMsg], None)));
  }

  /** writeResponse: the envelope, with whatever status is already set. */
  method WriteResponse(w: ResponseRecorder, respObj: Response)
    modifies w
    ensures w.log == old(w.log) + [Entry(None, respObj)]
  {
    w.Write(Entry(None, respObj));
  }

  /** respondWithCoupons: a result envelope without errors. */
  method RespondWithCoupons(w: ResponseRecorder, coupons: seq<Coupon>)
    modifies w
    ensures w.log == old(w.log) + [Reply(Success(coupons))]
  {
    WriteResponse(w, Response([], Some(coupons)));
  }
}
