/** The persistence interface the request handlers depend on
    (dblayer.Interface). Any implementation will do: the port records every
    call with the reply it gave, and each reply is an arbitrary function of
    the calls before it and of the arguments, so what is proved of the
    handlers holds for the data-access layer and for any mock alike. */
module DbPort {
  import opened Wrappers
  import opened Api
  import opened Bson

  /** One call through the interface and its outcome. */
  datatype PortCall =
    | CreateCall(coupons: seq<Coupon>, inserted: Result<seq<Val>, string>)
    | UpdateCall(coupons: seq<Coupon>, updated: nat, failure: Option<string>)
    | FindByIdsCall(ids: seq<Val>, found: Result<seq<Coupon>, string>)
    | SearchCall(filter: Option<CouponFilter>, found: Result<seq<Coupon>, string>)

  class Port {
    /** Every call made through this port, oldest first. */
    var calls: seq<PortCall>

    /** CreateCoupons replies with the inserted identifiers (InsertedIDs). */
    const create: (seq<PortCall>, seq<Coupon>) -> Result<seq<Val>, string>
    /** UpdateCoupons replies with a count and, possibly, an error. */
    const update: (seq<PortCall>, seq<Coupon>) -> (nat, Option<string>)
    const findByIds: (seq<PortCall>, seq<Val>) -> Result<seq<Coupon>, string>
    const search: (seq<PortCall>, Option<CouponFilter>) -> Result<seq<Coupon>, string>

    constructor (
      create: (seq<PortCall>, seq<Coupon>) -> Result<seq<Val>, string>,
      update: (seq<PortCall>, seq<Coupon>) -> (nat, Option<string>),
      findByIds: (seq<PortCall>, seq<Val>) -> Result<seq<Coupon>, string>,
      search: (seq<PortCall>, Option<CouponFilter>) -> Result<seq<Coupon>, string>)
      ensures Valid() && calls == []
      ensures this.create == create && this.update == update
      ensures this.findByIds == findByIds && this.search == search
    {
      this.create := create;
      this.update := update;
      this.findByIds := findByIds;
      this.search := search;
      calls := [];
    }

    /** The outcome recorded in `c` is what the implementation gives after history `h`. */
    predicate Answered(h: seq<PortCall>, c: PortCall) {
      match c
      case CreateCall(cs, r) => r == create(h, cs)
      case UpdateCall(cs, n, e) => (n, e) == update(h, cs)
      case FindByIdsCall(ids, r) => r == findByIds(h, ids)
      case SearchCall(f, r) => r == search(h, f)
    }

    /** Every outcome recorded in `h` is the implementation's answer after the calls before it. */
    ghost predicate Consistent(h: seq<PortCall>)
      decreases |h|
    {
      h == [] || (Consistent(h[..|h| - 1]) && Answered(h[..|h| - 1], h[|h| - 1]))
    }

    ghost predicate Valid()
      reads this
    {
      Consistent(calls)
    }

    method CreateCoupons(coupons: seq<Coupon>) returns (r: Result<seq<Val>, string>)
      requires Valid()
      modifies this
      ensures Valid()
      ensures r == create(old(calls), coupons)
      ensures calls == old(calls) + [CreateCall(coupons, r)]
    {
      r := create(calls, coupons);
      Record(CreateCall(coupons, r));
    }

    method UpdateCoupons(coupons: seq<Coupon>) returns (updated: nat, failure: Option<string>)
      requires Valid()
      modifies this
      ensures Valid()
      ensures (updated, failure) == update(old(calls), coupons)
      ensures calls == old(calls) + [UpdateCall(coupons, updated, failure)]
    {
      var reply := update(calls, coupons);
      updated, failure := reply.0, reply.1;
      Record(UpdateCall(coupons, updated, failure));
    }

    method FindByIds(ids: seq<Val>) returns (r: Result<seq<Coupon>, string>)
      requires Valid()
      modifies this
      ensures Valid()
      ensures r == findByIds(old(calls), ids)
      ensures calls == old(calls) + [FindByIdsCall(ids, r)]
    {
      r := findByIds(calls, ids);
      Record(FindByIdsCall(ids, r));
    }

    method SearchFromRequest(filter: Option<CouponFilter>) returns (r: Result<seq<Coupon>, string>)
      requires Valid()
      modifies this
      ensures Valid()
      ensures r == search(old(calls), filter)
      ensures calls == old(calls) + [SearchCall(filter, r)]
    {
      r := search(calls, filter);
      Record(SearchCall(filter, r));
    }

    method Record(c: PortCall)
      requires Valid() && Answered(calls, c)
      modifies this
      ensures Valid() && calls == old(calls) + [c]
    {
      calls := calls + [c];
      assert calls[..|calls| - 1] == old(calls);
    }
  }
}
