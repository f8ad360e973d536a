/** The entities and envelopes of the service (api/api.go). */
module Api {
  import opened Wrappers

  newtype Byte = x: int | 0 <= x < 256

  /** A store identifier: twelve bytes (primitive.ObjectID). */
  type ObjectId = s: seq<Byte> | |s| == 12 witness [0, 0, 0, 0, 0, 0, 0, 0, 0, 0, 0, 0]

  /** The all-zero identifier of a coupon that has not been stored yet. */
  const NilObjectId: ObjectId := [0, 0, 0, 0, 0, 0, 0, 0, 0, 0, 0, 0]

  predicate IsZeroId(id: ObjectId) {
    id == NilObjectId
  }

  const NanosPerSecond: int := 1000000000

  /** An instant, in nanoseconds relative to 1970-01-01T00:00:00Z. Only
      `IsZero` and strict `Before` are ever asked of a time value. */
  datatype Time = Time(unixNano: int) {
    /** Go's zero time, January 1 of year 1, 00:00:00 UTC. */
    predicate IsZero() {
      this == ZeroTime
    }

    predicate Before(u: Time) {
      unixNano < u.unixNano
    }
  }

  /** 0001-01-01T00:00:00Z is 62135596800 seconds before the Unix epoch. */
  const ZeroTime: Time := Time(-62135596800 * NanosPerSecond)

  /** A coupon record; `id` and `createdAt` are zero until the store assigns them. */
  datatype Coupon = Coupon(
    id: ObjectId,
    name: string,
    brand: string,
    value: real,
    expiry: Time,
    createdAt: Time)

  /** Query-by-example criteria; every field is optional. The two value
      bounds are pointers in the source, the four dates use the zero time
      for "unset". */
  datatype CouponFilter = CouponFilter(
    idIn: seq<string>,
    nameContains: string,
    brandEqual: string,
    valueFrom: Option<int>,
    valueTo: Option<int>,
    expiryFrom: Time,
    expiryTo: Time,
    createdAtFrom: Time,
    createdAtTo: Time)

  datatype CouponCollection = CouponCollection(coupons: seq<Coupon>)

  /** The raw `data` member of a request, known by what decoding it as a
      coupon collection and as a filter yields (the JSON decoder is not
      modelled; its failures carry the decoder's message). */
  datatype RawData = RawData(
    asCoupons: Result<CouponCollection, string>,
    asFilter: Result<CouponFilter, string>)

  /** The envelope of every request: `{apiKey, data}`. */
  datatype Request = Request(apiKey: string, data: RawData)

  /** The envelope of every response: `{error?, result?}`. */
  datatype Response = Response(error: seq<string>, result: Option<seq<Coupon>>)
}
