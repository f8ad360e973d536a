/** The data-access layer (dblayer/db.go): the filter compiler, the partial
    update builder, the insert-document builder, and the persistence
    operations that drive a MongoDB client with them. */
module DbLayer {
  import opened Wrappers
  import opened Api
  import opened Bson
  import opened Mongo

  /** DB_COUPON_COLLECTION */
  const CouponCollectionName: string := "coupons"

  const NoClientMsg: string := "a valid mongo client must be provided"
  const WriteFailedMsg: string := "failed to write new coupons to the db"
  const NoCriteriaMsg: string := "Search criteria must be provided"

  /** primitive.ObjectIDFromHex, a driver function: any partial conversion
      from text to an identifier, failing with the driver's message. */
  type HexDecoder = string -> Result<ObjectId, string>

  // ---------------------------------------------------------------------
  // The filter compiler, as a specification

  /** The identifiers of `ids` converted one by one; the first string that
      does not convert makes the whole conversion fail with its error. */
  function ConvertIds(fromHex: HexDecoder, ids: seq<string>): Result<seq<Val>, string> {
    if ids == [] then Success([])
    else match fromHex(ids[0])
      case Failure(e) => Failure(e)
      case Success(oid) =>
        match ConvertIds(fromHex, ids[1..])
        case Failure(e) => Failure(e)
        case Success(rest) => Success([VObjectId(oid)] + rest)
  }

  /** The `_id` clause: present when identifiers are requested. */
  function IdClause(fromHex: HexDecoder, f: CouponFilter): Result<Doc, string> {
    if |f.idIn| > 0 then
      match ConvertIds(fromHex, f.idIn)
      case Failure(e) => Failure(e)
      case Success(ids) => Success(if |ids| > 0 then [("_id", VDoc([("$in", VArray(ids))]))] else [])
    else Success([])
  }

  /** A range sub-document: `$gte` for the lower bound, then `$lte` for the upper. */
  function Bounds(lo: Option<Val>, hi: Option<Val>): Doc {
    (if lo.Some? then [("$gte", lo.value)] else []) + (if hi.Some? then [("$lte", hi.value)] else [])
  }

  /** A range clause on `key`, present when at least one bound is set. */
  function RangeClause(key: string, lo: Option<Val>, hi: Option<Val>): Doc {
    if lo.Some? || hi.Some? then [(key, VDoc(Bounds(lo, hi)))] else []
  }

  function IntBound(b: Option<int>): Option<Val> {
    if b.Some? then Some(VInt(b.value)) else None
  }

  /** A date bound is set unless it is the zero time. */
  function TimeBound(t: Time): Option<Val> {
    if t.IsZero() then None else Some(VDateTime(t))
  }

  /** The unescaped substring pattern `.*<text>.*` with no options. */
  function NamePattern(text: string): Val {
    VRegex(".*" + text + ".*", "")
  }

  function NameClause(f: CouponFilter): Doc {
    if f.nameContains != "" then [("name", NamePattern(f.nameContains))] else []
  }

  function BrandClause(f: CouponFilter): Doc {
    if f.brandEqual != "" then [("brand", VString(f.brandEqual))] else []
  }

  function ValueClause(f: CouponFilter): Doc {
    RangeClause("value", IntBound(f.valueFrom), IntBound(f.valueTo))
  }

  function ExpiryClause(f: CouponFilter): Doc {
    RangeClause("expiry", TimeBound(f.expiryFrom), TimeBound(f.expiryTo))
  }

  function CreatedAtClause(f: CouponFilter): Doc {
    RangeClause("createdAt", TimeBound(f.createdAtFrom), TimeBound(f.createdAtTo))
  }

  /** The query document of a search request, or why there is none. */
  function CompileFilter(fromHex: HexDecoder, reqFilter: Option<CouponFilter>): Result<Doc, string> {
    match reqFilter
    case None => Failure(NoCriteriaMsg)
    case Some(f) =>
      match IdClause(fromHex, f)
      case Failure(e) => Failure(e)
      case Success(idClause) =>
        Success(idClause + ValueClause(f) + NameClause(f) + BrandClause(f) + ExpiryClause(f) + CreatedAtClause(f))
  }

  /** The keys a compiled filter may hold, in the order they are emitted. */
  const ClauseOrder: seq<string> := ["_id", "value", "name", "brand", "expiry", "createdAt"]

  /** Which source fields of `f` are set, clause by clause in `ClauseOrder`. */
  function Presence(f: CouponFilter): seq<bool> {
    [ |f.idIn| > 0,
      f.valueFrom.Some? || f.valueTo.Some?,
      f.nameContains != "",
      f.brandEqual != "",
      !f.expiryFrom.IsZero() || !f.expiryTo.IsZero(),
      !f.createdAtFrom.IsZero() || !f.createdAtTo.IsZero() ]
  }

  /** What the clause on `key` holds, given the converted identifiers `ids`. */
  function ClauseValue(f: CouponFilter, ids: seq<Val>, key: string): Val {
    if key == "_id" then VDoc([("$in", VArray(ids))])
    else if key == "value" then VDoc(Bounds(IntBound(f.valueFrom), IntBound(f.valueTo)))
    else if key == "name" then NamePattern(f.nameContains)
    else if key == "brand" then VString(f.brandEqual)
    else if key == "expiry" then VDoc(Bounds(TimeBound(f.expiryFrom), TimeBound(f.expiryTo)))
    else VDoc(Bounds(TimeBound(f.createdAtFrom), TimeBound(f.createdAtTo)))
  }

  // ---------------------------------------------------------------------
  // Properties of the filter compiler

  /** Conversion succeeds iff every string converts; it then gives one
      identifier per string, in input order; otherwise it fails with the
      error of the first string that does not convert. */
  lemma {:induction false} ConvertIdsSpec(fromHex: HexDecoder, ids: seq<string>)
    ensures ConvertIds(fromHex, ids).Success? <==> forall i | 0 <= i < |ids| :: fromHex(ids[i]).Success?
    ensures ConvertIds(fromHex, ids).Success? ==>
      var vs := ConvertIds(fromHex, ids).value;
      |vs| == |ids| && forall i | 0 <= i < |ids| :: vs[i] == VObjectId(fromHex(ids[i]).value)
    ensures ConvertIds(fromHex, ids).Failure? ==>
      exists k :: 0 <= k < |ids| && fromHex(ids[k]) == Failure(ConvertIds(fromHex, ids).error) &&
        forall j | 0 <= j < k :: fromHex(ids[j]).Success?
  {
    if ids != [] {
      ConvertIdsSpec(fromHex, ids[1..]);
      var r := ConvertIds(fromHex, ids);
      if fromHex(ids[0]).Failure? {
        assert fromHex(ids[0]) == Failure(r.error);
      } else {
        forall i | 1 <= i < |ids| ensures fromHex(ids[i]) == fromHex(ids[1..][i - 1]) {
        }
        if r.Failure? {
          var k :| 0 <= k < |ids[1..]| && fromHex(ids[1..][k]) == Failure(r.error) &&
            forall j | 0 <= j < k :: fromHex(ids[1..][j]).Success?;
          assert fromHex(ids[k + 1]) == Failure(r.error);
          assert forall j | 0 <= j < k + 1 :: fromHex(ids[j]).Success? by {
            forall j | 0 <= j < k + 1 ensures fromHex(ids[j]).Success? {
              if j > 0 { assert fromHex(ids[j]) == fromHex(ids[1..][j - 1]); }
            }
          }
        }
      }
    }
  }

  /** Converting one more string extends a successful conversion by its identifier. */
  lemma {:induction false} ConvertIdsSnoc(fromHex: HexDecoder, ids: seq<string>, x: string)
    requires ConvertIds(fromHex, ids).Success?
    ensures ConvertIds(fromHex, ids + [x]) ==
      match fromHex(x)
      case Failure(e) => Failure(e)
      case Success(oid) => Success(ConvertIds(fromHex, ids).value + [VObjectId(oid)])
  {
    if ids == [] {
      assert ids + [x] == [x] && [x][1..] == [];
      match fromHex(x)
      case Failure(e) =>
      case Success(o) =>
        var none: seq<Val> := [];
        assert ConvertIds(fromHex, [x]) == Success([VObjectId(o)] + none);
        assert ConvertIds(fromHex, ids).value == none;
        assert [VObjectId(o)] + none == none + [VObjectId(o)];
    } else {
      var oid := fromHex(ids[0]).value;
      var rest := ConvertIds(fromHex, ids[1..]).value;
      assert ConvertIds(fromHex, ids) == Success([VObjectId(oid)] + rest);
      assert (ids + [x])[0] == ids[0];
      assert (ids + [x])[1..] == ids[1..] + [x];
      ConvertIdsSnoc(fromHex, ids[1..], x);
      match fromHex(x)
      case Failure(e) =>
      case Success(o) =>
        assert ConvertIds(fromHex, ids + [x]) == Success([VObjectId(oid)] + (rest + [VObjectId(o)]));
        assert [VObjectId(oid)] + (rest + [VObjectId(o)]) == [VObjectId(oid)] + rest + [VObjectId(o)];
    }
  }

  /** A conversion that fails on a prefix fails the same way on the whole. */
  lemma {:induction false} ConvertIdsPrefixFailure(fromHex: HexDecoder, ids: seq<string>, k: nat)
    requires k <= |ids| && ConvertIds(fromHex, ids[..k]).Failure?
    ensures ConvertIds(fromHex, ids) == ConvertIds(fromHex, ids[..k])
  {
    assert k > 0;
    if fromHex(ids[0]).Success? {
      assert ids[..k][1..] == ids[1..][..k - 1];
      ConvertIdsPrefixFailure(fromHex, ids[1..], k - 1);
    }
  }

  /** A compiled filter holds a clause for `_id`, `value`, `name`, `brand`,
      `expiry` and `createdAt` exactly when the clause's source fields are
      set, each at most once and in exactly that order. */
  lemma FilterClauseKeys(fromHex: HexDecoder, f: CouponFilter, doc: Doc)
    requires CompileFilter(fromHex, Some(f)) == Success(doc)
    ensures Keys(doc) == Chosen(ClauseOrder, Presence(f))
    ensures NoDuplicates(Keys(doc))
  {
    CompiledKeys(fromHex, f, doc);
    ChosenClauseOrder(Presence(f));
    ChosenNoDuplicates(ClauseOrder, Presence(f));
  }

  lemma CompiledKeys(fromHex: HexDecoder, f: CouponFilter, doc: Doc)
    requires CompileFilter(fromHex, Some(f)) == Success(doc)
    ensures Keys(doc) == Pick("_id", Presence(f)[0]) + Pick("value", Presence(f)[1]) + Pick("name", Presence(f)[2]) +
      Pick("brand", Presence(f)[3]) + Pick("expiry", Presence(f)[4]) + Pick("createdAt", Presence(f)[5])
  {
    IdClauseKeys(fromHex, f);
    OptionalClauseKeys(f);
    var idc := IdClause(fromHex, f).value;
    assert doc == idc + ValueClause(f) + NameClause(f) + BrandClause(f) + ExpiryClause(f) + CreatedAtClause(f);
    KeysOfSix(idc, ValueClause(f), NameClause(f), BrandClause(f), ExpiryClause(f), CreatedAtClause(f));
  }

  lemma ChosenClauseOrder(p: seq<bool>)
    requires |p| == 6
    ensures Chosen(ClauseOrder, p) == Pick("_id", p[0]) + Pick("value", p[1]) + Pick("name", p[2]) +
      Pick("brand", p[3]) + Pick("expiry", p[4]) + Pick("createdAt", p[5])
  {
    ChosenOfSix(ClauseOrder, p);
  }

  lemma ChosenOfSix(ks: seq<string>, p: seq<bool>)
    requires |ks| == 6 && |p| == 6
    ensures Chosen(ks, p) == Pick(ks[0], p[0]) + Pick(ks[1], p[1]) + Pick(ks[2], p[2]) +
      Pick(ks[3], p[3]) + Pick(ks[4], p[4]) + Pick(ks[5], p[5])
  {
    ChosenOfThree(ks[0], ks[1], ks[2], p[0], p[1], p[2]);
    ChosenOfThree(ks[3], ks[4], ks[5], p[3], p[4], p[5]);
    assert ks == [ks[0], ks[1], ks[2]] + [ks[3], ks[4], ks[5]];
    assert p == [p[0], p[1], p[2]] + [p[3], p[4], p[5]];
    ChosenAppend([ks[0], ks[1], ks[2]], [p[0], p[1], p[2]], [ks[3], ks[4], ks[5]], [p[3], p[4], p[5]]);
    ConcatSix(Pick(ks[0], p[0]), Pick(ks[1], p[1]), Pick(ks[2], p[2]),
              Pick(ks[3], p[3]), Pick(ks[4], p[4]), Pick(ks[5], p[5]));
  }

  lemma IdClauseKeys(fromHex: HexDecoder, f: CouponFilter)
    requires IdClause(fromHex, f).Success?
    ensures Keys(IdClause(fromHex, f).value) == Pick("_id", Presence(f)[0])
  {
    ConvertIdsSpec(fromHex, f.idIn);
  }

  lemma OptionalClauseKeys(f: CouponFilter)
    ensures Keys(ValueClause(f)) == Pick("value", Presence(f)[1])
    ensures Keys(NameClause(f)) == Pick("name", Presence(f)[2])
    ensures Keys(BrandClause(f)) == Pick("brand", Presence(f)[3])
    ensures Keys(ExpiryClause(f)) == Pick("expiry", Presence(f)[4])
    ensures Keys(CreatedAtClause(f)) == Pick("createdAt", Presence(f)[5])
  {
  }

  lemma ConcatSix(x0: seq<string>, x1: seq<string>, x2: seq<string>, x3: seq<string>, x4: seq<string>, x5: seq<string>)
    ensures x0 + x1 + x2 + x3 + x4 + x5 == (x0 + (x1 + x2)) + (x3 + (x4 + x5))
  {
  }

  lemma KeysOfSix(a: Doc, b: Doc, c: Doc, d: Doc, e: Doc, g: Doc)
    ensures Keys(a + b + c + d + e + g) == Keys(a) + Keys(b) + Keys(c) + Keys(d) + Keys(e) + Keys(g)
  {
    KeysAppend(a, b);
    KeysAppend(a + b, c);
    KeysAppend(a + b + c, d);
    KeysAppend(a + b + c + d, e);
    KeysAppend(a + b + c + d + e, g);
  }

  /** Every clause of a compiled filter holds what its key calls for: the
      converted identifiers in input order, the bounds that are set, the
      unescaped name pattern, the exact brand. */
  lemma FilterClauseValues(fromHex: HexDecoder, f: CouponFilter, doc: Doc)
    requires CompileFilter(fromHex, Some(f)) == Success(doc)
    ensures ConvertIds(fromHex, f.idIn).Success?
    ensures forall e | e in doc :: e.1 == ClauseValue(f, ConvertIds(fromHex, f.idIn).value, e.0)
  {
    var idc := IdClause(fromHex, f).value;
    CompileFilterSome(fromHex, f, idc);
    if |f.idIn| == 0 {
      assert ConvertIds(fromHex, f.idIn) == Success([]);
    }
    var ids := ConvertIds(fromHex, f.idIn).value;
    assert forall e | e in idc :: e.1 == ClauseValue(f, ids, e.0);
    OptionalClauseValues(f, ids);
  }

  lemma OptionalClauseValues(f: CouponFilter, ids: seq<Val>)
    ensures forall e | e in ValueClause(f) :: e.1 == ClauseValue(f, ids, e.0)
    ensures forall e | e in NameClause(f) :: e.1 == ClauseValue(f, ids, e.0)
    ensures forall e | e in BrandClause(f) :: e.1 == ClauseValue(f, ids, e.0)
    ensures forall e | e in ExpiryClause(f) :: e.1 == ClauseValue(f, ids, e.0)
    ensures forall e | e in CreatedAtClause(f) :: e.1 == ClauseValue(f, ids, e.0)
  {
  }

  /** A range sub-document has `$gte` iff the lower bound is set and `$lte`
      iff the upper bound is set, `$gte` first, carrying the bounds. */
  lemma BoundsShape(lo: Option<Val>, hi: Option<Val>)
    ensures Keys(Bounds(lo, hi)) == Chosen(["$gte", "$lte"], [lo.Some?, hi.Some?])
    ensures forall e | e in Bounds(lo, hi) :: (e.0 == "$gte" && lo == Some(e.1)) || (e.0 == "$lte" && hi == Some(e.1))
  {
    ChosenCons("$lte", hi.Some?, [], []);
    ChosenCons("$gte", lo.Some?, ["$lte"], [hi.Some?]);
    KeysAppend(if lo.Some? then [("$gte", lo.value)] else [], if hi.Some? then [("$lte", hi.value)] else []);
  }

  /** Identifiers are converted only when some are requested; one that does
      not convert fails the whole compilation with its own error. */
  lemma FilterIdFailure(fromHex: HexDecoder, f: CouponFilter, k: nat)
    requires k < |f.idIn| && fromHex(f.idIn[k]).Failure?
    requires forall j | 0 <= j < k :: fromHex(f.idIn[j]).Success?
    ensures CompileFilter(fromHex, Some(f)) == Failure(fromHex(f.idIn[k]).error)
  {
    ConvertIdsSpec(fromHex, f.idIn);
    var r := ConvertIds(fromHex, f.idIn);
    var i :| 0 <= i < |f.idIn| && fromHex(f.idIn[i]) == Failure(r.error) &&
      forall j | 0 <= j < i :: fromHex(f.idIn[j]).Success?;
    assert i == k;
  }

  /** A filter with no field set compiles to the empty document, whatever
      the identifier conversion does. */
  lemma EmptyFilterCompilesToEmptyDoc(fromHex: HexDecoder, f: CouponFilter)
    requires f.idIn == [] && f.nameContains == "" && f.brandEqual == ""
    requires f.valueFrom.None? && f.valueTo.None?
    requires f.expiryFrom.IsZero() && f.expiryTo.IsZero() && f.createdAtFrom.IsZero() && f.createdAtTo.IsZero()
    ensures CompileFilter(fromHex, Some(f)).Success? && CompileFilter(fromHex, Some(f)).value == []
  {
  }

  // ---------------------------------------------------------------------
  // The compiler as the source runs it

  /** Converts the requested identifiers one by one, stopping at the first
      that does not convert. */
  method CollectIds(fromHex: HexDecoder, idIn: seq<string>) returns (r: Result<seq<Val>, string>)
    ensures r == ConvertIds(fromHex, idIn)
  {
    var ids: seq<Val> := [];
    var i := 0;
    while i < |idIn|
      invariant 0 <= i <= |idIn|
      invariant ConvertIds(fromHex, idIn[..i]) == Success(ids)
    {
      ConvertIdsSnoc(fromHex, idIn[..i], idIn[i]);
      assert idIn[..i] + [idIn[i]] == idIn[..i + 1];
      var objId := fromHex(idIn[i]);
      if objId.Failure? {
        ConvertIdsPrefixFailure(fromHex, idIn, i + 1);
        return Failure(objId.error);
      }
      ids := ids + [VObjectId(objId.value)];
      i := i + 1;
    }
    assert idIn[..i] == idIn;
    return Success(ids);
  }

  /** Builds a range sub-document: `$gte` first, then `$lte`. */
  method CollectBounds(lo: Option<Val>, hi: Option<Val>) returns (d: Doc)
    ensures d == Bounds(lo, hi)
  {
    d := [];
    if lo.Some? {
      d := d + [("$gte", lo.value)];
    }
    if hi.Some? {
      d := d + [("$lte", hi.value)];
    }
  }

  /** Appends the range clause on `key` when at least one bound is set; the
      value, expiry and createdAt blocks of the compiler each do this. */
  method AppendRange(filter: Doc, key: string, lo: Option<Val>, hi: Option<Val>) returns (r: Doc)
    ensures r == filter + RangeClause(key, lo, hi)
  {
    r := filter;
    if lo.Some? || hi.Some? {
      var sub := CollectBounds(lo, hi);
      r := r + [(key, VDoc(sub))];
    }
  }

  /** buildFilterFromRequest: grows the filter clause by clause. */
  method BuildFilterFromRequest(fromHex: HexDecoder, reqFilter: Option<CouponFilter>) returns (r: Result<Doc, string>)
    ensures reqFilter.None? ==> r == Failure(NoCriteriaMsg)
    ensures r == CompileFilter(fromHex, reqFilter)
  {
    var fieldsFilter: Doc := [];

    if reqFilter.None? {
      return Failure(NoCriteriaMsg);
    }
    var f := reqFilter.value;

    if |f.idIn| > 0 {
      var ids := CollectIds(fromHex, f.idIn);
      if ids.Failure? {
        return Failure(ids.error);
      }
      if |ids.value| > 0 {
        fieldsFilter := fieldsFilter + [("_id", VDoc([("$in", VArray(ids.value))]))];
      }
    }
    ghost var idc := fieldsFilter;
    assert IdClause(fromHex, f).Success? && IdClause(fromHex, f).value == idc;

    fieldsFilter := AppendRange(fieldsFilter, "value", IntBound(f.valueFrom), IntBound(f.valueTo));
    ghost var withValue := fieldsFilter;

    if f.nameContains != "" {
      fieldsFilter := fieldsFilter + [("name", NamePattern(f.nameContains))];
    }
    ghost var withName := fieldsFilter;
    assert withName == withValue + NameClause(f);

    if f.brandEqual != "" {
      fieldsFilter := fieldsFilter + [("brand", VString(f.brandEqual))];
    }
    assert fieldsFilter == withName + BrandClause(f);

    fieldsFilter := AppendRange(fieldsFilter, "expiry", TimeBound(f.expiryFrom), TimeBound(f.expiryTo));
    fieldsFilter := AppendRange(fieldsFilter, "createdAt", TimeBound(f.createdAtFrom), TimeBound(f.createdAtTo));
    CompileFilterSome(fromHex, f, idc);
    return Success(fieldsFilter);
  }

  lemma CompileFilterSome(fromHex: HexDecoder, f: CouponFilter, idc: Doc)
    requires IdClause(fromHex, f).Success? && IdClause(fromHex, f).value == idc
    ensures CompileFilter(fromHex, Some(f)) ==
      Success(idc + ValueClause(f) + NameClause(f) + BrandClause(f) + ExpiryClause(f) + CreatedAtClause(f))
  {
  }

  // ---------------------------------------------------------------------
  // The partial update builder, as a specification

  /** The `$set` fields of one coupon: name and brand when non-empty, value
      when strictly positive, expiry when not the zero time, in that order. */
  function SetFields(c: Coupon): Doc {
    (if c.name != "" then [("name", VString(c.name))] else []) +
    (if c.brand != "" then [("brand", VString(c.brand))] else []) +
    (if c.value > 0.0 then [("value", VDouble(c.value))] else []) +
    (if !c.expiry.IsZero() then [("expiry", VDateTime(c.expiry))] else [])
  }

  /** Collects the `$set` fields of one coupon, field by field. */
  method CollectSetFields(cpn: Coupon) returns (fields: Doc)
    ensures fields == SetFields(cpn)
  {
    fields := [];
    if cpn.name != "" {
      fields := fields + [("name", VString(cpn.name))];
    }
    if cpn.brand != "" {
      fields := fields + [("brand", VString(cpn.brand))];
    }
    if cpn.value > 0.0 {
      fields := fields + [("value", VDouble(cpn.value))];
    }
    if !cpn.expiry.IsZero() {
      fields := fields + [("expiry", VDateTime(cpn.expiry))];
    }
  }

  /** The server-side touch of `lastModified`, sent with every update. */
  const CurrentDate: Doc := [("lastModified", VBool(true))]

  function UpdateDoc(c: Coupon): Doc {
    [("$set", VDoc(SetFields(c))), ("$currentDate", VDoc(CurrentDate))]
  }

  /** The match document of every update: a literal, whatever the coupon. */
  const MatchDoc: Doc := [("item", VString("paper"))]

  /** `$set` holds name iff non-empty, brand iff non-empty, value iff
      positive and expiry iff non-zero, in that order. */
  lemma {:induction false} SetFieldsKeys(c: Coupon)
    ensures Keys(SetFields(c)) ==
      Pick("name", c.name != "") + Pick("brand", c.brand != "") +
      Pick("value", c.value > 0.0) + Pick("expiry", !c.expiry.IsZero())
  {
    var n := if c.name != "" then [("name", VString(c.name))] else [];
    var b := if c.brand != "" then [("brand", VString(c.brand))] else [];
    var v := if c.value > 0.0 then [("value", VDouble(c.value))] else [];
    var x := if !c.expiry.IsZero() then [("expiry", VDateTime(c.expiry))] else [];
    KeysOfOptional("name", VString(c.name), c.name != "");
    KeysOfOptional("brand", VString(c.brand), c.brand != "");
    KeysOfOptional("value", VDouble(c.value), c.value > 0.0);
    KeysOfOptional("expiry", VDateTime(c.expiry), !c.expiry.IsZero());
    KeysAppend(n, b);
    KeysAppend(n + b, v);
    KeysAppend(n + b + v, x);
  }

  /** Every `$set` field carries the coupon's own value for that field. */
  lemma SetFieldsValues(c: Coupon)
    ensures forall e | e in SetFields(c) ::
      e == ("name", VString(c.name)) || e == ("brand", VString(c.brand)) ||
      e == ("value", VDouble(c.value)) || e == ("expiry", VDateTime(c.expiry))
  {
  }

  /** Nothing is set exactly when the coupon carries no field to change; the
      update then only touches `lastModified`. */
  lemma SetFieldsEmpty(c: Coupon)
    ensures SetFields(c) == [] <==> c.name == "" && c.brand == "" && c.value <= 0.0 && c.expiry.IsZero()
    ensures SetFields(c) == [] ==> UpdateDoc(c) == [("$set", VDoc([])), ("$currentDate", VDoc([("lastModified", VBool(true))]))]
  {
  }

  /** Every update document is `$set` followed by `$currentDate`. */
  lemma UpdateDocKeys(c: Coupon)
    ensures Keys(UpdateDoc(c)) == ["$set", "$currentDate"]
  {
  }

  /** The sum of the modified counts of the updates in `t`. */
  function SumModified(t: seq<Exchange>): nat {
    if t == [] then 0 else SumModified(t[..|t| - 1]) + Modified(t[|t| - 1])
  }

  /** The modified count an exchange reports: zero unless it is a successful update. */
  function Modified(e: Exchange): nat {
    if e.UpdateOneCall? && e.modified.Success? then e.modified.value else 0
  }

  /** `e` is the update `UpdateCoupons` sends for coupon `c`. */
  ghost predicate IsUpdateOf(e: Exchange, ns: Namespace, c: Coupon) {
    e.UpdateOneCall? && e.ns == ns && e.filter == MatchDoc && e.update == UpdateDoc(c)
  }

  /** `t` updated the first `|t|` coupons, every update succeeding. */
  ghost predicate UpdatedSoFar(ns: Namespace, coupons: seq<Coupon>, t: seq<Exchange>) {
    |t| <= |coupons| && forall j | 0 <= j < |t| :: IsUpdateOf(t[j], ns, coupons[j]) && t[j].modified.Success?
  }

  /** The transcript `t` of one `UpdateCoupons` call on `coupons` and its
      outcome: one `UpdateOne` per coupon, in order, with the literal match
      document and the coupon's update document, stopping at the first
      failure; the count is the sum of the modified counts of the updates
      that succeeded, and a failure is reported wrapped. */
  ghost predicate UpdateRun(ns: Namespace, coupons: seq<Coupon>, t: seq<Exchange>, cnt: nat, err: Option<string>) {
    match err
    case None =>
      UpdatedSoFar(ns, coupons, t) && |t| == |coupons| && cnt == SumModified(t)
    case Some(msg) =>
      && 0 < |t| <= |coupons|
      && UpdatedSoFar(ns, coupons, t[..|t| - 1])
      && IsUpdateOf(t[|t| - 1], ns, coupons[|t| - 1])
      && t[|t| - 1].modified.Failure?
      && msg == Wrap(WriteFailedMsg, t[|t| - 1].modified.error)
      && cnt == SumModified(t[..|t| - 1])
  }

  lemma SumModifiedSnoc(t: seq<Exchange>, e: Exchange)
    ensures SumModified(t + [e]) == SumModified(t) + Modified(e)
  {
    assert (t + [e])[..|t|] == t;
  }

  /** One more successful update extends the run. */
  lemma UpdatedSoFarSnoc(ns: Namespace, coupons: seq<Coupon>, t: seq<Exchange>, e: Exchange)
    requires UpdatedSoFar(ns, coupons, t) && |t| < |coupons|
    requires IsUpdateOf(e, ns, coupons[|t|]) && e.modified.Success?
    ensures UpdatedSoFar(ns, coupons, t + [e])
  {
  }

  /** A failed update ends the run with the wrapped error. */
  lemma UpdateRunFailed(ns: Namespace, coupons: seq<Coupon>, t: seq<Exchange>, e: Exchange, cnt: nat)
    requires UpdatedSoFar(ns, coupons, t) && |t| < |coupons| && cnt == SumModified(t)
    requires IsUpdateOf(e, ns, coupons[|t|]) && e.modified.Failure?
    ensures UpdateRun(ns, coupons, t + [e], cnt, Some(Wrap(WriteFailedMsg, e.modified.error)))
  {
    assert (t + [e])[..|t|] == t;
  }

  /** Updating every coupon successfully ends the run without error. */
  lemma UpdateRunDone(ns: Namespace, coupons: seq<Coupon>, t: seq<Exchange>, cnt: nat)
    requires UpdatedSoFar(ns, coupons, t) && |t| == |coupons| && cnt == SumModified(t)
    ensures UpdateRun(ns, coupons, t, cnt, None)
  {
  }

  /** When the store modifies at most one document per update (as `UpdateOne`
      does), the reported count never exceeds the number of coupons. */
  lemma {:induction false} SumModifiedBound(t: seq<Exchange>)
    requires forall j | 0 <= j < |t| :: t[j].UpdateOneCall? && (t[j].modified.Success? ==> t[j].modified.value <= 1)
    ensures SumModified(t) <= |t|
  {
    if t != [] {
      SumModifiedBound(t[..|t| - 1]);
    }
  }

  lemma UpdatedCountBound(ns: Namespace, coupons: seq<Coupon>, t: seq<Exchange>, cnt: nat, err: Option<string>)
    requires UpdateRun(ns, coupons, t, cnt, err)
    requires forall j | 0 <= j < |t| :: t[j].modified.Success? ==> t[j].modified.value <= 1
    ensures cnt <= |coupons|
  {
    SumModifiedBound(t);
    if err.Some? {
      SumModifiedBound(t[..|t| - 1]);
    }
  }

  // ---------------------------------------------------------------------
  // The insert-document builder, as a specification

  /** The stored form of a new coupon: its name, brand, value and expiry,
      and the time of insertion. The identifier is left to the store. */
  function InsertDoc(c: Coupon, now: Time): MapDoc {
    map["name" := VString(c.name), "brand" := VString(c.brand), "value" := VDouble(c.value),
        "expiry" := VDateTime(c.expiry), "createdAt" := VDateTime(now)]
  }

  /** One insert document per coupon, the i-th stamped with the i-th clock reading. */
  function InsertDocs(coupons: seq<Coupon>, clock: nat -> Time): seq<MapDoc> {
    seq(|coupons|, i requires 0 <= i < |coupons| => InsertDoc(coupons[i], clock(i)))
  }

  /** Exactly one document per coupon, in order, copying name, brand, value
      and expiry, stamped by the clock, never carrying an `_id`. */
  lemma InsertDocsShape(coupons: seq<Coupon>, clock: nat -> Time)
    ensures |InsertDocs(coupons, clock)| == |coupons|
    ensures forall i | 0 <= i < |coupons| ::
      var d := InsertDocs(coupons, clock)[i];
      && d.Keys == {"name", "brand", "value", "expiry", "createdAt"}
      && "_id" !in d
      && d["name"] == VString(coupons[i].name) && d["brand"] == VString(coupons[i].brand)
      && d["value"] == VDouble(coupons[i].value) && d["expiry"] == VDateTime(coupons[i].expiry)
      && d["createdAt"] == VDateTime(clock(i))
  {
    var docs := InsertDocs(coupons, clock);
    forall i | 0 <= i < |coupons|
      ensures docs[i] == InsertDoc(coupons[i], clock(i))
    {
    }
  }

  /** The query of `FindByIds`: `{_id: {$in: ids}}`. */
  function IdsFilter(ids: seq<Val>): Doc {
    [("_id", VDoc([("$in", VArray(ids))]))]
  }

  /** The layer refuses a missing client and otherwise keeps what it is given. */
  method New(client: Client?, dbName: string, timeout: int) returns (r: Result<Layer, string>)
    ensures client == null <==> r.Failure?
    ensures r.Failure? ==> r.error == NoClientMsg
    ensures r.Success? ==> fresh(r.value) && r.value.client == client && r.value.dbName == dbName && r.value.timeout == timeout
  {
    if client == null {
      return Failure(NoClientMsg);
    }
    var db := new Layer(client, dbName, timeout);
    return Success(db);
  }

  /** The data-access layer over one client (dblayer.T). */
  class Layer {
    const client: Client
    const dbName: string
    /** The per-call timeout, in nanoseconds; it only bounds driver calls. */
    const timeout: int

    constructor (client: Client, dbName: string, timeout: int)
      ensures this.client == client && this.dbName == dbName && this.timeout == timeout
    {
      this.client := client;
      this.dbName := dbName;
      this.timeout := timeout;
    }

    /** The coupon collection of this layer's database. */
    function Coupons(): Namespace {
      Namespace(dbName, CouponCollectionName)
    }

    /** Inserts one document per coupon; a store failure comes back wrapped. */
    method CreateCoupons(coupons: seq<Coupon>, clock: nat -> Time) returns (r: Result<seq<Val>, string>)
      requires client.Valid()
      modifies client
      ensures client.Valid()
      ensures |client.log| == |old(client.log)| + 1 && old(client.log) <= client.log
      ensures var e := client.log[|old(client.log)|];
        && e.InsertManyCall?
        && e == InsertManyCall(Coupons(), InsertDocs(coupons, clock), e.inserted)
        && r == match e.inserted
                case Failure(cause) => Failure(Wrap(WriteFailedMsg, cause))
                case Success(ids) => Success(ids)
    {
      var documents: seq<MapDoc> := [];
      var i := 0;
      while i < |coupons|
        invariant 0 <= i <= |coupons|
        invariant documents == InsertDocs(coupons[..i], clock)
      {
        documents := documents + [InsertDoc(coupons[i], clock(i))];
        i := i + 1;
      }
      assert coupons[..i] == coupons;
      var res := client.InsertMany(Coupons(), documents);
      if res.Failure? {
        return Failure(Wrap(WriteFailedMsg, res.error));
      }
      return Success(res.value);
    }

    /** Updates the coupons one by one, adding up the modified counts and
        stopping at the first store failure. */
    method UpdateCoupons(coupons: seq<Coupon>) returns (updatedCnt: nat, err: Option<string>)
      requires client.Valid()
      modifies client
      ensures client.Valid()
      ensures old(client.log) <= client.log
      ensures UpdateRun(Coupons(), coupons, client.log[|old(client.log)|..], updatedCnt, err)
    {
      ghost var t: seq<Exchange> := [];
      updatedCnt := 0;
      var i := 0;
      while i < |coupons|
        invariant 0 <= i <= |coupons|
        invariant client.Valid()
        invariant client.log == old(client.log) + t && |t| == i
        invariant UpdatedSoFar(Coupons(), coupons, t)
        invariant updatedCnt == SumModified(t)
      {
        var cpn := coupons[i];
        var fields := CollectSetFields(cpn);
        var update: Doc := [("$set", VDoc(fields)), ("$currentDate", VDoc([("lastModified", VBool(true))]))];
        assert update == UpdateDoc(cpn);
        var res := client.UpdateOne(Coupons(), [("item", VString("paper"))], update);
        ghost var e := UpdateOneCall(Coupons(), MatchDoc, UpdateDoc(cpn), res);
        assert client.log == old(client.log) + (t + [e]);
        if res.Failure? {
          err := Some(Wrap(WriteFailedMsg, res.error));
          UpdateRunFailed(Coupons(), coupons, t, e, updatedCnt);
          assert client.log[|old(client.log)|..] == t + [e];
          return;
        }
        UpdatedSoFarSnoc(Coupons(), coupons, t, e);
        SumModifiedSnoc(t, e);
        t := t + [e];
        updatedCnt := updatedCnt + res.value;
        i := i + 1;
      }
      err := None;
      UpdateRunDone(Coupons(), coupons, t, updatedCnt);
      assert client.log[|old(client.log)|..] == t;
    }

    /** Runs a query and returns the decoded records, or the store's error unchanged. */
    method FindManyWithFilter(filter: Doc) returns (r: Result<seq<Coupon>, string>)
      requires client.Valid()
      modifies client
      ensures client.Valid()
      ensures client.log == old(client.log) + [FindCall(Coupons(), filter, r)]
    {
      r := client.Find(Coupons(), filter);
    }

    /** Fetches the records whose identifiers are among `ids`. */
    method FindByIds(ids: seq<Val>) returns (r: Result<seq<Coupon>, string>)
      requires client.Valid()
      modifies client
      ensures client.Valid()
      ensures client.log == old(client.log) + [FindCall(Coupons(), IdsFilter(ids), r)]
    {
      var idsBsonA: seq<Val> := [];
      var i := 0;
      while i < |ids|
        invariant 0 <= i <= |ids|
        invariant idsBsonA == ids[..i]
      {
        idsBsonA := idsBsonA + [ids[i]];
        i := i + 1;
      }
      assert idsBsonA == ids;
      r := FindManyWithFilter([("_id", VDoc([("$in", VArray(idsBsonA))]))]);
    }

    /** Compiles the filter and runs it; a compile error is returned
        unchanged and no query is issued. */
    method SearchFromRequest(fromHex: HexDecoder, reqFilter: Option<CouponFilter>) returns (r: Result<seq<Coupon>, string>)
      requires client.Valid()
      modifies client
      ensures client.Valid()
      ensures CompileFilter(fromHex, reqFilter).Failure? ==>
        client.log == old(client.log) && r == Failure(CompileFilter(fromHex, reqFilter).error)
      ensures CompileFilter(fromHex, reqFilter).Success? ==>
        client.log == old(client.log) + [FindCall(Coupons(), CompileFilter(fromHex, reqFilter).value, r)]
    {
      var dbFilter := BuildFilterFromRequest(fromHex, reqFilter);
      if dbFilter.Failure? {
        return Failure(dbFilter.error);
      }
      r := FindManyWithFilter(dbFilter.value);
    }
  }
}
