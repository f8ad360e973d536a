/** The validation gate (couponservice/validation.go): per-coupon rules for
    inserts and updates, the batch validator that runs one of them over a
    collection, and the identifier validator. */
module Validation {
  import opened Wrappers
  import opened Api

  const NilInsertMsg: string := "ValidateNewCoupon: coupon data needs to be provided"
  const NameMsg: string := "ValidateNewCoupon: Coupon name must be provided"
  const BrandMsg: string := "ValidateNewCoupon: Coupon brand must be provided"
  const InsertValueMsg: string := "ValidateNewCoupon: A positive coupon value must be provided"
  const ExpiryMsg: string := "ValidateNewCoupon: Coupon expiry date must be after " + MinExpiryText

  const NilUpdateMsg: string := "ValidateUpdateCoupon: coupon data needs to be provided"
  const IdMsg: string := "ValidateUpdateCoupon: Coupon id must be provided"
  const UpdateValueMsg: string := "ValidateUpdateCoupon: A positive coupon value must be provided"
  const CreatedAtMsg: string := "ValidateUpdateCoupon: CreatedAt is a read-only field"
  const UnknownIdTypeMsg: string := "ValidateUpdateCoupon: Coupon id is of unknown type"

  const NoDataMsg: string := "No coupon data provided"

  /** COUPON_MIN_EXPIRY_DATE, an RFC 3339 date-time (section 5.6 of RFC 3339). */
  const MinExpiryText: string := "2010-01-01T00:00:00Z"

  /** The instant `MinExpiryText` denotes: 1262304000 seconds after the Unix epoch. */
  const MinExpiry: Time := Time(1262304000 * NanosPerSecond)

  // ---------------------------------------------------------------------
  // The rules, as a specification

  /** One check a validator makes; the first four guard inserts, the last
      three guard updates. */
  datatype Rule =
    | NameRequired
    | BrandRequired
    | PositiveValue
    | ExpiryAfterMinimum
    | IdRequired
    | NonNegativeValue
    | CreatedAtReadOnly

  const InsertRules: seq<Rule> := [NameRequired, BrandRequired, PositiveValue, ExpiryAfterMinimum]
  const UpdateRules: seq<Rule> := [IdRequired, NonNegativeValue, CreatedAtReadOnly]

  /** Whether coupon `c` satisfies `rule`. */
  predicate Holds(rule: Rule, c: Coupon) {
    match rule
    case NameRequired => c.name != ""
    case BrandRequired => c.brand != ""
    case PositiveValue => c.value > 0.0
    case ExpiryAfterMinimum => !(c.expiry.IsZero() || c.expiry.Before(MinExpiry))
    case IdRequired => !IsZeroId(c.id)
    case NonNegativeValue => !(c.value < 0.0)
    case CreatedAtReadOnly => c.createdAt.IsZero()
  }

  /** The message reported when `rule` is violated. */
  function Message(rule: Rule): string {
    match rule
    case NameRequired => NameMsg
    case BrandRequired => BrandMsg
    case PositiveValue => InsertValueMsg
    case ExpiryAfterMinimum => ExpiryMsg
    case IdRequired => IdMsg
    case NonNegativeValue => UpdateValueMsg
    case CreatedAtReadOnly => CreatedAtMsg
  }

  /** The optional message of one rule. */
  function Report(b: bool, m: string): seq<string> {
    if b then [] else [m]
  }

  /** The messages of the rules of `rules` that `c` violates, in rule order. */
  function Violations(rules: seq<Rule>, c: Coupon): seq<string> {
    if rules == [] then [] else Report(Holds(rules[0], c), Message(rules[0])) + Violations(rules[1..], c)
  }

  /** What the insert validator reports for a possibly missing coupon. */
  function InsertErrors(cpn: Option<Coupon>): seq<string> {
    match cpn
    case None => [NilInsertMsg]
    case Some(c) => Violations(InsertRules, c)
  }

  /** What the update validator reports for a possibly missing coupon. */
  function UpdateErrors(cpn: Option<Coupon>): seq<string> {
    match cpn
    case None => [NilUpdateMsg]
    case Some(c) => Violations(UpdateRules, c)
  }

  // ---------------------------------------------------------------------
  // Properties of the rules

  /** No message is reported iff every rule holds. */
  lemma {:induction false} ViolationsEmpty(rules: seq<Rule>, c: Coupon)
    ensures Violations(rules, c) == [] <==> forall i | 0 <= i < |rules| :: Holds(rules[i], c)
  {
    if rules != [] {
      ViolationsEmpty(rules[1..], c);
      assert forall i | 1 <= i < |rules| :: rules[i] == rules[1..][i - 1];
    }
  }

  /** At most one message per rule. */
  lemma {:induction false} ViolationsLength(rules: seq<Rule>, c: Coupon)
    ensures |Violations(rules, c)| <= |rules|
  {
    if rules != [] {
      ViolationsLength(rules[1..], c);
    }
  }

  /** A message is reported iff some rule of the list that yields it is violated. */
  lemma {:induction false} ViolationsMembers(rules: seq<Rule>, c: Coupon, m: string)
    ensures m in Violations(rules, c) <==> exists i :: 0 <= i < |rules| && !Holds(rules[i], c) && Message(rules[i]) == m
  {
    if rules != [] {
      ViolationsMembers(rules[1..], c, m);
      if exists i :: 0 <= i < |rules[1..]| && !Holds(rules[1..][i], c) && Message(rules[1..][i]) == m {
        var i :| 0 <= i < |rules[1..]| && !Holds(rules[1..][i], c) && Message(rules[1..][i]) == m;
        assert rules[i + 1] == rules[1..][i];
      }
      if exists i :: 0 <= i < |rules| && !Holds(rules[i], c) && Message(rules[i]) == m {
        var i :| 0 <= i < |rules| && !Holds(rules[i], c) && Message(rules[i]) == m;
        if i > 0 {
          assert rules[1..][i - 1] == rules[i];
        }
      }
    }
  }

  /** Insert validation reports exactly one message per violated rule, in
      the order name, brand, value, expiry. */
  lemma InsertErrorsOrder(c: Coupon)
    ensures InsertErrors(Some(c)) ==
      Report(c.name != "", NameMsg) + Report(c.brand != "", BrandMsg) +
      Report(c.value > 0.0, InsertValueMsg) + Report(Holds(ExpiryAfterMinimum, c), ExpiryMsg)
  {
    ViolationsOfFour(NameRequired, BrandRequired, PositiveValue, ExpiryAfterMinimum, c);
  }

  /** Update validation reports exactly one message per violated rule, in
      the order id, value, createdAt. */
  lemma UpdateErrorsOrder(c: Coupon)
    ensures UpdateErrors(Some(c)) ==
      Report(!IsZeroId(c.id), IdMsg) + Report(!(c.value < 0.0), UpdateValueMsg) + Report(c.createdAt.IsZero(), CreatedAtMsg)
  {
    ViolationsOfThree(IdRequired, NonNegativeValue, CreatedAtReadOnly, c);
  }

  /** Checking one more rule first puts its message first. */
  lemma ViolationsCons(r: Rule, rules: seq<Rule>, c: Coupon)
    ensures Violations([r] + rules, c) == Report(Holds(r, c), Message(r)) + Violations(rules, c)
  {
    assert ([r] + rules)[1..] == rules;
  }

  lemma ViolationsOfThree(r0: Rule, r1: Rule, r2: Rule, c: Coupon)
    ensures Violations([r0, r1, r2], c) ==
      Report(Holds(r0, c), Message(r0)) + Report(Holds(r1, c), Message(r1)) + Report(Holds(r2, c), Message(r2))
  {
    ViolationsCons(r2, [], c);
    assert [r2] == [r2] + [];
    ViolationsCons(r1, [r2], c);
    assert [r1, r2] == [r1] + [r2];
    ViolationsCons(r0, [r1, r2], c);
    assert [r0, r1, r2] == [r0] + [r1, r2];
  }

  lemma ViolationsOfFour(r0: Rule, r1: Rule, r2: Rule, r3: Rule, c: Coupon)
    ensures Violations([r0, r1, r2, r3], c) ==
      Report(Holds(r0, c), Message(r0)) + Report(Holds(r1, c), Message(r1)) +
      Report(Holds(r2, c), Message(r2)) + Report(Holds(r3, c), Message(r3))
  {
    ViolationsOfThree(r1, r2, r3, c);
    ViolationsCons(r0, [r1, r2, r3], c);
    assert [r0, r1, r2, r3] == [r0] + [r1, r2, r3];
    Reassociate(Report(Holds(r0, c), Message(r0)), Report(Holds(r1, c), Message(r1)),
                Report(Holds(r2, c), Message(r2)), Report(Holds(r3, c), Message(r3)));
  }

  lemma Reassociate(a: seq<string>, b: seq<string>, c: seq<string>, d: seq<string>)
    ensures a + (b + c + d) == a + b + c + d
  {
  }

  /** At most four insert messages and at most three update messages. */
  lemma ErrorBounds(cpn: Option<Coupon>)
    ensures |InsertErrors(cpn)| <= 4 && |UpdateErrors(cpn)| <= 3
  {
    if cpn.Some? {
      ViolationsLength(InsertRules, cpn.value);
      ViolationsLength(UpdateRules, cpn.value);
    }
  }

  /** A missing coupon gets exactly the one "coupon data needs to be
      provided" message from either validator. */
  lemma NilCouponErrors()
    ensures InsertErrors(None) == [NilInsertMsg] && UpdateErrors(None) == [NilUpdateMsg]
  {
  }

  /** A value of exactly zero passes update validation but not insert validation. */
  lemma ZeroValue(c: Coupon)
    requires c.value == 0.0
    ensures InsertValueMsg in InsertErrors(Some(c))
    ensures UpdateValueMsg !in UpdateErrors(Some(c))
  {
    InsertErrorsOrder(c);
    UpdateErrorsOrder(c);
  }

  /** An expiry passes iff it is not before the threshold: the zero time
      is long before it, so it fails too. */
  lemma ExpiryThreshold(c: Coupon)
    ensures Holds(ExpiryAfterMinimum, c) <==> c.expiry.unixNano >= MinExpiry.unixNano
  {
  }

  /** The threshold itself is accepted and the instant before it is not. */
  lemma ExpiryBoundary(c: Coupon)
    ensures Holds(ExpiryAfterMinimum, c.(expiry := MinExpiry))
    ensures !Holds(ExpiryAfterMinimum, c.(expiry := Time(MinExpiry.unixNano - 1)))
    ensures !Holds(ExpiryAfterMinimum, c.(expiry := ZeroTime))
  {
  }

  /** Update validation never looks at name, brand or expiry. */
  lemma UpdateIgnoresContent(c: Coupon, d: Coupon)
    requires c.id == d.id && c.value == d.value && c.createdAt == d.createdAt
    ensures UpdateErrors(Some(c)) == UpdateErrors(Some(d))
  {
    UpdateErrorsOrder(c);
    UpdateErrorsOrder(d);
  }

  // ---------------------------------------------------------------------
  // The validators as the source runs them

  /** validateOneForInsert: checks every insert rule and collects a message per violation. */
  method ValidateOneForInsert(cpn: Option<Coupon>) returns (validationSuccess: bool, errors: seq<string>)
    ensures errors == InsertErrors(cpn)
    ensures validationSuccess <==> errors == []
  {
    if cpn.None? {
      return false, [NilInsertMsg];
    }
    var c := cpn.value;
    validationSuccess := true;
    errors := [];

    if c.name == "" {
      validationSuccess := false;
      errors := errors + [NameMsg];
    }

    if c.brand == "" {
      validationSuccess := false;
      errors := errors + [BrandMsg];
    }

    if c.value <= 0.0 {
      validationSuccess := false;
      errors := errors + [InsertValueMsg];
    }

    var bot := MinExpiry;
    if c.expiry.IsZero() || c.expiry.Before(bot) {
      validationSuccess := false;
      errors := errors + ["ValidateNewCoupon: Coupon expiry date must be after " + MinExpiryText];
    }
    InsertErrorsOrder(c);
  }

  /** validateOneForUpdate: checks every update rule and collects a message per violation. */
  method ValidateOneForUpdate(cpn: Option<Coupon>) returns (ok: bool, errors: seq<string>)
    ensures errors == UpdateErrors(cpn)
    ensures ok <==> errors == []
  {
    if cpn.None? {
      return false, [NilUpdateMsg];
    }
    var c := cpn.value;
    ok, errors := true, [];

    if IsZeroId(c.id) {
      ok := false;
      errors := errors + [IdMsg];
    }

    if c.value < 0.0 {
      ok := false;
      errors := errors + [UpdateValueMsg];
    }

    if !c.createdAt.IsZero() {
      ok := false;
      errors := errors + [CreatedAtMsg];
    }
    UpdateErrorsOrder(c);
  }

  // ---------------------------------------------------------------------
  // The batch validator

  /** The per-coupon validator a batch runs (cpnValidatorFunc). */
  datatype Validator = ForInsert | ForUpdate

  function ItemErrors(v: Validator, c: Coupon): seq<string> {
    match v
    case ForInsert => InsertErrors(Some(c))
    case ForUpdate => UpdateErrors(Some(c))
  }

  /** The lists of `ls`, concatenated in order. */
  function Flatten(ls: seq<seq<string>>): seq<string> {
    if ls == [] then [] else Flatten(ls[..|ls| - 1]) + ls[|ls| - 1]
  }

  /** The concatenation is empty iff every list is. */
  lemma {:induction false} FlattenEmpty(ls: seq<seq<string>>)
    ensures Flatten(ls) == [] <==> forall i | 0 <= i < |ls| :: ls[i] == []
  {
    if ls != [] {
      var init := ls[..|ls| - 1];
      FlattenEmpty(init);
      assert forall i | 0 <= i < |init| :: init[i] == ls[i];
    }
  }

  lemma FlattenSnoc(ls: seq<seq<string>>, x: seq<string>)
    ensures Flatten(ls + [x]) == Flatten(ls) + x
  {
    assert (ls + [x])[..|ls|] == ls;
  }

  /** The error list of each item of `cs`, in item order. */
  function ErrorLists(v: Validator, cs: seq<Coupon>): seq<seq<string>> {
    seq(|cs|, i requires 0 <= i < |cs| => ItemErrors(v, cs[i]))
  }

  /** The item error lists of `cs`, concatenated in item order. */
  function ItemsErrors(v: Validator, cs: seq<Coupon>): seq<string> {
    Flatten(ErrorLists(v, cs))
  }

  /** The concatenation is empty iff every item's list is. */
  lemma ItemsErrorsEmpty(v: Validator, cs: seq<Coupon>)
    ensures ItemsErrors(v, cs) == [] <==> forall i | 0 <= i < |cs| :: ItemErrors(v, cs[i]) == []
  {
    var ls := ErrorLists(v, cs);
    FlattenEmpty(ls);
    assert |ls| == |cs| && forall i | 0 <= i < |cs| :: ls[i] == ItemErrors(v, cs[i]);
  }

  lemma ItemsErrorsSnoc(v: Validator, cs: seq<Coupon>, i: nat)
    requires i < |cs|
    ensures ItemsErrors(v, cs[..i + 1]) == ItemsErrors(v, cs[..i]) + ItemErrors(v, cs[i])
  {
    assert ErrorLists(v, cs[..i + 1]) == ErrorLists(v, cs[..i]) + [ItemErrors(v, cs[i])];
    FlattenSnoc(ErrorLists(v, cs[..i]), ItemErrors(v, cs[i]));
  }

  /** What the batch validator reports for a possibly missing collection. */
  function ManyErrors(v: Validator, col: Option<CouponCollection>): seq<string> {
    if col.None? || |col.value.coupons| == 0 then [NoDataMsg]
    else ItemsErrors(v, col.value.coupons)
  }

  /** A missing or empty collection gets exactly one message; otherwise the
      batch succeeds iff every item passes, and then reports nothing. */
  lemma ManyErrorsMeaning(v: Validator, col: Option<CouponCollection>)
    ensures (col.None? || |col.value.coupons| == 0) ==> ManyErrors(v, col) == [NoDataMsg]
    ensures ManyErrors(v, col) == [] <==>
      col.Some? && |col.value.coupons| > 0 &&
      forall i | 0 <= i < |col.value.coupons| :: ItemErrors(v, col.value.coupons[i]) == []
  {
    if col.Some? {
      ItemsErrorsEmpty(v, col.value.coupons);
    }
  }

  /** validateMany: runs the validator on every item without stopping,
      ANDs the verdicts and concatenates the messages. */
  method ValidateMany(cpnCollection: Option<CouponCollection>, validator: Validator) returns (validationSuccess: bool, errors: seq<string>)
    ensures errors == ManyErrors(validator, cpnCollection)
    ensures validationSuccess <==> errors == []
  {
    validationSuccess := true;
    errors := [];

    if cpnCollection.None? || |cpnCollection.value.coupons| == 0 {
      validationSuccess := false;
      errors := errors + [NoDataMsg];
    } else {
      var cs := cpnCollection.value.coupons;
      var i := 0;
      while i < |cs|
        invariant 0 <= i <= |cs|
        invariant errors == ItemsErrors(validator, cs[..i])
        invariant validationSuccess <==> errors == []
      {
        var ok, e;
        match validator {
          case ForInsert => ok, e := ValidateOneForInsert(Some(cs[i]));
          case ForUpdate => ok, e := ValidateOneForUpdate(Some(cs[i]));
        }
        assert e == ItemErrors(validator, cs[i]);
        assert ok <==> e == [];
        validationSuccess := validationSuccess && ok;
        ItemsErrorsSnoc(validator, cs, i);
        errors := errors + e;
        i := i + 1;
      }
      assert cs[..i] == cs;
    }
  }

  method ValidateManyForInsert(cpnCollection: Option<CouponCollection>) returns (validationSuccess: bool, errors: seq<string>)
    ensures errors == ManyErrors(ForInsert, cpnCollection)
    ensures validationSuccess <==> errors == []
  {
    validationSuccess, errors := ValidateMany(cpnCollection, ForInsert);
  }

  method ValidateManyForUpdate(cpnCollection: Option<CouponCollection>) returns (validationSuccess: bool, errors: seq<string>)
    ensures errors == ManyErrors(ForUpdate, cpnCollection)
    ensures validationSuccess <==> errors == []
  {
    validationSuccess, errors := ValidateMany(cpnCollection, ForUpdate);
  }

  // ---------------------------------------------------------------------
  // The identifier validator

  /** A dynamically typed identifier, by the cases of its type switch. */
  datatype CouponId =
    | NativeId(oid: ObjectId)
    | IntId(n: int)
    | StringId(s: string)
    | OtherId

  /** validateCouponId: a zero ObjectID, an int below 1 and an empty string
      are missing identifiers; any other type is unknown. Each failure is
      one message and success is none. */
  method ValidateCouponId(id: CouponId) returns (ok: bool, errors: seq<string>)
    ensures ok <==> match id
                    case NativeId(oid) => !IsZeroId(oid)
                    case IntId(n) => n >= 1
                    case StringId(s) => s != ""
                    case OtherId => false
    ensures ok ==> errors == []
    ensures !ok ==> errors == [if id.OtherId? then UnknownIdTypeMsg else IdMsg]
  {
    ok := true;
    errors := [];

    match id {
      case NativeId(cast) =>
        if IsZeroId(cast) {
          ok := false;
          errors := errors + [IdMsg];
        }
      case IntId(cast) =>
        if cast < 1 {
          ok := false;
          errors := errors + [IdMsg];
        }
      case StringId(cast) =>
        if cast == "" {
          ok := false;
          errors := errors + [IdMsg];
        }
      case OtherId =>
        ok := false;
        errors := errors + [UnknownIdTypeMsg];
    }
  }
}
