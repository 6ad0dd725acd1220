/**
 The settings registry, its validation, the one command that changes a setting
 and the two places that read them. Values are JSON; keys are either one of the
 twelve the registry declares or anything else a caller may send.
 */
module Settings {
  import opened Text
  import opened LockedRows

  datatype Value =
    | Null
    | Bool(flag: bool)
    | Int(number: int)
    | Decimal(approx: real)
    | Str(text: string)
    | Obj(fields: map<string, Value>)
    | Arr(items: seq<Value>)

  datatype SettingType = BooleanType | IntegerType | DurationType | MoneyType | StringType | JsonType

  datatype SettingKey =
    | AcceptingOrders | OfferResponseWindow | OfferCheckoutWindow | OfferRejectionCooldown | MinimumOfferPercentage
    | CheckoutHoldPeriod | UnverifiedAccountPurgePeriod | DailyDownloadCap | FreeShippingThreshold
    | PickupAddress | PickupHours | WhatsappNumber

  datatype Key = Registered(setting: SettingKey) | Unregistered(name: string)

  datatype Definition = Definition(
    type_: SettingType, isPublic: bool, minimum: Option<int>, maximum: Option<int>, nullable: bool,
    maxLength: Option<nat>, e164: bool)

  function Number(type_: SettingType, minimum: int, maximum: int): Definition {
    Definition(type_, false, Some(minimum), Some(maximum), false, None, false)
  }

  function PublicText(maxLength: nat, e164: bool): Definition {
    Definition(StringType, true, None, None, true, Some(maxLength), e164)
  }

  function DefinitionOf(k: SettingKey): Definition {
    match k
    case AcceptingOrders => Definition(BooleanType, true, None, None, false, None, false)
    case OfferResponseWindow => Number(DurationType, 3_600, 604_800)
    case OfferCheckoutWindow => Number(DurationType, 3_600, 604_800)
    case OfferRejectionCooldown => Number(DurationType, 0, 2_592_000)
    case MinimumOfferPercentage => Number(IntegerType, 0, 100)
    case CheckoutHoldPeriod => Number(DurationType, 300, 7_200)
    case UnverifiedAccountPurgePeriod => Number(DurationType, 604_800, 7_776_000)
    case DailyDownloadCap => Number(IntegerType, 1, 1_000)
    case FreeShippingThreshold => Definition(MoneyType, true, Some(0), Some(1_000_000), true, None, false)
    case PickupAddress => PublicText(500, false)
    case PickupHours => PublicText(200, false)
    case WhatsappNumber => PublicText(16, true)
  }

  const ALL_KEYS: seq<SettingKey> := [
    AcceptingOrders, OfferResponseWindow, OfferCheckoutWindow, OfferRejectionCooldown, MinimumOfferPercentage,
    CheckoutHoldPeriod, UnverifiedAccountPurgePeriod, DailyDownloadCap, FreeShippingThreshold,
    PickupAddress, PickupHours, WhatsappNumber]

  const PUBLIC_KEYS: seq<SettingKey> := [AcceptingOrders, FreeShippingThreshold, PickupAddress, PickupHours, WhatsappNumber]

  // ---- Validation -------------------------------------------------------------

  datatype Reason =
    | MustNotBeNull | MustBeBoolean | MustBeWholeNumber | BelowMinimum | AboveMaximum
    | MustBeObject | WrongKeys | WrongCurrency | MustBeString | MustNotBeEmpty | TooLong | NotE164

  datatype Outcome = Ok(value: Value) | Invalid(reasons: seq<Reason>) | NotFound | TypeMismatch

  function NumberReasons(d: Definition, v: Value): seq<Reason> {
    if !v.Int? then [MustBeWholeNumber]
    else
      (if d.minimum.Some? && v.number < d.minimum.value then [BelowMinimum] else []) +
      (if d.maximum.Some? && v.number > d.maximum.value then [AboveMaximum] else [])
  }

  function MoneyReasons(d: Definition, v: Value): seq<Reason> {
    if !v.Obj? then [MustBeObject]
    else if v.fields.Keys != {"amount_cents", "currency"} then [WrongKeys]
    else NumberReasons(d, v.fields["amount_cents"]) + if v.fields["currency"] != Str("USD") then [WrongCurrency] else []
  }

  /** `digit` is the regular expression class `\d`, which on text covers every Unicode decimal digit. */
  predicate IsE164(digit: char -> bool, s: string) {
    2 <= |s| <= 16 && s[0] == '+' && '1' <= s[1] <= '9' && forall i :: 2 <= i < |s| ==> digit(s[i])
  }

  /** `^\+[1-9]\d{0,14}$`: a plus, a digit that is not zero, and at most fourteen more. */
  lemma E164Form(digit: char -> bool, s: string)
    ensures IsE164(digit, s) <==>
      exists lead: char, rest: string ::
        s == ['+', lead] + rest && '1' <= lead <= '9' && |rest| <= 14 && forall i :: 0 <= i < |rest| ==> digit(rest[i])
  {
    if IsE164(digit, s) {
      assert s == ['+', s[1]] + s[2..];
    }
  }

  function StringReasons(digit: char -> bool, d: Definition, v: Value): seq<Reason> {
    if !v.Str? then [MustBeString]
    else TextReasons(digit, d, Strip(v.text))
  }

  /** The rules for text that has already been trimmed. */
  function TextReasons(digit: char -> bool, d: Definition, trimmed: string): seq<Reason> {
    if trimmed == [] then [MustNotBeEmpty]
    else
      (if d.maxLength.Some? && |trimmed| > d.maxLength.value then [TooLong] else []) +
      (if d.e164 && !IsE164(digit, trimmed) then [NotE164] else [])
  }

  function Reasons(digit: char -> bool, d: Definition, v: Value): seq<Reason> {
    if v.Null? then (if d.nullable then [] else [MustNotBeNull])
    else match d.type_
      case BooleanType => if v.Bool? then [] else [MustBeBoolean]
      case IntegerType => NumberReasons(d, v)
      case DurationType => NumberReasons(d, v)
      case MoneyType => MoneyReasons(d, v)
      case StringType => StringReasons(digit, d, v)
      case JsonType => []
  }

  /** What is stored for an accepted value: text is trimmed, everything else kept as sent. */
  function Normal(d: Definition, v: Value): Value {
    if d.type_.StringType? && v.Str? then Str(Strip(v.text)) else v
  }

  function Validated(digit: char -> bool, key: Key, v: Value): Outcome {
    if key.Unregistered? then NotFound
    else
      var d := DefinitionOf(key.setting);
      if Reasons(digit, d, v) == [] then Ok(Normal(d, v)) else Invalid(Reasons(digit, d, v))
  }

  /** The values a setting may hold, said without reference to how they are checked. */
  predicate Legal(digit: char -> bool, d: Definition, v: Value) {
    match v
    case Null => d.nullable
    case Bool(_) => d.type_.BooleanType? || d.type_.JsonType?
    case Int(n) => d.type_.JsonType? || ((d.type_.IntegerType? || d.type_.DurationType?) && InRange(d, n))
    case Str(s) =>
      || d.type_.JsonType?
      || (&& d.type_.StringType? && s != [] && !IsSpace(s[0]) && !IsSpace(s[|s| - 1])
          && (d.maxLength.Some? ==> |s| <= d.maxLength.value) && (d.e164 ==> IsE164(digit, s)))
    case Obj(fields) =>
      || d.type_.JsonType?
      || (&& d.type_.MoneyType? && fields.Keys == {"amount_cents", "currency"} && fields["currency"] == Str("USD")
          && fields["amount_cents"].Int? && InRange(d, fields["amount_cents"].number))
    case Decimal(_) => d.type_.JsonType?
    case Arr(_) => d.type_.JsonType?
  }

  predicate InRange(d: Definition, n: int) {
    (d.minimum.Some? ==> d.minimum.value <= n) && (d.maximum.Some? ==> n <= d.maximum.value)
  }

  predicate Trimmed(s: string) {
    s == [] || (!IsSpace(s[0]) && !IsSpace(s[|s| - 1]))
  }

  lemma StripGivesTrimmed(s: string)
    ensures Trimmed(Strip(s)) && (Strip(s) == s <==> Trimmed(s))
  {
    if Trimmed(s) {
      StripFixed(s);
    }
  }

  lemma LegalText(digit: char -> bool, d: Definition, s: string)
    requires d.type_.StringType? && Trimmed(s)
    ensures TextReasons(digit, d, s) == [] <==> Legal(digit, d, Str(s))
  {
  }

  lemma FixedText(digit: char -> bool, d: Definition, s: string, t: string)
    requires d.type_.StringType? && Trimmed(t) && (t == s <==> Trimmed(s))
    ensures TextReasons(digit, d, t) == [] && t == s <==> Legal(digit, d, Str(s))
    ensures TextReasons(digit, d, t) == [] ==> Legal(digit, d, Str(t))
  {
    LegalText(digit, d, t);
  }

  lemma LegalOthers(digit: char -> bool, d: Definition, v: Value)
    requires !(d.type_.StringType? && v.Str?)
    ensures Reasons(digit, d, v) == [] <==> Legal(digit, d, v)
  {
  }

  /** Validation accepts exactly the legal values as they stand, and only ever returns one of them. */
  lemma FixedPointsAreLegal(digit: char -> bool, k: SettingKey, v: Value)
    ensures Validated(digit, Registered(k), v) == Ok(v) <==> Legal(digit, DefinitionOf(k), v)
    ensures Validated(digit, Registered(k), v).Ok? ==> Legal(digit, DefinitionOf(k), Validated(digit, Registered(k), v).value)
  {
    FixedPointsOf(digit, DefinitionOf(k), v);
  }

  lemma FixedPointsOf(digit: char -> bool, d: Definition, v: Value)
    ensures Reasons(digit, d, v) == [] && Normal(d, v) == v <==> Legal(digit, d, v)
    ensures Reasons(digit, d, v) == [] ==> Legal(digit, d, Normal(d, v))
  {
    if d.type_.StringType? && v.Str? {
      StripGivesTrimmed(v.text);
      FixedText(digit, d, v.text, Strip(v.text));
    } else {
      LegalOthers(digit, d, v);
    }
  }

  /** What is stored for a value: text of a text setting without its outer whitespace, anything else as it was sent. */
  lemma AcceptedExactly(digit: char -> bool, k: SettingKey, v: Value)
    ensures var d := DefinitionOf(k);
      var stored := if d.type_.StringType? && v.Str? then Str(Strip(v.text)) else v;
      Validated(digit, Registered(k), v) == Ok(stored) <==> Legal(digit, d, stored)
    ensures Validated(digit, Registered(k), v).Ok? || Validated(digit, Registered(k), v).Invalid?
  {
    var d := DefinitionOf(k);
    if d.type_.StringType? && v.Str? {
      LegalText(digit, d, Strip(v.text));
    } else {
      LegalOthers(digit, d, v);
    }
  }

  // ---- Every reason a value fails ---------------------------------------------

  /** The part of a value that has to be a number within bounds. */
  function NumberPart(d: Definition, v: Value): Option<Value> {
    if d.type_.IntegerType? || d.type_.DurationType? then Some(v)
    else if d.type_.MoneyType? && v.Obj? && v.fields.Keys == {"amount_cents", "currency"} then Some(v.fields["amount_cents"])
    else None
  }

  predicate IsBlank(s: string) {
    forall i :: 0 <= i < |s| ==> IsSpace(s[i])
  }

  /** Each reason by its own rule. */
  predicate Fails(digit: char -> bool, d: Definition, v: Value, r: Reason) {
    if v.Null? then r.MustNotBeNull? && !d.nullable
    else
      match r
      case MustNotBeNull => false
      case MustBeBoolean => d.type_.BooleanType? && !v.Bool?
      case MustBeWholeNumber => NumberPart(d, v).Some? && !NumberPart(d, v).value.Int?
      case BelowMinimum =>
        NumberPart(d, v).Some? && NumberPart(d, v).value.Int? && d.minimum.Some? && NumberPart(d, v).value.number < d.minimum.value
      case AboveMaximum =>
        NumberPart(d, v).Some? && NumberPart(d, v).value.Int? && d.maximum.Some? && NumberPart(d, v).value.number > d.maximum.value
      case MustBeObject => d.type_.MoneyType? && !v.Obj?
      case WrongKeys => d.type_.MoneyType? && v.Obj? && v.fields.Keys != {"amount_cents", "currency"}
      case WrongCurrency =>
        d.type_.MoneyType? && v.Obj? && v.fields.Keys == {"amount_cents", "currency"} && v.fields["currency"] != Str("USD")
      case MustBeString => d.type_.StringType? && !v.Str?
      case MustNotBeEmpty => d.type_.StringType? && v.Str? && IsBlank(v.text)
      case TooLong => d.type_.StringType? && v.Str? && !IsBlank(v.text) && d.maxLength.Some? && |Strip(v.text)| > d.maxLength.value
      case NotE164 => d.type_.StringType? && v.Str? && !IsBlank(v.text) && d.e164 && !IsE164(digit, Strip(v.text))
  }

  /** The order in which reasons are listed. */
  function Place(r: Reason): nat {
    match r
    case MustNotBeNull => 0
    case MustBeBoolean => 1
    case MustBeObject => 2
    case WrongKeys => 3
    case MustBeWholeNumber => 4
    case BelowMinimum => 5
    case AboveMaximum => 6
    case WrongCurrency => 7
    case MustBeString => 8
    case MustNotBeEmpty => 9
    case TooLong => 10
    case NotE164 => 11
  }

  /** Exactly the reasons the value fails for, each once and in order. */
  ghost predicate ReasonsKept(digit: char -> bool, d: Definition, v: Value, reasons: seq<Reason>) {
    && (forall r :: r in reasons <==> Fails(digit, d, v, r))
    && (forall i, j :: 0 <= i < j < |reasons| ==> Place(reasons[i]) < Place(reasons[j]))
  }

  lemma NumberReasonsAreExact(digit: char -> bool, d: Definition, v: Value)
    requires !v.Null? && (d.type_.IntegerType? || d.type_.DurationType?)
    ensures ReasonsKept(digit, d, v, NumberReasons(d, v))
  {
  }

  lemma MoneyReasonsAreExact(digit: char -> bool, d: Definition, v: Value)
    requires !v.Null? && d.type_.MoneyType?
    ensures ReasonsKept(digit, d, v, MoneyReasons(d, v))
  {
  }

  predicate TextFails(digit: char -> bool, d: Definition, t: string, r: Reason) {
    || (r.MustNotBeEmpty? && t == [])
    || (r.TooLong? && t != [] && d.maxLength.Some? && |t| > d.maxLength.value)
    || (r.NotE164? && t != [] && d.e164 && !IsE164(digit, t))
  }

  lemma TextReasonsAreExact(digit: char -> bool, d: Definition, t: string, reasons: seq<Reason>)
    requires reasons == TextReasons(digit, d, t)
    ensures forall r :: r in reasons <==> TextFails(digit, d, t, r)
    ensures forall i, j :: 0 <= i < j < |reasons| ==> Place(reasons[i]) < Place(reasons[j])
  {
  }

  lemma TextFailsWhenTrimmed(digit: char -> bool, d: Definition, s: string, r: Reason)
    requires d.type_.StringType?
    ensures Fails(digit, d, Str(s), r) <==> TextFails(digit, d, Strip(s), r)
  {
    StripIsEmpty(s);
  }

  lemma StringReasonsAreExact(digit: char -> bool, d: Definition, v: Value, reasons: seq<Reason>)
    requires !v.Null? && d.type_.StringType? && reasons == StringReasons(digit, d, v)
    ensures ReasonsKept(digit, d, v, reasons)
  {
    if v.Str? {
      TextReasonsAreExact(digit, d, Strip(v.text), reasons);
      forall r ensures r in reasons <==> Fails(digit, d, v, r) {
        TextFailsWhenTrimmed(digit, d, v.text, r);
      }
    } else {
      assert reasons == [MustBeString];
    }
  }

  lemma ReasonsAreExact(digit: char -> bool, d: Definition, v: Value)
    ensures ReasonsKept(digit, d, v, Reasons(digit, d, v))
  {
    if !v.Null? {
      match d.type_
      case IntegerType => NumberReasonsAreExact(digit, d, v);
      case DurationType => NumberReasonsAreExact(digit, d, v);
      case MoneyType => MoneyReasonsAreExact(digit, d, v);
      case StringType => StringReasonsAreExact(digit, d, v, StringReasons(digit, d, v));
      case _ =>
    }
  }

  /** The whole promise: a legal value is stored in its own form, and any other is refused with every reason it fails for. */
  ghost predicate ValidationKept(digit: char -> bool, key: Key, v: Value, r: Outcome) {
    if key.Unregistered? then r.NotFound?
    else
      var d := DefinitionOf(key.setting);
      var stored := if d.type_.StringType? && v.Str? then Str(Strip(v.text)) else v;
      && (Legal(digit, d, stored) ==> r == Ok(stored))
      && (!Legal(digit, d, stored) ==> r.Invalid? && r.reasons != [] && ReasonsKept(digit, d, v, r.reasons))
  }

  lemma ValidatedKept(digit: char -> bool, key: Key, v: Value)
    ensures ValidationKept(digit, key, v, Validated(digit, key, v))
  {
    if key.Registered? {
      AcceptedExactly(digit, key.setting, v);
      ReasonsAreExact(digit, DefinitionOf(key.setting), v);
    }
  }

  /** Validating what validation returned changes nothing. */
  lemma ValidationIsIdempotent(digit: char -> bool, key: Key, v: Value)
    ensures Validated(digit, key, v).Ok? ==> Validated(digit, key, Validated(digit, key, v).value) == Validated(digit, key, v)
  {
    if key.Registered? && Validated(digit, key, v).Ok? {
      FixedPointsAreLegal(digit, key.setting, v);
      FixedPointsAreLegal(digit, key.setting, Validated(digit, key, v).value);
    }
  }

  // ---- Validation as the program runs it --------------------------------------

  /** The list every validator appends to. */
  class ReasonList {
    var items: seq<Reason>

    constructor ()
      ensures items == []
    {
      items := [];
    }

    method Append(reason: Reason)
      modifies this
      ensures items == old(items) + [reason]
    {
      items := items + [reason];
    }
  }

  method ValidateNumber(d: Definition, v: Value, reasons: ReasonList)
    modifies reasons
    ensures reasons.items == old(reasons.items) + NumberReasons(d, v)
  {
    if !v.Int? {
      reasons.Append(MustBeWholeNumber);
      return;
    }
    if d.minimum.Some? && v.number < d.minimum.value {
      reasons.Append(BelowMinimum);
    }
    if d.maximum.Some? && v.number > d.maximum.value {
      reasons.Append(AboveMaximum);
    }
  }

  method ValidateMoney(d: Definition, v: Value, reasons: ReasonList)
    modifies reasons
    ensures reasons.items == old(reasons.items) + MoneyReasons(d, v)
  {
    if !v.Obj? {
      reasons.Append(MustBeObject);
      return;
    }
    if v.fields.Keys != {"amount_cents", "currency"} {
      reasons.Append(WrongKeys);
      return;
    }
    ValidateNumber(d, v.fields["amount_cents"], reasons);
    if v.fields["currency"] != Str("USD") {
      reasons.Append(WrongCurrency);
    }
  }

  method ValidateString(digit: char -> bool, d: Definition, v: Value, reasons: ReasonList) returns (trimmed: Option<string>)
    modifies reasons
    ensures reasons.items == old(reasons.items) + StringReasons(digit, d, v)
    ensures trimmed.Some? <==> v.Str? && Strip(v.text) != []
    ensures trimmed.Some? ==> trimmed.value == Strip(v.text)
    ensures d.type_.StringType? && !v.Null? ==>
      old(reasons.items) <= reasons.items && ReasonsKept(digit, d, v, reasons.items[|old(reasons.items)|..])
  {
    ReasonsAreExact(digit, d, v);
    if !v.Str? {
      reasons.Append(MustBeString);
      return None;
    }
    var text := Strip(v.text);
    if text == [] {
      reasons.Append(MustNotBeEmpty);
      return None;
    }
    ValidateText(digit, d, text, reasons);
    return Some(text);
  }

  method ValidateText(digit: char -> bool, d: Definition, text: string, reasons: ReasonList)
    requires text != []
    modifies reasons
    ensures reasons.items == old(reasons.items) + TextReasons(digit, d, text)
  {
    if d.maxLength.Some? && |text| > d.maxLength.value {
      reasons.Append(TooLong);
    }
    if d.e164 && !IsE164(digit, text) {
      reasons.Append(NotE164);
    }
  }

  /** Every reason a value fails is reported, and a value that passes comes back in its stored form. */
  method ValidateValue(digit: char -> bool, key: Key, v: Value) returns (r: Outcome)
    ensures r == Validated(digit, key, v) && ValidationKept(digit, key, v, r)
  {
    ValidatedKept(digit, key, v);
    if key.Unregistered? {
      return NotFound;
    }
    var d := DefinitionOf(key.setting);
    var reasons := new ReasonList();
    if v.Null? {
      if d.nullable {
        return Ok(Null);
      }
      reasons.Append(MustNotBeNull);
      return Invalid(reasons.items);
    }
    match d.type_ {
      case BooleanType =>
        if !v.Bool? {
          reasons.Append(MustBeBoolean);
        }
      case IntegerType =>
        ValidateNumber(d, v, reasons);
      case DurationType =>
        ValidateNumber(d, v, reasons);
      case MoneyType =>
        ValidateMoney(d, v, reasons);
      case StringType =>
        var trimmed := ValidateString(digit, d, v, reasons);
        if reasons.items == [] && trimmed.Some? {
          return Ok(Str(trimmed.value));
        }
      case JsonType =>
    }
    if reasons.items != [] {
      return Invalid(reasons.items);
    }
    return Ok(v);
  }

  // ---- The table --------------------------------------------------------------

  datatype SettingRow = SettingRow(type_: SettingType, value: Value)

  /** An update that got past the registry: a key outside it is refused before any row is touched. */
  datatype Update = Update(setting: SettingKey, value: Value)

  type Table = map<SettingKey, SettingRow>

  /** The row an update stores in place of the one it locked. */
  function DecideUpdate(digit: char -> bool, c: Update, row: Option<SettingRow>): Option<SettingRow> {
    var validated := Validated(digit, Registered(c.setting), c.value);
    if row.None? || !validated.Ok? then None else Some(row.value.(value := validated.value))
  }

  /** An update stores the legal form of what was sent in a row that is there, and changes nothing else about the row. */
  lemma UpdateStores(digit: char -> bool, c: Update, row: Option<SettingRow>, after: SettingRow)
    ensures var d := DefinitionOf(c.setting);
      var stored := if d.type_.StringType? && c.value.Str? then Str(Strip(c.value.text)) else c.value;
      DecideUpdate(digit, c, row) == Some(after)
      <==> row.Some? && Legal(digit, d, stored) && after == SettingRow(row.value.type_, stored)
  {
    ValidatedKept(digit, Registered(c.setting), c.value);
  }

  function SettingRules(digit: char -> bool): Rules<SettingKey, SettingRow, Update> {
    Rules((c: Update) => c.setting, (c, row) => DecideUpdate(digit, c, row), (a: SettingRow, b: SettingRow) => false)
  }

  function Seed(k: SettingKey): SettingRow {
    match k
    case AcceptingOrders => SettingRow(BooleanType, Bool(false))
    case OfferResponseWindow => SettingRow(DurationType, Int(172_800))
    case OfferCheckoutWindow => SettingRow(DurationType, Int(86_400))
    case OfferRejectionCooldown => SettingRow(DurationType, Int(604_800))
    case MinimumOfferPercentage => SettingRow(IntegerType, Int(70))
    case CheckoutHoldPeriod => SettingRow(DurationType, Int(1_800))
    case UnverifiedAccountPurgePeriod => SettingRow(DurationType, Int(2_592_000))
    case DailyDownloadCap => SettingRow(IntegerType, Int(20))
    case FreeShippingThreshold => SettingRow(MoneyType, Null)
    case PickupAddress => SettingRow(StringType, Null)
    case PickupHours => SettingRow(StringType, Null)
    case WhatsappNumber => SettingRow(StringType, Null)
  }

  const Seeded: Table := map k | k in ALL_KEYS :: Seed(k)

  /** A row of the declared type whose value is a fixed point of validation. */
  predicate GoodRow(digit: char -> bool, k: SettingKey, row: SettingRow) {
    row.type_ == DefinitionOf(k).type_ && Validated(digit, Registered(k), row.value) == Ok(row.value)
  }

  lemma EveryKeyListed(k: SettingKey)
    ensures k in ALL_KEYS
  {
    assert ALL_KEYS[0] == AcceptingOrders && ALL_KEYS[1] == OfferResponseWindow && ALL_KEYS[2] == OfferCheckoutWindow;
    assert ALL_KEYS[3] == OfferRejectionCooldown && ALL_KEYS[4] == MinimumOfferPercentage && ALL_KEYS[5] == CheckoutHoldPeriod;
    assert ALL_KEYS[6] == UnverifiedAccountPurgePeriod && ALL_KEYS[7] == DailyDownloadCap && ALL_KEYS[8] == FreeShippingThreshold;
    assert ALL_KEYS[9] == PickupAddress && ALL_KEYS[10] == PickupHours && ALL_KEYS[11] == WhatsappNumber;
  }

  /** The migration seeds every registered key with a value the registry accepts as it stands. */
  lemma SeedIsGood(digit: char -> bool, k: SettingKey)
    ensures k in Seeded && GoodRow(digit, k, Seeded[k])
  {
    EveryKeyListed(k);
    FixedPointsAreLegal(digit, k, Seed(k).value);
  }

  lemma UpdatesStoreGoodRows(digit: char -> bool)
    ensures Stores(SettingRules(digit), (k, row) => GoodRow(digit, k, row))
  {
    forall c: Update, v: Option<SettingRow> | DecideUpdate(digit, c, v).Some? && (v.Some? ==> GoodRow(digit, c.setting, v.value))
      ensures GoodRow(digit, c.setting, DecideUpdate(digit, c, v).value)
    {
      ValidationIsIdempotent(digit, Registered(c.setting), c.value);
    }
  }

  /** From the seeded table, through any interleaving of updates, every setting is there and valid as stored. */
  lemma SettingsStayGood(digit: char -> bool, ss: seq<Store<SettingKey, SettingRow, Update>>, es: seq<Event<Update>>, i: nat, k: SettingKey)
    requires Run(SettingRules(digit), ss, es) && i < |ss| && ss[0].rows == Seeded
    ensures k in ss[i].rows && GoodRow(digit, k, ss[i].rows[k])
  {
    UpdatesStoreGoodRows(digit);
    forall q | q in ss[0].rows ensures GoodRow(digit, q, ss[0].rows[q]) {
      SeedIsGood(digit, q);
    }
    SeedIsGood(digit, k);
    RunKeeps(SettingRules(digit), (q, row) => GoodRow(digit, q, row), ss, es, i);
  }

  // ---- Readers ----------------------------------------------------------------

  /** `SettingsReader.get`. */
  function ReadSetting(digit: char -> bool, rows: Table, key: Key): Outcome {
    if key.Unregistered? || key.setting !in rows then NotFound
    else if rows[key.setting].type_ != DefinitionOf(key.setting).type_ then TypeMismatch
    else Validated(digit, key, rows[key.setting].value)
  }

  /** Reading a registered setting never raises, and gives back exactly what is stored. */
  lemma ReaderNeverRaises(digit: char -> bool, ss: seq<Store<SettingKey, SettingRow, Update>>, es: seq<Event<Update>>, i: nat, k: SettingKey)
    requires Run(SettingRules(digit), ss, es) && i < |ss| && ss[0].rows == Seeded
    ensures k in ss[i].rows && ReadSetting(digit, ss[i].rows, Registered(k)) == Ok(ss[i].rows[k].value)
  {
    SettingsStayGood(digit, ss, es, i, k);
  }

  /** The public read: one loop over the allowlist that stops at the first setting it cannot vouch for. */
  method ReadPublicSettings(digit: char -> bool, rows: Table) returns (failed: Option<Outcome>, values: map<SettingKey, Value>)
    ensures failed.None? <==> forall k :: k in PUBLIC_KEYS ==> ReadSetting(digit, rows, Registered(k)).Ok?
    ensures (forall k :: k in PUBLIC_KEYS ==> k in rows && GoodRow(digit, k, rows[k])) ==> failed.None?
    ensures failed.Some? ==> !failed.value.Ok? && exists k :: k in PUBLIC_KEYS && ReadSetting(digit, rows, Registered(k)) == failed.value
    ensures failed.None? ==> values.Keys == (set k | k in PUBLIC_KEYS)
    ensures forall k :: k in values ==> k in PUBLIC_KEYS && ReadSetting(digit, rows, Registered(k)) == Ok(values[k])
  {
    failed, values := None, map[];
    for i := 0 to |PUBLIC_KEYS|
      invariant values.Keys == set k | k in PUBLIC_KEYS[..i]
      invariant failed.None?
      invariant forall k :: k in values ==> ReadSetting(digit, rows, Registered(k)) == Ok(values[k])
    {
      var key := PUBLIC_KEYS[i];
      ghost var read := ReadSetting(digit, rows, Registered(key));
      if key !in rows {
        return Some(NotFound), values;
      }
      if rows[key].type_ != DefinitionOf(key).type_ {
        return Some(TypeMismatch), values;
      }
      var value := ValidateValue(digit, Registered(key), rows[key].value);
      if !value.Ok? {
        return Some(value), values;
      }
      values := values[key := value.value];
      assert PUBLIC_KEYS[..i + 1] == PUBLIC_KEYS[..i] + [key];
    }
    assert PUBLIC_KEYS[..|PUBLIC_KEYS|] == PUBLIC_KEYS;
  }

  /** The allowlist is exactly the settings declared public, in their declared order. */
  lemma PublicKeysAreDeclared(k: SettingKey)
    ensures k in PUBLIC_KEYS <==> DefinitionOf(k).isPublic
  {
    assert PUBLIC_KEYS[0] == AcceptingOrders && PUBLIC_KEYS[1] == FreeShippingThreshold && PUBLIC_KEYS[2] == PickupAddress;
    assert PUBLIC_KEYS[3] == PickupHours && PUBLIC_KEYS[4] == WhatsappNumber;
  }

  /** The audit rows of one setting: each `before` is the previous `after`, and the last `after` is the stored row. */
  lemma SettingAuditChain(digit: char -> bool, ss: seq<Store<SettingKey, SettingRow, Update>>, es: seq<Event<Update>>, n: nat,
                          k: SettingKey, i: int, j: int)
    requires Run(SettingRules(digit), ss, es) && n < |ss| && Latest(ss[n].audit, k, i, j)
    ensures var audit := ss[n].audit;
      && (j < |audit| && audit[j].id == k ==> audit[j].before == Some(audit[i].after))
      && (j == |audit| ==> k in ss[n].rows && ss[n].rows[k] == audit[i].after)
  {
    AuditChain(SettingRules(digit), ss, es, n, k, i, j);
  }

  // ---- The command ------------------------------------------------------------

  class Setting {
    const key: SettingKey
    const type_: SettingType
    var value: Value

    constructor (key: SettingKey, row: SettingRow)
      ensures this.key == key && Row() == row
    {
      this.key, type_, value := key, row.type_, row.value;
    }

    function Row(): SettingRow
      reads this
    {
      SettingRow(type_, value)
    }

    method ChangeValue(newValue: Value) returns (changed: bool)
      modifies this
      ensures changed == (old(value) != newValue) && Row() == old(Row()).(value := newValue)
    {
      if value == newValue {
        return false;
      }
      value := newValue;
      return true;
    }
  }

  class SettingsTable {
    var rows: Table
    var audit: seq<Entry<SettingKey, SettingRow>>

    constructor (rows: Table)
      ensures this.rows == rows && audit == []
    {
      this.rows, audit := rows, [];
    }

    /** Audited whether or not the value moved; refused requests leave no trace. */
    method UpdateSetting(digit: char -> bool, key: Key, value: Value) returns (r: Outcome)
      modifies this
      ensures r == if key.Unregistered? || key.setting !in old(rows) then NotFound else Validated(digit, key, value)
      ensures key.Registered? && key.setting in old(rows) ==> ValidationKept(digit, key, value, r)
      ensures !r.Ok? ==> rows == old(rows) && audit == old(audit)
      ensures r.Ok? ==>
        var stored := old(rows)[key.setting].(value := r.value);
        && DecideUpdate(digit, Update(key.setting, value), Some(old(rows)[key.setting])) == Some(stored)
        && rows == old(rows)[key.setting := stored]
        && audit == old(audit) + [Entry(key.setting, Some(old(rows)[key.setting]), stored)]
    {
      if key.Unregistered? || key.setting !in rows {
        return NotFound;
      }
      var setting := new Setting(key.setting, rows[key.setting]);
      r := ValidateValue(digit, key, value);
      if !r.Ok? {
        return;
      }
      var before := setting.Row();
      var changed := setting.ChangeValue(r.value);
      if changed {
        rows := rows[setting.key := setting.Row()];
      }
      audit := audit + [Entry(setting.key, Some(before), setting.Row())];
    }
  }
}
