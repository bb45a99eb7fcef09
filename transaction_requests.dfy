/** The request bodies of createTransaction and updateTransaction in
    backend/src/controller/transactionController.js and the checks made on
    them before the store is touched. */
module TransactionRequests {
  import opened Wrappers
  import opened TransactionSchema

  /** The `date` field of a body: left out, sent as the empty string (which
      the store casts to null), or a date. */
  datatype DateField = Absent | Blank | At(value: Date)

  /** A JSON body `{type, amount, category, date, description}`. An absent
      field is `None` (or `Absent`); `type`, `category` and `description`
      keep empty strings as `Some("")`, and an empty `date` is `Blank`. */
  datatype Body = Body(
    kind: Option<string>,
    amount: Option<real>,
    category: Option<string>,
    date: DateField,
    description: Option<string>)

  const RequiredMessage: string := "Type, amount, category, and date are required"
  const KindMessage: string := "Type must be either 'income' or 'expense'"
  const AmountMessage: string := "Amount must be greater than 0"

  /** JavaScript truthiness of a string field. */
  predicate Truthy(s: Option<string>) {
    s.Some? && s.value != ""
  }

  /** JavaScript truthiness of a number field: 0 is falsy. */
  predicate AmountTruthy(a: Option<real>) {
    a.Some? && a.value != 0.0
  }

  /** The first check of create: one of the four required fields is falsy. */
  predicate MissingRequired(b: Body) {
    !Truthy(b.kind) || !AmountTruthy(b.amount) || !Truthy(b.category) || !b.date.At?
  }

  /** What create's checks decide: the fields to store, or the message of
      the first check that failed. */
  datatype Verdict =
    | Accept(kind: Kind, amount: real, category: string, date: Date, description: string)
    | Reject(message: string)

  /** `description || ''`: a falsy description is stored as the empty string. */
  function DescriptionOrEmpty(d: Option<string>): (r: string)
    ensures Truthy(d) ==> r == d.value
    ensures !Truthy(d) ==> r == ""
  {
    if d.Some? then d.value else ""
  }

  /** Create's checks, in the source's order; each failure stops the rest. */
  function ValidateCreate(b: Body): (v: Verdict)
    ensures v == Reject(RequiredMessage) <==> MissingRequired(b)
    ensures v == Reject(KindMessage) <==> !MissingRequired(b) && ParseKind(b.kind.value).None?
    ensures v == Reject(AmountMessage) <==>
              !MissingRequired(b) && ParseKind(b.kind.value).Some? && b.amount.value <= 0.0
    ensures v.Reject? ==> v.message in {RequiredMessage, KindMessage, AmountMessage}
    ensures v.Accept? <==> !MissingRequired(b) && ParseKind(b.kind.value).Some? && b.amount.value > 0.0
    ensures v.Accept? ==>
              && KindName(v.kind) == b.kind.value
              && v.amount == b.amount.value && v.amount > 0.0
              && v.category == b.category.value && v.category != ""
              && v.date == b.date.value
              && v.description == DescriptionOrEmpty(b.description)
  {
    if MissingRequired(b) then Reject(RequiredMessage)
    else
      match ParseKind(b.kind.value)
      case None => Reject(KindMessage)
      case Some(k) =>
        if b.amount.value <= 0.0 then Reject(AmountMessage)
        else Accept(k, b.amount.value, b.category.value, b.date.value, DescriptionOrEmpty(b.description))
  }

  /** An amount of 0 is reported as missing, not as "must be greater than 0". */
  lemma ZeroAmountIsMissing(b: Body)
    requires b.amount == Some(0.0)
    ensures ValidateCreate(b) == Reject(RequiredMessage)
  {
  }

  /** A negative amount with an unknown type is reported for the type first. */
  lemma KindCheckedBeforeAmount(b: Body)
    requires Truthy(b.kind) && Truthy(b.category) && b.date.At? && b.amount.Some? && b.amount.value < 0.0
    requires ParseKind(b.kind.value).None?
    ensures ValidateCreate(b) == Reject(KindMessage)
  {
  }

  /** Update's own checks: a truthy `type` that names no kind, then an
      `amount` that is present and not positive. A falsy `type` is not checked. */
  function ValidateUpdate(b: Body): (e: Option<string>)
    ensures e == Some(KindMessage) <==> Truthy(b.kind) && ParseKind(b.kind.value).None?
    ensures e == Some(AmountMessage) <==>
              !(Truthy(b.kind) && ParseKind(b.kind.value).None?) && b.amount.Some? && b.amount.value <= 0.0
    ensures e.None? ==> (b.amount.Some? ==> b.amount.value > 0.0)
    ensures e.None? ==> (Truthy(b.kind) ==> ParseKind(b.kind.value).Some?)
  {
    if Truthy(b.kind) && ParseKind(b.kind.value).None? then Some(KindMessage)
    else if b.amount.Some? && b.amount.value <= 0.0 then Some(AmountMessage)
    else None
  }

  /** The schema's validators, run on the fields the update sets: an empty
      `type` fails the enumeration, an empty `category` fails `required`, and
      so does an empty `date`, which is cast to null. (A `type` naming no kind
      and a non-positive amount were already refused by ValidateUpdate.) */
  predicate UpdateViolatesSchema(b: Body)
    ensures b.date == Blank || b.category == Some("") || b.kind == Some("") ==> UpdateViolatesSchema(b)
    ensures !UpdateViolatesSchema(b) && Truthy(b.kind) ==> ParseKind(b.kind.value).Some?
    ensures ValidateUpdate(b).None? ==>
              (UpdateViolatesSchema(b) <==> b.kind == Some("") || b.category == Some("") || b.date == Blank)
  {
    || (b.kind.Some? && ParseKind(b.kind.value).None?)
    || b.category == Some("")
    || b.date == Blank
  }

  /** The update document `{type, amount, category, date, description}`
      applied to a stored transaction: a field the body leaves out keeps its
      old value, the id, owner and creation time never change, and
      `updatedAt` becomes the current time. */
  function ApplyUpdate(t: Transaction, b: Body, now: Date): (u: Transaction)
    ensures u.id == t.id && u.userId == t.userId && u.createdAt == t.createdAt
    ensures u.updatedAt == now
    ensures u.kind == (if b.kind.Some? && ParseKind(b.kind.value).Some? then ParseKind(b.kind.value).value else t.kind)
    ensures u.amount == (if b.amount.Some? then b.amount.value else t.amount)
    ensures u.category == (if b.category.Some? then b.category.value else t.category)
    ensures u.date == (if b.date.At? then b.date.value else t.date)
    ensures u.description == (if b.description.Some? then b.description.value else t.description)
    ensures SchemaValid(t) && ValidateUpdate(b).None? && !UpdateViolatesSchema(b) && t.updatedAt <= now
            ==> SchemaValid(u)
  {
    t.(
      kind := if b.kind.Some? && ParseKind(b.kind.value).Some? then ParseKind(b.kind.value).value else t.kind,
      amount := if b.amount.Some? then b.amount.value else t.amount,
      category := if b.category.Some? then b.category.value else t.category,
      date := if b.date.At? then b.date.value else t.date,
      description := if b.description.Some? then b.description.value else t.description,
      updatedAt := now)
  }

  /** An update with an empty body changes nothing but `updatedAt`. */
  lemma EmptyUpdateOnlyTouchesUpdatedAt(t: Transaction, now: Date)
    ensures ApplyUpdate(t, Body(None, None, None, Absent, None), now) == t.(updatedAt := now)
  {
  }
}
