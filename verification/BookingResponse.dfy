/**
  The stored form of a booking response: the payment-status token is stripped before the response
  is written to the idempotency row and derived again when the row is replayed.
 */
module BookingResponse {
  import opened Foundations

  type Id = string

  datatype BookingStatus = Pending | Confirmed | Active | Completed | Cancelled | Rejected

  datatype Json =
    | Null
    | Bool(flag: bool)
    | Number(number: real)
    | Text(text: string)
    | Array(items: seq<Json>)
    | Object(fields: map<string, Json>)

  datatype Response = Response(
    bookingId: Id,
    txRef: string,
    checkoutUrl: string,
    totalAmount: real,
    bookingStatus: BookingStatus,
    reservationExpiresAt: string,
    paymentStatusToken: Option<string>)

  datatype ParseError = InvalidStoredResponse

  /** The keyed hash that derives tokens, and the platform's date parser. */
  datatype Platform = Platform(tokenOf: Id -> string, isDate: string -> bool)

  function StatusName(status: BookingStatus): string
  {
    match status
    case Pending => "PENDING"
    case Confirmed => "CONFIRMED"
    case Active => "ACTIVE"
    case Completed => "COMPLETED"
    case Cancelled => "CANCELLED"
    case Rejected => "REJECTED"
  }

  function StatusNamed(name: string): Option<BookingStatus>
  {
    if name == "PENDING" then Some(Pending)
    else if name == "CONFIRMED" then Some(Confirmed)
    else if name == "ACTIVE" then Some(Active)
    else if name == "COMPLETED" then Some(Completed)
    else if name == "CANCELLED" then Some(Cancelled)
    else if name == "REJECTED" then Some(Rejected)
    else None
  }

  /** An empty token counts as no token. */
  predicate HasToken(r: Response)
  {
    r.paymentStatusToken.Some? && r.paymentStatusToken.value != ""
  }

  function Persist(r: Response): Json
  {
    Object(map[
      "bookingId" := Text(r.bookingId),
      "txRef" := Text(r.txRef),
      "checkoutUrl" := Text(r.checkoutUrl),
      "totalAmount" := Number(r.totalAmount),
      "currency" := Text("NGN"),
      "bookingStatus" := Text(StatusName(r.bookingStatus)),
      "reservationExpiresAt" := Text(r.reservationExpiresAt),
      "paymentStatusTokenRequired" := Bool(HasToken(r))])
  }

  function TextField(j: Json, key: string): Option<string>
  {
    if j.Object? && key in j.fields && j.fields[key].Text? then Some(j.fields[key].text) else None
  }

  function NumberField(j: Json, key: string): Option<real>
  {
    if j.Object? && key in j.fields && j.fields[key].Number? then Some(j.fields[key].number) else None
  }

  function BoolField(j: Json, key: string): Option<bool>
  {
    if j.Object? && key in j.fields && j.fields[key].Bool? then Some(j.fields[key].flag) else None
  }

  function Parse(j: Json, p: Platform): Result<Response, ParseError>
  {
    var bookingId := TextField(j, "bookingId");
    var txRef := TextField(j, "txRef");
    var checkoutUrl := TextField(j, "checkoutUrl");
    var totalAmount := NumberField(j, "totalAmount");
    var bookingStatus := TextField(j, "bookingStatus");
    var reservationExpiresAt := TextField(j, "reservationExpiresAt");
    var tokenRequired := BoolField(j, "paymentStatusTokenRequired");
    if bookingId.None? || txRef.None? || checkoutUrl.None? || totalAmount.None?
      || TextField(j, "currency") != Some("NGN")
      || bookingStatus.None? || StatusNamed(bookingStatus.value).None?
      || reservationExpiresAt.None? || !p.isDate(reservationExpiresAt.value)
      || tokenRequired.None?
    then Err(InvalidStoredResponse)
    else Ok(Response(
      bookingId.value, txRef.value, checkoutUrl.value, totalAmount.value,
      StatusNamed(bookingStatus.value).value, reservationExpiresAt.value,
      if tokenRequired.value then Some(p.tokenOf(bookingId.value)) else None))
  }

  /** What `createPaymentAndSync` builds: a real date, and either no token or the booking's own. */
  predicate WellFormed(r: Response, p: Platform)
  {
    && p.isDate(r.reservationExpiresAt)
    && (r.paymentStatusToken.None? || (HasToken(r) && r.paymentStatusToken == Some(p.tokenOf(r.bookingId))))
  }

  /** A stored response reads back as itself exactly when its date is real and its token derivable. */
  lemma PersistThenParse(r: Response, p: Platform)
    ensures Parse(Persist(r), p) == Ok(r) <==>
      && p.isDate(r.reservationExpiresAt)
      && (r.paymentStatusToken.None? || (r.paymentStatusToken.value == p.tokenOf(r.bookingId) && r.paymentStatusToken.value != ""))
  {
    assert StatusNamed(StatusName(r.bookingStatus)) == Some(r.bookingStatus);
  }

  /** Every part of a response but its token is found in the stored form under its own name, and of the token whether there is one. */
  lemma StoredUnderItsNames(r: Response)
    ensures var j := Persist(r);
      && TextField(j, "bookingId") == Some(r.bookingId) && TextField(j, "txRef") == Some(r.txRef)
      && TextField(j, "checkoutUrl") == Some(r.checkoutUrl) && NumberField(j, "totalAmount") == Some(r.totalAmount)
      && TextField(j, "currency") == Some("NGN") && StatusNamed(TextField(j, "bookingStatus").value) == Some(r.bookingStatus)
      && TextField(j, "reservationExpiresAt") == Some(r.reservationExpiresAt)
      && BoolField(j, "paymentStatusTokenRequired") == Some(r.paymentStatusToken.Some? && |r.paymentStatusToken.value| > 0)
      && |j.fields| == 8
  {}

  /** The token itself is never stored: responses that differ only in their tokens are stored alike. */
  lemma TokenIsNotStored(r: Response, token: string)
    requires HasToken(r) && token != ""
    ensures Persist(r) == Persist(r.(paymentStatusToken := Some(token)))
    ensures forall key :: key in Persist(r).fields ==> key != "paymentStatusToken"
  {}

  /** Any stored value that parses is the stored form of what it parses to, up to extra fields. */
  lemma ParseThenPersist(j: Json, p: Platform)
    requires Parse(j, p).Ok? && (forall id :: p.tokenOf(id) != "")
    ensures j.Object? && forall key :: key in Persist(Parse(j, p).value).fields ==>
      key in j.fields && j.fields[key] == Persist(Parse(j, p).value).fields[key]
  {}

  /** Storing and reading back, and the responses the creation service really builds. */
  datatype Codec = Codec(
    persist: Response -> Json,
    parse: Json -> Result<Response, ParseError>,
    genuine: Response -> bool)

  ghost predicate Faithful(c: Codec)
  {
    forall r :: c.genuine(r) ==> c.parse(c.persist(r)) == Ok(r)
  }

  function StoredForm(p: Platform): Codec
  {
    Codec(r => Persist(r), j => Parse(j, p), r => WellFormed(r, p))
  }

  lemma StoredFormIsFaithful(p: Platform)
    ensures Faithful(StoredForm(p))
  {
    var c := StoredForm(p);
    forall r | c.genuine(r) ensures c.parse(c.persist(r)) == Ok(r) {
      PersistThenParse(r, p);
    }
  }
}
