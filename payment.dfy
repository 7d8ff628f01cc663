/** The payment page of `src/pages/Payment.js`: a form prefilled from the
    signed-in user and the quotation handed over, its field-by-field edits,
    and the validation and document assembly of a Paynow payment request.
    The store's `create` is not called; how it settles is an input. */
module Payment {
  import opened Common
  import Quotation

  const NOT_CONFIGURED_ERROR := "Payments are not configured yet. Please contact ByteAxis."
  const REQUIRED_ERROR := "Amount and email are required."
  const SUBMITTED_MESSAGE := "Payment request submitted. Our team will confirm the Paynow link."
  const SUBMIT_FAILED_ERROR := "Unable to submit payment request. Please try again."
  const DEFAULT_PROJECT_NAME := "Custom Project"
  const CURRENCY := "USD"
  const METHOD := "Paynow"

  /** The `amount` field holds the handed-over quote total (a number) until
      the first edit, and the input's text after it. */
  datatype Amount = Number(n: real) | Text(s: string)

  /** JavaScript truthiness of the amount: a non-zero number or a non-empty
      text. */
  predicate AmountTruthy(a: Amount) {
    match a
    case Number(n) => n != 0.0
    case Text(s) => s != ""
  }

  /** `parseFloat(form.amount)`: a number is itself; a text is read by
      `parse`, whose `None` stands for `NaN`. */
  function ParseAmount(a: Amount, parse: string -> Option<real>): (r: Option<real>)
    ensures a.Number? ==> r == Some(a.n)
    ensures a.Text? ==> r == parse(a.s)
  {
    match a
    case Number(n) => Some(n)
    case Text(s) => parse(s)
  }

  datatype PaymentForm = PaymentForm(
    fullName: string, email: string, phone: string, amount: Amount,
    projectName: string, companyName: string, reference: string)

  /** The `name` attributes of the seven inputs. */
  datatype Field = FullName | Email | Phone | AmountField | ProjectName | CompanyName | Reference

  /** The text a field shows; a number amount has no text of its own. */
  function Get(form: PaymentForm, field: Field): Option<string> {
    match field
    case FullName => Some(form.fullName)
    case Email => Some(form.email)
    case Phone => Some(form.phone)
    case AmountField => if form.amount.Text? then Some(form.amount.s) else None
    case ProjectName => Some(form.projectName)
    case CompanyName => Some(form.companyName)
    case Reference => Some(form.reference)
  }

  /** `handleChange`: `{ ...prev, [name]: value }`. The edited field reads
      back the new text and every other field is untouched. */
  function With(form: PaymentForm, field: Field, value: string): (r: PaymentForm)
    ensures Get(r, field) == Some(value)
    ensures forall g :: g != field ==> Get(r, g) == Get(form, g)
    ensures field != AmountField ==> r.amount == form.amount
  {
    match field
    case FullName => form.(fullName := value)
    case Email => form.(email := value)
    case Phone => form.(phone := value)
    case AmountField => form.(amount := Text(value))
    case ProjectName => form.(projectName := value)
    case CompanyName => form.(companyName := value)
    case Reference => form.(reference := value)
  }

  /** Editing the same field twice keeps only the second value. */
  lemma WithTwice(form: PaymentForm, field: Field, v1: string, v2: string)
    ensures With(With(form, field, v1), field, v2) == With(form, field, v2)
  {
  }

  /** Edits of two different fields commute. */
  lemma WithCommutes(form: PaymentForm, f: Field, g: Field, v: string, w: string)
    requires f != g
    ensures With(With(form, f, v), g, w) == With(With(form, g, w), f, v)
  {
  }

  /** The initial form: name and email from the user (or empty), amount,
      project and company from the handed-over quote (or empty), phone and
      reference empty. A zero total is falsy and gives an empty amount. */
  function InitialForm(user: Option<User>, quote: Option<Quotation.QuoteHandoff>): (r: PaymentForm)
    ensures r.fullName == Or(UserFullName(user), "") && r.email == Or(UserEmail(user), "")
    ensures r.phone == "" && r.reference == ""
    ensures quote.None? ==> r.amount == Text("") && r.projectName == "" && r.companyName == ""
    ensures quote.Some? ==>
      && r.amount == (if quote.value.total != 0.0 then Number(quote.value.total) else Text(""))
      && r.projectName == quote.value.projectName && r.companyName == quote.value.companyName
    ensures AmountTruthy(r.amount) <==> quote.Some? && quote.value.total != 0.0
  {
    var amount := if quote.Some? && quote.value.total != 0.0 then Number(quote.value.total) else Text("");
    var projectName := if quote.Some? then quote.value.projectName else "";
    var companyName := if quote.Some? then quote.value.companyName else "";
    PaymentForm(Or(UserFullName(user), ""), Or(UserEmail(user), ""), "", amount, projectName, companyName, "")
  }

  /** The status values of a payment request. */
  datatype PaymentStatus = Pending | Processing | Paid | Failed

  /** The `paymentRequest` document handed to the store's `create`. An
      amount that does not parse is `None`; the `method` field is called
      `payMethod` because `method` is a Dafny keyword. */
  datatype PaymentRequest = PaymentRequest(
    projectName: string, companyName: string, amount: Option<real>,
    currency: string, payMethod: string, email: string, phone: string, reference: string,
    status: PaymentStatus, client: ClientInfo, createdAt: string)

  /** The `client` block: the user's data where present, the form's name and
      email otherwise, and an empty id for a signed-out visitor. */
  function PaymentClient(user: Option<User>, form: PaymentForm): ClientInfo {
    ClientInfo(Or(UserId(user), ""), Or(UserFullName(user), form.fullName), Or(UserEmail(user), form.email))
  }

  /** The validation and document assembly of `handleSubmit`: a missing write
      client is reported first, then a falsy amount or email; otherwise the
      document is a pending USD Paynow request carrying the form's fields. */
  function BuildPaymentRequest(client: WriteClient, form: PaymentForm, user: Option<User>, createdAt: string,
                               parse: string -> Option<real>): (r: Result<PaymentRequest>)
    ensures client.Unconfigured? ==> r == Failure(NOT_CONFIGURED_ERROR)
    ensures client.Configured? && (!AmountTruthy(form.amount) || form.email == "") ==> r == Failure(REQUIRED_ERROR)
    ensures client.Configured? && AmountTruthy(form.amount) && form.email != "" ==> r.Success?
    ensures r.Success? ==>
      var doc := r.value;
      && doc.status == Pending && doc.currency == CURRENCY && doc.payMethod == METHOD
      && doc.projectName == OrElse(form.projectName, DEFAULT_PROJECT_NAME)
      && doc.companyName == form.companyName
      && doc.amount == ParseAmount(form.amount, parse)
      && doc.email == form.email && doc.email != ""
      && doc.phone == form.phone && doc.reference == form.reference
      && doc.client == PaymentClient(user, form) && doc.client.email != ""
      && doc.createdAt == createdAt
  {
    if client.Unconfigured? then Failure(NOT_CONFIGURED_ERROR)
    else if !AmountTruthy(form.amount) || form.email == "" then Failure(REQUIRED_ERROR)
    else
      Success(PaymentRequest(
        OrElse(form.projectName, DEFAULT_PROJECT_NAME), form.companyName, ParseAmount(form.amount, parse),
        CURRENCY, METHOD, form.email, form.phone, form.reference, Pending,
        PaymentClient(user, form), createdAt))
  }

  /** Paying straight after a quotation: when items were selected and the
      user has an email, the request is accepted and carries the quote's
      total and project name unchanged, whatever the parser does. */
  lemma {:induction false} QuoteTotalReachesPayment(quoteForm: Quotation.QuoteForm, sel: Quotation.Selection,
                                                    user: Option<User>, createdAt: string,
                                                    parse: string -> Option<real>)
    requires Quotation.SelectedItems(Quotation.CATALOG, sel) != []
    requires UserEmail(user).Some? && UserEmail(user).value != ""
    ensures var h := Quotation.Handoff(quoteForm, sel);
      var r := BuildPaymentRequest(Configured, InitialForm(user, Some(h)), user, createdAt, parse);
      && r.Success? && r.value.amount == Some(h.total) && r.value.projectName == h.projectName
      && r.value.email == UserEmail(user).value
  {
    Quotation.ProceedEnabledIffSelection(quoteForm, sel);
  }

  /** A visitor with no quote and no edits cannot submit: the amount is
      empty. */
  lemma EmptyFormRejected(user: Option<User>, createdAt: string, parse: string -> Option<real>)
    ensures BuildPaymentRequest(Configured, InitialForm(user, None), user, createdAt, parse) == Failure(REQUIRED_ERROR)
  {
  }

  /** The page state and its handlers. The `await` of `handleSubmit` is split
      into the handler that issues the `create` and the continuation that
      runs when it settles. */
  class PaymentPage {
    var form: PaymentForm
    var status: FormStatus

    ghost predicate Valid()
      reads this
    {
      StatusValid(status)
    }

    constructor (user: Option<User>, quote: Option<Quotation.QuoteHandoff>)
      ensures form == InitialForm(user, quote) && status == FormStatus(false, "", "")
      ensures Valid()
    {
      form := InitialForm(user, quote);
      status := FormStatus(false, "", "");
    }

    method HandleChange(field: Field, value: string)
      modifies this`form
      ensures form == With(old(form), field, value)
    {
      form := With(form, field, value);
    }

    /** `handleSubmit` up to the `create` call. While a submission is loading
        the submit button is disabled and nothing happens. Otherwise a
        validation failure shows its message; a valid form sets loading and
        returns the document to create. */
    method Submit(client: WriteClient, user: Option<User>, createdAt: string, parse: string -> Option<real>)
      returns (sent: Option<PaymentRequest>)
      requires Valid()
      modifies this`status
      ensures Valid()
      ensures old(status.loading) ==> sent.None? && status == old(status)
      ensures !old(status.loading) ==>
        match BuildPaymentRequest(client, form, user, createdAt, parse)
        case Failure(e) => sent.None? && status == FormStatus(false, e, "")
        case Success(doc) => sent == Some(doc) && status == FormStatus(true, "", "")
    {
      if status.loading {
        sent := None;
        return;
      }
      var r := BuildPaymentRequest(client, form, user, createdAt, parse);
      match r
      case Failure(e) =>
        status := FormStatus(false, e, "");
        sent := None;
      case Success(doc) =>
        status := FormStatus(true, "", "");
        sent := Some(doc);
    }

    /** The rest of `handleSubmit` once `create` settles. */
    method SubmitSettled(outcome: CreateOutcome)
      modifies this`status
      ensures Valid()
      ensures outcome.Created? ==> status == FormStatus(false, "", SUBMITTED_MESSAGE)
      ensures outcome.CreateFailed? ==> status == FormStatus(false, SUBMIT_FAILED_ERROR, "")
    {
      if outcome.Created? {
        status := FormStatus(false, "", SUBMITTED_MESSAGE);
      } else {
        status := FormStatus(false, SUBMIT_FAILED_ERROR, "");
      }
    }
  }
}
