/** What both copies of the invoice actions share: the form schema (amount
    above 0 and turned into cents, status `pending` or `paid`, a string
    customer id), the creation date, and the log of effects an action has
    on the invoice store and the page cache. */
module InvoiceRecords {
  import opened Wrappers
  import InvoiceData

  datatype Status = Pending | Paid

  function StatusText(s: Status): (t: string)
    ensures t == "pending" || t == "paid"
    ensures t == "paid" <==> s == Paid
  {
    match s
    case Pending => "pending"
    case Paid => "paid"
  }

  /** The submitted fields as the schema sees them: `customerId` and `status`
      as sent (None when missing or not text) and `amount` after number
      coercion (None when it is not a number). */
  datatype RawForm = RawForm(customerId: Option<string>, amount: Option<real>, status: Option<string>)

  /** Which fields the schema rejected (zod's `fieldErrors`, without the
      message texts). */
  datatype FieldErrors = FieldErrors(customerId: bool, amount: bool, status: bool)

  /** A form the schema accepted, with the amount in cents. */
  datatype NewInvoice = NewInvoice(customerId: string, amountCents: real, status: Status)

  predicate AmountOk(amount: Option<real>)
  {
    amount.Some? && amount.value > 0.0
  }

  function ParseStatus(t: Option<string>): (r: Option<Status>)
    ensures r.Some? <==> t == Some("pending") || t == Some("paid")
    ensures r.Some? ==> Some(StatusText(r.value)) == t
  {
    if t == Some("pending") then Some(Pending)
    else if t == Some("paid") then Some(Paid)
    else None
  }

  /** `CreateInvoice.safeParse` / `UpdateInvoice.parse`: every field is
      checked, and every failing field is reported. */
  function Validate(raw: RawForm): (r: Result<NewInvoice, FieldErrors>)
    ensures r.Success? <==> raw.customerId.Some? && AmountOk(raw.amount) &&
                            (raw.status == Some("pending") || raw.status == Some("paid"))
    ensures r.Success? ==> r.value.customerId == raw.customerId.value &&
                           r.value.amountCents == raw.amount.value * 100.0 &&
                           r.value.amountCents > 0.0 &&
                           Some(StatusText(r.value.status)) == raw.status
    ensures r.Failure? ==> r.error.customerId == raw.customerId.None? &&
                           r.error.amount == !AmountOk(raw.amount) &&
                           r.error.status == ParseStatus(raw.status).None?
    ensures r.Failure? ==> r.error.customerId || r.error.amount || r.error.status
  {
    var status := ParseStatus(raw.status);
    if raw.customerId.Some? && AmountOk(raw.amount) && status.Some? then
      Success(NewInvoice(raw.customerId.value, raw.amount.value * 100.0, status.value))
    else
      Failure(FieldErrors(raw.customerId.None?, !AmountOk(raw.amount), status.None?))
  }

  /** The edit form reads an accepted amount back as the amount entered:
      cents stored on write, divided by 100 on read. */
  lemma StoredAmountReadsBack(raw: RawForm)
    requires Validate(raw).Success?
    ensures InvoiceData.CentsToMajor(Validate(raw).value.amountCents) == raw.amount.value
  {
    var cents := Validate(raw).value.amountCents;
    assert InvoiceData.CentsToMajor(cents) * 100.0 == raw.amount.value * 100.0;
  }

  /** `isoString.split('T')[0]`: everything before the first `T`. */
  function DatePart(iso: string): (date: string)
    ensures date <= iso
    ensures 'T' !in date
    ensures |date| < |iso| ==> iso[|date|] == 'T'
  {
    if iso == [] || iso[0] == 'T' then [] else [iso[0]] + DatePart(iso[1..])
  }

  /** For a timestamp `YYYY-MM-DDThh:mm:ss.sssZ` the date part is `YYYY-MM-DD`. */
  lemma {:induction false} DatePartOfTimestamp(date: string, time: string)
    requires 'T' !in date
    ensures DatePart(date + "T" + time) == date
  {
    if date != [] {
      assert (date + "T" + time)[1..] == date[1..] + "T" + time;
      DatePartOfTimestamp(date[1..], time);
    } else {
      assert (date + "T" + time)[0] == 'T';
    }
  }

  const INVOICES_PATH := "/dashboard/invoices"

  /** What an action does to the store and the cache. */
  datatype Effect =
    | Inserted(invoice: NewInvoice, date: string)
    | Updated(id: string, invoice: NewInvoice)
    | Deleted(id: string)
    | Revalidated(path: string)
  {
    predicate IsWrite() { !Revalidated? }
  }

  /** Every write is followed at once by a revalidation of the invoice list,
      and every written invoice has a positive amount. */
  predicate WritesRevalidated(log: seq<Effect>)
  {
    forall i :: 0 <= i < |log| && log[i].IsWrite() ==>
      i + 1 < |log| && log[i + 1] == Revalidated(INVOICES_PATH) &&
      (log[i].Inserted? || log[i].Updated? ==> log[i].invoice.amountCents > 0.0)
  }

  /** Action logs compose: a log ending in a revalidated write may be
      followed by another. */
  lemma AppendRevalidated(log: seq<Effect>, more: seq<Effect>)
    requires WritesRevalidated(log) && WritesRevalidated(more)
    ensures WritesRevalidated(log + more)
  {
    forall i | 0 <= i < |log + more| && (log + more)[i].IsWrite()
      ensures i + 1 < |log + more| && (log + more)[i + 1] == Revalidated(INVOICES_PATH)
    {
      if i < |log| {
        assert log[i].IsWrite();
      } else {
        assert more[i - |log|].IsWrite();
      }
    }
  }

  /** The store and cache the actions act on, as the log of what they did. */
  class InvoiceStore {
    var log: seq<Effect>

    ghost predicate Valid()
      reads this
    {
      WritesRevalidated(log)
    }

    constructor ()
      ensures log == [] && Valid()
    {
      log := [];
    }

    /** A successful write followed by `revalidatePath('/dashboard/invoices')`. */
    method WriteAndRevalidate(e: Effect)
      requires Valid() && e.IsWrite()
      requires e.Inserted? || e.Updated? ==> e.invoice.amountCents > 0.0
      modifies this
      ensures log == old(log) + [e, Revalidated(INVOICES_PATH)]
      ensures Valid()
    {
      AppendRevalidated(log, [e, Revalidated(INVOICES_PATH)]);
      log := log + [e, Revalidated(INVOICES_PATH)];
    }
  }
}
