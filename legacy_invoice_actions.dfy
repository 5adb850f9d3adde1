/** The server actions of the earlier app (`app/lib/actions.ts`): the same
    schema and messages, no authentication check, and an unconditional
    redirect after a successful create or update. */
module LegacyInvoiceActions {
  import opened Wrappers
  import opened InvoiceRecords
  import InvoiceActions

  const DELETED := "Deleted Invoice."
  const DELETE_FAILED := "Database Error: Failed to Delete Invoice."

  /** `createInvoice`. */
  method CreateInvoice(store: InvoiceStore, raw: RawForm, nowIso: string, insertSucceeds: bool)
      returns (o: InvoiceActions.Outcome)
    requires store.Valid()
    modifies store
    ensures store.Valid()
    ensures Validate(raw).Failure? ==>
      o == InvoiceActions.Returned(InvoiceActions.FormState(InvoiceActions.MISSING_FIELDS,
                                                            InvoiceActions.Fields(Validate(raw).error))) &&
      store.log == old(store.log)
    ensures Validate(raw).Success? && !insertSucceeds ==>
      o == InvoiceActions.Returned(InvoiceActions.FormState(InvoiceActions.CREATE_FAILED, InvoiceActions.Absent)) &&
      store.log == old(store.log)
    ensures Validate(raw).Success? && insertSucceeds ==>
      o == InvoiceActions.Redirected(INVOICES_PATH) &&
      store.log == old(store.log) + [Inserted(Validate(raw).value, DatePart(nowIso)), Revalidated(INVOICES_PATH)]
  {
    var validated := Validate(raw);
    if validated.Failure? {
      return InvoiceActions.Returned(InvoiceActions.FormState(InvoiceActions.MISSING_FIELDS,
                                                              InvoiceActions.Fields(validated.error)));
    }
    var date := DatePart(nowIso);
    if !insertSucceeds {
      return InvoiceActions.Returned(InvoiceActions.FormState(InvoiceActions.CREATE_FAILED, InvoiceActions.Absent));
    }
    store.WriteAndRevalidate(Inserted(validated.value, date));
    o := InvoiceActions.Redirected(INVOICES_PATH);
  }

  /** `updateInvoice`: the throwing `parse`, then the write. */
  method UpdateInvoice(store: InvoiceStore, id: string, raw: RawForm, updateSucceeds: bool)
      returns (o: InvoiceActions.Outcome)
    requires store.Valid()
    modifies store
    ensures store.Valid()
    ensures Validate(raw).Failure? ==> o == InvoiceActions.ThrewValidation(Validate(raw).error) && store.log == old(store.log)
    ensures Validate(raw).Success? && !updateSucceeds ==>
      o == InvoiceActions.Returned(InvoiceActions.FormState(InvoiceActions.UPDATE_FAILED, InvoiceActions.Absent)) &&
      store.log == old(store.log)
    ensures Validate(raw).Success? && updateSucceeds ==>
      o == InvoiceActions.Redirected(INVOICES_PATH) &&
      store.log == old(store.log) + [Updated(id, Validate(raw).value), Revalidated(INVOICES_PATH)]
  {
    var validated := Validate(raw);
    if validated.Failure? {
      return InvoiceActions.ThrewValidation(validated.error);
    }
    if !updateSucceeds {
      return InvoiceActions.Returned(InvoiceActions.FormState(InvoiceActions.UPDATE_FAILED, InvoiceActions.Absent));
    }
    store.WriteAndRevalidate(Updated(id, validated.value));
    o := InvoiceActions.Redirected(INVOICES_PATH);
  }

  /** `deleteInvoice`: always returns a message, never throws. */
  method DeleteInvoice(store: InvoiceStore, id: string, deleteSucceeds: bool) returns (o: InvoiceActions.Outcome)
    requires store.Valid()
    modifies store
    ensures store.Valid()
    ensures o.Returned? && o.state.error == InvoiceActions.Absent
    ensures deleteSucceeds ==>
      o.state.message == DELETED &&
      store.log == old(store.log) + [Deleted(id), Revalidated(INVOICES_PATH)]
    ensures !deleteSucceeds ==> o.state.message == DELETE_FAILED && store.log == old(store.log)
  {
    if deleteSucceeds {
      store.WriteAndRevalidate(Deleted(id));
      return InvoiceActions.Returned(InvoiceActions.FormState(DELETED, InvoiceActions.Absent));
    }
    o := InvoiceActions.Returned(InvoiceActions.FormState(DELETE_FAILED, InvoiceActions.Absent));
  }
}
