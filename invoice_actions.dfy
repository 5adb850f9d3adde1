/** The server actions of the current app (`mainApp/app/lib/actions.ts`):
    an authentication check, the schema, one database write, then the cache
    revalidation and an optional redirect. The database write is a fallible
    call whose success is a parameter; the clock is the ISO timestamp
    passed in. */
module InvoiceActions {
  import opened Wrappers
  import opened InvoiceRecords
  import AuthConfig

  /** The `error` part of a returned state: absent, zod's field errors, or
      the empty array the successful create returns. */
  datatype ErrorPart = Absent | Fields(errors: FieldErrors) | EmptyList

  datatype FormState = FormState(message: string, error: ErrorPart)

  /** How an action ends: with a value, with a redirect (Next's redirect
      throws), with a thrown validation error or error, or with nothing. */
  datatype Outcome =
    | Returned(state: FormState)
    | Redirected(path: string)
    | ThrewValidation(errors: FieldErrors)
    | ThrewError(message: string)
    | ReturnedNothing

  const NOT_AUTHENTICATED := "You are not authenticated."
  const MISSING_FIELDS := "Missing Fields. Failed to Create Invoice."
  const CREATE_FAILED := "Database Error: Failed to Create Invoice."
  const UPDATE_FAILED := "Database Error: Failed to Update Invoice."
  const CREATED := "Created Invoice."
  const UPDATED := "Updated Invoice."

  /** `createInvoice`. */
  method CreateInvoice(store: InvoiceStore, needRedirect: bool, session: Option<AuthConfig.Session>,
                       raw: RawForm, nowIso: string, insertSucceeds: bool) returns (o: Outcome)
    requires store.Valid()
    modifies store
    ensures store.Valid()
    ensures !AuthConfig.IsLoggedIn(session) ==>
      o == Returned(FormState(NOT_AUTHENTICATED, Absent)) && store.log == old(store.log)
    ensures AuthConfig.IsLoggedIn(session) && Validate(raw).Failure? ==>
      o == Returned(FormState(MISSING_FIELDS, Fields(Validate(raw).error))) && store.log == old(store.log)
    ensures AuthConfig.IsLoggedIn(session) && Validate(raw).Success? && !insertSucceeds ==>
      o == Returned(FormState(CREATE_FAILED, Absent)) && store.log == old(store.log)
    ensures AuthConfig.IsLoggedIn(session) && Validate(raw).Success? && insertSucceeds ==>
      store.log == old(store.log) + [Inserted(Validate(raw).value, DatePart(nowIso)), Revalidated(INVOICES_PATH)] &&
      o == (if needRedirect then Redirected(INVOICES_PATH) else Returned(FormState(CREATED, EmptyList)))
  {
    if !AuthConfig.IsLoggedIn(session) {
      return Returned(FormState(NOT_AUTHENTICATED, Absent));
    }
    var validated := Validate(raw);
    if validated.Failure? {
      return Returned(FormState(MISSING_FIELDS, Fields(validated.error)));
    }
    var date := DatePart(nowIso);
    if !insertSucceeds {
      return Returned(FormState(CREATE_FAILED, Absent));
    }
    store.WriteAndRevalidate(Inserted(validated.value, date));
    if needRedirect {
      return Redirected(INVOICES_PATH);
    }
    o := Returned(FormState(CREATED, EmptyList));
  }

  /** `updateInvoice`: the schema is applied with the throwing `parse`. */
  method UpdateInvoice(store: InvoiceStore, needRedirect: bool, id: string, session: Option<AuthConfig.Session>,
                       raw: RawForm, updateSucceeds: bool) returns (o: Outcome)
    requires store.Valid()
    modifies store
    ensures store.Valid()
    ensures !AuthConfig.IsLoggedIn(session) ==>
      o == Returned(FormState(NOT_AUTHENTICATED, Absent)) && store.log == old(store.log)
    ensures AuthConfig.IsLoggedIn(session) && Validate(raw).Failure? ==>
      o == ThrewValidation(Validate(raw).error) && store.log == old(store.log)
    ensures AuthConfig.IsLoggedIn(session) && Validate(raw).Success? && !updateSucceeds ==>
      o == Returned(FormState(UPDATE_FAILED, Absent)) && store.log == old(store.log)
    ensures AuthConfig.IsLoggedIn(session) && Validate(raw).Success? && updateSucceeds ==>
      store.log == old(store.log) + [Updated(id, Validate(raw).value), Revalidated(INVOICES_PATH)] &&
      o == (if needRedirect then Redirected(INVOICES_PATH) else Returned(FormState(UPDATED, Absent)))
  {
    if !AuthConfig.IsLoggedIn(session) {
      return Returned(FormState(NOT_AUTHENTICATED, Absent));
    }
    var validated := Validate(raw);
    if validated.Failure? {
      return ThrewValidation(validated.error);
    }
    if !updateSucceeds {
      return Returned(FormState(UPDATE_FAILED, Absent));
    }
    store.WriteAndRevalidate(Updated(id, validated.value));
    if needRedirect {
      return Redirected(INVOICES_PATH);
    }
    o := Returned(FormState(UPDATED, Absent));
  }

  /** `deleteInvoice`: throws when signed out; a database error is swallowed
      and then nothing is revalidated. */
  method DeleteInvoice(store: InvoiceStore, id: string, session: Option<AuthConfig.Session>,
                       deleteSucceeds: bool) returns (o: Outcome)
    requires store.Valid()
    modifies store
    ensures store.Valid()
    ensures !AuthConfig.IsLoggedIn(session) ==> o == ThrewError(NOT_AUTHENTICATED) && store.log == old(store.log)
    ensures AuthConfig.IsLoggedIn(session) ==> o == ReturnedNothing
    ensures AuthConfig.IsLoggedIn(session) && !deleteSucceeds ==> store.log == old(store.log)
    ensures AuthConfig.IsLoggedIn(session) && deleteSucceeds ==>
      store.log == old(store.log) + [Deleted(id), Revalidated(INVOICES_PATH)]
  {
    if !AuthConfig.IsLoggedIn(session) {
      return ThrewError(NOT_AUTHENTICATED);
    }
    if deleteSucceeds {
      store.WriteAndRevalidate(Deleted(id));
    }
    o := ReturnedNothing;
  }
}
