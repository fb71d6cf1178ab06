/** The money-movement page: the transfer and bill-pay forms with their
    schemas and default values, the in-memory lists of payees and scheduled
    payments, and the submit, cancel-payment and remove-payee transitions.
    Amounts are in cents; a calendar date is represented by the `YYYY-MM-DD`
    text of its UTC day, which is all the page keeps of it. */
module MoveMoney {
  import opened Wrappers
  import opened JsSemantics
  import opened Validation

  datatype Date = Date(utcDay: string)

  datatype Account = Account(id: string, name: string, balanceCents: int)

  datatype Payee = Payee(id: string, name: string)

  datatype ScheduledPayment = ScheduledPayment(
    id: string,
    payee: string,
    amountCents: int,
    date: string,
    account: string,
    status: string)

  /** The transfer form's values as the schema receives them. An absent
      optional field is None. */
  datatype TransferForm = TransferForm(
    fromAccount: string,
    transferType: Option<string>,
    toMyAccount: Option<string>,
    toExternalRecipientName: Option<string>,
    toExternalRecipientAccount: Option<string>,
    amountCents: int,
    date: Option<Date>,
    memo: Option<string>,
    isRecurring: Option<bool>)

  datatype BillPayForm = BillPayForm(
    payee: string,
    fromAccount: string,
    amountCents: int,
    paymentDate: Option<Date>,
    frequency: Option<string>,
    notes: Option<string>)

  /** Everything the page holds: the two editable lists and the two forms.
      The account directory is fixed (see `Accounts`). */
  datatype Page = Page(
    payees: seq<Payee>,
    scheduled: seq<ScheduledPayment>,
    transferForm: TransferForm,
    billPayForm: BillPayForm)

  const MaxNoteLength: nat := 100
  const UnknownPayee := "Unknown Payee"
  const UnknownAccount := "Unknown Account"
  const ScheduledStatus := "Scheduled"

  const Accounts: seq<Account> := [
    Account("acc1", "Primary Checking - xxxx1234", 525075),
    Account("acc2", "High-Yield Savings - xxxx5678", 1012020),
    Account("acc3", "Business Account - xxxx9012", 2530000)
  ]

  const InitialPayees: seq<Payee> := [
    Payee("payee1", "City Electric Co."),
    Payee("payee2", "Water Services Inc."),
    Payee("payee3", "Internet Provider Plus")
  ]

  const InitialScheduled: seq<ScheduledPayment> := [
    ScheduledPayment("sch1", "City Electric Co.", 7500, "2024-09-15", "Primary Checking - xxxx1234", "Scheduled"),
    ScheduledPayment("sch2", "Internet Provider Plus", 6000, "2024-09-20", "Primary Checking - xxxx1234", "Scheduled")
  ]

  /** The transfer form's values on mount and after every reset; no date is
      selected. */
  const DefaultTransferForm := TransferForm(
    "", Some("myAccount"), Some(""), Some(""), Some(""), 0, None, Some(""), Some(false))

  const DefaultBillPayForm := BillPayForm("", "", 0, None, Some("one-time"), Some(""))

  const InitialPage := Page(InitialPayees, InitialScheduled, DefaultTransferForm, DefaultBillPayForm)

  // ---------------------------------------------------------------- transfer

  const TransferTypes: seq<string> := ["myAccount", "externalRecipient"]

  /** A value of an enumeration field: one issue when it is missing or not
      one of `members`; either is a type error. */
  function EnumIssues(path: string, o: Option<string>, members: seq<string>,
                      requiredMessage: string, invalidMessage: string): (r: seq<Issue>)
    ensures Paths(r) == When(!(o.Some? && o.value in members), path)
  {
    PathsSingle(Issue(path, requiredMessage));
    PathsSingle(Issue(path, invalidMessage));
    if o.None? then [Issue(path, requiredMessage)]
    else if o.value in members then []
    else [Issue(path, invalidMessage)]
  }

  /** A required date: a missing one is a type error. */
  function DateIssues(path: string, o: Option<Date>, requiredMessage: string): (r: seq<Issue>)
    ensures Paths(r) == When(o.None?, path)
  {
    PathsSingle(Issue(path, requiredMessage));
    if o.None? then [Issue(path, requiredMessage)] else []
  }

  function InvalidEnumMessage(members: string, received: string): string {
    "Invalid enum value. Expected " + members + ", received '" + received + "'"
  }

  /** The transfer schema's field checks, in the order its fields are
      declared: which paths get an issue, and when the form has a type error. */
  function TransferFieldChecks(f: TransferForm): (c: FieldCheck)
    ensures Paths(c.issues) ==
      When(f.fromAccount == "", "fromAccount")
      + When(!(f.transferType.Some? && f.transferType.value in TransferTypes), "transferType")
      + When(f.amountCents <= 0, "amount")
      + When(f.date.None?, "date")
      + When(f.memo.Some? && |f.memo.value| > MaxNoteLength, "memo")
    ensures c.typeError <==> !(f.transferType.Some? && f.transferType.value in TransferTypes && f.date.Some?)
  {
    var fromAccount := MinLength("fromAccount", f.fromAccount, 1, "Please select a source account.");
    var transferType := EnumIssues("transferType", f.transferType, TransferTypes, "Please select transfer type.",
                                   InvalidEnumMessage("'myAccount' | 'externalRecipient'", f.transferType.GetOr("")));
    var amount := Positive("amount", f.amountCents, "Amount must be a positive number.");
    var date := DateIssues("date", f.date, "Please select a transfer date.");
    var memo := MaxLengthOpt("memo", f.memo, MaxNoteLength, "Memo can be up to 100 characters.");
    var issues := fromAccount + transferType + amount + date + memo;
    PathsJoin(fromAccount, transferType);
    PathsJoin(fromAccount + transferType, amount);
    PathsJoin(fromAccount + transferType + amount, date);
    PathsJoin(fromAccount + transferType + amount + date, memo);
    FieldCheck(issues, transferType != [] || date != [])
  }

  /** The first refinement: a transfer between own accounts needs a destination. */
  predicate HasDestinationAccount(f: TransferForm) {
    !(f.transferType == Some("myAccount") && !TruthyOpt(f.toMyAccount))
  }

  /** The second refinement: an external transfer needs both recipient fields. */
  predicate HasExternalRecipient(f: TransferForm) {
    !(f.transferType == Some("externalRecipient")
      && (!TruthyOpt(f.toExternalRecipientName) || !TruthyOpt(f.toExternalRecipientAccount)))
  }

  /** Whether the transfer form has no type error, so that the refinements run. */
  predicate TransferWellTyped(f: TransferForm) {
    f.transferType.Some? && f.transferType.value in TransferTypes && f.date.Some?
  }

  /** The issues the transfer schema reports, field by field. */
  function TransferIssues(f: TransferForm): (r: seq<Issue>)
    ensures Paths(r) ==
      When(f.fromAccount == "", "fromAccount")
      + When(!(f.transferType.Some? && f.transferType.value in TransferTypes), "transferType")
      + When(f.amountCents <= 0, "amount")
      + When(f.date.None?, "date")
      + When(f.memo.Some? && |f.memo.value| > MaxNoteLength, "memo")
      + When(TransferWellTyped(f) && !HasDestinationAccount(f), "toMyAccount")
      + When(TransferWellTyped(f) && !HasExternalRecipient(f), "toExternalRecipientName")
  {
    var fields := TransferFieldChecks(f);
    var refinements :=
      Refinement(HasDestinationAccount(f), "toMyAccount", "Please select a destination account.")
      + Refinement(HasExternalRecipient(f), "toExternalRecipientName",
                   "Recipient name and account are required for external transfers.");
    PathsJoin(Refinement(HasDestinationAccount(f), "toMyAccount", "Please select a destination account."),
              Refinement(HasExternalRecipient(f), "toExternalRecipientName",
                         "Recipient name and account are required for external transfers."));
    ObjectIssues(fields, refinements)
  }

  /** A transfer the schema accepts, stated rule by rule. */
  predicate TransferAcceptable(f: TransferForm) {
    && |f.fromAccount| >= 1
    && f.transferType.Some? && f.transferType.value in TransferTypes
    && f.amountCents > 0
    && f.date.Some?
    && (f.memo.None? || |f.memo.value| <= MaxNoteLength)
    && HasDestinationAccount(f)
    && HasExternalRecipient(f)
  }

  /** The transfer schema reports no issue exactly when every rule holds. */
  lemma TransferIssuesEmptyIff(f: TransferForm)
    ensures TransferIssues(f) == [] <==> TransferAcceptable(f)
  {
    var r := TransferIssues(f);
    if r != [] {
      assert HasIssueAt(r, r[0].path) by { assert r[0] in r; }
    }
  }

  /** The form's own defaults are never accepted: the amount is zero and no
      date is selected. */
  lemma DefaultTransferRejected()
    ensures HasIssueAt(TransferIssues(DefaultTransferForm), "amount")
    ensures HasIssueAt(TransferIssues(DefaultTransferForm), "date")
  {
  }

  /** Once the form is well typed, a transfer between own accounts with an empty
      or missing destination is reported on `toMyAccount`, while the external
      recipient fields play no part. */
  lemma MyAccountTransferIgnoresExternalFields(f: TransferForm, name: Option<string>, acct: Option<string>)
    requires f.transferType == Some("myAccount")
    ensures TransferIssues(f.(toExternalRecipientName := name, toExternalRecipientAccount := acct))
            == TransferIssues(f)
    ensures f.date.Some? && !TruthyOpt(f.toMyAccount) ==> HasIssueAt(TransferIssues(f), "toMyAccount")
  {
    var g := f.(toExternalRecipientName := name, toExternalRecipientAccount := acct);
    assert TransferFieldChecks(g) == TransferFieldChecks(f);
    assert HasExternalRecipient(g) && HasExternalRecipient(f);
    assert HasDestinationAccount(g) == HasDestinationAccount(f);
  }

  /** For an external transfer the own-account destination is never required,
      and a missing recipient name or account is reported once, on the name,
      after the field issues. */
  lemma ExternalTransferIgnoresMyAccount(f: TransferForm, dest: Option<string>)
    requires f.transferType == Some("externalRecipient")
    ensures TransferIssues(f.(toMyAccount := dest)) == TransferIssues(f)
    ensures !HasIssueAt(TransferIssues(f), "toMyAccount")
    ensures f.date.Some? && !HasExternalRecipient(f)
            ==> TransferIssues(f) == TransferFieldChecks(f).issues
                  + [Issue("toExternalRecipientName", "Recipient name and account are required for external transfers.")]
  {
    var g := f.(toMyAccount := dest);
    assert TransferFieldChecks(g) == TransferFieldChecks(f);
    assert HasDestinationAccount(g) && HasDestinationAccount(f);
    assert HasExternalRecipient(g) == HasExternalRecipient(f);
  }

  /** A missing date is a type error, so the destination rules are not
      evaluated and their issues do not appear. */
  lemma MissingDateSkipsRefinements(f: TransferForm)
    requires f.date.None?
    ensures !HasIssueAt(TransferIssues(f), "toMyAccount")
    ensures !HasIssueAt(TransferIssues(f), "toExternalRecipientName")
  {
  }

  /** Submitting the transfer form: rejected with the schema's issues, or
      accepted, which leaves the lists alone and resets the form. */
  function SubmitTransfer(page: Page): (r: Submission<Page>)
    ensures r.Rejected? <==> !TransferAcceptable(page.transferForm)
    ensures r.Rejected? ==> r.issues != [] && r.issues == TransferIssues(page.transferForm)
    ensures r.Accepted? ==> r.next.transferForm == DefaultTransferForm
    ensures r.Accepted? ==> r.next.payees == page.payees && r.next.scheduled == page.scheduled
                            && r.next.billPayForm == page.billPayForm
  {
    var issues := TransferIssues(page.transferForm);
    TransferIssuesEmptyIff(page.transferForm);
    if issues != [] then Rejected(issues)
    else Accepted(page.(transferForm := DefaultTransferForm))
  }

  // ---------------------------------------------------------------- bill pay

  const Frequencies: seq<string> := ["one-time", "monthly", "weekly"]

  /** The issues the bill-pay schema reports, one per failing field, in the
      order its fields are declared; it has no refinements. */
  function BillPayIssues(f: BillPayForm): (r: seq<Issue>)
    ensures Paths(r) ==
      When(f.payee == "", "payee")
      + When(f.fromAccount == "", "fromAccount")
      + When(f.amountCents <= 0, "amount")
      + When(f.paymentDate.None?, "paymentDate")
      + When(!(f.frequency.Some? && f.frequency.value in Frequencies), "frequency")
      + When(f.notes.Some? && |f.notes.value| > MaxNoteLength, "notes")
  {
    var payee := MinLength("payee", f.payee, 1, "Please select a payee.");
    var fromAccount := MinLength("fromAccount", f.fromAccount, 1, "Please select a source account.");
    var amount := Positive("amount", f.amountCents, "Amount must be a positive number.");
    var date := DateIssues("paymentDate", f.paymentDate, "Please select a payment date.");
    var frequency := EnumIssues("frequency", f.frequency, Frequencies, "Please select payment frequency.",
                                InvalidEnumMessage("'one-time' | 'monthly' | 'weekly'", f.frequency.GetOr("")));
    var notes := MaxLengthOpt("notes", f.notes, MaxNoteLength, "Notes can be up to 100 characters.");
    var issues := payee + fromAccount + amount + date + frequency + notes;
    PathsJoin(payee, fromAccount);
    PathsJoin(payee + fromAccount, amount);
    PathsJoin(payee + fromAccount + amount, date);
    PathsJoin(payee + fromAccount + amount + date, frequency);
    PathsJoin(payee + fromAccount + amount + date + frequency, notes);
    issues
  }

  /** A bill payment the schema accepts, stated rule by rule. */
  predicate BillPayAcceptable(f: BillPayForm) {
    && |f.payee| >= 1
    && |f.fromAccount| >= 1
    && f.amountCents > 0
    && f.paymentDate.Some?
    && f.frequency.Some? && f.frequency.value in Frequencies
    && (f.notes.None? || |f.notes.value| <= MaxNoteLength)
  }

  lemma BillPayIssuesEmptyIff(f: BillPayForm)
    ensures BillPayIssues(f) == [] <==> BillPayAcceptable(f)
  {
    var r := BillPayIssues(f);
    if r != [] {
      assert HasIssueAt(r, r[0].path) by { assert r[0] in r; }
    }
  }

  /** The bill-pay defaults are never accepted. */
  lemma DefaultBillPayRejected()
    ensures HasIssueAt(BillPayIssues(DefaultBillPayForm), "payee")
    ensures HasIssueAt(BillPayIssues(DefaultBillPayForm), "amount")
    ensures HasIssueAt(BillPayIssues(DefaultBillPayForm), "paymentDate")
  {
  }

  /** The name shown for an id: the name of the first element with that id,
      or `fallback` when there is none or that name is empty (an empty string
      does not survive `||`). */
  function ResolveName<T>(xs: seq<T>, idOf: T -> string, nameOf: T -> string, id: string,
                          fallback: string): (r: string)
    ensures (forall i :: 0 <= i < |xs| ==> idOf(xs[i]) != id) ==> r == fallback
    ensures forall i :: 0 <= i < |xs| && idOf(xs[i]) == id
                        && (forall j :: 0 <= j < i ==> idOf(xs[j]) != id)
                        ==> r == (if nameOf(xs[i]) != "" then nameOf(xs[i]) else fallback)
  {
    match FindIndex(xs, (x: T) => idOf(x) == id)
    case None => fallback
    case Some(i) =>
      assert forall j :: 0 <= j < i ==> idOf(xs[j]) != id by {
        forall j | 0 <= j < i ensures idOf(xs[j]) != id {
          assert !((x: T) => idOf(x) == id)(xs[j]);
        }
      }
      if nameOf(xs[i]) != "" then nameOf(xs[i]) else fallback
  }

  function PayeeId(p: Payee): string { p.id }
  function PayeeName(p: Payee): string { p.name }
  function AccountId(a: Account): string { a.id }
  function AccountName(a: Account): string { a.name }
  function PaymentId(p: ScheduledPayment): string { p.id }

  /** The id a new scheduled payment gets when the list holds `n` entries. */
  function ScheduleId(n: nat): string {
    "sch" + DecimalString(n + 1)
  }

  /** Ids handed out at different list lengths differ. */
  lemma ScheduleIdInjective(m: nat, n: nat)
    requires ScheduleId(m) == ScheduleId(n)
    ensures m == n
  {
    assert DecimalString(m + 1) == ScheduleId(m)[3..];
    assert DecimalString(n + 1) == ScheduleId(n)[3..];
    DecimalStringInjective(m + 1, n + 1);
  }

  /** The record a valid bill-pay form produces. */
  function NewPayment(f: BillPayForm, payees: seq<Payee>, scheduled: seq<ScheduledPayment>): ScheduledPayment
    requires f.paymentDate.Some?
  {
    ScheduledPayment(
      ScheduleId(|scheduled|),
      ResolveName(payees, PayeeId, PayeeName, f.payee, UnknownPayee),
      f.amountCents,
      f.paymentDate.value.utcDay,
      ResolveName(Accounts, AccountId, AccountName, f.fromAccount, UnknownAccount),
      ScheduledStatus)
  }

  /** Submitting the bill-pay form. An accepted form appends exactly one record
      at the end of the scheduled list, whose id is `sch` followed by the new
      length, and resets the form; nothing else changes. */
  function SubmitBillPay(page: Page): (r: Submission<Page>)
    ensures r.Rejected? <==> !BillPayAcceptable(page.billPayForm)
    ensures r.Rejected? ==> r.issues != [] && r.issues == BillPayIssues(page.billPayForm)
    ensures r.Accepted? ==>
      var n := |page.scheduled|;
      var f := page.billPayForm;
      && |r.next.scheduled| == n + 1
      && r.next.scheduled[..n] == page.scheduled
      && r.next.scheduled[n].id == "sch" + DecimalString(n + 1)
      && r.next.scheduled[n].status == "Scheduled"
      && r.next.scheduled[n].amountCents == f.amountCents
      && r.next.scheduled[n].amountCents > 0
      && f.paymentDate.Some? && r.next.scheduled[n].date == f.paymentDate.value.utcDay
      && r.next.payees == page.payees
      && r.next.transferForm == page.transferForm
      && r.next.billPayForm == DefaultBillPayForm
  {
    var f := page.billPayForm;
    var issues := BillPayIssues(f);
    BillPayIssuesEmptyIff(f);
    if issues != [] then Rejected(issues)
    else
      var scheduled := page.scheduled + [NewPayment(f, page.payees, page.scheduled)];
      assert scheduled[..|page.scheduled|] == page.scheduled;
      Accepted(page.(scheduled := scheduled, billPayForm := DefaultBillPayForm))
  }

  /** The payee name of a new record comes from the first payee with the
      selected id, and falls back to "Unknown Payee" when that name is empty. */
  lemma SubmitBillPayResolvesPayee(page: Page, i: nat)
    requires SubmitBillPay(page).Accepted?
    requires i < |page.payees| && page.payees[i].id == page.billPayForm.payee
    requires forall k :: 0 <= k < i ==> page.payees[k].id != page.billPayForm.payee
    ensures SubmitBillPay(page).next.scheduled[|page.scheduled|].payee
            == (if page.payees[i].name != "" then page.payees[i].name else UnknownPayee)
  {
    var f := page.billPayForm;
    assert PayeeId(page.payees[i]) == f.payee;
    assert forall k :: 0 <= k < i ==> PayeeId(page.payees[k]) != f.payee;
  }

  /** The account name of a new record comes from the directory entry with the
      selected id, whether or not the selected payee still exists. */
  lemma SubmitBillPayResolvesAccount(page: Page, j: nat)
    requires SubmitBillPay(page).Accepted?
    requires j < |Accounts| && Accounts[j].id == page.billPayForm.fromAccount
    ensures SubmitBillPay(page).next.scheduled[|page.scheduled|].account == Accounts[j].name
  {
    var f := page.billPayForm;
    assert AccountId(Accounts[j]) == f.fromAccount;
  }

  /** A payee id that no payee has resolves to "Unknown Payee" rather than
      rejecting the submission. */
  lemma SubmitBillPayUnknownPayee(page: Page)
    requires BillPayAcceptable(page.billPayForm)
    requires forall k :: 0 <= k < |page.payees| ==> page.payees[k].id != page.billPayForm.payee
    ensures SubmitBillPay(page).Accepted?
    ensures SubmitBillPay(page).next.scheduled[|page.scheduled|].payee == "Unknown Payee"
  {
    var f := page.billPayForm;
    assert forall k :: 0 <= k < |page.payees| ==> PayeeId(page.payees[k]) != f.payee;
  }

  /** An account id that is not in the directory resolves to
      "Unknown Account" rather than rejecting the submission. */
  lemma SubmitBillPayUnknownAccount(page: Page)
    requires BillPayAcceptable(page.billPayForm)
    requires forall k :: 0 <= k < |Accounts| ==> Accounts[k].id != page.billPayForm.fromAccount
    ensures SubmitBillPay(page).Accepted?
    ensures SubmitBillPay(page).next.scheduled[|page.scheduled|].account == "Unknown Account"
  {
    var f := page.billPayForm;
    assert forall k :: 0 <= k < |Accounts| ==> AccountId(Accounts[k]) != f.fromAccount;
  }

  // ------------------------------------------------------ cancel and remove

  function PaymentIdIsNot(id: string): ScheduledPayment -> bool {
    (p: ScheduledPayment) => p.id != id
  }

  function PaymentIdIs(id: string): ScheduledPayment -> bool {
    (p: ScheduledPayment) => p.id == id
  }

  function PayeeIdIsNot(id: string): Payee -> bool {
    (p: Payee) => p.id != id
  }

  function PayeeIdIs(id: string): Payee -> bool {
    (p: Payee) => p.id == id
  }

  /** Cancelling a scheduled payment keeps exactly the payments whose id
      differs, in their original order; every payment with that id goes. */
  function CancelPayment(page: Page, id: string): (r: Page)
    ensures forall i :: 0 <= i < |r.scheduled| ==> r.scheduled[i] in page.scheduled && r.scheduled[i].id != id
    ensures forall i :: 0 <= i < |page.scheduled| && page.scheduled[i].id != id ==> page.scheduled[i] in r.scheduled
    ensures |r.scheduled| == |page.scheduled| - Count(page.scheduled, PaymentIdIs(id))
    ensures r.payees == page.payees && r.transferForm == page.transferForm && r.billPayForm == page.billPayForm
  {
    var kept := Filter(page.scheduled, PaymentIdIsNot(id));
    CountComplement(page.scheduled, PaymentIdIs(id), PaymentIdIsNot(id));
    page.(scheduled := kept)
  }

  /** Removing a payee keeps exactly the payees whose id differs, in their
      original order. Scheduled payments keep the payee name they stored. */
  function RemovePayee(page: Page, id: string): (r: Page)
    ensures forall i :: 0 <= i < |r.payees| ==> r.payees[i] in page.payees && r.payees[i].id != id
    ensures forall i :: 0 <= i < |page.payees| && page.payees[i].id != id ==> page.payees[i] in r.payees
    ensures |r.payees| == |page.payees| - Count(page.payees, PayeeIdIs(id))
    ensures r.scheduled == page.scheduled && r.transferForm == page.transferForm && r.billPayForm == page.billPayForm
  {
    var kept := Filter(page.payees, PayeeIdIsNot(id));
    CountComplement(page.payees, PayeeIdIs(id), PayeeIdIsNot(id));
    page.(payees := kept)
  }

  /** Cancelling an id no scheduled payment has changes nothing. */
  lemma CancelAbsentIdIsNoOp(page: Page, id: string)
    requires forall i :: 0 <= i < |page.scheduled| ==> page.scheduled[i].id != id
    ensures CancelPayment(page, id) == page
  {
    FilterKeepsAll(page.scheduled, PaymentIdIsNot(id));
  }

  /** Removing an id no payee has changes nothing. */
  lemma RemoveAbsentPayeeIsNoOp(page: Page, id: string)
    requires forall i :: 0 <= i < |page.payees| ==> page.payees[i].id != id
    ensures RemovePayee(page, id) == page
  {
    FilterKeepsAll(page.payees, PayeeIdIsNot(id));
  }

  /** Removing a payee from a split list removes it in each part: the
      remaining payees keep their relative order. */
  lemma RemovePayeePreservesOrder(a: seq<Payee>, b: seq<Payee>, page: Page, id: string)
    requires page.payees == a + b
    ensures RemovePayee(page, id).payees
            == RemovePayee(page.(payees := a), id).payees + RemovePayee(page.(payees := b), id).payees
  {
    FilterConcat(a, b, PayeeIdIsNot(id));
  }

  /** Cancelling twice is the same as cancelling once. */
  lemma CancelIdempotent(page: Page, id: string)
    ensures CancelPayment(CancelPayment(page, id), id) == CancelPayment(page, id)
  {
    FilterIdempotent(page.scheduled, PaymentIdIsNot(id));
  }

  /** Cancelling a split list cancels in each part: the survivors keep their
      relative order. */
  lemma CancelPreservesOrder(a: seq<ScheduledPayment>, b: seq<ScheduledPayment>, page: Page, id: string)
    requires page.scheduled == a + b
    ensures CancelPayment(page, id).scheduled
            == CancelPayment(page.(scheduled := a), id).scheduled + CancelPayment(page.(scheduled := b), id).scheduled
  {
    FilterConcat(a, b, PaymentIdIsNot(id));
  }

  /** When the id occurs exactly once, cancelling shortens the list by one and
      leaves no payment with that id. */
  lemma CancelUniqueId(page: Page, id: string)
    requires Count(page.scheduled, PaymentIdIs(id)) == 1
    ensures |CancelPayment(page, id).scheduled| == |page.scheduled| - 1
    ensures forall p :: p in CancelPayment(page, id).scheduled ==> p.id != id
  {
    var r := CancelPayment(page, id).scheduled;
    forall p | p in r ensures p.id != id {
      var i :| 0 <= i < |r| && r[i] == p;
    }
  }

  /** When the new id was not in use, cancelling it right after the submit
      restores the previous list. */
  lemma CancelUndoesFreshSubmit(page: Page)
    requires SubmitBillPay(page).Accepted?
    requires forall i :: 0 <= i < |page.scheduled| ==> page.scheduled[i].id != ScheduleId(|page.scheduled|)
    ensures CancelPayment(SubmitBillPay(page).next, ScheduleId(|page.scheduled|)).scheduled == page.scheduled
  {
    var id := ScheduleId(|page.scheduled|);
    var next := SubmitBillPay(page).next;
    var added := NewPayment(page.billPayForm, page.payees, page.scheduled);
    assert next.scheduled == page.scheduled + [added];
    FilterConcat(page.scheduled, [added], PaymentIdIsNot(id));
    FilterKeepsAll(page.scheduled, PaymentIdIsNot(id));
    assert Filter([added], PaymentIdIsNot(id)) == [];
  }

  /** A bill-pay form choosing the first payee and account, accepted as is. */
  const SampleBillPay := BillPayForm("payee1", "acc1", 7500, Some(Date("2024-10-01")), Some("monthly"), None)

  /** The generated ids are not unique. From the initial list [sch1, sch2],
      cancelling sch1 and submitting a payment yields a second sch2, and a
      later cancel of sch2 removes both. */
  lemma ScheduleIdCollision()
    ensures
      var afterCancel := CancelPayment(InitialPage, "sch1").(billPayForm := SampleBillPay);
      var afterSubmit := SubmitBillPay(afterCancel);
      && afterSubmit.Accepted?
      && |afterSubmit.next.scheduled| == 2
      && afterSubmit.next.scheduled[0].id == "sch2"
      && afterSubmit.next.scheduled[1].id == "sch2"
      && CancelPayment(afterSubmit.next, "sch2").scheduled == []
  {
    var afterCancel := CancelPayment(InitialPage, "sch1").(billPayForm := SampleBillPay);
    assert InitialScheduled[1..][1..] == [];
    assert afterCancel.scheduled == [InitialScheduled[1]];
    assert DecimalString(2) == "2";
    var next := SubmitBillPay(afterCancel).next;
    assert next.scheduled[0].id == "sch2" && next.scheduled[1].id == "sch2";
    assert next.scheduled[1..][1..] == [];
    assert Count(next.scheduled, PaymentIdIs("sch2")) == 2;
  }

  /** The bill-pay scenario on the initial page: paying City Electric Co. from
      the primary checking account appends record sch3. */
  lemma SubmitSampleBillPay()
    ensures
      var r := SubmitBillPay(InitialPage.(billPayForm := SampleBillPay));
      && r.Accepted?
      && |r.next.scheduled| == 3
      && r.next.scheduled[2] == ScheduledPayment("sch3", "City Electric Co.", 7500, "2024-10-01",
                                                 "Primary Checking - xxxx1234", "Scheduled")
  {
    assert DecimalString(3) == "3";
    SubmitBillPayResolvesPayee(InitialPage.(billPayForm := SampleBillPay), 0);
    SubmitBillPayResolvesAccount(InitialPage.(billPayForm := SampleBillPay), 0);
  }
}
