# Banking dashboard: money movement, settings, balance chart and account card

A Dafny model of the parts of a client-side banking dashboard that hold logic rather than layout:

- **Move money** (`MoveMoney`): the transfer and bill-pay forms, their validation schemas and default
  values, the page's in-memory lists of payees and scheduled payments, and the transitions the page
  performs on them: submitting a transfer (which only resets the form), submitting a bill payment
  (which appends a scheduled payment), cancelling a scheduled payment and removing a payee.
- **Settings** (`Settings`): the profile and password schemas, the password confirmation rule, the
  reset after a password change, the notification defaults and the multi-factor-authentication switch.
- **Balance history chart** (`BalanceHistoryChart`): which points are plotted for a period, the
  caption for the period, the tick text and the tick layout.
- **Account summary card** (`AccountSummaryCard`): account-number masking and the currency symbol default.

Two supporting modules hold the shared semantics:

- `JsSemantics`: string truthiness, `find`, `filter`, `slice` with negative indices, and the decimal
  text of an integer in a template literal.
- `Validation`: the shape of the schema validation the forms use. Each failing check reports one
  issue attached to a field path. An object schema checks all of its fields first. Its `.refine`
  rules then run only when no field had a type error. A missing required value or a value outside an
  enumeration is a type error. A failed length or positivity check is not. The form shows the first
  issue per field.

Everything is pure: forms, lists and pages are immutable values, and every user action is a function
from one page value to the next.

Modelling choices:

- Amounts are integer cents. Only their sign matters to the logic.
- A date is represented by the `YYYY-MM-DD` text of its UTC day. That is all the page stores of it.
- JavaScript strings are `seq<char>`. A `char` is a Unicode scalar value, so lengths count characters rather than UTF-16 code units.
- An absent (`undefined`) value is `None`.

Behaviour of the code worth noting:

- Scheduled payment ids are `"sch"` followed by the list length plus one. They are not unique.
  `MoveMoney.ScheduleIdCollision` shows the collision: cancelling `sch1` from `[sch1, sch2]` and then
  submitting creates a second `sch2`, and cancelling `sch2` afterwards removes both.
- There is no add-payee operation. The button only shows an alert.
- The source account and payee are only required to be non-empty. They are not checked against the
  directory. An unknown id resolves to "Unknown Account" or "Unknown Payee".
- The date is only required to be present. Past dates are disabled in the calendar widget, but this is
  not re-checked on submit.
- A successful transfer only shows a notice and resets the form. No confirmation log is kept.
- The destination rules are skipped entirely when the date is missing or the transfer type is
  invalid, rather than always running after the field checks.

## Model

| member | source | states |
|---|---|---|
| MoveMoney.TransferIssues | src/pages/MoveMoneyPage.tsx:66-83 | The fields with an issue are exactly these: an empty source account; a missing or unknown transfer type; an amount of 0 or less; a missing date; a memo over 100 characters. Two more are possible only when the type and date are valid: `toMyAccount` (own-account transfer with no destination) and `toExternalRecipientName` (external transfer missing the name or the account). |
| MoveMoney.TransferIssuesEmptyIff | src/pages/MoveMoneyPage.tsx:66-83 | The transfer schema reports nothing exactly when all of its rules hold, stated independently as a conjunction. |
| MoveMoney.DefaultTransferRejected | src/pages/MoveMoneyPage.tsx:119-131 | The form's default values (amount 0, no date) are rejected on `amount` and on `date`. |
| MoveMoney.MyAccountTransferIgnoresExternalFields | src/pages/MoveMoneyPage.tsx:76-79 | For an own-account transfer, the external recipient fields never change the issues. An empty or missing destination is reported on `toMyAccount` once a date is chosen. |
| MoveMoney.ExternalTransferIgnoresMyAccount | src/pages/MoveMoneyPage.tsx:80-83 | For an external transfer, `toMyAccount` is never required and never matters. A missing recipient name or account adds exactly one issue, on `toExternalRecipientName`, after the field issues. |
| MoveMoney.MissingDateSkipsRefinements | src/pages/MoveMoneyPage.tsx:73-83 | A missing date stops the object parse, so neither destination rule reports anything. |
| MoveMoney.SubmitTransfer | src/pages/MoveMoneyPage.tsx:144-151 | A transfer submit is rejected exactly when a rule fails, and then carries the issues. When accepted, the transfer form returns to its defaults and the lists and the bill-pay form are unchanged. |
| MoveMoney.BillPayIssues | src/pages/MoveMoneyPage.tsx:86-93 | The fields with an issue are exactly these: an empty payee; an empty account; an amount of 0 or less; a missing payment date; a frequency outside one-time/monthly/weekly; notes over 100 characters. |
| MoveMoney.BillPayIssuesEmptyIff | src/pages/MoveMoneyPage.tsx:86-93 | The bill-pay schema reports nothing exactly when all of its rules hold. |
| MoveMoney.DefaultBillPayRejected | src/pages/MoveMoneyPage.tsx:133-142 | The bill-pay defaults are rejected on payee, amount and payment date. |
| MoveMoney.ResolveName | src/pages/MoveMoneyPage.tsx:157 | The resolved name is the name of the first entry with the id. The fallback is used when no entry has the id, or when the first match's name is empty. |
| MoveMoney.ScheduleIdInjective | src/pages/MoveMoneyPage.tsx:156 | Ids generated at different list lengths differ. |
| MoveMoney.SubmitBillPay | src/pages/MoveMoneyPage.tsx:153-169 | A bill-pay submit is rejected exactly when a rule fails. When accepted: exactly one record is appended and earlier records are unchanged; its id is `sch` followed by the new length; its status is "Scheduled"; its amount and date are the submitted ones; the payees and the transfer form are untouched; the bill-pay form is reset. |
| MoveMoney.SubmitBillPayResolvesPayee | src/pages/MoveMoneyPage.tsx:155-157 | The new record's payee name comes from the first payee with the selected id, whatever the account id is. An empty payee name falls back to "Unknown Payee". |
| MoveMoney.SubmitBillPayResolvesAccount | src/pages/MoveMoneyPage.tsx:160 | The new record's account name is the directory name of the selected account, whether or not the selected payee still exists. |
| MoveMoney.SubmitBillPayUnknownAccount | src/pages/MoveMoneyPage.tsx:160 | An account id not in the directory still yields an accepted submit, with account "Unknown Account". |
| MoveMoney.SubmitBillPayUnknownPayee | src/pages/MoveMoneyPage.tsx:157 | A payee id nobody has still yields an accepted submit, with payee "Unknown Payee". |
| MoveMoney.CancelPayment | src/pages/MoveMoneyPage.tsx:524-526 | After a cancel, the list holds exactly the payments whose id differs: each survivor comes from the old list, and every payment with another id survives. The length drops by the number of payments with that id. Payees and forms are unchanged. |
| MoveMoney.RemovePayee | src/pages/MoveMoneyPage.tsx:565-567 | After a removal, the list holds exactly the payees whose id differs, and the length drops by the number removed. Scheduled payments, and the payee names they stored, are unchanged. |
| MoveMoney.CancelAbsentIdIsNoOp | src/pages/MoveMoneyPage.tsx:525 | Cancelling an id that no scheduled payment has leaves the page unchanged, whatever the payees are. |
| MoveMoney.RemoveAbsentPayeeIsNoOp | src/pages/MoveMoneyPage.tsx:566 | Removing an id that no payee has leaves the page unchanged, whatever the scheduled payments are. |
| MoveMoney.RemovePayeePreservesOrder | src/pages/MoveMoneyPage.tsx:566 | Removing a payee distributes over concatenation of the payee list, so the remaining payees keep their order. |
| MoveMoney.CancelIdempotent | src/pages/MoveMoneyPage.tsx:525 | Cancelling the same id twice is the same as cancelling it once. |
| MoveMoney.CancelPreservesOrder | src/pages/MoveMoneyPage.tsx:525 | Cancelling distributes over concatenation of the list, so survivors keep their order. |
| MoveMoney.CancelUniqueId | src/pages/MoveMoneyPage.tsx:525 | When exactly one payment has the id, cancelling shortens the list by one and leaves no payment with that id. |
| MoveMoney.CancelUndoesFreshSubmit | src/pages/MoveMoneyPage.tsx:155-163 | If the generated id was not already in use, cancelling it right after the submit restores the previous list. |
| MoveMoney.ScheduleIdCollision | src/pages/MoveMoneyPage.tsx:156-163 | From the initial list, cancel `sch1` and then submit: two records are now called `sch2`, and one cancel of `sch2` empties the list. |
| MoveMoney.SubmitSampleBillPay | src/pages/MoveMoneyPage.tsx:153-168 | Paying payee1 from acc1 on the initial page appends `sch3` for "City Electric Co." from "Primary Checking - xxxx1234", with status "Scheduled". |
| JsSemantics.FindIndex | src/pages/MoveMoneyPage.tsx:157 | `find` answers the first index whose element satisfies the predicate, or nothing exactly when no element does. |
| JsSemantics.Filter | src/pages/MoveMoneyPage.tsx:525 | `filter` keeps exactly the elements that satisfy the predicate. Its length is the count of such elements. |
| JsSemantics.FilterConcat | src/pages/MoveMoneyPage.tsx:525 | Filtering a concatenation is the concatenation of the filtered parts (order is preserved). |
| JsSemantics.FilterKeepsAll | src/pages/MoveMoneyPage.tsx:566 | When every element passes, `filter` returns the list unchanged. |
| JsSemantics.FilterIdempotent | src/pages/MoveMoneyPage.tsx:566 | Filtering twice by the same predicate equals filtering once. |
| JsSemantics.CountComplement | src/pages/MoveMoneyPage.tsx:525 | The elements matching a predicate and those matching its negation add up to the whole list. |
| JsSemantics.CountAllIff | src/pages/MoveMoneyPage.tsx:525 | All elements are counted exactly when every element satisfies the predicate, and none exactly when no element does. |
| JsSemantics.Slice | src/components/BalanceHistoryChart.tsx:77-78 | `slice(-k)` yields the last min(k, n) elements; `slice(0, k)` yields the first min(k, n). |
| JsSemantics.DecimalString | src/pages/MoveMoneyPage.tsx:156 | The decimal text of an integer is at least one digit, made only of digits, with no leading zero. |
| JsSemantics.DecimalRoundTrip | src/pages/MoveMoneyPage.tsx:156 | Reading the decimal text back gives the number. |
| JsSemantics.DecimalStringInjective | src/pages/MoveMoneyPage.tsx:156 | Different numbers have different decimal text. |
| Validation.ObjectIssues | src/pages/MoveMoneyPage.tsx:76-83 | An object schema reports its field issues. It adds its refinement issues only when no field had a type error. |
| Validation.DisplayedError | src/pages/SettingsPage.tsx:199-210 | The message shown under a field is the first issue at that path. There is none exactly when the field has no issue. |
| Settings.ProfileIssues | src/pages/SettingsPage.tsx:48-53 | The profile fields with an issue are exactly: a full name shorter than 2 characters, and an e-mail the e-mail predicate refuses. Phone and address are never checked. |
| Settings.SubmitProfile | src/pages/SettingsPage.tsx:87-90 | A profile submit is rejected exactly when a rule fails. When accepted, the form keeps its values. |
| Settings.DefaultProfileAccepted | src/pages/SettingsPage.tsx:79-85 | The profile form's initial values are accepted and kept whenever the e-mail predicate accepts the initial address. |
| Settings.ProfileOptionalFieldsIgnored | src/pages/SettingsPage.tsx:51-52 | Phone number and address never decide acceptance. |
| Settings.PasswordIssues | src/pages/SettingsPage.tsx:56-63 | Each password field shorter than 8 characters has an issue. A confirmation different from the new password adds "New passwords do not match." on `confirmPassword`. |
| Settings.ConfirmPasswordMessage | src/pages/SettingsPage.tsx:59-63 | A too-short confirmation shows the length message, even when it also mismatches. Otherwise a mismatch shows "New passwords do not match.", and a match shows nothing. |
| Settings.SubmitPassword | src/pages/SettingsPage.tsx:164-168 | A password submit is rejected exactly when a length or match rule fails. When accepted, all three fields are reset to "". |
| Settings.ParseNotifications | src/pages/SettingsPage.tsx:66-71 | Each notification value is kept as given when supplied. Each missing one takes its own default: transaction e-mails and security alerts on, promotions and newsletter off. |
| Settings.NotificationDefaultsAgree | src/pages/SettingsPage.tsx:222-227 | With nothing supplied, the schema defaults equal the form defaults: transaction e-mails and security alerts on, promotions and newsletter off. |
| Settings.ToggleMfa | src/pages/SettingsPage.tsx:369-371 | The new state is the negation of the old one. The notice names the new state. |
| Settings.ToggleMfaRoundTrip | src/pages/SettingsPage.tsx:364-371 | Toggling twice restores the state. The notice is "MFA enabled. (Demo only)" exactly when the label then reads "MFA Enabled", and "MFA disabled. (Demo only)" exactly when it reads "MFA Disabled". Starting from the initial (off) state, one toggle enables MFA. |
| BalanceHistoryChart.InitialPeriod | src/components/BalanceHistoryChart.tsx:69-72 | The chart starts on the period passed in, or on "1y" when none is passed. |
| BalanceHistoryChart.AccountNameOrDefault | src/components/BalanceHistoryChart.tsx:67 | The title names the account passed in, or "Selected Account". |
| BalanceHistoryChart.ChartData | src/components/BalanceHistoryChart.tsx:74-85 | With supplied data, the plotted points are always a suffix of it: the last min(30, n) points for "30d", the last min(90, n) for "90d", all of it otherwise. Without data: the 12-point table for "30d", the 19-point table for "90d", the 12-month table otherwise. |
| BalanceHistoryChart.EmptyDataPlotsNothing | src/components/BalanceHistoryChart.tsx:75-79 | A supplied empty list plots nothing; it is never replaced by mock data. |
| BalanceHistoryChart.NarrowerPeriodIsSuffix | src/components/BalanceHistoryChart.tsx:77-79 | The 30-day points are a suffix of the 90-day points, which are a suffix of the full data. |
| BalanceHistoryChart.PeriodLabel | src/components/BalanceHistoryChart.tsx:97-100 | The caption is "last 30 days" for "30d", "last 90 days" for "90d", and "last year" for any other period. |
| BalanceHistoryChart.XTickLabel | src/components/BalanceHistoryChart.tsx:136 | A tick shows the first min(6, len) characters of the date. |
| BalanceHistoryChart.XAxisFor | src/components/BalanceHistoryChart.tsx:137-139 | Ticks are angled (-30) and end-anchored exactly when more than 10 points are plotted. The minimum tick gap is 15 when more than 15 points are plotted and 0 otherwise. |
| BalanceHistoryChart.MockTableLayouts | src/components/BalanceHistoryChart.tsx:137-139 | Every mock table angles its ticks. Only the 90-day table spaces them. |
| AccountSummaryCard.MaskAccountNumber | src/components/AccountSummaryCard.tsx:27 | An empty number masks to "N/A". Any other number masks to four bullets and a space, followed by its last min(4, len) characters. The result is never longer than 9. |
| AccountSummaryCard.MaskRevealsAtMostFour | src/components/AccountSummaryCard.tsx:27 | After the fixed prefix, the mask shows only a suffix of the number of at most 4 characters. |
| AccountSummaryCard.MaskDependsOnlyOnLastFour | src/components/AccountSummaryCard.tsx:27 | Numbers that share their last four characters mask identically. |
| AccountSummaryCard.CurrencySymbol | src/components/AccountSummaryCard.tsx:23 | The symbol is "$" unless one is passed in. |

## Left out

- Rendering, styling, routing, tabs, the layout chrome, and the pages that only display static data.
  They hold no logic beyond presentation.
- Toast notices, `console.log` and `alert`. They are side-effect notifications with no state. This
  includes the text of the transfer and bill-pay confirmations, whose amounts are floating-point
  numbers rendered by the runtime.
- Characters outside the Basic Multilingual Plane. JavaScript counts such a character as two UTF-16 code units in `.length`, `.slice` and the length rules; the model counts it as one.
- Adding and editing payees. Both buttons only show an alert.
- Numeric coercion of the amount fields. Amounts are integer cents. A non-numeric entry (which
  coerces to NaN and is a type error) is not modelled.
- E-mail validity. It is a predicate supplied by the caller, because it is library behaviour.
- Invalid `Date` objects and the UTC conversion of the chosen date. A date is modelled by the text of
  its UTC day. The calendar's disabling of past dates is UI-only and is not modelled.
- Number and currency formatting (`toFixed`, `toLocaleString`, `Intl.NumberFormat`, the `$…k`
  axis formatter). These are floating-point and locale formatting.
- The submit of the notification form. It only shows a notice.
- The MFA footer text. It is a display string chosen by the same condition as the label.
- MoveMoney.TransferIssues: the contract states which fields carry an issue, not each issue's message text. The messages are in the body. An unknown transfer type gets the validation library's default invalid-enum message.
- MoveMoney.BillPayIssues: the contract states which fields carry an issue, not each issue's message text.
- Settings.ProfileIssues: the contract states which fields carry an issue, not each issue's message text.
