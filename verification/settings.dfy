/** The settings page: the profile and password forms with their schemas,
    the notification preferences with their defaults, and the
    multi-factor-authentication switch. Whether a string is an e-mail address
    is decided by a predicate the caller supplies. */
module Settings {
  import opened Wrappers
  import opened Validation

  datatype ProfileForm = ProfileForm(
    fullName: string,
    email: string,
    phoneNumber: Option<string>,
    address: Option<string>)

  datatype PasswordForm = PasswordForm(currentPassword: string, newPassword: string, confirmPassword: string)

  datatype NotificationSettings = NotificationSettings(
    transactionEmails: bool,
    securityAlertsPush: bool,
    promotionalOffers: bool,
    newsletterSubscription: bool)

  /** Notification values as submitted; a missing one is None. */
  datatype NotificationInput = NotificationInput(
    transactionEmails: Option<bool>,
    securityAlertsPush: Option<bool>,
    promotionalOffers: Option<bool>,
    newsletterSubscription: Option<bool>)

  const MinNameLength: nat := 2
  const MinPasswordLength: nat := 8
  const PasswordMismatch := "New passwords do not match."
  const ConfirmTooShort := "Confirm password must be at least 8 characters."

  const DefaultProfileForm := ProfileForm(
    "Jane Doe", "jane.doe@example.com", Some("555-0102"), Some("123 Banking St, Finance City, FC 12345"))

  const EmptyPasswordForm := PasswordForm("", "", "")

  // ----------------------------------------------------------------- profile

  /** The issues the profile schema reports. Phone number and address are
      optional and never checked. */
  function ProfileIssues(f: ProfileForm, isEmail: string -> bool): (r: seq<Issue>)
    ensures Paths(r) == When(|f.fullName| < MinNameLength, "fullName") + When(!isEmail(f.email), "email")
  {
    var fullName := MinLength("fullName", f.fullName, MinNameLength, "Full name must be at least 2 characters.");
    var email := if isEmail(f.email) then [] else [Issue("email", "Please enter a valid email address.")];
    PathsJoin(fullName, email);
    PathsSingle(Issue("email", "Please enter a valid email address."));
    fullName + email
  }

  /** Submitting the profile form: an accepted form is kept as entered, not
      reset. */
  function SubmitProfile(f: ProfileForm, isEmail: string -> bool): (r: Submission<ProfileForm>)
    ensures r.Rejected? <==> |f.fullName| < MinNameLength || !isEmail(f.email)
    ensures r.Rejected? ==> r.issues != []
    ensures r.Accepted? ==> r.next == f
  {
    var issues := ProfileIssues(f, isEmail);
    if issues != [] then Rejected(issues) else Accepted(f)
  }

  /** The phone number and address never decide whether a profile is accepted. */
  lemma ProfileOptionalFieldsIgnored(f: ProfileForm, isEmail: string -> bool, phone: Option<string>, address: Option<string>)
    ensures SubmitProfile(f.(phoneNumber := phone, address := address), isEmail).Accepted?
            == SubmitProfile(f, isEmail).Accepted?
  {
  }

  /** The profile form's initial values pass whenever the e-mail predicate
      accepts the initial address: "Jane Doe" is long enough. */
  lemma DefaultProfileAccepted(isEmail: string -> bool)
    requires isEmail(DefaultProfileForm.email)
    ensures SubmitProfile(DefaultProfileForm, isEmail) == Accepted(DefaultProfileForm)
  {
  }

  // ---------------------------------------------------------------- password

  /** The issues the password schema reports: a minimum length on each field,
      then the refinement that the new password is confirmed, reported on
      `confirmPassword`. Every field is a string, so the refinement always runs. */
  function PasswordIssues(f: PasswordForm): (r: seq<Issue>)
    ensures Paths(r) ==
      When(|f.currentPassword| < MinPasswordLength, "currentPassword")
      + When(|f.newPassword| < MinPasswordLength, "newPassword")
      + When(|f.confirmPassword| < MinPasswordLength || f.newPassword != f.confirmPassword, "confirmPassword")
    ensures f.newPassword != f.confirmPassword ==> Issue("confirmPassword", PasswordMismatch) in r
  {
    var current := MinLength("currentPassword", f.currentPassword, MinPasswordLength,
                             "Password must be at least 8 characters.");
    var chosen := MinLength("newPassword", f.newPassword, MinPasswordLength,
                         "New password must be at least 8 characters.");
    var confirm := MinLength("confirmPassword", f.confirmPassword, MinPasswordLength, ConfirmTooShort);
    var fields := FieldCheck(current + chosen + confirm, false);
    var refinement := Refinement(f.newPassword == f.confirmPassword, "confirmPassword", PasswordMismatch);
    PathsJoin(current, chosen);
    PathsJoin(current + chosen, confirm);
    ObjectIssues(fields, refinement)
  }

  /** The message shown under the confirmation field: a too-short confirmation
      hides the mismatch, since only the first issue per field is displayed. */
  lemma ConfirmPasswordMessage(f: PasswordForm)
    ensures |f.confirmPassword| < MinPasswordLength
            ==> DisplayedError(PasswordIssues(f), "confirmPassword") == Some(ConfirmTooShort)
    ensures |f.confirmPassword| >= MinPasswordLength && f.newPassword != f.confirmPassword
            ==> DisplayedError(PasswordIssues(f), "confirmPassword") == Some(PasswordMismatch)
    ensures |f.confirmPassword| >= MinPasswordLength && f.newPassword == f.confirmPassword
            ==> DisplayedError(PasswordIssues(f), "confirmPassword") == None
  {
    var current := MinLength("currentPassword", f.currentPassword, MinPasswordLength,
                             "Password must be at least 8 characters.");
    var chosen := MinLength("newPassword", f.newPassword, MinPasswordLength,
                            "New password must be at least 8 characters.");
    var confirm := MinLength("confirmPassword", f.confirmPassword, MinPasswordLength, ConfirmTooShort);
    var refinement := Refinement(f.newPassword == f.confirmPassword, "confirmPassword", PasswordMismatch);
    var r := PasswordIssues(f);
    var prefix := current + chosen;
    assert r == prefix + (confirm + refinement);
    var n := |prefix|;
    assert forall j :: 0 <= j < n ==> r[j] == prefix[j];
    assert forall j :: 0 <= j < n ==> prefix[j].path != "confirmPassword";
    if |f.confirmPassword| < MinPasswordLength || f.newPassword != f.confirmPassword {
      assert r[n] == (confirm + refinement)[0];
      DisplayedErrorIsFirst(r, "confirmPassword", n);
    }
  }

  /** Submitting the password form: an accepted form is cleared. */
  function SubmitPassword(f: PasswordForm): (r: Submission<PasswordForm>)
    ensures r.Rejected? <==> |f.currentPassword| < MinPasswordLength || |f.newPassword| < MinPasswordLength
                             || |f.confirmPassword| < MinPasswordLength || f.newPassword != f.confirmPassword
    ensures r.Rejected? ==> r.issues != []
    ensures r.Accepted? ==> r.next.currentPassword == "" && r.next.newPassword == "" && r.next.confirmPassword == ""
  {
    var issues := PasswordIssues(f);
    if issues != [] then Rejected(issues) else Accepted(EmptyPasswordForm)
  }

  // ----------------------------------------------------------- notifications

  const DefaultNotifications := NotificationSettings(true, true, false, false)

  /** The notification schema: a missing value takes its declared default. */
  function ParseNotifications(input: NotificationInput): (s: NotificationSettings)
    ensures input.transactionEmails.Some? ==> s.transactionEmails == input.transactionEmails.value
    ensures input.securityAlertsPush.Some? ==> s.securityAlertsPush == input.securityAlertsPush.value
    ensures input.promotionalOffers.Some? ==> s.promotionalOffers == input.promotionalOffers.value
    ensures input.newsletterSubscription.Some? ==> s.newsletterSubscription == input.newsletterSubscription.value
    ensures input.transactionEmails.None? ==> s.transactionEmails
    ensures input.securityAlertsPush.None? ==> s.securityAlertsPush
    ensures input.promotionalOffers.None? ==> !s.promotionalOffers
    ensures input.newsletterSubscription.None? ==> !s.newsletterSubscription
  {
    NotificationSettings(
      input.transactionEmails.GetOr(true),
      input.securityAlertsPush.GetOr(true),
      input.promotionalOffers.GetOr(false),
      input.newsletterSubscription.GetOr(false))
  }

  /** The schema's defaults agree with the form's initial values: transaction
      e-mails and security alerts on, promotions and newsletter off. */
  lemma NotificationDefaultsAgree()
    ensures ParseNotifications(NotificationInput(None, None, None, None)) == DefaultNotifications
    ensures DefaultNotifications.transactionEmails && DefaultNotifications.securityAlertsPush
    ensures !DefaultNotifications.promotionalOffers && !DefaultNotifications.newsletterSubscription
  {
  }

  // --------------------------------------------------------------------- MFA

  const MfaInitiallyEnabled := false

  /** The state of the switch after a toggle and the notice shown about it. */
  datatype MfaToggle = MfaToggle(enabled: bool, notice: string)

  function MfaWord(enabled: bool): string {
    if enabled then "enabled" else "disabled"
  }

  /** The label beside the switch. */
  function MfaLabel(enabled: bool): string {
    if enabled then "MFA Enabled" else "MFA Disabled"
  }

  /** Flipping the switch: the new state is the negation of the old one and
      the notice names the new state. */
  function ToggleMfa(enabled: bool): (r: MfaToggle)
    ensures r.enabled != enabled
    ensures r.notice == "MFA " + MfaWord(r.enabled) + ". (Demo only)"
  {
    var next := !enabled;
    MfaToggle(next, "MFA " + MfaWord(next) + ". (Demo only)")
  }

  /** Toggling twice restores the state, and the notice says "enabled" exactly
      when the label after the toggle reads "MFA Enabled". */
  lemma ToggleMfaRoundTrip(enabled: bool)
    ensures ToggleMfa(ToggleMfa(enabled).enabled).enabled == enabled
    ensures ToggleMfa(enabled).notice == "MFA enabled. (Demo only)" <==> MfaLabel(ToggleMfa(enabled).enabled) == "MFA Enabled"
    ensures ToggleMfa(enabled).notice == "MFA disabled. (Demo only)" <==> MfaLabel(ToggleMfa(enabled).enabled) == "MFA Disabled"
    ensures ToggleMfa(MfaInitiallyEnabled).enabled
  {
    var r := ToggleMfa(enabled);
    if !r.enabled {
      assert r.notice[4] == 'd';
    }
  }
}
