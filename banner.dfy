/*
 * The conference banner component: the popup / bottom banner / exchange-form
 * state, its dismiss and reopen transitions, the mount effect that consults
 * the session's "dismissed" flag and schedules the popup, and the exchange
 * form's client-side validation and request payload.
 *
 * React state updates are applied in place; an effect is folded into the
 * handler whose state change makes it re-run. The 3-second timer is a flag
 * plus an explicit "timer fired" step, and `sessionStorage` is a boolean.
 */
module Banner {
  import opened Js
  import Contact

  const NameRequired := "Name is required"
  const ConnectionHint := "Please provide at least one way to connect with you (email, phone, Twitter, or LinkedIn)"
  const SubmitFailed := "Failed to submit. Please try again."
  const BannerSource := "conference_banner"

  /** The six text inputs of the exchange form, as `formData.get` returns them. */
  datatype FormFields = FormFields(
    name: string,
    email: string,
    phone: string,
    twitter: string,
    linkedin: string,
    company: string)

  /** `email || phone || twitter || linkedin` on the form's strings. */
  predicate HasConnection(f: FormFields) {
    f.email != "" || f.phone != "" || f.twitter != "" || f.linkedin != ""
  }

  /** Fills the error map one check at a time; both checks run, so both errors can be reported. */
  method Validate(f: FormFields) returns (errors: map<string, string>)
    ensures "name" in errors <==> IsBlank(f.name)
    ensures "name" in errors ==> errors["name"] == NameRequired
    ensures "connection" in errors <==> !HasConnection(f)
    ensures "connection" in errors ==> errors["connection"] == ConnectionHint
    ensures errors.Keys <= {"name", "connection"}
  {
    errors := map[];
    if IsBlank(f.name) {
      errors := errors["name" := NameRequired];
    }
    if !HasConnection(f) {
      errors := errors["connection" := ConnectionHint];
    }
  }

  /** The keys of the JSON body sent to the contact endpoint. */
  datatype PayloadKey = Name | Email | Phone | Twitter | LinkedIn | Company | Source

  /** Adds `key: value || undefined` as it serializes: the key only when the value is not empty. */
  function WithOptional(m: map<PayloadKey, string>, key: PayloadKey, value: string): map<PayloadKey, string> {
    if value != "" then m[key := value] else m
  }

  /** The JSON body sent to the contact endpoint. `x || undefined` turns an empty field into
      `undefined`, which `JSON.stringify` omits; the name is sent untrimmed. */
  function Payload(f: FormFields): (m: map<PayloadKey, string>)
    ensures Name in m && m[Name] == f.name
    ensures Source in m && m[Source] == BannerSource
  {
    var m := map[Name := f.name, Source := BannerSource];
    var m := WithOptional(m, Email, f.email);
    var m := WithOptional(m, Phone, f.phone);
    var m := WithOptional(m, Twitter, f.twitter);
    var m := WithOptional(m, LinkedIn, f.linkedin);
    WithOptional(m, Company, f.company)
  }

  /** A serialized optional field: present exactly when not empty, and then unchanged. */
  predicate CarriesOptional(m: map<PayloadKey, string>, key: PayloadKey, value: string) {
    (key in m <==> value != "") && (key in m ==> m[key] == value)
  }

  /** The payload always carries the untrimmed name and the source tag, and each other field
      exactly when it is not empty, unchanged. */
  lemma PayloadFields(f: FormFields)
    ensures var m := Payload(f);
      && Name in m && m[Name] == f.name
      && Source in m && m[Source] == BannerSource
      && CarriesOptional(m, Email, f.email) && CarriesOptional(m, Phone, f.phone)
      && CarriesOptional(m, Twitter, f.twitter) && CarriesOptional(m, LinkedIn, f.linkedin)
      && CarriesOptional(m, Company, f.company)
  {
    var m0 := map[Name := f.name, Source := BannerSource];
    var m1 := WithOptional(m0, Email, f.email);
    var m2 := WithOptional(m1, Phone, f.phone);
    var m3 := WithOptional(m2, Twitter, f.twitter);
    var m4 := WithOptional(m3, LinkedIn, f.linkedin);
    var m5 := WithOptional(m4, Company, f.company);
    assert m5 == Payload(f);
    assert CarriesOptional(m1, Email, f.email);
    assert CarriesOptional(m2, Phone, f.phone);
    assert CarriesOptional(m3, Twitter, f.twitter);
    assert CarriesOptional(m4, LinkedIn, f.linkedin);
    assert CarriesOptional(m5, Company, f.company);
  }

  /** What the component renders. */
  datatype View = Nothing | ExchangeForm(submitted: bool) | BottomBanner | Popup

  class ConferenceBanner {
    const isActive: bool
    var isVisible: bool
    var isDismissed: bool
    var showExchangeForm: bool
    var formSubmitted: bool
    var isSubmitting: bool
    var formErrors: map<string, string>
    /** `sessionStorage['conference-popup-dismissed']` is set. */
    var sessionDismissed: bool
    /** The 3-second popup timer is scheduled and not yet cleared or fired. */
    var timerPending: bool

    /** The popup and the bottom banner never show together; a pending timer belongs to an
        active, undismissed banner; while active, the dismissed state follows the session flag. */
    predicate Valid()
      reads this
    {
      && !(isDismissed && isVisible)
      && (timerPending ==> isActive && !isDismissed)
      && (isActive ==> (isDismissed <==> sessionDismissed))
    }

    /** The first render, then the mount effect. */
    constructor (isActive: bool, sessionDismissed: bool)
      ensures this.isActive == isActive && this.sessionDismissed == sessionDismissed
      ensures isDismissed == (isActive && sessionDismissed)
      ensures !isVisible && !showExchangeForm && !formSubmitted && !isSubmitting && formErrors == map[]
      ensures timerPending == (isActive && !sessionDismissed)
      ensures Valid()
    {
      this.isActive := isActive;
      this.sessionDismissed := sessionDismissed;
      isVisible := false;
      isDismissed := false;
      showExchangeForm := false;
      formSubmitted := false;
      isSubmitting := false;
      formErrors := map[];
      timerPending := false;
      new;
      CheckDismissedFlag();
    }

    /** The mount effect, run again whenever `isDismissed` changes: the previous timer is cleared;
        an active banner whose session flag is set goes straight to dismissed and hidden, and one
        that is not dismissed schedules the popup. */
    method CheckDismissedFlag()
      modifies this
      ensures timerPending == (isActive && !sessionDismissed && !old(isDismissed))
      ensures isActive && sessionDismissed ==> isDismissed && !isVisible
      ensures !(isActive && sessionDismissed) ==> isDismissed == old(isDismissed) && isVisible == old(isVisible)
      ensures showExchangeForm == old(showExchangeForm) && formSubmitted == old(formSubmitted)
      ensures isSubmitting == old(isSubmitting) && formErrors == old(formErrors)
      ensures sessionDismissed == old(sessionDismissed)
    {
      timerPending := false;
      if isActive {
        if sessionDismissed {
          isDismissed := true;
          isVisible := false;
        } else if !isDismissed {
          timerPending := true;
        }
      }
    }

    /** The 3-second timer fires and shows the popup. */
    method TimerFires()
      requires Valid() && timerPending
      modifies this
      ensures Valid()
      ensures isVisible && !timerPending
      ensures isDismissed == old(isDismissed) && sessionDismissed == old(sessionDismissed)
      ensures showExchangeForm == old(showExchangeForm) && formSubmitted == old(formSubmitted)
      ensures isSubmitting == old(isSubmitting) && formErrors == old(formErrors)
    {
      isVisible := true;
      timerPending := false;
    }

    /** `handleDismiss`: hide the popup, mark it dismissed, set the session flag. */
    method Dismiss()
      requires Valid()
      modifies this
      ensures Valid()
      ensures !isVisible && isDismissed && sessionDismissed && !timerPending
      ensures BannerShown() == isActive
      ensures showExchangeForm == old(showExchangeForm) && formSubmitted == old(formSubmitted)
      ensures isSubmitting == old(isSubmitting) && formErrors == old(formErrors)
    {
      var wasDismissed := isDismissed;
      isVisible := false;
      isDismissed := true;
      sessionDismissed := true;
      if !wasDismissed {
        CheckDismissedFlag();
      }
    }

    /** `handleReopenPopup`: show the popup, clear the dismissed state and the session flag.
        Leaving the dismissed state re-runs the mount effect, which schedules a timer again. */
    method Reopen()
      requires Valid()
      modifies this
      ensures Valid()
      ensures isVisible && !isDismissed && !sessionDismissed
      ensures !BannerShown()
      ensures timerPending == (if old(isDismissed) then isActive else old(timerPending))
      ensures showExchangeForm == old(showExchangeForm) && formSubmitted == old(formSubmitted)
      ensures isSubmitting == old(isSubmitting) && formErrors == old(formErrors)
    {
      var wasDismissed := isDismissed;
      isVisible := true;
      isDismissed := false;
      sessionDismissed := false;
      if wasDismissed {
        CheckDismissedFlag();
      }
    }

    /** The popup's "Exchange Contact" button. */
    method OpenExchangeForm()
      requires Valid()
      modifies this
      ensures Valid()
      ensures showExchangeForm
      ensures isVisible == old(isVisible) && isDismissed == old(isDismissed)
      ensures sessionDismissed == old(sessionDismissed) && timerPending == old(timerPending)
      ensures formSubmitted == old(formSubmitted) && isSubmitting == old(isSubmitting) && formErrors == old(formErrors)
    {
      showExchangeForm := true;
    }

    /** Either close button of the exchange form: it also resets the submitted state and the errors. */
    method CloseExchangeForm()
      requires Valid()
      modifies this
      ensures Valid()
      ensures !showExchangeForm && !formSubmitted && formErrors == map[]
      ensures isVisible == old(isVisible) && isDismissed == old(isDismissed)
      ensures sessionDismissed == old(sessionDismissed) && timerPending == old(timerPending)
      ensures isSubmitting == old(isSubmitting)
    {
      showExchangeForm := false;
      formSubmitted := false;
      formErrors := map[];
    }

    /** `handleFormSubmit` up to the request: validate, and either show the errors and stop, or
        hand back the body to send while `isSubmitting` stays set. */
    method BeginSubmit(f: FormFields) returns (request: Option<map<PayloadKey, string>>)
      requires Valid()
      modifies this
      ensures Valid()
      ensures request.None? <==> IsBlank(f.name) || !HasConnection(f)
      ensures request.Some? ==> request.value == Payload(f) && isSubmitting && formErrors == map[]
      ensures request.None? ==> !isSubmitting
      ensures "name" in formErrors <==> IsBlank(f.name)
      ensures "name" in formErrors ==> formErrors["name"] == NameRequired
      ensures "connection" in formErrors <==> !HasConnection(f)
      ensures "connection" in formErrors ==> formErrors["connection"] == ConnectionHint
      ensures formErrors.Keys <= {"name", "connection"}
      ensures isVisible == old(isVisible) && isDismissed == old(isDismissed)
      ensures sessionDismissed == old(sessionDismissed) && timerPending == old(timerPending)
      ensures showExchangeForm == old(showExchangeForm) && formSubmitted == old(formSubmitted)
    {
      isSubmitting := true;
      formErrors := map[];
      var errors := Validate(f);
      if |errors| > 0 {
        formErrors := errors;
        isSubmitting := false;
        request := None;
        return;
      }
      request := Some(Payload(f));
    }

    /** The rest of `handleFormSubmit`: `threw` says whether `fetch` rejected. A request that
        resolves marks the form submitted whatever its HTTP status. */
    method FinishSubmit(threw: bool)
      requires Valid() && isSubmitting
      modifies this
      ensures Valid()
      ensures !isSubmitting
      ensures !threw ==> formSubmitted && formErrors == map[]
      ensures threw ==> formSubmitted == old(formSubmitted) && formErrors == map["submit" := SubmitFailed]
      ensures isVisible == old(isVisible) && isDismissed == old(isDismissed)
      ensures sessionDismissed == old(sessionDismissed) && timerPending == old(timerPending)
      ensures showExchangeForm == old(showExchangeForm)
    {
      if !threw {
        formSubmitted := true;
        formErrors := map[];
      } else {
        formErrors := map["submit" := SubmitFailed];
      }
      isSubmitting := false;
    }

    /** What the second effect reports to `onBannerShow`: the bottom banner is up. */
    predicate BannerShown()
      reads this
    {
      isActive && isDismissed && !isVisible
    }

    /** The render branches, taken in order: inactive, exchange form, bottom banner, hidden, popup. */
    function CurrentView(): (v: View)
      reads this
      ensures v.ExchangeForm? <==> isActive && showExchangeForm
      ensures v.ExchangeForm? ==> v.submitted == formSubmitted
      ensures v == BottomBanner <==> isActive && !showExchangeForm && isDismissed && !isVisible
      ensures v == Popup <==> isActive && !showExchangeForm && isVisible
      ensures v == Nothing <==> !isActive || (!showExchangeForm && !isVisible && !isDismissed)
    {
      if !isActive then Nothing
      else if showExchangeForm then ExchangeForm(formSubmitted)
      else if isDismissed && !isVisible then BottomBanner
      else if !isVisible then Nothing
      else Popup
    }
  }

  // ---------------------------------------------------------------------
  // Properties

  /** The bottom banner is shown exactly when the notifier reports it, for every state
      that is not showing the exchange form. */
  lemma BannerShownMatchesView(b: ConferenceBanner)
    requires !b.showExchangeForm
    ensures b.BannerShown() <==> b.CurrentView() == BottomBanner
  { }

  /** Reopening undoes dismissing: from the popup, dismiss then reopen comes back to the
      popup with the session flag cleared. */
  method DismissThenReopen(b: ConferenceBanner)
    requires b.Valid() && b.CurrentView() == Popup
    modifies b
    ensures b.Valid()
    ensures b.CurrentView() == Popup && !b.sessionDismissed
    ensures b.isVisible == old(b.isVisible) && b.isDismissed == old(b.isDismissed)
    ensures b.sessionDismissed == old(b.sessionDismissed)
  {
    b.Dismiss();
    assert b.CurrentView() == BottomBanner;
    b.Reopen();
  }

  /** A session whose flag is already set starts on the bottom banner, with no popup scheduled. */
  method MountDismissed() returns (b: ConferenceBanner)
    ensures b.Valid() && b.CurrentView() == BottomBanner && !b.timerPending
  {
    b := new ConferenceBanner(true, true);
  }

  /** The body the contact handler reads from the payload: absent keys read as `undefined`. */
  function AsSubmission(m: map<PayloadKey, string>): Contact.Submission {
    Contact.Submission(
      FieldOf(m, Name), FieldOf(m, Email), FieldOf(m, Phone), FieldOf(m, Twitter),
      FieldOf(m, LinkedIn), FieldOf(m, Company), FieldOf(m, Source), Undefined)
  }

  function FieldOf(m: map<PayloadKey, string>, key: PayloadKey): Value {
    if key in m then Str(m[key]) else Undefined
  }

  /** Whatever passes the form's checks passes the contact handler's checks. */
  lemma ClientValidPassesServer(f: FormFields)
    requires !IsBlank(f.name) && HasConnection(f)
    ensures Contact.Accepted(AsSubmission(Payload(f)))
  {
    PayloadFields(f);
    assert IsBlank("");
  }

  /** The converse fails: the form trims the name and the handler does not, so a name of
      spaces is refused here but accepted there. */
  lemma ServerLaxerOnName(f: FormFields)
    requires f.name == "  " && f.email != ""
    ensures IsBlank(f.name)
    ensures Contact.Accepted(AsSubmission(Payload(f)))
  {
    assert IsWhitespace(f.name[0]) && IsWhitespace(f.name[1]);
  }
}
