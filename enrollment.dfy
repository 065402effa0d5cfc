/**
 * The enrollment page: a six-field form, an ordered validator (required
 * fields first, then the Aadhaar number), and a submit flow that sets
 * `loading`, and, when its 1500 ms timer fires, clears it, shows a toast
 * and navigates to the dashboard.
 */
module Enrollment {
  import opened Effects

  datatype Field = FullName | Email | Phone | Aadhaar | IdType | Password

  datatype Form = Form(
    fullName: string,
    email: string,
    phone: string,
    aadhaar: string,
    idType: string,
    password: string)

  const EmptyForm: Form := Form("", "", "", "", "", "")

  function Get(f: Form, k: Field): string {
    match k
    case FullName => f.fullName
    case Email => f.email
    case Phone => f.phone
    case Aadhaar => f.aadhaar
    case IdType => f.idType
    case Password => f.password
  }

  /** `update(key, value)`: a copy of the form with one field replaced. */
  function Update(f: Form, k: Field, v: string): (r: Form)
    ensures Get(r, k) == v
    ensures forall j :: j != k ==> Get(r, j) == Get(f, j)
  {
    match k
    case FullName => f.(fullName := v)
    case Email => f.(email := v)
    case Phone => f.(phone := v)
    case Aadhaar => f.(aadhaar := v)
    case IdType => f.(idType := v)
    case Password => f.(password := v)
  }

  /** `\d` of a JavaScript regular expression without the `u` flag: an ASCII digit. */
  predicate IsDigit(c: char) { '0' <= c <= '9' }

  function AllDigits(s: string): (b: bool)
    ensures b <==> forall i :: 0 <= i < |s| ==> IsDigit(s[i])
  {
    s == [] || (IsDigit(s[0]) && AllDigits(s[1..]))
  }

  /** The regular expression `^\d+$`: one or more digits and nothing else. */
  function MatchesDigits(s: string): (b: bool)
    ensures b <==> |s| > 0 && forall i :: 0 <= i < |s| ==> IsDigit(s[i])
  {
    |s| > 0 && AllDigits(s)
  }

  /** Every field is filled in (none is the empty string, which JavaScript treats as false). */
  predicate AllFilled(f: Form) {
    forall k :: Get(f, k) != ""
  }

  const MissingFieldsToast: Toast := Toast("Error", "Please fill all required fields.", Destructive)
  const BadAadhaarToast: Toast := Toast("Error", "Aadhaar must be a 12-digit number.", Destructive)
  const SubmittedToast: Toast :=
    Toast("Enrollment Submitted!", "Your identity verification is being processed.", Plain)

  /** Delay of the simulated submission. */
  const SubmitDelayMs: nat := 1500

  /**
   * The checks of `handleSubmit`, in their order. The uploaded file is not
   * an argument: it plays no part in validation.
   */
  function Validate(f: Form): (v: Verdict)
    ensures v == Accept <==>
              AllFilled(f) && |f.aadhaar| == 12
              && forall i :: 0 <= i < |f.aadhaar| ==> IsDigit(f.aadhaar[i])
    ensures !AllFilled(f) ==> v == Reject(MissingFieldsToast)
    ensures AllFilled(f) && v != Accept ==> v == Reject(BadAadhaarToast)
  {
    if f.fullName == "" || f.email == "" || f.phone == ""
       || f.aadhaar == "" || f.idType == "" || f.password == "" then
      assert exists k :: Get(f, k) == "" by {
        assert Get(f, FullName) == "" || Get(f, Email) == "" || Get(f, Phone) == ""
               || Get(f, Aadhaar) == "" || Get(f, IdType) == "" || Get(f, Password) == "";
      }
      Reject(MissingFieldsToast)
    else if |f.aadhaar| != 12 || !MatchesDigits(f.aadhaar) then
      Reject(BadAadhaarToast)
    else
      Accept
  }

  /** The required-field check comes first: an empty Aadhaar number is reported as a missing field. */
  lemma EmptyAadhaarIsMissingField(f: Form)
    requires f.aadhaar == ""
    ensures Validate(f) == Reject(MissingFieldsToast)
  {
  }

  /** Filling every field of the initial form in turn, with a valid Aadhaar number, passes validation. */
  lemma FilledFormAccepted(name: string, email: string, phone: string, aadhaar: string, idType: string, password: string)
    requires name != "" && email != "" && phone != "" && idType != "" && password != ""
    requires |aadhaar| == 12 && forall i :: 0 <= i < 12 ==> IsDigit(aadhaar[i])
    ensures
      var f := Update(Update(Update(Update(Update(Update(EmptyForm,
                 FullName, name), Email, email), Phone, phone), Aadhaar, aadhaar), IdType, idType), Password, password);
      Validate(f) == Accept
  {
  }

  class EnrollPage {
    var form: Form
    var file: Option<string>
    var loading: bool
    var pendingTimers: nat
    var log: seq<Effect>

    constructor ()
      ensures form == EmptyForm && file == None && !loading
      ensures pendingTimers == 0 && log == []
    {
      form := EmptyForm;
      file := None;
      loading := false;
      pendingTimers := 0;
      log := [];
    }

    /** An input's change handler: `update(key, value)`. */
    method UpdateField(k: Field, v: string)
      modifies this
      ensures form == Update(old(form), k, v)
      ensures file == old(file) && loading == old(loading)
      ensures pendingTimers == old(pendingTimers) && log == old(log)
    {
      form := Update(form, k, v);
    }

    /** The file input's change handler: the first chosen file, or none. */
    method ChooseFile(name: Option<string>)
      modifies this
      ensures file == name && form == old(form) && loading == old(loading)
      ensures pendingTimers == old(pendingTimers) && log == old(log)
    {
      file := name;
    }

    /**
     * `handleSubmit`: on a rejected form show the error toast and change
     * nothing else; on an accepted one set `loading` and start the timer.
     */
    method HandleSubmit()
      modifies this
      ensures form == old(form) && file == old(file)
      ensures Validate(form).Reject? ==>
                log == old(log) + [ShowToast(Validate(form).toast)]
                && loading == old(loading) && pendingTimers == old(pendingTimers)
      ensures Validate(form) == Accept ==>
                loading && log == old(log) && pendingTimers == old(pendingTimers) + 1
    {
      var f := form;
      if f.fullName == "" || f.email == "" || f.phone == ""
         || f.aadhaar == "" || f.idType == "" || f.password == "" {
        log := log + [ShowToast(MissingFieldsToast)];
        return;
      }
      if |f.aadhaar| != 12 || !MatchesDigits(f.aadhaar) {
        log := log + [ShowToast(BadAadhaarToast)];
        return;
      }
      loading := true;
      pendingTimers := pendingTimers + 1;
    }

    /** The submission timer fires: clear `loading`, show the toast, then navigate. */
    method TimerFired()
      requires pendingTimers > 0
      modifies this
      ensures !loading && pendingTimers == old(pendingTimers) - 1
      ensures log == old(log) + [ShowToast(SubmittedToast), Navigate(DashboardPath)]
      ensures form == old(form) && file == old(file)
    {
      pendingTimers := pendingTimers - 1;
      loading := false;
      log := log + [ShowToast(SubmittedToast)];
      log := log + [Navigate(DashboardPath)];
    }
  }

  /**
   * A complete valid enrollment, file chosen or not: submitting sets
   * `loading`, and the timer then clears it and leaves exactly the success
   * toast and the navigation to the dashboard, in that order.
   */
  method SubmitAndWait(page: EnrollPage)
    requires Validate(page.form) == Accept
    modifies page
    ensures !page.loading && page.pendingTimers == old(page.pendingTimers)
    ensures page.log == old(page.log) + [ShowToast(SubmittedToast), Navigate(DashboardPath)]
  {
    page.HandleSubmit();
    assert page.loading;
    page.TimerFired();
  }
}
