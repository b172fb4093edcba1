/**
 * The call-back request dialog (src/components/RequestDialog.tsx): the two
 * field rules the form library enforces before `onSubmit` runs, and the
 * branch `onSubmit` takes on the answer to its POST.
 *
 * The name is required; the phone is required and must match the anchored
 * pattern `^[0-9]{10,15}$`. A rule that fails shows its message and the
 * submission does not happen. The answer to the POST is a parameter.
 */
module RequestForm {
  // Only for the shared `Option` type; the form does not read the catalogue.
  import opened Catalog

  /** The form's two fields, as typed. */
  datatype FormData = FormData(name: string, phone: string)

  /** Why a field is shown with an error. */
  datatype FieldError = Required | PatternMismatch

  datatype FormErrors = FormErrors(name: Option<FieldError>, phone: Option<FieldError>)

  /** The character class `[0-9]`: the ASCII digits only. */
  predicate IsDigit(c: char)
  {
    '0' <= c <= '9'
  }

  /** `[0-9]{lo,hi}$` against the rest of the input: between lo and hi digits
      and then the end of the input (`$` without the multiline flag). */
  function DigitRun(s: string, lo: nat, hi: nat): bool
    decreases |s|
  {
    if |s| == 0 then lo == 0
    else if hi == 0 then false
    else IsDigit(s[0]) && DigitRun(s[1..], if lo > 0 then lo - 1 else 0, hi - 1)
  }

  /** The phone pattern `^[0-9]{10,15}$`. */
  function PhonePattern(s: string): bool
  {
    DigitRun(s, 10, 15)
  }

  ghost predicate AllDigits(s: string)
  {
    forall k :: 0 <= k < |s| ==> IsDigit(s[k])
  }

  /** A run of lo to hi digits is exactly that: only digits, and a length in range. */
  lemma {:induction false} DigitRunMeans(s: string, lo: nat, hi: nat)
    requires lo <= hi
    ensures DigitRun(s, lo, hi) <==> AllDigits(s) && lo <= |s| <= hi
  {
    if |s| > 0 && hi > 0 {
      DigitRunMeans(s[1..], if lo > 0 then lo - 1 else 0, hi - 1);
      assert AllDigits(s) <==> IsDigit(s[0]) && AllDigits(s[1..]) by {
        if IsDigit(s[0]) && AllDigits(s[1..]) {
          forall k | 0 <= k < |s| ensures IsDigit(s[k]) {
            if k > 0 { assert s[k] == s[1..][k - 1]; }
          }
        }
      }
    }
  }

  /** A phone is accepted exactly when it is ASCII digits only and 10 to 15
      characters long. */
  lemma PhonePatternMeans(s: string)
    ensures PhonePattern(s) <==> AllDigits(s) && 10 <= |s| <= 15
  {
    DigitRunMeans(s, 10, 15);
  }

  /** The field rules (RequestDialog.tsx:67, 82-88): an empty name is
      `required`; an empty phone is `required`, and a non-empty one that does
      not match the pattern is a pattern error (the pattern is only tried on a
      non-empty value). */
  function Validate(data: FormData): (e: FormErrors)
    ensures e.name == (if data.name == "" then Some(Required) else None)
    ensures e.phone == Some(Required) <==> data.phone == ""
    ensures e.phone == Some(PatternMismatch) <==>
              data.phone != "" && !(AllDigits(data.phone) && 10 <= |data.phone| <= 15)
    ensures e.phone == None <==> AllDigits(data.phone) && 10 <= |data.phone| <= 15
  {
    PhonePatternMeans(data.phone);
    var nameError := if data.name == "" then Some(Required) else None;
    var phoneError :=
      if data.phone == "" then Some(Required)
      else if !PhonePattern(data.phone) then Some(PatternMismatch)
      else None;
    FormErrors(nameError, phoneError)
  }

  predicate NoErrors(e: FormErrors)
  {
    e.name.None? && e.phone.None?
  }

  /** The answer to `fetch('/api/send-request', …)`. */
  datatype Response = Ok | NotOk | Threw

  /** The POST `onSubmit` sends: its path, its JSON content type and the data. */
  datatype Request = Request(path: string, contentType: string, body: FormData)

  datatype Toast = SentToast | FailedToast

  /** What a press of the submit button leads to. */
  datatype Outcome =
    | Rejected(errors: FormErrors)
    | Sent(request: Request, toast: Toast, closed: bool)

  /** `handleSubmit(onSubmit)` (RequestDialog.tsx:26-46, 59): with a field
      error nothing is sent; otherwise the form data is posted and the dialog
      is closed only on an ok answer. */
  function Submit(data: FormData, response: Response): (o: Outcome)
    ensures o.Rejected? <==> data.name == "" || !(AllDigits(data.phone) && 10 <= |data.phone| <= 15)
    ensures o.Rejected? ==> o.errors == Validate(data) && !NoErrors(o.errors)
    ensures o.Sent? ==>
              && o.request == Request("/api/send-request", "application/json", data)
              && (o.closed <==> response == Ok)
              && (o.toast == SentToast <==> response == Ok)
  {
    var errors := Validate(data);
    if !NoErrors(errors) then Rejected(errors)
    else
      var request := Request("/api/send-request", "application/json", data);
      match response
      case Ok => Sent(request, SentToast, true)
      case NotOk => Sent(request, FailedToast, false)
      case Threw => Sent(request, FailedToast, false)
  }

  /** Samples: eleven digits are accepted; ten digits behind a "+" and nine
      digits are not. */
  lemma PhoneSamples()
    ensures PhonePattern("89161234567")
    ensures !PhonePattern("+7916123456")
    ensures !PhonePattern("916123456")
  {
    PhonePatternMeans("89161234567");
    PhonePatternMeans("+7916123456");
    PhonePatternMeans("916123456");
    assert !IsDigit("+7916123456"[0]);
  }
}
