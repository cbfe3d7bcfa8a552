/**
 * The public registration form (app/register/page.jsx): field validation,
 * the payment-proof file check, and the gated upload-then-insert submit.
 * The backend (upload URL, file upload, `createRegistration`) is reached only
 * through the effects this model records in order, and its answers are
 * parameters.
 */
module Register {
  import opened Wrappers
  import opened Text

  /** A browser `File`: its MIME type and its size in bytes. */
  datatype File = File(mimeType: string, size: nat)

  /** The `formData` state object. */
  datatype FormData = FormData(
    fullName: string,
    gender: string,
    lifeStatus: string,
    dateOfBirth: string,
    whatsappNumber: string,
    emergencyContact: string,
    emailAddress: string,
    address: string,
    parishName: string,
    prayerIntention: string,
    paymentProof: Option<File>,
    comment: string
  )

  const EmptyForm := FormData("", "", "", "", "", "", "", "", "", "", None, "")

  /** The messages the form can show under a field. */
  datatype ErrorMessage =
    | FullNameRequired | GenderRequired | LifeStatusRequired | DateOfBirthRequired | WhatsappInvalid
    | EmergencyRequired | EmergencySameAsWhatsapp | EmailInvalid | ParishRequired
    | ProofRequired | ProofWrongType | ProofTooLarge

  /** The text of each message, as the page displays it. */
  function MessageText(m: ErrorMessage): string {
    match m
    case FullNameRequired => "Full Name is required."
    case GenderRequired => "Please select your gender."
    case LifeStatusRequired => "Please select your current status."
    case DateOfBirthRequired => "Date of Birth is required."
    case WhatsappInvalid => "Enter a valid 10-digit WhatsApp number."
    case EmergencyRequired => "Emergency contact is required."
    case EmergencySameAsWhatsapp => "Emergency contact cannot be the same as WhatsApp number"
    case EmailInvalid => "Enter a valid email address."
    case ParishRequired => "Parish name is required."
    case ProofRequired => "Payment screenshot is required."
    case ProofWrongType => "Only JPG/PNG allowed."
    case ProofTooLarge => "File size must be under 2MB."
  }

  /** The largest accepted payment-proof file: 2 MiB. */
  const MaxProofBytes := 2 * 1024 * 1024

  // ---- The two regular expressions ----

  predicate IsDigit(c: char) {
    '0' <= c <= '9'
  }

  /** `/^[0-9]{10}$/.test(s)`. */
  predicate IsPhoneNumber(s: string) {
    |s| == 10 && forall i :: 0 <= i < |s| ==> IsDigit(s[i])
  }

  /** Neither `@` nor white space: what `[^\s@]` matches. */
  predicate IsAddressChar(c: char) {
    c != '@' && !IsSpace(c)
  }

  ghost predicate AllAddressChars(s: string) {
    forall i :: 0 <= i < |s| ==> IsAddressChar(s[i])
  }

  /**
   * What `/^[^\s@]+@[^\s@]+\.[^\s@]+$/` means: the string splits at an `@`
   * (index p) and a later `.` (index q) into three non-empty runs of
   * characters that are neither `@` nor white space.
   */
  ghost predicate MatchesEmailPattern(s: string) {
    exists p, q :: 0 < p && p + 1 < q && q + 1 < |s| && EmailSplit(s, p, q)
  }

  ghost predicate EmailSplit(s: string, p: int, q: int)
    requires 0 < p && p + 1 < q && q + 1 < |s|
  {
    s[p] == '@' && s[q] == '.' &&
    AllAddressChars(s[..p]) && AllAddressChars(s[p + 1..q]) && AllAddressChars(s[q + 1..])
  }

  /** Index of the first `c` in `s`, or `|s|` when there is none. */
  function IndexOf(s: string, c: char): (r: nat)
    ensures r <= |s|
    ensures forall i :: 0 <= i < r ==> s[i] != c
    ensures r < |s| ==> s[r] == c
  {
    if s == [] then 0 else if s[0] == c then 0 else 1 + IndexOf(s[1..], c)
  }

  /**
   * `emailRegex.test(s)`, decided directly: no white space, a first `@` after
   * at least one character, no second `@`, and a `.` after the `@` with text
   * on both sides of it.
   */
  predicate IsEmailAddress(s: string) {
    var p := IndexOf(s, '@');
    && (forall i :: 0 <= i < |s| ==> !IsSpace(s[i]))
    && 0 < p < |s|
    && (forall i :: p < i < |s| ==> s[i] != '@')
    && (exists q :: p + 1 < q < |s| - 1 && s[q] == '.')
  }

  /** The direct test accepts exactly the strings the regular expression matches. */
  lemma EmailTestMatchesPattern(s: string)
    ensures IsEmailAddress(s) <==> MatchesEmailPattern(s)
  {
    var p := IndexOf(s, '@');
    if IsEmailAddress(s) {
      var q :| p + 1 < q < |s| - 1 && s[q] == '.';
      assert EmailSplit(s, p, q) by {
        forall i | 0 <= i < |s[..p]| ensures IsAddressChar(s[..p][i]) {
          assert s[..p][i] == s[i];
        }
        var domain, tld := s[p + 1..q], s[q + 1..];
        forall i | 0 <= i < |domain| ensures IsAddressChar(domain[i]) {
          assert domain[i] == s[p + 1 + i];
        }
        forall i | 0 <= i < |tld| ensures IsAddressChar(tld[i]) {
          assert tld[i] == s[q + 1 + i];
        }
      }
    }
    if MatchesEmailPattern(s) {
      var p', q :| 0 < p' && p' + 1 < q && q + 1 < |s| && EmailSplit(s, p', q);
      forall i | 0 <= i < |s| ensures !IsSpace(s[i]) && (i != p' ==> s[i] != '@') {
        if i < p' {
          assert s[..p'][i] == s[i];
        } else if p' < i < q {
          assert s[p' + 1..q][i - p' - 1] == s[i];
        } else if q < i {
          assert s[q + 1..][i - q - 1] == s[i];
        }
      }
      assert p == p';
    }
  }

  /**
   * An errors object: for each field, its message or nothing. A property set
   * to `null` and an absent property both read as nothing.
   */
  datatype FieldErrors = FieldErrors(
    fullName: Option<ErrorMessage>,
    gender: Option<ErrorMessage>,
    lifeStatus: Option<ErrorMessage>,
    dateOfBirth: Option<ErrorMessage>,
    whatsappNumber: Option<ErrorMessage>,
    emergencyContact: Option<ErrorMessage>,
    emailAddress: Option<ErrorMessage>,
    parishName: Option<ErrorMessage>,
    paymentProof: Option<ErrorMessage>
  )

  const NoErrors := FieldErrors(None, None, None, None, None, None, None, None, None)

  function Count(o: Option<ErrorMessage>): nat {
    if o.Some? then 1 else 0
  }

  /** `Object.keys(e).length` for an object holding only messages. */
  function KeyCount(e: FieldErrors): nat {
    Count(e.fullName) + Count(e.gender) + Count(e.lifeStatus) + Count(e.dateOfBirth)
    + Count(e.whatsappNumber) + Count(e.emergencyContact) + Count(e.emailAddress)
    + Count(e.parishName) + Count(e.paymentProof)
  }

  /**
   * The errors object validation should produce, rule by rule: a blank name,
   * emergency contact or parish (nothing but white space); an unselected
   * gender, status or birth date; a WhatsApp number that is not ten digits;
   * an emergency contact equal to the WhatsApp number; an address the email
   * pattern does not match; a missing payment proof.
   */
  ghost function ExpectedErrors(form: FormData): FieldErrors {
    FieldErrors(
      if Blank(form.fullName) then Some(FullNameRequired) else None,
      if form.gender == "" then Some(GenderRequired) else None,
      if form.lifeStatus == "" then Some(LifeStatusRequired) else None,
      if form.dateOfBirth == "" then Some(DateOfBirthRequired) else None,
      if !IsPhoneNumber(form.whatsappNumber) then Some(WhatsappInvalid) else None,
      if Blank(form.emergencyContact) then Some(EmergencyRequired)
      else if form.emergencyContact == form.whatsappNumber then Some(EmergencySameAsWhatsapp)
      else None,
      if !MatchesEmailPattern(form.emailAddress) then Some(EmailInvalid) else None,
      if Blank(form.parishName) then Some(ParishRequired) else None,
      if form.paymentProof.None? then Some(ProofRequired) else None)
  }

  /** A form that satisfies every rule. */
  ghost predicate Acceptable(form: FormData) {
    && !Blank(form.fullName) && form.gender != "" && form.lifeStatus != "" && form.dateOfBirth != ""
    && IsPhoneNumber(form.whatsappNumber)
    && !Blank(form.emergencyContact) && form.emergencyContact != form.whatsappNumber
    && MatchesEmailPattern(form.emailAddress)
    && !Blank(form.parishName) && form.paymentProof.Some?
  }

  /**
   * Validation finds an error exactly when some rule fails; when none fails
   * the errors object is empty and a payment proof is present.
   */
  lemma ErrorsIffRejected(form: FormData)
    ensures KeyCount(ExpectedErrors(form)) > 0 <==> !Acceptable(form)
    ensures Acceptable(form) <==> ExpectedErrors(form) == NoErrors
  {
  }

  /**
   * `validateForm`: checks the fields in order and records a message for
   * each one that fails; each property of `newErrors` is a local here, and
   * the object is assembled at the end.
   */
  method ValidateForm(form: FormData) returns (errors: FieldErrors)
    ensures errors == ExpectedErrors(form)
  {
    var fullName, gender, lifeStatus, dateOfBirth, whatsappNumber: Option<ErrorMessage>
      := None, None, None, None, None;
    var emergencyContact, emailAddress, parishName, paymentProof: Option<ErrorMessage>
      := None, None, None, None;
    if Trim(form.fullName) == "" { fullName := Some(FullNameRequired); }
    TrimEmptyIffBlank(form.fullName);
    if form.gender == "" { gender := Some(GenderRequired); }
    if form.lifeStatus == "" { lifeStatus := Some(LifeStatusRequired); }
    if form.dateOfBirth == "" { dateOfBirth := Some(DateOfBirthRequired); }
    if form.whatsappNumber == "" || !IsPhoneNumber(form.whatsappNumber) {
      whatsappNumber := Some(WhatsappInvalid);
    }
    if Trim(form.emergencyContact) == "" {
      emergencyContact := Some(EmergencyRequired);
    } else if form.whatsappNumber == form.emergencyContact {
      emergencyContact := Some(EmergencySameAsWhatsapp);
    }
    TrimEmptyIffBlank(form.emergencyContact);
    if form.emailAddress == "" || !IsEmailAddress(form.emailAddress) {
      emailAddress := Some(EmailInvalid);
    }
    EmailTestMatchesPattern(form.emailAddress);
    EmptyIsNoEmail();
    if Trim(form.parishName) == "" { parishName := Some(ParishRequired); }
    TrimEmptyIffBlank(form.parishName);
    if form.paymentProof.None? { paymentProof := Some(ProofRequired); }
    errors := FieldErrors(fullName, gender, lifeStatus, dateOfBirth, whatsappNumber,
                          emergencyContact, emailAddress, parishName, paymentProof);
  }

  lemma EmptyIsNoEmail()
    ensures !IsEmailAddress("")
  {
  }

  /**
   * An emergency contact equal to the WhatsApp number is refused, whatever
   * the other fields hold; unless it is blank, the message is the one about
   * the two numbers being the same.
   */
  lemma SameNumberRejected(form: FormData)
    requires form.emergencyContact == form.whatsappNumber
    ensures !Acceptable(form)
    ensures !Blank(form.emergencyContact) ==>
      ExpectedErrors(form).emergencyContact == Some(EmergencySameAsWhatsapp)
  {
  }

  /** A ten-digit number is never blank, so repeating it as the emergency contact draws the same-number message. */
  lemma SamePhoneNumberMessage(form: FormData)
    requires IsPhoneNumber(form.whatsappNumber) && form.emergencyContact == form.whatsappNumber
    ensures ExpectedErrors(form).emergencyContact == Some(EmergencySameAsWhatsapp)
  {
    assert !IsSpace(form.emergencyContact[0]);
  }

  /**
   * Whatever the email regular expression accepts has exactly one `@`, no
   * white space, a non-empty part before the `@`, and a `.` after it with
   * text on both sides.
   */
  lemma EmailShape(s: string)
    requires MatchesEmailPattern(s)
    ensures forall i :: 0 <= i < |s| ==> !IsSpace(s[i])
    ensures var p := IndexOf(s, '@');
      && 0 < p < |s|
      && (forall i :: 0 <= i < |s| && s[i] == '@' ==> i == p)
      && (exists q :: p + 1 < q < |s| - 1 && s[q] == '.')
  {
    EmailTestMatchesPattern(s);
  }

  // ---- The payment-proof file ----

  /** The type and size tests of `handleFileChange`: JPEG or PNG, at most 2 MiB. */
  predicate AcceptableProof(f: File) {
    (f.mimeType == "image/jpeg" || f.mimeType == "image/png") && f.size <= MaxProofBytes
  }

  /** The rejection message for a file, when there is one. */
  function ProofError(f: File): (r: Option<ErrorMessage>)
    ensures r.None? <==> AcceptableProof(f)
    ensures r == Some(ProofWrongType) <==> f.mimeType != "image/jpeg" && f.mimeType != "image/png"
    ensures r == Some(ProofTooLarge) <==> (f.mimeType == "image/jpeg" || f.mimeType == "image/png") && f.size > MaxProofBytes
  {
    if f.mimeType != "image/jpeg" && f.mimeType != "image/png" then Some(ProofWrongType)
    else if f.size > 2 * 1024 * 1024 then Some(ProofTooLarge)
    else None
  }

  /** A PNG or JPEG of exactly 2 MiB is accepted; one byte more is not. */
  lemma ProofSizeBoundary(mimeType: string)
    requires mimeType == "image/png" || mimeType == "image/jpeg"
    ensures ProofError(File(mimeType, 2097152)).None?
    ensures ProofError(File(mimeType, 2097153)) == Some(ProofTooLarge)
  {
  }

  // ---- Submission ----

  /** What the page asks of the backend, and where it navigates. */
  datatype Effect =
    | UploadProof(file: File)
    | CreateRegistration(payload: Payload)
    | ShowSuccess(fullName: string, gender: string, lifeStatus: string)

  /** The argument of `createRegistration`; `None` is an `undefined` or `null` property. */
  datatype Payload = Payload(
    fullName: string,
    gender: string,
    lifeStatus: string,
    dateOfBirth: string,
    whatsappNumber: string,
    emergencyContact: string,
    emailAddress: string,
    address: Option<string>,
    parishName: string,
    paymentMethod: string,
    prayerIntention: Option<string>,
    paymentProof: Option<string>,
    comment: Option<string>
  )

  /** `value || undefined`. */
  function UndefinedIfEmpty(s: string): (r: Option<string>)
    ensures r.None? <==> s == ""
    ensures r.Some? ==> r.value == s && r.value != ""
  {
    if s == "" then None else Some(s)
  }

  /** The insert payload built from the form, the payment method and the upload's storage id. */
  function BuildPayload(form: FormData, paymentMethod: string, storageId: Option<string>): (p: Payload)
    ensures p.address.None? <==> form.address == ""
    ensures p.prayerIntention.None? <==> form.prayerIntention == ""
    ensures p.comment.None? <==> form.comment == ""
    ensures form.address != "" ==> p.address == Some(form.address)
    ensures form.prayerIntention != "" ==> p.prayerIntention == Some(form.prayerIntention)
    ensures form.comment != "" ==> p.comment == Some(form.comment)
    ensures p.paymentProof == storageId
    ensures p.paymentMethod == paymentMethod
    ensures p.fullName == form.fullName && p.emailAddress == form.emailAddress
    ensures p.whatsappNumber == form.whatsappNumber && p.emergencyContact == form.emergencyContact
    ensures p.gender == form.gender && p.lifeStatus == form.lifeStatus
    ensures p.dateOfBirth == form.dateOfBirth && p.parishName == form.parishName
  {
    Payload(
      form.fullName, form.gender, form.lifeStatus, form.dateOfBirth, form.whatsappNumber,
      form.emergencyContact, form.emailAddress, UndefinedIfEmpty(form.address), form.parishName,
      paymentMethod, UndefinedIfEmpty(form.prayerIntention), storageId, UndefinedIfEmpty(form.comment))
  }

  /** The upload's answer: the storage id, or `None` when generating the URL or posting the file threw. */
  type UploadReply = Option<string>

  const SubmitFailed := "Something went wrong while submitting the form."

  /** The form page's state. */
  class RegistrationForm {
    var formData: FormData
    var errors: FieldErrors
    var registering: bool
    var submitError: string
    const paymentMethod: string
    /** Every request made to the backend and every navigation, in order. */
    var effects: seq<Effect>

    constructor ()
      ensures formData == EmptyForm && errors == NoErrors && !registering && submitError == ""
      ensures paymentMethod == "online" && effects == []
    {
      formData := EmptyForm;
      errors := NoErrors;
      registering := false;
      submitError := "";
      paymentMethod := "online";
      effects := [];
    }

    /**
     * The file input changed. A rejected file records its message and keeps
     * the stored file; an accepted one clears the message and is stored.
     */
    method HandleFileChange(file: Option<File>)
      modifies this
      ensures effects == old(effects) && registering == old(registering) && submitError == old(submitError)
      ensures file.None? ==> formData == old(formData) && errors == old(errors)
      ensures file.Some? && !AcceptableProof(file.value) ==>
        && formData == old(formData)
        && errors == old(errors).(paymentProof := ProofError(file.value))
      ensures file.Some? && AcceptableProof(file.value) ==>
        && formData == old(formData).(paymentProof := file)
        && errors == old(errors).(paymentProof := None)
    {
      if file.Some? {
        var f := file.value;
        if f.mimeType != "image/jpeg" && f.mimeType != "image/png" {
          errors := errors.(paymentProof := Some(ProofWrongType));
          return;
        }
        if f.size > 2 * 1024 * 1024 {
          errors := errors.(paymentProof := Some(ProofTooLarge));
          return;
        }
        errors := errors.(paymentProof := None);
        formData := formData.(paymentProof := file);
      }
    }

    /**
     * `handleSubmit`. With any failing field it stores the errors and asks
     * nothing of the backend. Otherwise it uploads the proof, then inserts the
     * record carrying the upload's storage id, then navigates; a failing
     * backend call stops the sequence and sets the submit error. Every exit
     * leaves `registering` false.
     */
    method HandleSubmit(upload: UploadReply, insertSucceeds: bool)
      modifies this
      ensures !registering
      ensures formData == old(formData)
      ensures !Acceptable(old(formData)) ==>
        && errors == ExpectedErrors(old(formData))
        && effects == old(effects)
        && submitError == ""
      ensures Acceptable(old(formData)) ==>
        && errors == NoErrors
        && old(formData).paymentProof.Some?
        && effects == old(effects) + SubmitEffects(old(formData), paymentMethod, upload, insertSucceeds)
        && (submitError == "" <==> upload.Some? && insertSucceeds)
        && (submitError != "" ==> submitError == SubmitFailed)
    {
      submitError := "";
      registering := true;
      var validationErrors := ValidateForm(formData);
      ErrorsIffRejected(formData);
      if KeyCount(validationErrors) > 0 {
        errors := validationErrors;
        registering := false;
        return;
      }
      errors := NoErrors;
      var fileStorageId: Option<string> := None;
      if formData.paymentProof.Some? {
        effects := effects + [UploadProof(formData.paymentProof.value)];
        if upload.None? {
          submitError := SubmitFailed;
          registering := false;
          return;
        }
        fileStorageId := upload;
      }
      effects := effects + [CreateRegistration(BuildPayload(formData, paymentMethod, fileStorageId))];
      if !insertSucceeds {
        submitError := SubmitFailed;
        registering := false;
        return;
      }
      effects := effects + [ShowSuccess(formData.fullName, formData.gender, formData.lifeStatus)];
      registering := false;
    }
  }

  /**
   * The backend requests of a submission that passed validation: the upload,
   * then (if it answered) the insert with its storage id, then (if that
   * succeeded) the navigation to the success page.
   */
  function SubmitEffects(form: FormData, paymentMethod: string, upload: UploadReply, insertSucceeds: bool)
    : (r: seq<Effect>)
    requires form.paymentProof.Some?
    ensures 1 <= |r| <= 3 && r[0] == UploadProof(form.paymentProof.value)
    ensures forall i :: 0 <= i < |r| && r[i].CreateRegistration? ==>
      i == 1 && upload.Some? && r[i].payload.paymentProof == upload
    ensures upload.Some? <==> |r| >= 2
    ensures upload.Some? ==> r[1] == CreateRegistration(BuildPayload(form, paymentMethod, upload))
    ensures r[|r| - 1].ShowSuccess? <==> upload.Some? && insertSucceeds
  {
    [UploadProof(form.paymentProof.value)]
    + (if upload.None? then []
       else [CreateRegistration(BuildPayload(form, paymentMethod, upload))]
            + (if insertSucceeds then [ShowSuccess(form.fullName, form.gender, form.lifeStatus)] else []))
  }
}
