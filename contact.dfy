/**
 * The contact form: a field-by-field validator over the three inputs, and
 * the simulated submission lifecycle around it (editing, submitting, success
 * view, back to editing), driven by input, submit and click events and by the
 * two `setTimeout` callbacks, which are modelled as discrete events.
 */
module Contact {
  import opened JsString
  import opened Wrappers
  import Reveal

  // ---------------------------------------------------------------------------
  // Form data and the error record
  // ---------------------------------------------------------------------------

  /** The names of the three inputs (`name`, `email`, `message`). */
  datatype Field = Name | Email | Message

  datatype FormData = FormData(name: string, email: string, message: string)
  {
    /** The value of the input called `f`. */
    function Get(f: Field): string {
      match f
      case Name => name
      case Email => email
      case Message => message
    }

    /** `{ ...prev, [f]: value }`: the named input takes `value`, the other two keep theirs. */
    function With(f: Field, value: string): (d: FormData)
      ensures d.Get(f) == value
      ensures forall g :: g != f ==> d.Get(g) == Get(g)
    {
      match f
      case Name => this.(name := value)
      case Email => this.(email := value)
      case Message => this.(message := value)
    }
  }

  const EmptyForm := FormData("", "", "")

  /**
   * The error record: a field is a key exactly when it carries a message, so
   * `Object.keys(errors).length` is the size of the map.
   */
  type Errors = map<Field, string>

  const NameRequired := "Name is required"
  const EmailRequired := "Email is required"
  const EmailInvalid := "Email is invalid"
  const MessageRequired := "Message is required"
  const MessageTooShort := "Message must be at least 10 characters"

  /** The messages the validator can put under each field. */
  function Messages(f: Field): set<string> {
    match f
    case Name => {NameRequired}
    case Email => {EmailRequired, EmailInvalid}
    case Message => {MessageRequired, MessageTooShort}
  }

  /** Every entry of the record is one of its field's messages. */
  predicate KnownMessages(errors: Errors) {
    forall f :: f in errors ==> errors[f] in Messages(f)
  }

  /** The least trimmed length of an acceptable message. */
  const MinMessageLength := 10

  // ---------------------------------------------------------------------------
  // The email pattern /\S+@\S+\.\S+/ (unanchored)
  // ---------------------------------------------------------------------------

  /**
   * The pattern matches `s` with its `@` at index `at` and its `.` at index
   * `dot`: a non-whitespace character right before the `@`, at least one
   * character between them and all of those non-whitespace, and a
   * non-whitespace character right after the `.`. A longer `\S+` run can
   * always be shortened to one character, so these are exactly the places
   * where the regular expression can match.
   */
  predicate MatchesAt(s: string, at: int, dot: int) {
    1 <= at && at + 2 <= dot && dot + 1 < |s|
    && s[at] == '@' && s[dot] == '.'
    && !IsWhitespace(s[at - 1]) && !IsWhitespace(s[dot + 1])
    && forall k :: at < k < dot ==> !IsWhitespace(s[k])
  }

  /** `/\S+@\S+\.\S+/.test(s)`: the pattern occurs somewhere in `s`. */
  predicate MatchesEmailPattern(s: string)
    ensures MatchesEmailPattern(s) ==> |s| >= 5 && '@' in s && '.' in s
  {
    exists at, dot :: 0 <= at < dot < |s| && MatchesAt(s, at, dot)
  }

  /** A string that matches the pattern is not blank. */
  lemma MatchImpliesNotBlank(s: string)
    ensures MatchesEmailPattern(s) ==> !IsBlank(s)
  {
    if MatchesEmailPattern(s) {
      var at, dot :| 0 <= at < dot < |s| && MatchesAt(s, at, dot);
      assert !IsWhitespace(s[at]);
    }
  }

  /** A match inside a slice of `s` is a match in `s`, shifted by the slice's offset. */
  lemma MatchInSlice(s: string, i: nat, j: nat, at: int, dot: int)
    requires i <= j <= |s|
    requires MatchesAt(s[i..j], at, dot)
    ensures MatchesAt(s, at + i, dot + i)
  {
    var t := s[i..j];
    forall k | at + i < k < dot + i ensures !IsWhitespace(s[k]) {
      assert s[k] == t[k - i];
    }
  }

  /** A match in `s` that lies within `s[i..j]` is a match in that slice. */
  lemma MatchOfSlice(s: string, i: nat, j: nat, at: int, dot: int)
    requires i <= j <= |s|
    requires MatchesAt(s, at, dot) && i <= at - 1 && dot + 1 < j
    ensures MatchesAt(s[i..j], at - i, dot - i)
  {
    var t := s[i..j];
    forall k | at - i < k < dot - i ensures !IsWhitespace(t[k]) {
      assert t[k] == s[k + i];
    }
  }

  /**
   * The pattern is tested on the untrimmed input while the "required" check
   * trims it; surrounding whitespace never changes the outcome of the test.
   */
  lemma MatchIgnoresSurroundingWhitespace(s: string)
    ensures MatchesEmailPattern(s) <==> MatchesEmailPattern(Trim(s))
  {
    var t := Trim(s);
    var i, j := TrimIsSlice(s);
    if MatchesEmailPattern(s) {
      var at, dot :| 0 <= at < dot < |s| && MatchesAt(s, at, dot);
      // Trimming cut off only whitespace, and the characters around the match are not whitespace.
      forall k | 0 <= k < i ensures IsWhitespace(s[k]) {
        assert s[..i][k] == s[k];
      }
      forall k | j <= k < |s| ensures IsWhitespace(s[k]) {
        assert s[j..][k - j] == s[k];
      }
      MatchOfSlice(s, i, j, at, dot);
    }
    if MatchesEmailPattern(t) {
      var at, dot :| 0 <= at < dot < |t| && MatchesAt(t, at, dot);
      MatchInSlice(s, i, j, at, dot);
    }
  }

  /** The pattern is not anchored: a string with a match still matches inside any surrounding text. */
  lemma MatchSurvivesSurroundingText(before: string, s: string, after: string)
    requires MatchesEmailPattern(s)
    ensures MatchesEmailPattern(before + s + after)
  {
    var at, dot :| 0 <= at < dot < |s| && MatchesAt(s, at, dot);
    var w := before + s + after;
    assert w[|before|..|before| + |s|] == s;
    assert MatchesAt(w, at + |before|, dot + |before|);
  }

  // ---------------------------------------------------------------------------
  // validateForm's error computation
  // ---------------------------------------------------------------------------

  /** The name check: "required" exactly when the name is blank. */
  function NameError(name: string): (e: Option<string>)
    ensures e.Some? <==> IsBlank(name)
    ensures e.Some? ==> e.value == NameRequired
  {
    if Trim(name) == [] then Some(NameRequired) else None
  }

  /**
   * The email check: an error exactly when the pattern does not match,
   * "required" when the address is blank and "invalid" otherwise.
   */
  function EmailError(email: string): (e: Option<string>)
    ensures e.Some? <==> !MatchesEmailPattern(email)
    ensures e.Some? ==> e.value == if IsBlank(email) then EmailRequired else EmailInvalid
  {
    MatchImpliesNotBlank(email);
    if Trim(email) == [] then Some(EmailRequired)
    else if !MatchesEmailPattern(email) then Some(EmailInvalid)
    else None
  }

  /**
   * The message check: an error exactly when the trimmed message is shorter
   * than the minimum, "required" when it is blank and "too short" otherwise.
   */
  function MessageError(message: string): (e: Option<string>)
    ensures e.Some? <==> |Trim(message)| < MinMessageLength
    ensures e.Some? ==> e.value == if IsBlank(message) then MessageRequired else MessageTooShort
  {
    if Trim(message) == [] then Some(MessageRequired)
    else if |Trim(message)| < MinMessageLength then Some(MessageTooShort)
    else None
  }

  /** `newErrors.f = …` when a check fails; the record is left alone when it passes. */
  function Record(errors: Errors, f: Field, e: Option<string>): Errors {
    if e.Some? then errors[f := e.value] else errors
  }

  /**
   * The errors `validateForm` computes for `d`: the three checks run in
   * turn, each adding at most its own field's entry.
   */
  function Validate(d: FormData): (errors: Errors)
    ensures Name in errors <==> IsBlank(d.name)
    ensures Name in errors ==> errors[Name] == NameRequired
    ensures Email in errors <==> !MatchesEmailPattern(d.email)
    ensures Email in errors ==> errors[Email] == if IsBlank(d.email) then EmailRequired else EmailInvalid
    ensures Message in errors <==> |Trim(d.message)| < MinMessageLength
    ensures Message in errors ==> errors[Message] == if IsBlank(d.message) then MessageRequired else MessageTooShort
  {
    var afterName := Record(map[], Name, NameError(d.name));
    var afterEmail := Record(afterName, Email, EmailError(d.email));
    Record(afterEmail, Message, MessageError(d.message))
  }

  /** The validator only ever records the messages of the field it checks. */
  lemma ValidateKnownMessages(d: FormData)
    ensures KnownMessages(Validate(d))
  {
    var errors := Validate(d);
    forall f | f in errors ensures errors[f] in Messages(f) {
      match f
      case Name =>
      case Email =>
      case Message =>
    }
  }

  /** What an acceptable submission looks like, stated field by field. */
  predicate Acceptable(d: FormData) {
    !IsBlank(d.name) && MatchesEmailPattern(d.email) && |Trim(d.message)| >= MinMessageLength
  }

  /** `validateForm` returns true (no key in the error record) exactly for acceptable data. */
  lemma ValidIffAcceptable(d: FormData)
    ensures |Validate(d)| == 0 <==> Acceptable(d)
  {
    var errors := Validate(d);
    if Acceptable(d) {
      assert errors.Keys == {};
    } else if IsBlank(d.name) {
      assert Name in errors.Keys;
    } else if !MatchesEmailPattern(d.email) {
      assert Email in errors.Keys;
    } else {
      assert Message in errors.Keys;
    }
  }

  /** A message whose trimmed length is exactly the minimum passes. */
  lemma MessageAtMinimumPasses(d: FormData)
    requires |Trim(d.message)| == MinMessageLength
    ensures Message !in Validate(d)
  {
  }

  /**
   * Each field's error depends on that field alone: changing one input never
   * changes the error, or its absence, of another.
   */
  lemma ErrorsAreFieldLocal(d: FormData, f: Field, value: string, g: Field)
    requires g != f
    ensures g in Validate(d.With(f, value)) <==> g in Validate(d)
    ensures g in Validate(d) ==> Validate(d.With(f, value))[g] == Validate(d)[g]
  {
    assert d.With(f, value).Get(g) == d.Get(g);
  }

  /** All three inputs empty: three errors, each the "required" one. */
  lemma EmptyFormHasThreeErrors()
    ensures Validate(EmptyForm) == map[Name := NameRequired, Email := EmailRequired, Message := MessageRequired]
  {
    var errors := Validate(EmptyForm);
    assert !MatchesEmailPattern(EmptyForm.email);
    assert |Trim(EmptyForm.message)| == 0;
    assert errors.Keys == {Name, Email, Message};
  }

  /** A one-letter name, a short address and a message of exactly ten characters pass. */
  lemma ShortestAcceptedExample()
    ensures Validate(FormData("A", "a@b.com", "1234567890")) == map[]
  {
    var d := FormData("A", "a@b.com", "1234567890");
    assert !IsBlank(d.name) by { assert !IsWhitespace(d.name[0]); }
    assert MatchesAt(d.email, 1, 3);
    TrimUnpadded(d.message);
    assert Acceptable(d);
    ValidIffAcceptable(d);
  }

  /** A word without `@` is not blank but does not match the pattern. */
  lemma NoAtSignNoMatch(s: string)
    requires '@' !in s && s != [] && !IsWhitespace(s[0])
    ensures !IsBlank(s) && !MatchesEmailPattern(s)
  {
  }

  /**
   * With a valid name and message, a non-blank address the pattern rejects
   * gives exactly one error: the format error on the email field.
   */
  lemma OnlyFormatError(d: FormData)
    requires !IsBlank(d.name) && |Trim(d.message)| >= MinMessageLength
    requires !IsBlank(d.email) && !MatchesEmailPattern(d.email)
    ensures Validate(d) == map[Email := EmailInvalid]
  {
    var errors := Validate(d);
    assert errors.Keys == {Email};
  }

  /** An address without `@` yields the format error and nothing else. */
  lemma AddressWithoutAtIsInvalid()
    ensures Validate(FormData("A", "nobody", "1234567890")) == map[Email := EmailInvalid]
  {
    var d := FormData("A", "nobody", "1234567890");
    assert !IsBlank(d.name) by { assert !IsWhitespace(d.name[0]); }
    NoAtSignNoMatch(d.email);
    TrimUnpadded(d.message);
    OnlyFormatError(d);
  }

  // ---------------------------------------------------------------------------
  // The form component's state
  // ---------------------------------------------------------------------------

  /** What the form card shows: the form, the form with a disabled "Sending…" button, or the thank-you view. */
  datatype Phase = Editing | Submitting | Succeeded

  class ContactForm {
    var formData: FormData
    var errors: Errors
    var isSubmitting: bool
    var submitSuccess: bool
    var animated: bool
    /** Callbacks of `setTimeout(…, 1500)` that are scheduled and have not run yet. */
    var pendingSubmitTimers: nat
    /** Callbacks of the nested `setTimeout(…, 5000)` that are scheduled and have not run yet. */
    var pendingResetTimers: nat

    /**
     * What holds in every state the event handlers can reach: each error is
     * one of its field's messages; a submission is in flight
     * exactly while its timer is pending, and then the error record is empty;
     * the thank-you view shows an emptied form with no errors, and a reset
     * timer is pending that will end it.
     */
    ghost predicate Valid()
      reads this
    {
      && KnownMessages(errors)
      && pendingSubmitTimers == (if isSubmitting then 1 else 0)
      && (isSubmitting ==> !submitSuccess && errors == map[])
      && (submitSuccess ==> formData == EmptyForm && errors == map[] && pendingResetTimers > 0)
    }

    function CurrentPhase(): Phase
      reads this
    {
      if isSubmitting then Submitting else if submitSuccess then Succeeded else Editing
    }

    /** The component on mount: empty inputs, no errors, not submitting, no success view, not yet revealed. */
    constructor ()
      ensures Valid() && CurrentPhase() == Editing
      ensures formData == EmptyForm && errors == map[] && !animated
      ensures pendingSubmitTimers == 0 && pendingResetTimers == 0
    {
      formData := EmptyForm;
      errors := map[];
      isSubmitting := false;
      submitSuccess := false;
      animated := false;
      pendingSubmitTimers := 0;
      pendingResetTimers := 0;
    }

    /**
     * `handleChange` for the input called `field`: that input takes `value`
     * and its error, if any, is cleared; the other inputs and errors stay.
     * The inputs exist only while the form (not the thank-you view) is shown.
     */
    method HandleChange(field: Field, value: string)
      requires Valid() && !submitSuccess
      modifies this`formData, this`errors
      ensures Valid() && CurrentPhase() == old(CurrentPhase())
      ensures formData == old(formData).With(field, value)
      ensures errors == old(errors) - {field}
    {
      formData := formData.With(field, value);
      if field in errors {
        errors := errors - {field};
      }
    }

    /**
     * `validateForm`: replaces the error record by the errors of the current
     * data and reports whether there are none.
     */
    method ValidateForm() returns (ok: bool)
      requires Valid() && !isSubmitting && !submitSuccess
      modifies this`errors
      ensures Valid()
      ensures errors == Validate(formData)
      ensures ok <==> Acceptable(formData)
    {
      errors := Validate(formData);
      ValidateKnownMessages(formData);
      ValidIffAcceptable(formData);
      ok := |errors| == 0;
    }

    /**
     * `handleSubmit`: an unacceptable form only has its errors replaced; an
     * acceptable one starts submitting and schedules the submit timer. The
     * submit button is disabled while submitting and the form is not
     * rendered in the thank-you view, so neither state can submit.
     */
    method HandleSubmit() returns (accepted: bool)
      requires Valid() && !isSubmitting && !submitSuccess
      modifies this`errors, this`isSubmitting, this`pendingSubmitTimers
      ensures Valid()
      ensures errors == Validate(formData)
      ensures accepted <==> Acceptable(formData)
      ensures accepted ==> errors == map[] && CurrentPhase() == Submitting && pendingSubmitTimers == 1
      ensures !accepted ==> CurrentPhase() == Editing && pendingSubmitTimers == 0
    {
      accepted := ValidateForm();
      if accepted {
        isSubmitting := true;
        pendingSubmitTimers := pendingSubmitTimers + 1;
      }
    }

    /**
     * The 1500 ms callback: the submission ends in the thank-you view, the
     * inputs are emptied and the 5000 ms reset timer is scheduled.
     */
    method SubmitTimerFires()
      requires Valid() && pendingSubmitTimers > 0
      modifies this`isSubmitting, this`submitSuccess, this`formData, this`pendingSubmitTimers, this`pendingResetTimers
      ensures Valid() && CurrentPhase() == Succeeded
      ensures formData == EmptyForm && !isSubmitting && submitSuccess
      ensures pendingSubmitTimers == old(pendingSubmitTimers) - 1
      ensures pendingResetTimers == old(pendingResetTimers) + 1
    {
      isSubmitting := false;
      submitSuccess := true;
      formData := EmptyForm;
      pendingSubmitTimers := pendingSubmitTimers - 1;
      pendingResetTimers := pendingResetTimers + 1;
    }

    /** The 5000 ms callback: the thank-you view ends (if it is still shown). */
    method ResetTimerFires()
      requires Valid() && pendingResetTimers > 0
      modifies this`submitSuccess, this`pendingResetTimers
      ensures Valid() && !submitSuccess
      ensures pendingResetTimers == old(pendingResetTimers) - 1
      ensures old(CurrentPhase()) == Submitting ==> CurrentPhase() == Submitting
      ensures old(CurrentPhase()) != Submitting ==> CurrentPhase() == Editing
    {
      submitSuccess := false;
      pendingResetTimers := pendingResetTimers - 1;
    }

    /** The "Send Another Message" button, shown only in the thank-you view: back to the (empty) form. */
    method SendAnotherMessage()
      requires Valid() && submitSuccess
      modifies this`submitSuccess
      ensures Valid() && CurrentPhase() == Editing && formData == EmptyForm
    {
      submitSuccess := false;
    }

    /** The section's intersection observer callback. */
    method OnIntersection(isIntersecting: bool)
      requires Valid()
      modifies this`animated
      ensures Valid()
      ensures animated == Reveal.Observe(old(animated), isIntersecting)
    {
      if isIntersecting && !animated {
        animated := true;
      }
    }
  }

  // ---------------------------------------------------------------------------
  // Whole lifecycles, as a user drives them
  // ---------------------------------------------------------------------------

  /** The user types `d` into the form's three inputs, one after the other; each input's error is cleared as it is typed into. */
  method TypeIn(form: ContactForm, d: FormData)
    requires form.Valid() && !form.submitSuccess
    modifies form`formData, form`errors
    ensures form.Valid() && form.CurrentPhase() == old(form.CurrentPhase())
    ensures form.formData == d && form.errors == map[]
  {
    form.HandleChange(Name, d.name);
    form.HandleChange(Email, d.email);
    form.HandleChange(Message, d.message);
    assert form.formData == d;
    assert forall f: Field :: f !in form.errors by {
      forall f: Field ensures f !in form.errors {
        match f
        case Name =>
        case Email =>
        case Message =>
      }
    }
  }

  /** A freshly mounted form into which the user has typed `d`. */
  method FilledForm(d: FormData) returns (form: ContactForm)
    ensures fresh(form) && form.Valid() && form.CurrentPhase() == Editing
    ensures form.formData == d && form.errors == map[]
    ensures form.pendingSubmitTimers == 0 && form.pendingResetTimers == 0
  {
    form := new ContactForm();
    TypeIn(form, d);
  }

  /**
   * Filling in acceptable data and submitting goes editing, submitting,
   * thank-you view, and back to editing when the reset timer fires, with the
   * inputs emptied and no errors.
   */
  method AcceptedSubmissionLifecycle(d: FormData) returns (phases: seq<Phase>, after: FormData, errorsAfter: Errors)
    requires Acceptable(d)
    ensures phases == [Editing, Submitting, Succeeded, Editing]
    ensures after == EmptyForm && errorsAfter == map[]
  {
    var form := FilledForm(d);
    var p0 := form.CurrentPhase();
    var accepted := form.HandleSubmit();
    var p1 := form.CurrentPhase();
    form.SubmitTimerFires();
    var p2 := form.CurrentPhase();
    form.ResetTimerFires();
    var p3 := form.CurrentPhase();
    phases, after, errorsAfter := [p0, p1, p2, p3], form.formData, form.errors;
  }

  /** Submitting unacceptable data stays in the form, keeps the inputs and shows exactly their errors. */
  method RejectedSubmission(d: FormData) returns (phase: Phase, kept: FormData, shown: Errors)
    requires !Acceptable(d)
    ensures phase == Editing && kept == d
    ensures shown == Validate(d) && |shown| > 0
  {
    var form := FilledForm(d);
    var accepted := form.HandleSubmit();
    ValidIffAcceptable(d);
    phase, kept, shown := form.CurrentPhase(), form.formData, form.errors;
  }

  /**
   * From the empty-handed form, the user types acceptable data `d` and
   * submits, and the submit timer fires: the form passes through the
   * submitting phase into the thank-you view, with one more reset timer pending.
   */
  method SubmitAndWait(form: ContactForm, d: FormData) returns (during: Phase)
    requires form.Valid() && form.CurrentPhase() == Editing && Acceptable(d)
    modifies form`formData, form`errors, form`isSubmitting, form`submitSuccess, form`pendingSubmitTimers, form`pendingResetTimers
    ensures form.Valid() && form.CurrentPhase() == Succeeded && during == Submitting
    ensures form.pendingResetTimers == old(form.pendingResetTimers) + 1
  {
    TypeIn(form, d);
    var accepted := form.HandleSubmit();
    during := form.CurrentPhase();
    form.SubmitTimerFires();
  }

  /**
   * The reset timers are never cancelled: after "Send Another Message" and a
   * second accepted submission, the first submission's reset timer is still
   * pending and ends the second thank-you view as soon as it fires, before
   * the second submission's own timer does.
   */
  method StaleResetTimerEndsSecondSuccess(first: FormData, second: FormData) returns (phases: seq<Phase>, stillPending: nat)
    requires Acceptable(first) && Acceptable(second)
    ensures phases == [Succeeded, Editing, Submitting, Succeeded, Editing]
    ensures stillPending == 1
  {
    var form := new ContactForm();
    var _ := SubmitAndWait(form, first);
    var p0 := form.CurrentPhase();
    form.SendAnotherMessage();
    var p1 := form.CurrentPhase();
    var p2 := SubmitAndWait(form, second);
    var p3 := form.CurrentPhase();
    form.ResetTimerFires();
    var p4 := form.CurrentPhase();
    phases, stillPending := [p0, p1, p2, p3, p4], form.pendingResetTimers;
  }
}
