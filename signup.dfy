/** The three-step registration wizard of the sign-up page
    (pro-network/src/app/auth/signup/page.tsx): the draft form, the two step
    gates, the Next/Back state machine, the registration request body and the
    classification of the registration reply. */
module SignUp {
  import opened Common

  /** The ids of the draft's fields; an input's id names the field it edits. */
  datatype Field =
    | Username | Email | Password | ConfirmPassword | Role
    | FirstName | LastName | MobileNumber | Location | Bio
    | Website | Linkedin | Github | Twitter | Skills | Experience

  /** The draft (`formData`): sixteen strings. */
  datatype Form = Form(
    username: string, email: string, password: string, confirmPassword: string, role: string,
    firstName: string, lastName: string, mobileNumber: string, location: string, bio: string,
    website: string, linkedin: string, github: string, twitter: string, skills: string,
    experience: string)

  /** The draft on mount: every field empty except the role, which is "employee". */
  const InitialForm := Form("", "", "", "", "employee", "", "", "", "", "", "", "", "", "", "", "")

  /** The input id (and JSON key) of each field. */
  function FieldName(f: Field): string {
    match f
    case Username => "username"
    case Email => "email"
    case Password => "password"
    case ConfirmPassword => "confirmPassword"
    case Role => "role"
    case FirstName => "first_name"
    case LastName => "last_name"
    case MobileNumber => "mobile_number"
    case Location => "location"
    case Bio => "bio"
    case Website => "website"
    case Linkedin => "linkedin"
    case Github => "github"
    case Twitter => "twitter"
    case Skills => "skills"
    case Experience => "experience"
  }

  /** The step whose panel renders the control of field `f`. */
  function FieldStep(f: Field): int {
    match f
    case Username | Email | Password | ConfirmPassword | Role => 1
    case FirstName | LastName | MobileNumber | Location | Bio => 2
    case _ => 3
  }

  function Get(form: Form, f: Field): string {
    match f
    case Username => form.username
    case Email => form.email
    case Password => form.password
    case ConfirmPassword => form.confirmPassword
    case Role => form.role
    case FirstName => form.firstName
    case LastName => form.lastName
    case MobileNumber => form.mobileNumber
    case Location => form.location
    case Bio => form.bio
    case Website => form.website
    case Linkedin => form.linkedin
    case Github => form.github
    case Twitter => form.twitter
    case Skills => form.skills
    case Experience => form.experience
  }

  /** `{ ...prev, [id]: value }`: the draft with field `f` replaced by `v`. */
  function Set(form: Form, f: Field, v: string): (r: Form)
    ensures Get(r, f) == v
    ensures forall g :: g != f ==> Get(r, g) == Get(form, g)
  {
    match f
    case Username => form.(username := v)
    case Email => form.(email := v)
    case Password => form.(password := v)
    case ConfirmPassword => form.(confirmPassword := v)
    case Role => form.(role := v)
    case FirstName => form.(firstName := v)
    case LastName => form.(lastName := v)
    case MobileNumber => form.(mobileNumber := v)
    case Location => form.(location := v)
    case Bio => form.(bio := v)
    case Website => form.(website := v)
    case Linkedin => form.(linkedin := v)
    case Github => form.(github := v)
    case Twitter => form.(twitter := v)
    case Skills => form.(skills := v)
    case Experience => form.(experience := v)
  }

  // ---------------------------------------------------------------- gates

  /** The reasons a step gate fails, in the order the checks run. */
  datatype GateError = FieldsMissing | PasswordMismatch | PasswordTooShort

  /** The toast text shown for each gate failure; it is never empty. */
  function GateMessage(e: GateError): (r: string)
    ensures r != ""
  {
    match e
    case FieldsMissing => "Please fill in all required fields"
    case PasswordMismatch => "Passwords do not match"
    case PasswordTooShort => "Password must be at least 8 characters long"
  }

  /** Each failure has a toast text of its own. */
  lemma GateMessagesDistinct(a: GateError, b: GateError)
    ensures a != b ==> GateMessage(a) != GateMessage(b)
  {
  }

  /** What step 1 demands of the draft, stated declaratively. */
  predicate Step1Ok(form: Form) {
    && form.username != "" && form.email != ""
    && form.password != "" && form.confirmPassword != ""
    && form.password == form.confirmPassword
    && |form.password| >= 8
  }

  /** What step 2 demands of the draft; location and bio are not required. */
  predicate Step2Ok(form: Form) {
    form.firstName != "" && form.lastName != "" && form.mobileNumber != ""
  }

  /** `validateStep1`: the checks run in order and the first failure decides. */
  function ValidateStep1(form: Form): (r: Option<GateError>)
    ensures r == None <==> Step1Ok(form)
    ensures r == Some(FieldsMissing) <==>
      form.username == "" || form.email == "" || form.password == "" || form.confirmPassword == ""
    ensures r == Some(PasswordMismatch) <==>
      form.username != "" && form.email != "" && form.password != "" && form.confirmPassword != ""
      && form.password != form.confirmPassword
    ensures r == Some(PasswordTooShort) <==>
      form.username != "" && form.email != "" && form.password != "" && form.confirmPassword != ""
      && form.password == form.confirmPassword && |form.password| < 8
  {
    if form.username == "" || form.email == "" || form.password == "" || form.confirmPassword == "" then
      Some(FieldsMissing)
    else if form.password != form.confirmPassword then
      Some(PasswordMismatch)
    else if |form.password| < 8 then
      Some(PasswordTooShort)
    else
      None
  }

  /** `validateStep2`: only first name, last name and mobile number are checked. */
  function ValidateStep2(form: Form): (r: Option<GateError>)
    ensures r == None <==> Step2Ok(form)
    ensures r != None ==> r == Some(FieldsMissing)
  {
    if form.firstName == "" || form.lastName == "" || form.mobileNumber == "" then
      Some(FieldsMissing)
    else
      None
  }

  /** Step 1's gate reads only step-1 fields other than the role. */
  lemma Step1OkFrame(form: Form, f: Field, v: string)
    requires FieldStep(f) != 1 || f == Role
    ensures Step1Ok(Set(form, f, v)) == Step1Ok(form)
  {
  }

  /** Step 2's gate reads only step-2 fields. */
  lemma Step2OkFrame(form: Form, f: Field, v: string)
    requires FieldStep(f) != 2
    ensures Step2Ok(Set(form, f, v)) == Step2Ok(form)
  {
  }

  // ---------------------------------------------------------------- state machine

  /** The component state that the wizard's transitions read and write. */
  datatype WizardState = WizardState(step: int, form: Form)

  const Initial := WizardState(1, InitialForm)

  /** The user actions: typing into an input, picking a role, Next, Back. */
  datatype Event = Change(field: Field, value: string) | SelectRole(role: string) | Next | Back

  /** The actions the rendered page can deliver in state `w`: only the current
      step's inputs are rendered (the role is a select, not an input, and is on
      step 1), Next is rendered while step < 3 and Back while step > 1. */
  predicate Offered(w: WizardState, e: Event) {
    match e
    case Change(f, _) => f != Role && FieldStep(f) == w.step
    case SelectRole(_) => w.step == 1
    case Next => w.step < 3
    case Back => w.step > 1
  }

  /** The controls rendered at each step: Next everywhere but step 3, Back
      everywhere but step 1, so some navigation is always available; the role
      select and the account inputs only at step 1, the personal inputs only at
      step 2, the profile inputs only at step 3. */
  lemma OfferedControls(w: WizardState, v: string)
    requires Inv(w)
    ensures Offered(w, Next) <==> w.step != 3
    ensures Offered(w, Back) <==> w.step != 1
    ensures Offered(w, Next) || Offered(w, Back)
    ensures Offered(w, SelectRole(v)) <==> w.step == 1
    ensures Offered(w, Change(Password, v)) <==> w.step == 1
    ensures Offered(w, Change(MobileNumber, v)) <==> w.step == 2
    ensures Offered(w, Change(Skills, v)) <==> w.step == 3
    ensures !Offered(w, Change(Role, v))
    ensures forall f :: f != Role ==> (Offered(w, Change(f, v)) <==> FieldStep(f) == w.step)
  {
  }

  /** The gate failure that blocks Next in state `w`, if any. */
  function NextBlockedBy(w: WizardState): Option<GateError> {
    if w.step == 1 then ValidateStep1(w.form)
    else if w.step == 2 then ValidateStep2(w.form)
    else None
  }

  /** The effect of one action on the component state, as the handlers compute
      it: Next raises the step unless the current step's gate fails, Back lowers
      it without validation. Typing never moves the step; navigating never
      touches the draft. */
  function Apply(w: WizardState, e: Event): (r: WizardState)
    ensures e.Change? ==> r == WizardState(w.step, Set(w.form, e.field, e.value))
    ensures e.SelectRole? ==> r == WizardState(w.step, Set(w.form, Role, e.role))
    ensures e.Next? ==> r.form == w.form && (r.step == w.step + 1 <==> NextBlockedBy(w) == None)
    ensures e.Next? && NextBlockedBy(w) != None ==> r == w
    ensures e.Back? ==> r.form == w.form && r.step == w.step - 1
  {
    match e
    case Change(f, v) => w.(form := Set(w.form, f, v))
    case SelectRole(v) => w.(form := Set(w.form, Role, v))
    case Next => if NextBlockedBy(w) == None then w.(step := w.step + 1) else w
    case Back => w.(step := w.step - 1)
  }

  /** The wizard invariant: the step stays in 1..3, and being past a step means
      that step's gate holds on the current draft. */
  predicate Inv(w: WizardState) {
    && 1 <= w.step <= 3
    && (w.step >= 2 ==> Step1Ok(w.form))
    && (w.step == 3 ==> Step2Ok(w.form))
  }

  /** Next at step 1 or 2 raises the step by exactly one when that step's gate
      passes and leaves the state unchanged otherwise. */
  lemma NextStepChange(w: WizardState)
    requires w.step == 1 || w.step == 2
    ensures var gate := if w.step == 1 then Step1Ok(w.form) else Step2Ok(w.form);
            Apply(w, Next) == if gate then w.(step := w.step + 1) else w
  {
  }

  /** Every action the page offers keeps the invariant. */
  lemma ApplyKeepsInv(w: WizardState, e: Event)
    requires Inv(w) && Offered(w, e)
    ensures Inv(Apply(w, e))
  {
    match e
    case Change(f, v) =>
      if w.step >= 2 {
        Step1OkFrame(w.form, f, v);
      }
      if w.step == 3 {
        Step2OkFrame(w.form, f, v);
      }
    case SelectRole(v) =>
      Step1OkFrame(w.form, Role, v);
      Step2OkFrame(w.form, Role, v);
    case Next =>
    case Back =>
  }

  /** The state after a sequence of actions. */
  function Run(w: WizardState, es: seq<Event>): WizardState
    decreases |es|
  {
    if es == [] then w else Run(Apply(w, es[0]), es[1..])
  }

  /** Every action of the sequence is offered in the state it reaches. */
  predicate Admissible(w: WizardState, es: seq<Event>)
    decreases |es|
  {
    es == [] || (Offered(w, es[0]) && Admissible(Apply(w, es[0]), es[1..]))
  }

  /** The invariant holds after any sequence of actions the page can deliver. */
  lemma {:induction false} RunKeepsInv(w: WizardState, es: seq<Event>)
    requires Inv(w) && Admissible(w, es)
    ensures Inv(Run(w, es))
    decreases |es|
  {
    if es != [] {
      ApplyKeepsInv(w, es[0]);
      RunKeepsInv(Apply(w, es[0]), es[1..]);
    }
  }

  /** From mount, every reachable step lies in {1, 2, 3}, and the draft that
      reaches step 3 (where the submit button is) passed both gates. */
  lemma ReachableStates(es: seq<Event>)
    requires Admissible(Initial, es)
    ensures 1 <= Run(Initial, es).step <= 3
    ensures Run(Initial, es).step == 3 ==>
      Step1Ok(Run(Initial, es).form) && Step2Ok(Run(Initial, es).form)
  {
    RunKeepsInv(Initial, es);
  }

  // ---------------------------------------------------------------- submission

  /** The JSON object sent to the registration endpoint, as (key, value) pairs
      in the order the object literal lists them. */
  function RegisterBody(form: Form): (body: seq<(string, string)>)
    ensures |body| == 15
    ensures forall f :: f != ConfirmPassword ==> (FieldName(f), Get(form, f)) in body
    ensures forall kv :: kv in body ==> kv.0 != "confirmPassword"
  {
    [ ("username", form.username), ("email", form.email), ("password", form.password),
      ("first_name", form.firstName), ("last_name", form.lastName),
      ("mobile_number", form.mobileNumber), ("role", form.role), ("bio", form.bio),
      ("location", form.location), ("website", form.website), ("linkedin", form.linkedin),
      ("github", form.github), ("twitter", form.twitter), ("skills", form.skills),
      ("experience", form.experience) ]
  }

  /** The confirmation is never sent: drafts differing only in it give the same body. */
  lemma RegisterBodyIgnoresConfirmation(form: Form, v: string)
    ensures RegisterBody(Set(form, ConfirmPassword, v)) == RegisterBody(form)
  {
  }

  /** The parsed JSON of a registration reply, or the parser's error message. */
  datatype RegisterData = Unparsable(message: string) | RegisterData(detail: Option<string>, error: Option<string>)

  /** What the registration request produced: `fetch` threw, or a reply with
      its ok flag (2xx status) and its body. */
  datatype RegisterReply = FetchThrew(message: string) | Replied(ok: bool, data: RegisterData)

  /** What the user is shown: the "Account created" toast followed by navigation
      to the sign-in page, or the "Registration failed" toast with a description. */
  datatype RegisterOutcome = Registered | RegistrationFailed(description: string)

  /** The message of the error the submit handler throws, if it throws: none
      exactly for a 2xx reply with a parsable body; the thrown message of a
      failed request or an unparsable body, whatever the status; otherwise
      `detail`, else `error`, else "Registration failed". */
  function RegisterError(reply: RegisterReply): (r: Option<string>)
    ensures r.None? <==> reply.Replied? && reply.ok && reply.data.RegisterData?
    ensures reply.FetchThrew? ==> r == Some(reply.message)
    ensures reply.Replied? && reply.data.Unparsable? ==> r == Some(reply.data.message)
    ensures reply.Replied? && !reply.ok && reply.data.RegisterData? ==>
      r == Some(if Truthy(reply.data.detail) then reply.data.detail.value
                else if Truthy(reply.data.error) then reply.data.error.value
                else "Registration failed")
  {
    match reply
    case FetchThrew(m) => Some(m)
    case Replied(ok, data) =>
      match data
      case Unparsable(m) => Some(m)
      case RegisterData(detail, error) =>
        if ok then None else Some(OrElse(detail, OrElse(error, "Registration failed")))
  }

  /** The outcome of a submission: a 2xx JSON reply registers; otherwise the toast
      describes the thrown error, or "Please try again later" if its message is empty. */
  function RegisterOutcomeOf(reply: RegisterReply): (r: RegisterOutcome)
    ensures r == Registered <==> reply.Replied? && reply.ok && reply.data.RegisterData?
    ensures reply.Replied? && !reply.ok && reply.data.RegisterData? ==>
      r == RegistrationFailed(
        if Truthy(reply.data.detail) then reply.data.detail.value
        else if Truthy(reply.data.error) then reply.data.error.value
        else "Registration failed")
    ensures reply.FetchThrew? ==>
      r == RegistrationFailed(if reply.message != "" then reply.message else "Please try again later")
    ensures reply.Replied? && reply.data.Unparsable? ==>
      r == RegistrationFailed(if reply.data.message != "" then reply.data.message else "Please try again later")
    ensures r.RegistrationFailed? ==> r.description != ""
  {
    match RegisterError(reply)
    case None => Registered
    case Some(m) => RegistrationFailed(if m != "" then m else "Please try again later")
  }

  // ---------------------------------------------------------------- the page component

  /** The sign-up page component: its `step`, `formData` and `loading` state. */
  class SignUpPage {
    var step: int
    var formData: Form
    var loading: bool

    function State(): WizardState
      reads this
    {
      WizardState(step, formData)
    }

    /** Between events the wizard invariant holds and no submission is in flight. */
    ghost predicate Valid()
      reads this
    {
      Inv(State()) && !loading
    }

    constructor ()
      ensures Valid()
      ensures State() == Initial
    {
      step := 1;
      formData := InitialForm;
      loading := false;
    }

    /** `handleChange`: stores the typed value under the input's id. */
    method HandleChange(f: Field, v: string)
      requires Valid() && Offered(State(), Change(f, v))
      modifies this
      ensures Valid()
      ensures State() == Apply(old(State()), Change(f, v))
      ensures formData == Set(old(formData), f, v) && step == old(step)
    {
      ApplyKeepsInv(State(), Change(f, v));
      formData := Set(formData, f, v);
    }

    /** `handleSelectChange`: stores the selected role. */
    method HandleSelectChange(v: string)
      requires Valid() && Offered(State(), SelectRole(v))
      modifies this
      ensures Valid()
      ensures State() == Apply(old(State()), SelectRole(v))
      ensures formData == old(formData).(role := v) && step == old(step)
    {
      ApplyKeepsInv(State(), SelectRole(v));
      formData := formData.(role := v);
    }

    /** `handleNext`: runs the current step's gate; on failure returns the toast
        text and stays, otherwise advances one step. */
    method HandleNext() returns (toast: Option<string>)
      requires Valid() && Offered(State(), Next)
      modifies this
      ensures Valid()
      ensures State() == Apply(old(State()), Next)
      ensures toast == (match NextBlockedBy(old(State()))
                        case None => None
                        case Some(e) => Some(GateMessage(e)))
    {
      ApplyKeepsInv(State(), Next);
      if step == 1 {
        var err := ValidateStep1(formData);
        if err.Some? {
          return Some(GateMessage(err.value));
        }
      }
      if step == 2 {
        var err := ValidateStep2(formData);
        if err.Some? {
          return Some(GateMessage(err.value));
        }
      }
      step := step + 1;
      toast := None;
    }

    /** `handleBack`: one step back, no validation. */
    method HandleBack()
      requires Valid() && Offered(State(), Back)
      modifies this
      ensures Valid()
      ensures State() == Apply(old(State()), Back)
      ensures step == old(step) - 1 && formData == old(formData)
    {
      ApplyKeepsInv(State(), Back);
      step := step - 1;
    }

    /** `handleSubmit` (the submit button exists only on step 3): sends the body
        built from the draft, classifies the reply, and clears `loading` on every
        path. The wizard state is left as it was. */
    method HandleSubmit(reply: RegisterReply) returns (body: seq<(string, string)>, outcome: RegisterOutcome)
      requires Valid() && step == 3
      modifies this
      ensures Valid() && !loading
      ensures State() == old(State())
      ensures body == RegisterBody(formData)
      ensures outcome == RegisterOutcomeOf(reply)
    {
      loading := true;
      body := RegisterBody(formData);
      var thrown: Option<string> := None;
      match reply {
        case FetchThrew(m) =>
          thrown := Some(m);
        case Replied(ok, data) =>
          match data {
            case Unparsable(m) =>
              thrown := Some(m);
            case RegisterData(detail, error) =>
              if !ok {
                thrown := Some(OrElse(detail, OrElse(error, "Registration failed")));
              }
          }
      }
      if thrown.Some? {
        outcome := RegistrationFailed(if thrown.value != "" then thrown.value else "Please try again later");
      } else {
        outcome := Registered;
      }
      loading := false;
    }
  }

  // ---------------------------------------------------------------- examples

  /** "abc"/"abd" reports the mismatch, not the short password. */
  lemma MismatchReportedBeforeLength()
    ensures ValidateStep1(Set(Set(Set(Set(InitialForm, Username, "jane"), Email, "jane@x.com"),
                                  Password, "abc"), ConfirmPassword, "abd"))
            == Some(PasswordMismatch)
  {
  }

  /** A matching three-letter password is too short; eight letters pass and Next advances. */
  lemma PasswordLengthExamples()
    ensures var f := Set(Set(InitialForm, Username, "jane"), Email, "jane@x.com");
            ValidateStep1(Set(Set(f, Password, "abc"), ConfirmPassword, "abc")) == Some(PasswordTooShort)
    ensures var f := Set(Set(InitialForm, Username, "jane"), Email, "jane@x.com");
            var g := Set(Set(f, Password, "abcdefgh"), ConfirmPassword, "abcdefgh");
            ValidateStep1(g) == None && Apply(WizardState(1, g), Next).step == 2
  {
  }

  /** A 400 reply carrying `detail` reports that detail. */
  lemma DetailReported()
    ensures RegisterOutcomeOf(Replied(false, RegisterData(Some("username taken"), None)))
            == RegistrationFailed("username taken")
  {
  }
}
