/** Logging in (students and washermen) and the two-step student signup:
    what each form checks before it sends anything, what it sends, and what
    it writes to the session store. */
module Auth {
  import opened Common
  import opened Session

  const FillAllFields := "Please fill in all fields"
  const LoginFailed := "Login failed. Please check your credentials."
  const TryAgain := "Network error. Please try again."

  // ---------------------------------------------------------------------
  // Student login
  // ---------------------------------------------------------------------

  /** `POST /api/auth/student/login/` with `{email, enrollment_no}`. */
  datatype StudentCredentials = StudentCredentials(email: string, enrollmentNo: string)

  class StudentLogin {
    var email: string
    var enrollmentNo: string
    var error: string
    var loading: bool

    constructor ()
      ensures email == "" && enrollmentNo == "" && error == "" && !loading
    {
      email, enrollmentNo, error, loading := "", "", "", false;
    }

    /** `handleLogin`: both fields are needed; the answer's profile (`resp`)
        is stored together with the login flag and the student goes to the
        dashboard. `request` is what was sent, `navigateTo` where the screen
        went. */
    method HandleLogin(store: Storage, c: Codec, resp: Response<Record>)
      returns (request: Option<StudentCredentials>, navigateTo: Option<string>)
      modifies this, store
      ensures request.Some? <==> old(email) != "" && old(enrollmentNo) != ""
      ensures request.Some? ==> request.value == StudentCredentials(old(email), old(enrollmentNo))
      ensures request.None? ==> error == FillAllFields && loading == old(loading)
      ensures request.Some? ==> !loading
      ensures navigateTo.Some? <==> request.Some? && resp.Ok?
      ensures navigateTo.Some? ==>
        && navigateTo.value == "/student/dashboard"
        && store.items == StudentSession(old(store.items), c, resp.data)
        && error == ""
      ensures navigateTo.None? ==> store.items == old(store.items)
      ensures request.Some? && resp.NotOk? ==> error == ErrorOr(resp.error, LoginFailed)
      ensures request.Some? && resp.NetworkError? ==> error == TryAgain
      ensures email == old(email) && enrollmentNo == old(enrollmentNo)
    {
      navigateTo := None;
      if email == "" || enrollmentNo == "" {
        error := FillAllFields;
        return None, None;
      }
      request := Some(StudentCredentials(email, enrollmentNo));
      loading := true;
      error := "";
      match resp {
        case Ok(student) =>
          store.SetItem(StudentDataKey, c.stringify(student));
          store.SetItem(IsLoggedInKey, "true");
          navigateTo := Some("/student/dashboard");
        case NotOk(e) =>
          error := ErrorOr(e, LoginFailed);
        case NetworkError =>
          error := TryAgain;
      }
      loading := false;
    }
  }

  // ---------------------------------------------------------------------
  // Washerman login
  // ---------------------------------------------------------------------

  /** `POST /api/auth/washerman/login/` with `{username, password}`. */
  datatype StaffCredentials = StaffCredentials(username: string, password: string)

  class WashermanLogin {
    var username: string
    var password: string
    var error: string
    var loading: bool

    constructor ()
      ensures username == "" && password == "" && error == "" && !loading
    {
      username, password, error, loading := "", "", "", false;
    }

    /** `handleLogin`: as the student's, but it also records the washerman
        role, which the staff screens demand. */
    method HandleLogin(store: Storage, c: Codec, resp: Response<Record>)
      returns (request: Option<StaffCredentials>, navigateTo: Option<string>)
      modifies this, store
      ensures request.Some? <==> old(username) != "" && old(password) != ""
      ensures request.Some? ==> request.value == StaffCredentials(old(username), old(password))
      ensures request.None? ==> error == FillAllFields && loading == old(loading)
      ensures request.Some? ==> !loading
      ensures navigateTo.Some? <==> request.Some? && resp.Ok?
      ensures navigateTo.Some? ==>
        && navigateTo.value == "/washerman/dashboard"
        && store.items == WashermanSession(old(store.items), c, resp.data)
        && error == ""
      ensures navigateTo.None? ==> store.items == old(store.items)
      ensures request.Some? && resp.NotOk? ==> error == ErrorOr(resp.error, LoginFailed)
      ensures request.Some? && resp.NetworkError? ==> error == TryAgain
      ensures username == old(username) && password == old(password)
    {
      navigateTo := None;
      if username == "" || password == "" {
        error := FillAllFields;
        return None, None;
      }
      request := Some(StaffCredentials(username, password));
      loading := true;
      error := "";
      match resp {
        case Ok(washerman) =>
          store.SetItem(WashermanDataKey, c.stringify(washerman));
          store.SetItem(IsLoggedInKey, "true");
          store.SetItem(UserTypeKey, "washerman");
          navigateTo := Some("/washerman/dashboard");
        case NotOk(e) =>
          error := ErrorOr(e, LoginFailed);
        case NetworkError =>
          error := TryAgain;
      }
      loading := false;
    }
  }

  // ---------------------------------------------------------------------
  // Signup, step 1: e-mail, one-time code, password
  // ---------------------------------------------------------------------

  /** The fixed code of the demonstration OTP step. */
  const DemoOtp := "1234"
  const InvalidOtp := "Invalid OTP (use 1234 for demo)"
  const PasswordMismatch := "Passwords do not match"

  /** The checks of `handleVerifyAndNext`, first failure first: `None` when
      the step may move on. */
  function SignupCheck(otp: string, password: string, confirmPassword: string): (r: Option<string>)
    ensures r.None? <==> otp == DemoOtp && password != "" && password == confirmPassword
    ensures r == Some(FillAllFields) <==> otp == "" || password == "" || confirmPassword == ""
    ensures r.Some? ==> r.value == FillAllFields || r.value == InvalidOtp || r.value == PasswordMismatch
  {
    if otp == "" || password == "" || confirmPassword == "" then Some(FillAllFields)
    else if otp != DemoOtp then Some(InvalidOtp)
    else if password != confirmPassword then Some(PasswordMismatch)
    else None
  }

  /** A wrong code is reported whatever the passwords are, and mismatching
      passwords only once the code is right. */
  lemma SignupCheckOrder(otp: string, password: string, confirmPassword: string)
    requires otp != "" && password != "" && confirmPassword != ""
    ensures otp != DemoOtp ==> SignupCheck(otp, password, confirmPassword) == Some(InvalidOtp)
    ensures otp == DemoOtp && password != confirmPassword ==>
      SignupCheck(otp, password, confirmPassword) == Some(PasswordMismatch)
  {
  }

  class SignupStart {
    var email: string
    var otp: string
    var password: string
    var confirmPassword: string
    var otpSent: bool
    var error: string

    constructor ()
      ensures email == "" && otp == "" && password == "" && confirmPassword == ""
      ensures !otpSent && error == ""
    {
      email, otp, password, confirmPassword := "", "", "", "";
      otpSent, error := false, "";
    }

    /** `handleSendOtp`: needs an e-mail address; `alerted` tells whether the
        "OTP sent" notice was shown. */
    method HandleSendOtp() returns (alerted: bool)
      modifies this
      ensures alerted <==> email != ""
      ensures alerted ==> otpSent && error == ""
      ensures !alerted ==> otpSent == old(otpSent) && error == "Enter your email first"
      ensures email == old(email) && otp == old(otp)
      ensures password == old(password) && confirmPassword == old(confirmPassword)
    {
      if email == "" {
        error := "Enter your email first";
        return false;
      }
      error := "";
      otpSent := true;
      alerted := true;
    }

    /** `handleVerifyAndNext`: when the checks pass, go to step 2 handing it
        the e-mail address (`handoff`); otherwise show the first failure. */
    method HandleVerifyAndNext() returns (handoff: Option<string>)
      modifies this
      ensures handoff.Some? <==> SignupCheck(otp, password, confirmPassword).None?
      ensures handoff.Some? ==> handoff.value == email && error == ""
      ensures handoff.None? ==> error == SignupCheck(otp, password, confirmPassword).value
      ensures email == old(email) && otp == old(otp) && otpSent == old(otpSent)
      ensures password == old(password) && confirmPassword == old(confirmPassword)
    {
      var check := SignupCheck(otp, password, confirmPassword);
      if check.Some? {
        error := check.value;
        return None;
      }
      error := "";
      handoff := Some(email);
    }
  }

  // ---------------------------------------------------------------------
  // Signup, step 2: the student's details
  // ---------------------------------------------------------------------

  /** The five fields of the details form. */
  const SignupFields: set<string> := {"name", "enrollment_no", "bag_no", "phone_no", "residency_no"}

  const EmptyForm: Record :=
    map["name" := "", "enrollment_no" := "", "bag_no" := "", "phone_no" := "", "residency_no" := ""]

  /** Every field of the form is filled in. */
  predicate FormComplete(form: Record)
  {
    forall f :: f in SignupFields ==> Truthy(Get(form, f))
  }

  /** `{email, ...formData}`: the e-mail address first, the form's fields
      after it (and over it, should the form carry one of that name). */
  function SignupBody(email: string, form: Record): (body: Record)
    ensures body.Keys == form.Keys + {"email"}
    ensures "email" !in form ==> body["email"] == email
    ensures forall f :: f in form ==> body[f] == form[f]
  {
    map["email" := email] + form
  }

  /** The fresh form is not complete; filling in each field makes it so. */
  lemma FillingTheFormCompletesIt(name: string, enrollment: string, bag: string, phone: string, residency: string)
    requires name != "" && enrollment != "" && bag != "" && phone != "" && residency != ""
    ensures !FormComplete(EmptyForm)
    ensures FormComplete(EmptyForm["name" := name]["enrollment_no" := enrollment]["bag_no" := bag]
                                  ["phone_no" := phone]["residency_no" := residency])
  {
    assert !Truthy(Get(EmptyForm, "name"));
  }

  class SignupDetails {
    const email: string
    var formData: Record
    var error: string
    var loading: bool

    /** The screen opened with the navigation state of step 1: its e-mail
        address, or the empty string when there is none. */
    constructor (handoff: Option<string>)
      ensures email == (if Truthy(handoff) then handoff.value else "")
      ensures formData == EmptyForm && error == "" && !loading
    {
      email := if Truthy(handoff) then handoff.value else "";
      formData, error, loading := EmptyForm, "", false;
    }

    /** `handleChange`: the input named `name` now holds `value`. */
    method HandleChange(name: string, value: string)
      modifies this
      ensures formData == old(formData)[name := value]
      ensures error == old(error) && loading == old(loading)
    {
      formData := formData[name := value];
    }

    /** `handleSubmit`: every field is needed; the signup request carries
        the e-mail address and the form, and success leads to the login. */
    method HandleSubmit(resp: Response<()>) returns (request: Option<Record>, navigateTo: Option<string>)
      modifies this
      ensures request.Some? <==> FormComplete(old(formData))
      ensures request.Some? ==> request.value == SignupBody(email, old(formData)) && !loading
      ensures request.None? ==> error == FillAllFields && loading == old(loading)
      ensures navigateTo.Some? <==> request.Some? && resp.Ok?
      ensures navigateTo.Some? ==> navigateTo.value == "/student/login" && error == ""
      ensures request.Some? && resp.NotOk? ==> error == "Error completing signup"
      ensures request.Some? && resp.NetworkError? ==> error == TryAgain
      ensures formData == old(formData)
    {
      navigateTo := None;
      if !FormComplete(formData) {
        error := FillAllFields;
        return None, None;
      }
      request := Some(SignupBody(email, formData));
      loading := true;
      error := "";
      match resp {
        case Ok(_) =>
          navigateTo := Some("/student/login");
        case NotOk(_) =>
          error := "Error completing signup";
        case NetworkError =>
          error := TryAgain;
      }
      loading := false;
    }
  }

  /** A completed details form, submitted, sends the e-mail address of step 1
      together with all five details as they were typed. */
  lemma SignupSendsEveryDetail(email: string, form: Record)
    requires FormComplete(form) && "email" !in form
    ensures SignupBody(email, form)["email"] == email
    ensures forall f :: f in SignupFields ==> f in SignupBody(email, form) && SignupBody(email, form)[f] == form[f]
  {
  }
}
