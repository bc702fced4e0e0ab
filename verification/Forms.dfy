/** The input checks of the web application's form handlers
    (moodsync/app.py): the upload-extension filter, the registration,
    login, profile-settings and password-change validations. Database
    lookups and password hashing are parameters; flash messages, templates
    and redirects are represented by the outcome each check selects. */
module Forms {
  import opened Common
  import opened PyInt

  /** A form field as `request.form.get` returns it: absent, or text. */
  type Field = Option<string>

  /** Python's `not field`: the field is absent or empty. */
  predicate Blank(f: Field) {
    f.None? || f.value == ""
  }

  // ----- allowed_file -----

  /** The image extensions uploads may have. */
  const AllowedExtensions: set<string> := {"png", "jpg", "jpeg"}

  /** `filename.rsplit('.', 1)[1]`: the text after the last dot, when there
      is a dot. */
  function Extension(filename: string): (r: Option<string>)
    ensures r.None? <==> '.' !in filename
    ensures r.Some? ==>
              && '.' !in r.value
              && |r.value| < |filename|
              && filename[|filename| - |r.value| - 1] == '.'
              && filename[|filename| - |r.value|..] == r.value
  {
    match LastIndexOf(filename, '.')
    case None => None
    case Some(i) => Some(filename[i + 1..])
  }

  /** The name has a dot with no dot after it, followed by an allowed
      extension. */
  ghost predicate AllowedAfterLastDot(filename: string) {
    exists i :: 0 <= i < |filename| && filename[i] == '.' && '.' !in filename[i + 1..]
                && Lower(filename[i + 1..]) in AllowedExtensions
  }

  /** `allowed_file(filename)`: the name has a dot, and the text after its
      last dot is an allowed extension in any letter case. */
  function AllowedFile(filename: string): (r: bool)
    ensures r <==> AllowedAfterLastDot(filename)
  {
    match Extension(filename)
    case None =>
      NoDotNoneAllowed(filename);
      false
    case Some(ext) =>
      var k := |filename| - |ext| - 1;
      assert filename[k + 1..] == ext;
      LastDotDecides(filename, k);
      Lower(ext) in AllowedExtensions
  }

  /** A name without a dot has no extension to allow. */
  lemma NoDotNoneAllowed(filename: string)
    requires '.' !in filename
    ensures !AllowedAfterLastDot(filename)
  {
    forall i | 0 <= i < |filename| ensures filename[i] != '.' {
      assert filename[i] in filename;
    }
  }

  /** Only the last dot can be followed by no dot, so it alone decides. */
  lemma LastDotDecides(filename: string, k: int)
    requires 0 <= k < |filename| && filename[k] == '.' && '.' !in filename[k + 1..]
    ensures AllowedAfterLastDot(filename) <==> Lower(filename[k + 1..]) in AllowedExtensions
  {
    forall i | 0 <= i < k && filename[i] == '.' ensures '.' in filename[i + 1..] {
      assert filename[i + 1..][k - i - 1] == filename[k];
    }
    forall i | k < i < |filename| ensures filename[i] != '.' {
      assert filename[k + 1..][i - k - 1] == filename[i];
    }
  }

  /** A name without a dot is never allowed. */
  lemma NoDotNotAllowed(filename: string)
    requires '.' !in filename
    ensures !AllowedFile(filename)
  {
  }

  /** A name is allowed exactly when the part after its last dot is an
      allowed extension, in any letter case; what comes before the dot,
      dots included, does not matter. */
  lemma AllowedFileByExtension(stem: string, ext: string)
    requires '.' !in ext
    ensures AllowedFile(stem + "." + ext) <==> Lower(ext) in AllowedExtensions
  {
    var name := stem + "." + ext;
    assert name[|stem|] == '.';
    assert name[|stem| + 1..] == ext;
  }

  // ----- register -----

  datatype RegisterForm = RegisterForm(username: Field, email: Field, password: Field, confirm: Field)

  datatype RegisterOutcome =
    | FieldsRequired
    | PasswordMismatch
    | UsernameTaken
    | EmailTaken
    | Registered
    | RegistrationFailed

  /** The form passes the checks made before the database is consulted. */
  predicate RegisterFormValid(form: RegisterForm) {
    && !Blank(form.username) && !Blank(form.email) && !Blank(form.password) && !Blank(form.confirm)
    && form.password == form.confirm
  }

  /** The POST branch of `register`: all four fields are required, then the
      passwords must match, then the username and the email must be unused
      (the two lookups), and finally the insert must succeed. */
  function Register(form: RegisterForm, usernameExists: string -> bool, emailExists: string -> bool, inserted: bool)
    : (r: RegisterOutcome)
    ensures r == FieldsRequired <==>
              Blank(form.username) || Blank(form.email) || Blank(form.password) || Blank(form.confirm)
    ensures r == PasswordMismatch <==>
              !Blank(form.username) && !Blank(form.email) && !Blank(form.password) && !Blank(form.confirm)
              && form.password != form.confirm
    ensures r == UsernameTaken <==> RegisterFormValid(form) && usernameExists(form.username.value)
    ensures r == EmailTaken <==>
              RegisterFormValid(form) && !usernameExists(form.username.value) && emailExists(form.email.value)
    ensures r == Registered <==>
              RegisterFormValid(form) && !usernameExists(form.username.value) && !emailExists(form.email.value)
              && inserted
  {
    if Blank(form.username) || Blank(form.email) || Blank(form.password) || Blank(form.confirm) then FieldsRequired
    else if form.password != form.confirm then PasswordMismatch
    else if usernameExists(form.username.value) then UsernameTaken
    else if emailExists(form.email.value) then EmailTaken
    else if inserted then Registered
    else RegistrationFailed
  }

  /** An invalid form is rejected whatever the database holds: the lookups
      only happen after the form checks pass. */
  lemma RegisterChecksFormFirst(form: RegisterForm,
                                u1: string -> bool, e1: string -> bool, i1: bool,
                                u2: string -> bool, e2: string -> bool, i2: bool)
    requires !RegisterFormValid(form)
    ensures Register(form, u1, e1, i1) == Register(form, u2, e2, i2)
    ensures Register(form, u1, e1, i1) in {FieldsRequired, PasswordMismatch}
  {
  }

  // ----- login -----

  /** Where a successful login goes: the dashboard, or the page named by
      the `next` query argument. */
  datatype Target = Dashboard | Page(path: string)

  /** The guard as written: any non-empty `next` starting with `/`. */
  function NextTargetAsWritten(next: Field): (r: Target)
    ensures r.Page? <==> !Blank(next) && StartsWith(next.value, "/")
    ensures r.Page? ==> r.path == next.value
  {
    if !Blank(next) && StartsWith(next.value, "/") then Page(next.value) else Dashboard
  }

  /** A path on this site: it starts with one `/` that is not followed by
      a second `/` or a `\`, which browsers would read as the start of
      another host's address. */
  predicate SameSitePath(path: string) {
    StartsWith(path, "/") && !StartsWith(path, "//") && !StartsWith(path, "/\\")
  }

  /** The guard as written accepts a protocol-relative address: the login
      redirects to another host. */
  lemma OpenRedirect()
    ensures NextTargetAsWritten(Some("//evil.example")) == Page("//evil.example")
    ensures !SameSitePath("//evil.example")
  {
    assert StartsWith("//evil.example", "/");
    assert StartsWith("//evil.example", "//");
  }

  /** The guard as intended: redirect to `next` only when it is a path on
      this site. */
  function NextTarget(next: Field): (r: Target)
    ensures r.Page? ==> SameSitePath(r.path) && next == Some(r.path)
    ensures !Blank(next) && SameSitePath(next.value) ==> r == Page(next.value)
    ensures Blank(next) ==> r == Dashboard
  {
    if !Blank(next) && SameSitePath(next.value) then Page(next.value) else Dashboard
  }

  /** The corrected guard agrees with the written one on every same-site
      path and only differs where the written one leaves the site. */
  lemma NextTargetNarrowsWritten(next: Field)
    ensures NextTarget(next) != NextTargetAsWritten(next) ==>
              NextTarget(next) == Dashboard && !SameSitePath(NextTargetAsWritten(next).path)
  {
  }

  datatype LoginOutcome = CredentialsRequired | InvalidCredentials | LoggedIn(target: Target)

  /** The POST branch of `login`: both fields are required, then the
      password must match the stored hash of the named user (`verify`), and
      a successful login goes where `guard` sends the `next` argument. The
      application's guard is `NextTargetAsWritten`; `NextTarget` is the
      corrected one. */
  function Login(username: Field, password: Field, verify: (string, string) -> bool,
                 guard: Field -> Target, next: Field): (r: LoginOutcome)
    ensures r == CredentialsRequired <==> Blank(username) || Blank(password)
    ensures r == InvalidCredentials <==>
              !Blank(username) && !Blank(password) && !verify(username.value, password.value)
    ensures r.LoggedIn? <==> !Blank(username) && !Blank(password) && verify(username.value, password.value)
    ensures r.LoggedIn? ==> r.target == guard(next)
  {
    if Blank(username) || Blank(password) then CredentialsRequired
    else if !verify(username.value, password.value) then InvalidCredentials
    else LoggedIn(guard(next))
  }

  /** With the guard as written, a valid login carrying
      `next=//evil.example` is sent to another host. */
  lemma LoginAsWrittenLeavesSite(username: string, password: string, verify: (string, string) -> bool)
    requires username != "" && password != "" && verify(username, password)
    ensures var r := Login(Some(username), Some(password), verify, NextTargetAsWritten, Some("//evil.example"));
            r == LoggedIn(Page("//evil.example")) && !SameSitePath(r.target.path)
  {
    OpenRedirect();
  }

  /** With the corrected guard, every login stays on this site. */
  lemma LoginStaysOnSite(username: Field, password: Field, verify: (string, string) -> bool, next: Field)
    ensures var r := Login(username, password, verify, NextTarget, next);
            r.LoggedIn? && r.target.Page? ==> SameSitePath(r.target.path)
  {
  }

  // ----- settings: profile form -----

  datatype AgeError = AgeOutOfRange | AgeInvalid

  /** The age check: an empty age is accepted; otherwise `int(age)` must
      succeed and lie in [1, 120]. */
  function CheckAge(age: Field): (r: Result<Option<int>, AgeError>)
    ensures Blank(age) ==> r == Ok(None)
    ensures !Blank(age) ==>
              match ParseInt(age.value)
              case None => r == Err(AgeInvalid)
              case Some(n) => r == (if 1 <= n <= 120 then Ok(Some(n)) else Err(AgeOutOfRange))
  {
    if Blank(age) then Ok(None)
    else
      match ParseInt(age.value)
      case None => Err(AgeInvalid)
      case Some(n) => if n < 1 || n > 120 then Err(AgeOutOfRange) else Ok(Some(n))
  }

  /** Every age the browser can send as `str(n)` is judged by its value
      alone: accepted exactly when it lies in [1, 120]. */
  lemma AgeOfRendered(n: int)
    ensures 1 <= n <= 120 ==> CheckAge(Some(Render(n))) == Ok(Some(n))
    ensures !(1 <= n <= 120) ==> CheckAge(Some(Render(n))) == Err(AgeOutOfRange)
  {
    ParseRender(n);
  }

  const Genders: seq<string> := ["male", "female", "other", "prefer_not_to_say"]

  /** The gender check: empty, or one of the four offered values, with
      letter case as offered. */
  function GenderAccepted(gender: Field): (r: bool)
    ensures Blank(gender) ==> r
    ensures !Blank(gender) ==>
              (r <==> gender.value == "male" || gender.value == "female"
                      || gender.value == "other" || gender.value == "prefer_not_to_say")
  {
    Blank(gender) || gender.value in Genders
  }

  /** Letter case matters: `Male` is refused. */
  lemma GenderCaseMatters()
    ensures !GenderAccepted(Some("Male"))
  {
    assert "Male"[0] != "male"[0];
  }

  datatype ProfileOutcome =
    | NameEmailRequired
    | AgeRejected(error: AgeError)
    | GenderInvalid
    | ProfileAccepted(age: Option<int>)

  /** The validation of the `profile` settings form: name and email are
      required, then the age is checked, then the gender. */
  function ValidateProfile(name: Field, email: Field, age: Field, gender: Field): (r: ProfileOutcome)
    ensures r == NameEmailRequired <==> Blank(name) || Blank(email)
    ensures r.AgeRejected? <==> !Blank(name) && !Blank(email) && CheckAge(age).Err?
    ensures r.AgeRejected? ==> r.error == CheckAge(age).error
    ensures r == GenderInvalid <==>
              !Blank(name) && !Blank(email) && CheckAge(age).Ok? && !GenderAccepted(gender)
    ensures r.ProfileAccepted? ==>
              && !Blank(name) && !Blank(email) && GenderAccepted(gender)
              && (r.age.None? <==> Blank(age))
              && (r.age.Some? ==> 1 <= r.age.value <= 120 && ParseInt(age.value) == Some(r.age.value))
  {
    if Blank(name) || Blank(email) then NameEmailRequired
    else
      match CheckAge(age)
      case Err(e) => AgeRejected(e)
      case Ok(a) => if !GenderAccepted(gender) then GenderInvalid else ProfileAccepted(a)
  }

  // ----- settings: account form -----

  datatype PasswordOutcome = PasswordFieldsRequired | NewPasswordsDiffer | CurrentPasswordWrong | PasswordChanged

  /** The validation of the `account` settings form: all three fields are
      required, the new password must be confirmed, and only then is the
      current password checked against the stored hash (`verify`). */
  function ChangePassword(current: Field, newPassword: Field, confirm: Field, verify: string -> bool): (r: PasswordOutcome)
    ensures r == PasswordFieldsRequired <==> Blank(current) || Blank(newPassword) || Blank(confirm)
    ensures r == NewPasswordsDiffer <==>
              !Blank(current) && !Blank(newPassword) && !Blank(confirm) && newPassword != confirm
    ensures r == CurrentPasswordWrong <==>
              !Blank(current) && !Blank(newPassword) && !Blank(confirm) && newPassword == confirm && !verify(current.value)
    ensures r == PasswordChanged ==> verify(current.value) && newPassword == confirm && !Blank(newPassword)
  {
    if Blank(current) || Blank(newPassword) || Blank(confirm) then PasswordFieldsRequired
    else if newPassword != confirm then NewPasswordsDiffer
    else if !verify(current.value) then CurrentPasswordWrong
    else PasswordChanged
  }

  /** The stored hash is not consulted when the form itself is incomplete
      or unconfirmed. */
  lemma PasswordChecksFormFirst(current: Field, newPassword: Field, confirm: Field, v1: string -> bool, v2: string -> bool)
    requires Blank(current) || Blank(newPassword) || Blank(confirm) || newPassword != confirm
    ensures ChangePassword(current, newPassword, confirm, v1) == ChangePassword(current, newPassword, confirm, v2)
  {
  }
}
