/** The user table and the signup and login input schemas
    (src/db/schema/auth.ts). Email format checking is the uninterpreted
    predicate `isEmail`. */
module AuthSchema {
  import opened Wrappers

  datatype UserRole = GUEST | ADMIN

  /** A stored user row. */
  datatype User = User(
    id: string,
    name: string,
    email: string,
    emailVerified: bool,
    role: UserRole,
    image: Option<string>,
    createdAt: nat,
    updatedAt: nat)

  /** What an insert into the user table supplies; each `None` is a column
      left to its default. */
  datatype UserInsert = UserInsert(
    id: string,
    name: string,
    email: string,
    emailVerified: Option<bool>,
    role: Option<UserRole>,
    image: Option<string>,
    createdAt: Option<nat>,
    updatedAt: Option<nat>)

  /** The `apiUserSignup` input: name, email and password. The schema omits
      id, emailVerified, role, image and both timestamps, so none of them can
      be supplied. */
  datatype SignupInput = SignupInput(name: string, email: string, password: string)

  /** The `apiUserLogin` input. */
  datatype LoginInput = LoginInput(email: string, password: string)

  datatype AuthField = NameField | EmailField | PasswordField

  /** One validation failure: the field and its fixed message. */
  datatype FieldIssue = FieldIssue(field: AuthField, message: string)

  const PASSWORD_MIN_LENGTH: nat := 8

  const NAME_REQUIRED := "Name is required"
  const INVALID_EMAIL := "Invalid email address"
  const PASSWORD_TOO_SHORT := "Password must be at least 8 characters"
  const PASSWORD_NO_UPPERCASE := "Password must contain at least one uppercase letter"
  const PASSWORD_NO_LOWERCASE := "Password must contain at least one lowercase letter"
  const PASSWORD_NO_DIGIT := "Password must contain at least one number"
  const PASSWORD_REQUIRED := "Password is required"

  /** The row the database stores: `emailVerified` defaults to false, `role`
      to GUEST, and both timestamps to the insertion time. */
  function InsertUser(u: UserInsert, now: nat): (r: User)
    ensures r.id == u.id && r.name == u.name && r.email == u.email && r.image == u.image
    ensures u.emailVerified == None ==> !r.emailVerified
    ensures u.role == None ==> r.role == GUEST
    ensures u.createdAt == None ==> r.createdAt == now
  {
    User(
      u.id, u.name, u.email,
      u.emailVerified.GetOr(false),
      u.role.GetOr(GUEST),
      u.image,
      u.createdAt.GetOr(now),
      u.updatedAt.GetOr(now))
  }

  /** The user columns a signup can supply: name and email only. */
  function SignupRow(id: string, s: SignupInput): (r: UserInsert)
    ensures r.name == s.name && r.email == s.email
    ensures r.emailVerified == None && r.role == None && r.image == None
    ensures r.createdAt == None && r.updatedAt == None
  {
    UserInsert(id, s.name, s.email, None, None, None, None, None)
  }

  /** A user created from any signup is an unverified GUEST without an image:
      the omitted fields leave every one of them to its default. */
  lemma SignupUserDefaults(id: string, s: SignupInput, now: nat)
    ensures var u := InsertUser(SignupRow(id, s), now);
      !u.emailVerified && u.role == GUEST && u.image == None &&
      u.createdAt == now && u.updatedAt == now && u.name == s.name && u.email == s.email
  {
  }

  /** `s` contains a character in `lo..hi` (what `/[lo-hi]/.test(s)` asks). */
  predicate HasCharIn(s: string, lo: char, hi: char)
  {
    exists i :: 0 <= i < |s| && lo <= s[i] <= hi
  }

  /** The regular-expression search, scanning left to right. */
  function SearchCharIn(s: string, lo: char, hi: char): (found: bool)
    ensures found <==> HasCharIn(s, lo, hi)
  {
    if s == [] then false
    else if lo <= s[0] <= hi then true
    else
      var rest := SearchCharIn(s[1..], lo, hi);
      assert forall i :: 1 <= i < |s| ==> s[i] == s[1..][i - 1];
      rest
  }

  /** The four password rules together. */
  predicate StrongPassword(p: string)
  {
    |p| >= PASSWORD_MIN_LENGTH && HasCharIn(p, 'A', 'Z') && HasCharIn(p, 'a', 'z') && HasCharIn(p, '0', '9')
  }

  /** The password chain `.min(8).regex(/[A-Z]/).regex(/[a-z]/).regex(/[0-9]/)`:
      every failing rule contributes its own message, in rule order. */
  function PasswordMessages(p: string): (r: seq<string>)
    ensures r == [] <==> StrongPassword(p)
    ensures PASSWORD_TOO_SHORT in r <==> |p| < PASSWORD_MIN_LENGTH
    ensures PASSWORD_NO_UPPERCASE in r <==> !HasCharIn(p, 'A', 'Z')
    ensures PASSWORD_NO_LOWERCASE in r <==> !HasCharIn(p, 'a', 'z')
    ensures PASSWORD_NO_DIGIT in r <==> !HasCharIn(p, '0', '9')
    ensures |r| <= 4
  {
    (if |p| < PASSWORD_MIN_LENGTH then [PASSWORD_TOO_SHORT] else [])
    + (if !SearchCharIn(p, 'A', 'Z') then [PASSWORD_NO_UPPERCASE] else [])
    + (if !SearchCharIn(p, 'a', 'z') then [PASSWORD_NO_LOWERCASE] else [])
    + (if !SearchCharIn(p, '0', '9') then [PASSWORD_NO_DIGIT] else [])
  }

  /** Attaches a field to each message. */
  function OnField(f: AuthField, msgs: seq<string>): (r: seq<FieldIssue>)
    ensures |r| == |msgs|
    ensures forall i :: 0 <= i < |r| ==> r[i] == FieldIssue(f, msgs[i])
  {
    seq(|msgs|, i requires 0 <= i < |msgs| => FieldIssue(f, msgs[i]))
  }

  /** `apiUserSignup.safeParse`: issues in key order name, email, password. */
  function SignupIssues(s: SignupInput, isEmail: string -> bool): (r: seq<FieldIssue>)
    ensures r == [] <==> |s.name| >= 1 && isEmail(s.email) && StrongPassword(s.password)
    ensures FieldIssue(NameField, NAME_REQUIRED) in r <==> s.name == ""
    ensures FieldIssue(EmailField, INVALID_EMAIL) in r <==> !isEmail(s.email)
    ensures forall m :: FieldIssue(PasswordField, m) in r <==> m in PasswordMessages(s.password)
  {
    var pw := PasswordMessages(s.password);
    var r := (if |s.name| < 1 then [FieldIssue(NameField, NAME_REQUIRED)] else [])
      + (if !isEmail(s.email) then [FieldIssue(EmailField, INVALID_EMAIL)] else [])
      + OnField(PasswordField, pw);
    assert forall m :: FieldIssue(PasswordField, m) in OnField(PasswordField, pw) <==> m in pw by {
      forall m ensures FieldIssue(PasswordField, m) in OnField(PasswordField, pw) <==> m in pw {
        if m in pw {
          var i :| 0 <= i < |pw| && pw[i] == m;
          assert OnField(PasswordField, pw)[i] == FieldIssue(PasswordField, m);
        }
      }
    }
    r
  }

  /** `apiUserLogin.safeParse`: a valid email and a non-empty password. */
  function LoginIssues(l: LoginInput, isEmail: string -> bool): (r: seq<FieldIssue>)
    ensures r == [] <==> isEmail(l.email) && |l.password| >= 1
    ensures FieldIssue(PasswordField, PASSWORD_REQUIRED) in r <==> l.password == ""
    ensures FieldIssue(EmailField, INVALID_EMAIL) in r <==> !isEmail(l.email)
  {
    (if !isEmail(l.email) then [FieldIssue(EmailField, INVALID_EMAIL)] else [])
    + (if |l.password| < 1 then [FieldIssue(PasswordField, PASSWORD_REQUIRED)] else [])
  }

  /** A password the signup rules accept is accepted by the login rule too. */
  lemma SignupPasswordPassesLogin(s: SignupInput, isEmail: string -> bool)
    requires SignupIssues(s, isEmail) == []
    ensures LoginIssues(LoginInput(s.email, s.password), isEmail) == []
  {
  }
}
