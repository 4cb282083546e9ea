/**
 * The registration form validator. `Validate` checks a registration form, appends
 * one (field, code) error per failed check to the Spring `Errors` accumulator in a
 * fixed order, and writes the normalised username and the lowercased email back
 * into the form.
 */
module RegistrationValidator {
  import opened JavaText

  /* ---------------------------------------------------------------------------
   * The form, the error accumulator and the user repository
   * ------------------------------------------------------------------------- */

  /** RegistrationDto: the submitted form; every field is non-null. */
  class RegistrationDto {
    var username: string
    var usernameNormalized: string
    var email: string
    var password: string
    var passwordConfirm: string

    constructor (username: string, email: string, password: string, passwordConfirm: string)
      ensures this.username == username && this.email == email
      ensures this.password == password && this.passwordConfirm == passwordConfirm
      ensures usernameNormalized == ""
    {
      this.username := username;
      this.usernameNormalized := "";
      this.email := email;
      this.password := password;
      this.passwordConfirm := passwordConfirm;
    }
  }

  /** One rejected value: the field and the message code. */
  datatype FieldError = FieldError(field: string, code: string)

  /** Spring's `Errors`, seen as the ordered list of field errors recorded so far. */
  class Errors {
    var all: seq<FieldError>

    constructor ()
      ensures all == []
    {
      all := [];
    }

    /** `rejectValue(field, code)`. */
    method RejectValue(field: string, code: string)
      modifies this
      ensures all == old(all) + [FieldError(field, code)]
    {
      all := all + [FieldError(field, code)];
    }
  }

  /** `ValidationUtils.rejectIfEmptyOrWhitespace(errors, field, code)` for a field whose value is `value`. */
  method RejectIfEmptyOrWhitespace(errors: Errors, field: string, value: string, code: string)
    modifies errors
    ensures errors.all == old(errors.all) + ErrorIf(!HasText(value), field, code)
  {
    if !HasText(value) {
      errors.RejectValue(field, code);
    }
  }

  /** A stored account, as far as the duplicate checks see it. */
  datatype Account = Account(usernameNormalized: string, email: string)

  /**
   * `findByUsernameNormalized(name) != null`: every stored account with that normalised
   * username is found, and an empty repository finds none.
   */
  function UsernameTaken(repo: map<string, Account>, name: string): (r: bool)
    ensures forall id :: id in repo && repo[id].usernameNormalized == name ==> r
    ensures r ==> |repo| > 0
  {
    exists id :: id in repo && repo[id].usernameNormalized == name
  }

  /**
   * `findByEmail(email) != null`: every stored account with that email is found, and an
   * empty repository finds none.
   */
  function EmailTaken(repo: map<string, Account>, email: string): (r: bool)
    ensures forall id :: id in repo && repo[id].email == email ==> r
    ensures r ==> |repo| > 0
  {
    exists id :: id in repo && repo[id].email == email
  }

  /* ---------------------------------------------------------------------------
   * supports
   * ------------------------------------------------------------------------- */

  /** A `Class<?>` value, identified by its fully qualified name. */
  datatype JavaClass = JavaClass(name: string)

  const RegistrationDtoClass: JavaClass := JavaClass("com.sebworks.oauthly.dto.RegistrationDto")

  /** The validator handles registration forms and nothing else. */
  function Supports(c: JavaClass): (r: bool)
    ensures r <==> c.name == "com.sebworks.oauthly.dto.RegistrationDto"
  {
    RegistrationDtoClass == c
  }

  /* ---------------------------------------------------------------------------
   * The errors a form yields
   * ------------------------------------------------------------------------- */

  const UsernameField: string := "username"
  const EmailField: string := "email"
  const PasswordField: string := "password"
  const PasswordConfirmField: string := "passwordConfirm"

  const NotEmpty: string := "NotEmpty"
  const UsernameSize: string := "Size.userForm.username"
  const UsernameDuplicate: string := "Duplicate.userForm.username"
  const EmailInvalid: string := "Invalid.userForm.email"
  const EmailDuplicate: string := "Duplicate.userForm.email"
  const PasswordSize: string := "Size.userForm.password"
  const PasswordConfirmDiff: string := "Diff.userForm.passwordConfirm"

  function ErrorIf(cond: bool, field: string, code: string): seq<FieldError>
  {
    if cond then [FieldError(field, code)] else []
  }

  function UsernameErrors(username: string, repo: map<string, Account>): seq<FieldError>
  {
    ErrorIf(!HasText(username), UsernameField, NotEmpty)
    + ErrorIf(|username| < 3 || |username| > 20, UsernameField, UsernameSize)
    + ErrorIf(UsernameTaken(repo, NormalizeUsername(username)), UsernameField, UsernameDuplicate)
  }

  function EmailErrors(email: string, repo: map<string, Account>, isValidEmail: string -> bool): seq<FieldError>
  {
    ErrorIf(!isValidEmail(email), EmailField, EmailInvalid)
    + ErrorIf(EmailTaken(repo, Lower(email)), EmailField, EmailDuplicate)
  }

  function PasswordErrors(password: string, passwordConfirm: string): seq<FieldError>
  {
    ErrorIf(!HasText(password), PasswordField, NotEmpty)
    + ErrorIf(|password| < 4 || |password| > 32, PasswordField, PasswordSize)
    + ErrorIf(passwordConfirm != password, PasswordConfirmField, PasswordConfirmDiff)
  }

  /** The errors `validate` appends for a form, in the order it checks. */
  function RegistrationErrors(username: string, email: string, password: string, passwordConfirm: string,
                              repo: map<string, Account>, isValidEmail: string -> bool): seq<FieldError>
  {
    UsernameErrors(username, repo) + EmailErrors(email, repo, isValidEmail) + PasswordErrors(password, passwordConfirm)
  }

  /* ---------------------------------------------------------------------------
   * validate
   * ------------------------------------------------------------------------- */

  /** The username checks of `validate` and the normalised username. */
  method CheckUsername(dto: RegistrationDto, errors: Errors, repo: map<string, Account>)
    modifies dto`usernameNormalized, errors
    ensures errors.all == old(errors.all) + UsernameErrors(dto.username, repo)
    ensures dto.usernameNormalized == NormalizeUsername(dto.username)
  {
    RejectIfEmptyOrWhitespace(errors, UsernameField, dto.username, NotEmpty);
    if |dto.username| < 3 || |dto.username| > 20 {
      errors.RejectValue(UsernameField, UsernameSize);
    }
    dto.usernameNormalized := NormalizeUsername(dto.username);
    if UsernameTaken(repo, dto.usernameNormalized) {
      errors.RejectValue(UsernameField, UsernameDuplicate);
    }
  }

  /** The email checks of `validate` and the lowercased email. */
  method CheckEmail(dto: RegistrationDto, errors: Errors, repo: map<string, Account>, isValidEmail: string -> bool)
    modifies dto`email, errors
    ensures errors.all == old(errors.all) + EmailErrors(old(dto.email), repo, isValidEmail)
    ensures dto.email == Lower(old(dto.email))
  {
    if !isValidEmail(dto.email) {
      errors.RejectValue(EmailField, EmailInvalid);
    }
    dto.email := Lower(dto.email);
    if EmailTaken(repo, dto.email) {
      errors.RejectValue(EmailField, EmailDuplicate);
    }
  }

  /** The password checks of `validate`. */
  method CheckPassword(dto: RegistrationDto, errors: Errors)
    modifies errors
    ensures errors.all == old(errors.all) + PasswordErrors(dto.password, dto.passwordConfirm)
  {
    RejectIfEmptyOrWhitespace(errors, PasswordField, dto.password, NotEmpty);
    if |dto.password| < 4 || |dto.password| > 32 {
      errors.RejectValue(PasswordField, PasswordSize);
    }
    if dto.passwordConfirm != dto.password {
      errors.RejectValue(PasswordConfirmField, PasswordConfirmDiff);
    }
  }

  /**
   * `validate(dto, errors)`. The user repository is `repo`; Apache's email validator
   * is the predicate `isValidEmail`.
   */
  method Validate(dto: RegistrationDto, errors: Errors, repo: map<string, Account>, isValidEmail: string -> bool)
    modifies dto, errors
    ensures errors.all == old(errors.all)
      + RegistrationErrors(old(dto.username), old(dto.email), old(dto.password), old(dto.passwordConfirm), repo, isValidEmail)
    ensures dto.usernameNormalized == NormalizeUsername(old(dto.username))
    ensures dto.email == Lower(old(dto.email))
    ensures dto.username == old(dto.username) && dto.password == old(dto.password)
    ensures dto.passwordConfirm == old(dto.passwordConfirm)
  {
    ghost var name, mail, pw, confirm := dto.username, dto.email, dto.password, dto.passwordConfirm;
    ghost var e0 := errors.all;
    CheckUsername(dto, errors, repo);
    ghost var e1 := errors.all;
    CheckEmail(dto, errors, repo, isValidEmail);
    ghost var e2 := errors.all;
    CheckPassword(dto, errors);
    AppendAssociates(e0, UsernameErrors(name, repo), EmailErrors(mail, repo, isValidEmail), PasswordErrors(pw, confirm));
  }

  lemma AppendAssociates(e: seq<FieldError>, a: seq<FieldError>, b: seq<FieldError>, c: seq<FieldError>)
    ensures e + a + b + c == e + (a + b + c)
  {
  }
}
