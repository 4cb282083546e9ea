/**
 * What the registration validator reports: each error code appears exactly when its
 * rule is broken, errors come in check order, and the normalised username and the
 * stored email have the promised shape.
 */
module RegistrationProperties {
  import opened JavaText
  import opened RegistrationValidator

  /** Membership in an optional single error. */
  lemma InErrorIf(x: FieldError, cond: bool, field: string, code: string)
    ensures x in ErrorIf(cond, field, code) <==> cond && x == FieldError(field, code)
  {
  }

  /**
   * Every error `validate` can append, with the condition under which it appears.
   * The eight (field, code) pairs are distinct, so each appears at most once.
   */
  lemma {:induction false} RegistrationErrorsMembership(username: string, email: string, password: string, passwordConfirm: string,
                                                        repo: map<string, Account>, isValidEmail: string -> bool, x: FieldError)
    ensures x in RegistrationErrors(username, email, password, passwordConfirm, repo, isValidEmail) <==>
      || (x == FieldError(UsernameField, NotEmpty) && !HasText(username))
      || (x == FieldError(UsernameField, UsernameSize) && (|username| < 3 || |username| > 20))
      || (x == FieldError(UsernameField, UsernameDuplicate) && UsernameTaken(repo, NormalizeUsername(username)))
      || (x == FieldError(EmailField, EmailInvalid) && !isValidEmail(email))
      || (x == FieldError(EmailField, EmailDuplicate) && EmailTaken(repo, Lower(email)))
      || (x == FieldError(PasswordField, NotEmpty) && !HasText(password))
      || (x == FieldError(PasswordField, PasswordSize) && (|password| < 4 || |password| > 32))
      || (x == FieldError(PasswordConfirmField, PasswordConfirmDiff) && passwordConfirm != password)
  {
    InErrorIf(x, !HasText(username), UsernameField, NotEmpty);
    InErrorIf(x, |username| < 3 || |username| > 20, UsernameField, UsernameSize);
    InErrorIf(x, UsernameTaken(repo, NormalizeUsername(username)), UsernameField, UsernameDuplicate);
    InErrorIf(x, !isValidEmail(email), EmailField, EmailInvalid);
    InErrorIf(x, EmailTaken(repo, Lower(email)), EmailField, EmailDuplicate);
    InErrorIf(x, !HasText(password), PasswordField, NotEmpty);
    InErrorIf(x, |password| < 4 || |password| > 32, PasswordField, PasswordSize);
    InErrorIf(x, passwordConfirm != password, PasswordConfirmField, PasswordConfirmDiff);
  }

  /** `Size.userForm.username` is reported exactly for usernames shorter than 3 or longer than 20. */
  lemma UsernameSizeRule(username: string, email: string, password: string, passwordConfirm: string,
                         repo: map<string, Account>, isValidEmail: string -> bool)
    ensures FieldError(UsernameField, UsernameSize) in RegistrationErrors(username, email, password, passwordConfirm, repo, isValidEmail)
      <==> |username| < 3 || |username| > 20
  {
    RegistrationErrorsMembership(username, email, password, passwordConfirm, repo, isValidEmail, FieldError(UsernameField, UsernameSize));
  }

  /** An empty username yields `NotEmpty`, then `Size.userForm.username`, as the first two errors. */
  lemma EmptyUsernameRule(email: string, password: string, passwordConfirm: string,
                          repo: map<string, Account>, isValidEmail: string -> bool)
    ensures var errs := RegistrationErrors("", email, password, passwordConfirm, repo, isValidEmail);
      |errs| >= 2 && errs[0] == FieldError(UsernameField, NotEmpty) && errs[1] == FieldError(UsernameField, UsernameSize)
  {
    assert !HasText("");
  }

  /** `Duplicate.userForm.username` is reported exactly when a stored account has the normalised username. */
  lemma DuplicateUsernameRule(username: string, email: string, password: string, passwordConfirm: string,
                              repo: map<string, Account>, isValidEmail: string -> bool)
    ensures FieldError(UsernameField, UsernameDuplicate) in RegistrationErrors(username, email, password, passwordConfirm, repo, isValidEmail)
      <==> exists id :: id in repo && repo[id].usernameNormalized == NormalizeUsername(username)
  {
    RegistrationErrorsMembership(username, email, password, passwordConfirm, repo, isValidEmail, FieldError(UsernameField, UsernameDuplicate));
  }

  /** `Invalid.userForm.email` is reported exactly when the email validator refuses the address as typed. */
  lemma InvalidEmailRule(username: string, email: string, password: string, passwordConfirm: string,
                         repo: map<string, Account>, isValidEmail: string -> bool)
    ensures FieldError(EmailField, EmailInvalid) in RegistrationErrors(username, email, password, passwordConfirm, repo, isValidEmail)
      <==> !isValidEmail(email)
  {
    RegistrationErrorsMembership(username, email, password, passwordConfirm, repo, isValidEmail, FieldError(EmailField, EmailInvalid));
  }

  /** `Duplicate.userForm.email` is reported exactly when a stored account has the lowercased email. */
  lemma DuplicateEmailRule(username: string, email: string, password: string, passwordConfirm: string,
                           repo: map<string, Account>, isValidEmail: string -> bool)
    ensures FieldError(EmailField, EmailDuplicate) in RegistrationErrors(username, email, password, passwordConfirm, repo, isValidEmail)
      <==> exists id :: id in repo && repo[id].email == Lower(email)
  {
    RegistrationErrorsMembership(username, email, password, passwordConfirm, repo, isValidEmail, FieldError(EmailField, EmailDuplicate));
  }

  /** `Size.userForm.password` is reported exactly for passwords shorter than 4 or longer than 32. */
  lemma PasswordSizeRule(username: string, email: string, password: string, passwordConfirm: string,
                         repo: map<string, Account>, isValidEmail: string -> bool)
    ensures FieldError(PasswordField, PasswordSize) in RegistrationErrors(username, email, password, passwordConfirm, repo, isValidEmail)
      <==> |password| < 4 || |password| > 32
  {
    RegistrationErrorsMembership(username, email, password, passwordConfirm, repo, isValidEmail, FieldError(PasswordField, PasswordSize));
  }

  /** `Diff.userForm.passwordConfirm` is reported exactly when the confirmation differs from the password. */
  lemma PasswordConfirmRule(username: string, email: string, password: string, passwordConfirm: string,
                            repo: map<string, Account>, isValidEmail: string -> bool)
    ensures FieldError(PasswordConfirmField, PasswordConfirmDiff) in RegistrationErrors(username, email, password, passwordConfirm, repo, isValidEmail)
      <==> passwordConfirm != password
  {
    RegistrationErrorsMembership(username, email, password, passwordConfirm, repo, isValidEmail, FieldError(PasswordConfirmField, PasswordConfirmDiff));
  }

  /** `NotEmpty` is reported on a field exactly when that field is empty or all whitespace. */
  lemma NotEmptyRule(username: string, email: string, password: string, passwordConfirm: string,
                     repo: map<string, Account>, isValidEmail: string -> bool)
    ensures FieldError(UsernameField, NotEmpty) in RegistrationErrors(username, email, password, passwordConfirm, repo, isValidEmail)
      <==> !HasText(username)
    ensures FieldError(PasswordField, NotEmpty) in RegistrationErrors(username, email, password, passwordConfirm, repo, isValidEmail)
      <==> !HasText(password)
  {
    RegistrationErrorsMembership(username, email, password, passwordConfirm, repo, isValidEmail, FieldError(UsernameField, NotEmpty));
    RegistrationErrorsMembership(username, email, password, passwordConfirm, repo, isValidEmail, FieldError(PasswordField, NotEmpty));
  }

  /** The position of a field in the order `validate` checks the form. */
  function CheckRank(field: string): int
  {
    if field == UsernameField then 0
    else if field == EmailField then 1
    else if field == PasswordField then 2
    else 3
  }

  /** The fields of `errs` never go back in check order. */
  predicate InCheckOrder(errs: seq<FieldError>)
  {
    forall i, j :: 0 <= i < j < |errs| ==> CheckRank(errs[i].field) <= CheckRank(errs[j].field)
  }

  /** `errs` is in check order and every field in it has a rank between `lo` and `hi`. */
  predicate Band(errs: seq<FieldError>, lo: int, hi: int)
  {
    && InCheckOrder(errs)
    && forall i :: 0 <= i < |errs| ==> lo <= CheckRank(errs[i].field) <= hi
  }

  lemma SingleBand(cond: bool, field: string, code: string)
    ensures Band(ErrorIf(cond, field, code), CheckRank(field), CheckRank(field))
  {
  }

  /** Appending a block of later fields to an ordered list keeps it ordered. */
  lemma BandAppend(a: seq<FieldError>, b: seq<FieldError>, lo: int, k: int, hi: int)
    requires lo <= k <= hi
    requires Band(a, lo, k) && Band(b, k, hi)
    ensures Band(a + b, lo, hi)
  {
    var ab := a + b;
    forall i, j | 0 <= i < j < |ab|
      ensures CheckRank(ab[i].field) <= CheckRank(ab[j].field)
    {
      if j < |a| {
        assert ab[i] == a[i] && ab[j] == a[j];
      } else if i >= |a| {
        assert ab[i] == b[i - |a|] && ab[j] == b[j - |a|];
      } else {
        assert ab[i] == a[i] && ab[j] == b[j - |a|];
      }
    }
    forall i | 0 <= i < |ab|
      ensures lo <= CheckRank(ab[i].field) <= hi
    {
      if i < |a| {
        assert ab[i] == a[i];
      } else {
        assert ab[i] == b[i - |a|];
      }
    }
  }

  /** The error list for given outcomes of the eight checks, in the order `validate` runs them. */
  function ErrorsForOutcomes(c0: bool, c1: bool, c2: bool, c3: bool, c4: bool, c5: bool, c6: bool, c7: bool): seq<FieldError>
  {
    ErrorIf(c0, UsernameField, NotEmpty) + ErrorIf(c1, UsernameField, UsernameSize) + ErrorIf(c2, UsernameField, UsernameDuplicate)
    + (ErrorIf(c3, EmailField, EmailInvalid) + ErrorIf(c4, EmailField, EmailDuplicate))
    + (ErrorIf(c5, PasswordField, NotEmpty) + ErrorIf(c6, PasswordField, PasswordSize)
       + ErrorIf(c7, PasswordConfirmField, PasswordConfirmDiff))
  }

  lemma UsernameBand(c0: bool, c1: bool, c2: bool)
    ensures Band(ErrorIf(c0, UsernameField, NotEmpty) + ErrorIf(c1, UsernameField, UsernameSize)
                 + ErrorIf(c2, UsernameField, UsernameDuplicate), 0, 0)
  {
    SingleBand(c0, UsernameField, NotEmpty);
    SingleBand(c1, UsernameField, UsernameSize);
    SingleBand(c2, UsernameField, UsernameDuplicate);
    BandAppend(ErrorIf(c0, UsernameField, NotEmpty), ErrorIf(c1, UsernameField, UsernameSize), 0, 0, 0);
    BandAppend(ErrorIf(c0, UsernameField, NotEmpty) + ErrorIf(c1, UsernameField, UsernameSize),
               ErrorIf(c2, UsernameField, UsernameDuplicate), 0, 0, 0);
  }

  lemma EmailBand(c3: bool, c4: bool)
    ensures Band(ErrorIf(c3, EmailField, EmailInvalid) + ErrorIf(c4, EmailField, EmailDuplicate), 1, 1)
  {
    SingleBand(c3, EmailField, EmailInvalid);
    SingleBand(c4, EmailField, EmailDuplicate);
    BandAppend(ErrorIf(c3, EmailField, EmailInvalid), ErrorIf(c4, EmailField, EmailDuplicate), 1, 1, 1);
  }

  lemma PasswordBand(c5: bool, c6: bool, c7: bool)
    ensures Band(ErrorIf(c5, PasswordField, NotEmpty) + ErrorIf(c6, PasswordField, PasswordSize)
                 + ErrorIf(c7, PasswordConfirmField, PasswordConfirmDiff), 2, 3)
  {
    SingleBand(c5, PasswordField, NotEmpty);
    SingleBand(c6, PasswordField, PasswordSize);
    SingleBand(c7, PasswordConfirmField, PasswordConfirmDiff);
    BandAppend(ErrorIf(c5, PasswordField, NotEmpty), ErrorIf(c6, PasswordField, PasswordSize), 2, 2, 2);
    BandAppend(ErrorIf(c5, PasswordField, NotEmpty) + ErrorIf(c6, PasswordField, PasswordSize),
               ErrorIf(c7, PasswordConfirmField, PasswordConfirmDiff), 2, 2, 3);
  }

  lemma {:induction false} OutcomesInCheckOrder(c0: bool, c1: bool, c2: bool, c3: bool, c4: bool, c5: bool, c6: bool, c7: bool)
    ensures InCheckOrder(ErrorsForOutcomes(c0, c1, c2, c3, c4, c5, c6, c7))
  {
    var u := ErrorIf(c0, UsernameField, NotEmpty) + ErrorIf(c1, UsernameField, UsernameSize) + ErrorIf(c2, UsernameField, UsernameDuplicate);
    var m := ErrorIf(c3, EmailField, EmailInvalid) + ErrorIf(c4, EmailField, EmailDuplicate);
    var p := ErrorIf(c5, PasswordField, NotEmpty) + ErrorIf(c6, PasswordField, PasswordSize)
             + ErrorIf(c7, PasswordConfirmField, PasswordConfirmDiff);
    UsernameBand(c0, c1, c2);
    EmailBand(c3, c4);
    PasswordBand(c5, c6, c7);
    BandAppend(u, m, 0, 1, 1);
    BandAppend(u + m, p, 0, 2, 3);
  }

  /** Errors appear in check order: username, then email, then password, then passwordConfirm. */
  lemma ErrorsInCheckOrder(username: string, email: string, password: string, passwordConfirm: string,
                           repo: map<string, Account>, isValidEmail: string -> bool)
    ensures InCheckOrder(RegistrationErrors(username, email, password, passwordConfirm, repo, isValidEmail))
  {
    OutcomesInCheckOrder(!HasText(username), |username| < 3 || |username| > 20, UsernameTaken(repo, NormalizeUsername(username)),
                         !isValidEmail(email), EmailTaken(repo, Lower(email)),
                         !HasText(password), |password| < 4 || |password| > 32, passwordConfirm != password);
  }

  /** The stored email is lowercase. */
  lemma LoweredEmailHasNoUpper(email: string)
    ensures forall i :: 0 <= i < |Lower(email)| ==> !IsUpperAscii(Lower(email)[i])
  {
  }
}
