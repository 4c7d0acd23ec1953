/** Authentication by email and password. The user lookup and the password
    comparison are collaborators given as functions: what each returns or
    throws for each input is left open, and every property below holds
    whatever they do. */
module Authentication {
  import opened Errors

  /** A stored user, with the hash of its password. */
  datatype UserRecord = UserRecord(
    id: string,
    username: string,
    email: string,
    password: string,
    features: seq<string>,
    created_at: int,
    updated_at: int)

  const AuthenticationFailedMessage: string := "Dados de autenticação não conferem."
  const CheckDataAction: string := "Verifique se os dados enviados estão corretos."
  const WrongPasswordMessage: string := "Senha incorreta."

  /** The one error for an unknown email and for a wrong password alike. */
  const AuthenticationFailed: AppError :=
    UnauthorizedError(AuthenticationFailedMessage, CheckDataAction)

  /** The user lookup by email: the user found, or what it throws. */
  type UserLookup = string -> Result<UserRecord>

  /** The password comparison of a plaintext with a stored hash: whether
      they match, or what it throws. */
  type PasswordCompare = (string, string) -> Result<bool>

  /** The inner `findUserByEmail`: it finds exactly the user the lookup
      finds, and no NotFoundError leaves it: a failure is the uniform error
      or the lookup's own error, unchanged. */
  function FindUserByEmail(providedEmail: string, findOneByEmail: UserLookup): (r: Result<UserRecord>)
    ensures r.Ok? <==> findOneByEmail(providedEmail).Ok?
    ensures r.Ok? ==> r == findOneByEmail(providedEmail)
    ensures r.Err? ==> !r.error.NotFoundError?
    ensures r.Err? ==> r == Err(AuthenticationFailed) || r == findOneByEmail(providedEmail)
  {
    match findOneByEmail(providedEmail)
    case Ok(user) => Ok(user)
    case Err(e) => if e.NotFoundError? then Err(AuthenticationFailed) else Err(e)
  }

  /** The inner `validatePassword`: a mismatch throws "Senha incorreta.",
      which its own handler, like any UnauthorizedError from the comparison,
      turns into the uniform error; other errors pass unchanged. */
  function ValidatePassword(providedPassword: string, storedPassword: string, compare: PasswordCompare): (r: Result<()>)
    ensures r.Ok? <==> compare(providedPassword, storedPassword) == Ok(true)
    ensures compare(providedPassword, storedPassword) == Ok(false) ==> r == Err(AuthenticationFailed)
    ensures r.Err? ==> r.error.UnauthorizedError? ==> r == Err(AuthenticationFailed)
    ensures compare(providedPassword, storedPassword).Err?
            ==> r == (if compare(providedPassword, storedPassword).error.UnauthorizedError?
                      then Err(AuthenticationFailed)
                      else Err(compare(providedPassword, storedPassword).error))
  {
    var thrown: Result<()> :=
      match compare(providedPassword, storedPassword)
      case Ok(matches) =>
        if !matches then Err(UnauthorizedError(WrongPasswordMessage, CheckDataAction)) else Ok(())
      case Err(e) => Err(e);
    match thrown
    case Ok(_) => Ok(())
    case Err(e) => if e.UnauthorizedError? then Err(AuthenticationFailed) else Err(e)
  }

  /** `getAuthenticatedUser(providedEmail, providedPassword)`: looks the
      user up, then checks the password; the outer handler rewrites every
      UnauthorizedError into the uniform one. */
  function GetAuthenticatedUser(providedEmail: string, providedPassword: string,
                                findOneByEmail: UserLookup, compare: PasswordCompare): (r: Result<UserRecord>)
    ensures r.Ok? <==> findOneByEmail(providedEmail).Ok?
                       && compare(providedPassword, findOneByEmail(providedEmail).value.password) == Ok(true)
    ensures r.Ok? ==> r.value == findOneByEmail(providedEmail).value
  {
    var attempt: Result<UserRecord> :=
      match FindUserByEmail(providedEmail, findOneByEmail)
      case Err(e) => Err(e)
      case Ok(userFound) =>
        match ValidatePassword(providedPassword, userFound.password, compare)
        case Err(e) => Err(e)
        case Ok(_) => Ok(userFound);
    match attempt
    case Ok(userFound) => Ok(userFound)
    case Err(e) =>
      if e.UnauthorizedError? then
        Err(UnauthorizedError(AuthenticationFailedMessage, CheckDataAction))
      else Err(e)
  }

  /** An email no user has gives the uniform UnauthorizedError. */
  lemma UnknownEmailIsUnauthorized(providedEmail: string, providedPassword: string,
                                   findOneByEmail: UserLookup, compare: PasswordCompare)
    requires findOneByEmail(providedEmail).Err? && findOneByEmail(providedEmail).error.NotFoundError?
    ensures GetAuthenticatedUser(providedEmail, providedPassword, findOneByEmail, compare)
            == Err(UnauthorizedError("Dados de autenticação não conferem.",
                                     "Verifique se os dados enviados estão corretos."))
  {
  }

  /** A wrong password gives that same error: "Senha incorreta." never
      leaves the function. */
  lemma WrongPasswordIsUnauthorized(providedEmail: string, providedPassword: string,
                                    findOneByEmail: UserLookup, compare: PasswordCompare)
    requires findOneByEmail(providedEmail).Ok?
    requires compare(providedPassword, findOneByEmail(providedEmail).value.password) == Ok(false)
    ensures GetAuthenticatedUser(providedEmail, providedPassword, findOneByEmail, compare)
            == Err(UnauthorizedError("Dados de autenticação não conferem.",
                                     "Verifique se os dados enviados estão corretos."))
  {
  }

  /** An unknown email and a wrong password for an existing one cannot be
      told apart: kind, message and action are the same. */
  lemma UnknownEmailAndWrongPasswordIndistinguishable(
    unknownEmail: string, knownEmail: string, password1: string, password2: string,
    findOneByEmail: UserLookup, compare: PasswordCompare)
    requires findOneByEmail(unknownEmail).Err? && findOneByEmail(unknownEmail).error.NotFoundError?
    requires findOneByEmail(knownEmail).Ok?
    requires compare(password2, findOneByEmail(knownEmail).value.password) == Ok(false)
    ensures GetAuthenticatedUser(unknownEmail, password1, findOneByEmail, compare)
            == GetAuthenticatedUser(knownEmail, password2, findOneByEmail, compare)
  {
    UnknownEmailIsUnauthorized(unknownEmail, password1, findOneByEmail, compare);
    WrongPasswordIsUnauthorized(knownEmail, password2, findOneByEmail, compare);
  }

  /** Every error that leaves the function is the uniform UnauthorizedError
      or one that is not an UnauthorizedError and came unchanged out of a
      collaborator: out of the lookup when it is not a NotFoundError, or out
      of the comparison. */
  lemma ErrorsAreUniformOrPropagated(providedEmail: string, providedPassword: string,
                                     findOneByEmail: UserLookup, compare: PasswordCompare)
    requires GetAuthenticatedUser(providedEmail, providedPassword, findOneByEmail, compare).Err?
    ensures var e := GetAuthenticatedUser(providedEmail, providedPassword, findOneByEmail, compare).error;
            e == AuthenticationFailed
            || (!e.UnauthorizedError?
                && ((findOneByEmail(providedEmail) == Err(e) && !e.NotFoundError?)
                    || (findOneByEmail(providedEmail).Ok?
                        && compare(providedPassword, findOneByEmail(providedEmail).value.password) == Err(e))))
  {
    var lookup := findOneByEmail(providedEmail);
    if lookup.Ok? {
      var outcome := compare(providedPassword, lookup.value.password);
      assert outcome != Ok(true);
      if outcome.Err? {
        assert ValidatePassword(providedPassword, lookup.value.password, compare) == Err(outcome.error)
               || ValidatePassword(providedPassword, lookup.value.password, compare) == Err(AuthenticationFailed);
      }
    }
  }

  /** A lookup error that is neither a NotFoundError nor an
      UnauthorizedError comes out unchanged. */
  lemma LookupErrorsPropagate(providedEmail: string, providedPassword: string,
                              findOneByEmail: UserLookup, compare: PasswordCompare)
    requires findOneByEmail(providedEmail).Err?
    requires !findOneByEmail(providedEmail).error.NotFoundError?
    requires !findOneByEmail(providedEmail).error.UnauthorizedError?
    ensures GetAuthenticatedUser(providedEmail, providedPassword, findOneByEmail, compare)
            == findOneByEmail(providedEmail)
  {
  }

  /** An error from the comparison that is not an UnauthorizedError comes
      out unchanged. */
  lemma CompareErrorsPropagate(providedEmail: string, providedPassword: string,
                               findOneByEmail: UserLookup, compare: PasswordCompare)
    requires findOneByEmail(providedEmail).Ok?
    requires var outcome := compare(providedPassword, findOneByEmail(providedEmail).value.password);
             outcome.Err? && !outcome.error.UnauthorizedError?
    ensures GetAuthenticatedUser(providedEmail, providedPassword, findOneByEmail, compare)
            == Err(compare(providedPassword, findOneByEmail(providedEmail).value.password).error)
  {
  }

  /** The comparison is consulted only once the lookup has found a user:
      when the lookup fails, the outcome is the same whatever the
      comparison would say. */
  lemma CompareOnlyAfterLookup(providedEmail: string, providedPassword: string,
                               findOneByEmail: UserLookup, compare1: PasswordCompare, compare2: PasswordCompare)
    requires findOneByEmail(providedEmail).Err?
    ensures GetAuthenticatedUser(providedEmail, providedPassword, findOneByEmail, compare1)
            == GetAuthenticatedUser(providedEmail, providedPassword, findOneByEmail, compare2)
  {
  }
}
