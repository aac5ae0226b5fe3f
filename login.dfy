/** Sign-in as both services perform it: the identifier is normalised, then the
    authentication manager checks the credentials and a token is issued for the
    principal it returns. Authentication and token issuance are not part of this
    model and enter as functions. */
module Login {

  import opened Wrappers
  import opened Text
  import opened ExceptionHandling

  /** An identifier holding '@' is an e-mail and is lower-cased; a user name is
      passed on as typed. */
  function NormalizeIdentifier(identifier: string): (r: string)
    ensures |r| == |identifier|
    ensures '@' in identifier ==> HasNoUpper(r) && r == ToLower(identifier)
    ensures '@' !in identifier ==> r == identifier
  {
    if '@' in identifier then ToLower(identifier) else identifier
  }

  /** Normalising keeps an e-mail an e-mail and a user name a user name. */
  lemma NormalizeKeepsAt(identifier: string)
    ensures ('@' in NormalizeIdentifier(identifier)) <==> ('@' in identifier)
  {
    ToLowerKeepsChar(identifier, '@');
  }

  /** Normalising an identifier already normalised changes nothing. */
  lemma NormalizeIdempotent(identifier: string)
    ensures NormalizeIdentifier(NormalizeIdentifier(identifier)) == NormalizeIdentifier(identifier)
  {
    NormalizeKeepsAt(identifier);
  }

  /** Two spellings of one e-mail that differ only in letter case sign in alike. */
  lemma EmailCaseIsIgnored(a: string, b: string)
    requires '@' in a && ToLower(a) == ToLower(b)
    ensures NormalizeIdentifier(a) == NormalizeIdentifier(b)
  {
    ToLowerKeepsChar(a, '@');
    ToLowerKeepsChar(b, '@');
  }

  /** logar: authenticate the normalised identifier with the password and, on
      success, issue a token for the authenticated principal. */
  function Logar<P>(authenticate: (string, string) -> Result<P, Exception>, generateToken: P -> string,
                    identifier: string, password: string): (r: Result<string, Exception>)
    ensures authenticate(NormalizeIdentifier(identifier), password).Success? ==>
      r == Success(generateToken(authenticate(NormalizeIdentifier(identifier), password).value))
    ensures authenticate(NormalizeIdentifier(identifier), password).Failure? ==>
      r == Failure(authenticate(NormalizeIdentifier(identifier), password).error)
  {
    match authenticate(NormalizeIdentifier(identifier), password)
    case Success(principal) => Success(generateToken(principal))
    case Failure(e) => Failure(e)
  }

  /** A sign-in with an e-mail gets the same answer however its letters are cased. */
  lemma LogarIgnoresEmailCase<P>(authenticate: (string, string) -> Result<P, Exception>, generateToken: P -> string,
                                 a: string, b: string, password: string)
    requires '@' in a && ToLower(a) == ToLower(b)
    ensures Logar(authenticate, generateToken, a, password) == Logar(authenticate, generateToken, b, password)
  {
    EmailCaseIsIgnored(a, b);
  }
}
