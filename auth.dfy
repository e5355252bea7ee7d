/** The login form of `src/components/AuthModal.jsx`: an email is accepted
    when it matches the school-address regex OR merely ends with the school
    domain; otherwise a fixed error message is shown until the email is
    edited. The password is captured but never examined. */
module Auth {
  import opened Text

  /** The school domain, including the `@`. */
  const Domain := "@edu.escp.eu"

  /** The message shown on rejection. */
  const RejectMessage := "Access restricted. You must use a valid @edu.escp.eu student email."

  /** The character class `[a-zA-Z0-9._%+-]` of the regex's local part. */
  predicate IsLocalChar(c: char) {
    || 'a' <= c <= 'z'
    || 'A' <= c <= 'Z'
    || '0' <= c <= '9'
    || c == '.' || c == '_' || c == '%' || c == '+' || c == '-'
  }

  /** `/^[a-zA-Z0-9._%+-]+@edu\.escp\.eu$/.test(email)`: a non-empty local
      part drawn from the class, then exactly the domain, then the end. */
  predicate MatchesEscpRegex(email: string)
    ensures MatchesEscpRegex(email) ==> |email| > |Domain| && EndsWith(email, Domain)
    ensures MatchesEscpRegex(email) ==> forall i | 0 <= i < |email| - |Domain| :: email[i] != '@'
  {
    && |email| > |Domain|
    && EndsWith(email, Domain)
    && forall i | 0 <= i < |email| - |Domain| :: IsLocalChar(email[i])
  }

  /** The acceptance test of `handleSubmit`. */
  predicate Accepts(email: string) {
    MatchesEscpRegex(email) || EndsWith(email, Domain)
  }

  /** Every regex match also ends with the domain, so acceptance is the
      suffix test alone. */
  lemma AcceptsIffDomainSuffix(email: string)
    ensures Accepts(email) <==> EndsWith(email, Domain)
  {
  }

  /** An empty local part is accepted through the suffix test although the
      regex rejects it. */
  lemma EmptyLocalPartAccepted()
    ensures Accepts("@edu.escp.eu")
    ensures !MatchesEscpRegex("@edu.escp.eu")
  {
  }

  /** A school address is accepted. */
  lemma SchoolAddressAccepted()
    ensures Accepts("x@edu.escp.eu")
    ensures MatchesEscpRegex("x@edu.escp.eu")
  {
  }

  /** Another domain is rejected. */
  lemma OtherDomainRejected()
    ensures !Accepts("x@gmail.com")
  {
  }

  /** The test is case-sensitive: the domain in capitals is rejected. */
  lemma UpperCaseDomainRejected()
    ensures !Accepts("x@EDU.ESCP.EU")
  {
  }

  /** What a submit leads to: `onLogin(email)` or the error message. */
  datatype Outcome = LoggedIn(email: string) | Rejected(message: string)

  /** The decision of `handleSubmit` for the form's current email and
      password. */
  function Decide(email: string, password: string): (r: Outcome)
    ensures r.LoggedIn? <==> EndsWith(email, Domain)
    ensures r.LoggedIn? ==> r.email == email
    ensures r.Rejected? ==> r.message == RejectMessage
  {
    if Accepts(email) then LoggedIn(email) else Rejected(RejectMessage)
  }

  /** The password plays no part in the decision. */
  lemma DecideIgnoresPassword(email: string, p1: string, p2: string)
    ensures Decide(email, p1) == Decide(email, p2)
  {
  }

  /** The login form's state. */
  class AuthForm {
    var email: string
    var password: string
    var error: string

    constructor ()
      ensures email == "" && password == "" && error == ""
    {
      email, password, error := "", "", "";
    }

    /** Editing the email stores it and clears the error. */
    method ChangeEmail(value: string)
      modifies this
      ensures email == value && error == ""
      ensures password == old(password)
    {
      email := value;
      error := "";
    }

    /** Editing the password stores it; the error stays. */
    method ChangePassword(value: string)
      modifies this
      ensures password == value
      ensures email == old(email) && error == old(error)
    {
      password := value;
    }

    /** Submitting: on acceptance the outcome carries the email for
        `onLogin` and the error is left as it was; on rejection the error
        becomes the fixed message. */
    method Submit() returns (outcome: Outcome)
      modifies this
      ensures outcome == Decide(old(email), old(password))
      ensures error == (if outcome.Rejected? then RejectMessage else old(error))
      ensures email == old(email) && password == old(password)
    {
      outcome := Decide(email, password);
      if outcome.Rejected? {
        error := RejectMessage;
      }
    }
  }
}
