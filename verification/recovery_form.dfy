/** The password-recovery form: the e-mail schema, the simulated delivery
    that fails for one sentinel address only, and the form state that ends
    in the "e-mail sent" view. */
module RecoveryForm {
  import opened Common

  /** The one address the simulated service does not know. */
  const UnknownEmail := "nonexistent@example.com"

  const EmailNotFoundMessage := "Email não encontrado. Verifique o email informado ou cadastre-se."

  /** The checks of the schema on its only field; both run, so an empty
      address fails both. */
  datatype RecoveryCheck = EmailRequired | EmailFormat
  {
    function Message(): (m: string)
    {
      match this
      case EmailRequired => "Email é obrigatório"
      case EmailFormat => "Email inválido"
    }
  }

  function RecoveryIssues(email: string): (issues: seq<RecoveryCheck>)
    ensures issues == [] <==> email != "" && IsEmail(email)
    ensures EmailRequired in issues <==> email == ""
    ensures EmailFormat in issues <==> !IsEmail(email)
  {
    (if |email| < 1 then [EmailRequired] else [])
    + (if !IsEmail(email) then [EmailFormat] else [])
  }

  /** The sentinel address is well formed, so it reaches the decision. */
  lemma UnknownEmailPassesSchema()
    ensures RecoveryIssues(UnknownEmail) == []
  {
    var domain := UnknownEmail[12..];
    assert domain == "example.com";
    assert domain[7] == '.';
    assert UnknownEmail[11] == '@' && '@' !in UnknownEmail[..11] && '@' !in domain;
  }

  /** An empty address never passes the schema. */
  lemma EmptyEmailRejected()
    ensures EmailRequired in RecoveryIssues("") && EmailFormat in RecoveryIssues("")
  {
  }

  datatype RecoveryOutcome = EmailNotFound | EmailSent

  /** The result of the simulated request for an accepted address. */
  function Deliver(email: string): (o: RecoveryOutcome)
  {
    if email == UnknownEmail then EmailNotFound else EmailSent
  }

  /** The form component's state. `scheduled` holds the submitted address
      while the simulated request (a one-shot timer) is pending. */
  class RecoveryFormState {
    var isSubmitting: bool
    var recoveryError: Option<string>
    var recoverySuccess: bool
    var scheduled: Option<string>

    ghost predicate Valid()
      reads this
    {
      (isSubmitting <==> scheduled.Some?)
      && (scheduled.Some? ==> recoveryError == None && !recoverySuccess)
      && (recoverySuccess ==> recoveryError == None)
      && (recoveryError.Some? ==> recoveryError == Some(EmailNotFoundMessage))
    }

    constructor ()
      ensures Valid()
      ensures !isSubmitting && recoveryError == None && !recoverySuccess && scheduled == None
    {
      isSubmitting := false;
      recoveryError := None;
      recoverySuccess := false;
      scheduled := None;
    }

    /** A submit event on the form. The button is disabled while a request
        is pending, and the form is no longer shown once the e-mail is sent. */
    method Submit(email: string) returns (issues: seq<RecoveryCheck>)
      requires Valid() && !isSubmitting && !recoverySuccess
      modifies this
      ensures Valid() && !recoverySuccess
      ensures issues == RecoveryIssues(email)
      ensures issues != [] ==>
        !isSubmitting && recoveryError == old(recoveryError) && scheduled == None
      ensures issues == [] ==> isSubmitting && recoveryError == None && scheduled == Some(email)
    {
      issues := RecoveryIssues(email);
      if issues == [] {
        isSubmitting := true;
        recoveryError := None;
        scheduled := Some(email);
      }
    }

    /** The timer fires: the sentinel address is reported as unknown; any
        other address moves the form to the "e-mail sent" view for good. */
    method Resolve() returns (outcome: RecoveryOutcome)
      requires Valid() && scheduled.Some?
      modifies this
      ensures Valid() && !isSubmitting && scheduled == None
      ensures outcome == Deliver(old(scheduled).value)
      ensures outcome == EmailNotFound <==> old(scheduled).value == UnknownEmail
      ensures outcome == EmailNotFound ==> recoveryError == Some(EmailNotFoundMessage) && !recoverySuccess
      ensures outcome == EmailSent ==> recoverySuccess && recoveryError == None
    {
      outcome := Deliver(scheduled.value);
      isSubmitting := false;
      scheduled := None;
      if outcome == EmailNotFound {
        recoveryError := Some(EmailNotFoundMessage);
      } else {
        recoverySuccess := true;
      }
    }
  }

  /** The "e-mail sent" view is terminal: once `recoverySuccess` holds,
      neither a submission nor a pending request can run, so no event of
      the form sets it back to false. */
  lemma SentIsTerminal(form: RecoveryFormState)
    requires form.Valid() && form.recoverySuccess
    ensures form.scheduled.None? && !form.isSubmitting
  {
  }
}
