/** The closed set of statuses the PowerOfficeGo callback reports, with the
    enum's name rendering and its parsing by exact, case-sensitive name. */
module Status {
  import opened Wrappers

  datatype OnboardingStatus = Success | Canceled | ClientNotFound | NoClientAccess | IntegrationBlocked

  const ALL_STATUSES: set<OnboardingStatus> :=
    {OnboardingStatus.Success, Canceled, ClientNotFound, NoClientAccess, IntegrationBlocked}

  const STATUS_NAMES: set<string> :=
    {"Success", "Canceled", "ClientNotFound", "NoClientAccess", "IntegrationBlocked"}

  /** The member name, as the enum renders in string interpolation. */
  function Name(s: OnboardingStatus): (r: string)
    ensures r in STATUS_NAMES
  {
    match s
    case Success => "Success"
    case Canceled => "Canceled"
    case ClientNotFound => "ClientNotFound"
    case NoClientAccess => "NoClientAccess"
    case IntegrationBlocked => "IntegrationBlocked"
  }

  /** `Enum.TryParse<OnboardingStatus>` restricted to exact member names:
      succeeds exactly on the five names, and then with the status so named. */
  function Parse(raw: string): (r: Option<OnboardingStatus>)
    ensures r.Some? <==> raw in STATUS_NAMES
    ensures r.Some? ==> Name(r.value) == raw
  {
    if raw == "Success" then Some(OnboardingStatus.Success)
    else if raw == "Canceled" then Some(Canceled)
    else if raw == "ClientNotFound" then Some(ClientNotFound)
    else if raw == "NoClientAccess" then Some(NoClientAccess)
    else if raw == "IntegrationBlocked" then Some(IntegrationBlocked)
    else None
  }

  /** The enum has exactly five distinct values. */
  lemma StatusSetIsClosed()
    ensures forall s: OnboardingStatus :: s in ALL_STATUSES
    ensures |ALL_STATUSES| == 5
  {
    forall s: OnboardingStatus ensures s in ALL_STATUSES {
      match s
      case Success =>
      case Canceled =>
      case ClientNotFound =>
      case NoClientAccess =>
      case IntegrationBlocked =>
    }
  }

  /** Parsing a status's name gives back that status. */
  lemma ParseName(s: OnboardingStatus)
    ensures Parse(Name(s)) == Some(s)
  {
  }

  /** Distinct statuses have distinct names. */
  lemma NameInjective(s: OnboardingStatus, t: OnboardingStatus)
    ensures Name(s) == Name(t) ==> s == t
  {
  }
}
