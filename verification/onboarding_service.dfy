/** The onboarding service: the in-memory table from session token to
    session, the redirect URL builders, and the branch logic of beginning and
    finalizing an onboarding. The PowerOfficeGo API is not called: what
    resolving it and calling it would answer is given to each method, and each
    method returns the calls it made. */
module Onboarding {
  import opened Wrappers
  import opened Text
  import Status
  import Controller

  /** A 128-bit GUID, used as session token and as application key. */
  newtype Guid = x: int | 0 <= x < 0x1_0000_0000_0000_0000_0000_0000_0000_0000

  /** What the table stores under a token. */
  datatype Session = Session(subscriptionKey: string, redirectUrl: string)

  /** One onboarded client, its key (a GUID) already in its textual form. */
  datatype ClientInfo = ClientInfo(clientKey: string, clientName: string, clientOrganizationNumber: string)

  datatype FinalizeResponse = FinalizeResponse(clients: seq<ClientInfo>, userEmail: string)

  /** The answer of the finalize endpoint: the response, or the HTTP status
      code (as it renders) and the raw body. */
  datatype FinalizeResult =
    | Ok(response: FinalizeResponse)
    | Failed(statusCode: string, rawContent: string)

  /** The answer of the initiate endpoint, handed back to the caller as is. */
  datatype InitiateResponse = InitiateResponse(content: string)

  /** The calls made to the PowerOfficeGo API service, in order. */
  datatype ApiCall =
    | ResolveApi(subscriptionKey: string)
    | InitiatePost(applicationKey: Guid, clientOrgNumber: string, redirectUrl: string)
    | FinalizePost(onboardingToken: Option<string>)

  /** The exceptions the service throws. */
  datatype Fault =
    | ApiNotResolved          // InvalidOperationException: the onboarding API could not be resolved
    | UnknownSession(token: Guid)  // Exception: no session under this token

  const UNEXPECTED_STATUS_MESSAGE := "Unexpected onboarding status received from PowerOfficeGo: "
  const FAILURE_STATUS_MESSAGE := "Failure status received from PowerOfficeGo: "
  const FINALIZE_FAILURE_MESSAGE := "Failure while finalizing onboarding: "

  // ---------------------------------------------------------------------------
  // Redirect URLs
  // ---------------------------------------------------------------------------

  /** The URL followed by the one character that starts (`?`) or continues
      (`&`) its query string; the result always has a query string. */
  function UrlWithQuestionMark(url: string): (r: string)
    ensures |r| == |url| + 1 && r[..|url|] == url
    ensures r[|url|] == (if '?' in url then '&' else '?')
    ensures '?' in r
  {
    if '?' in url then url + "&" else url + "?"
  }

  /** The base URL, one separator, and the single parameter `errorMessage`
      carrying the encoded message. */
  function ErrorRedirectUrl(baseUrl: string, errorMessage: string, encode: string -> string): (r: string)
    ensures UrlWithQuestionMark(baseUrl) <= r
    ensures r[|baseUrl| + 1..] == "errorMessage=" + encode(errorMessage)
  {
    UrlWithQuestionMark(baseUrl) + "errorMessage=" + encode(errorMessage)
  }

  function ClientKeyOf(c: ClientInfo): string { c.clientKey }
  function ClientNameOf(c: ClientInfo): string { c.clientName }
  function ClientOrganizationNumberOf(c: ClientInfo): string { c.clientOrganizationNumber }

  /** The comma-separated list of one field of the clients, in client order. */
  function ClientList(clients: seq<ClientInfo>, field: ClientInfo -> string): (r: string)
    ensures clients == [] ==> r == ""
    ensures |clients| == 1 ==> r == field(clients[0])
    ensures clients != [] ==> field(clients[0]) <= r
  {
    Join(',', Select(clients, field))
  }

  /** The base URL, one separator, then clientKeys, clientNames (encoded),
      clientOrganizationNumbers and userEmail; a `)` follows the email. */
  function SuccessRedirectUrl(baseUrl: string, response: FinalizeResponse, encode: string -> string): (r: string)
    ensures UrlWithQuestionMark(baseUrl) <= r
    ensures r[|baseUrl| + 1..] ==
      "clientKeys=" + ClientList(response.clients, ClientKeyOf)
      + "&clientNames=" + encode(ClientList(response.clients, ClientNameOf))
      + "&clientOrganizationNumbers=" + ClientList(response.clients, ClientOrganizationNumberOf)
      + "&userEmail=" + response.userEmail + ")"
    ensures r[|r| - 1] == ')'
  {
    var u := UrlWithQuestionMark(baseUrl);
    var q := SuccessQuery(response, encode);
    assert (u + q)[|u|..] == q;
    u + q
  }

  /** The parameters a success redirect appends after the separator. */
  function SuccessQuery(response: FinalizeResponse, encode: string -> string): string
  {
    "clientKeys=" + ClientList(response.clients, ClientKeyOf)
    + "&clientNames=" + encode(ClientList(response.clients, ClientNameOf))
    + "&clientOrganizationNumbers=" + ClientList(response.clients, ClientOrganizationNumberOf)
    + "&userEmail=" + response.userEmail + ")"
  }

  /** A receiver splitting the clientKeys or clientOrganizationNumbers value at
      its commas gets one entry per client, in client order, provided there is
      at least one client and no entry contains a comma. */
  lemma ClientListRoundTrip(clients: seq<ClientInfo>, field: ClientInfo -> string)
    requires clients != []
    requires forall i :: 0 <= i < |clients| ==> ',' !in field(clients[i])
    ensures |Split(ClientList(clients, field), ',')| == |clients|
    ensures forall i :: 0 <= i < |clients| ==> Split(ClientList(clients, field), ',')[i] == field(clients[i])
  {
    SplitJoin(',', Select(clients, field));
  }

  /** An error redirect never equals a success redirect to the same base: the
      first parameter name after the separator tells them apart. */
  lemma ErrorAndSuccessRedirectsDiffer(baseUrl: string, errorMessage: string, response: FinalizeResponse, encode: string -> string)
    ensures ErrorRedirectUrl(baseUrl, errorMessage, encode) != SuccessRedirectUrl(baseUrl, response, encode)
  {
    var u := UrlWithQuestionMark(baseUrl);
    var q := SuccessQuery(response, encode);
    assert q[0] == 'c';
    assert (u + q)[|u|] == 'c';
    assert (u + "errorMessage=" + encode(errorMessage))[|u|] == 'e';
  }

  /** The callback URL handed to the initiate endpoint:
      `{apiBaseUrl}/{controller route}/{callback route}?{token parameter}={token}`. */
  function CallbackUrl(apiBaseUrl: string, tokenText: string): (r: string)
    ensures r == apiBaseUrl + "/PowerOfficeGoOnboarding/authenticate?onboardingSessionToken=" + tokenText
  {
    var path := "/" + Controller.CONTROLLER_ROUTE + "/" + Controller.ONBOARDING_CALLBACK_ROUTE
      + "?" + Controller.ONBOARDING_SESSION_TOKEN_QUERY_PARAM_NAME + "=";
    assert "/" + Controller.CONTROLLER_ROUTE == "/PowerOfficeGoOnboarding";
    assert "/PowerOfficeGoOnboarding" + "/" == "/PowerOfficeGoOnboarding/";
    assert "/PowerOfficeGoOnboarding/" + Controller.ONBOARDING_CALLBACK_ROUTE == "/PowerOfficeGoOnboarding/authenticate";
    assert "/PowerOfficeGoOnboarding/authenticate" + "?" == "/PowerOfficeGoOnboarding/authenticate?";
    assert "/PowerOfficeGoOnboarding/authenticate?" + Controller.ONBOARDING_SESSION_TOKEN_QUERY_PARAM_NAME
      == "/PowerOfficeGoOnboarding/authenticate?onboardingSessionToken";
    assert "/PowerOfficeGoOnboarding/authenticate?onboardingSessionToken" + "="
      == "/PowerOfficeGoOnboarding/authenticate?onboardingSessionToken=";
    apiBaseUrl + path + tokenText
  }

  // ---------------------------------------------------------------------------
  // The session table
  // ---------------------------------------------------------------------------

  /** The indexer assignment `table[token] = session`: the token is present
      with that session, and every other entry is as before. */
  function Register(table: map<Guid, Session>, token: Guid, session: Session): (r: map<Guid, Session>)
    ensures r.Keys == table.Keys + {token}
    ensures r[token] == session
    ensures forall t :: t in table && t != token ==> r[t] == table[t]
  {
    table[token := session]
  }

  datatype Registration = Registration(token: Guid, session: Session)

  /** The table after the given registrations, applied in order to an empty one. */
  function Replay(history: seq<Registration>): map<Guid, Session>
  {
    if history == [] then map[]
    else
      var last := history[|history| - 1];
      Register(Replay(history[..|history| - 1]), last.token, last.session)
  }

  /** The session of the last registration under `token`, if any. */
  function LatestFor(history: seq<Registration>, token: Guid): Option<Session>
  {
    if history == [] then None
    else if history[|history| - 1].token == token then Some(history[|history| - 1].session)
    else LatestFor(history[..|history| - 1], token)
  }

  /** A token is in the table exactly when it was ever registered, and it maps
      to the session of its latest registration: later registrations overwrite
      and nothing is ever removed. */
  lemma {:induction false} ReplayFindsLatest(history: seq<Registration>, token: Guid)
    ensures token in Replay(history) <==> LatestFor(history, token).Some?
    ensures token in Replay(history) ==> Replay(history)[token] == LatestFor(history, token).value
  {
    if history != [] {
      ReplayFindsLatest(history[..|history| - 1], token);
    }
  }

  // ---------------------------------------------------------------------------
  // The service
  // ---------------------------------------------------------------------------

  class PowerOfficeGoOnboardingService {
    /** The token-to-session dictionary, shared by all requests. */
    var sessions: map<Guid, Session>
    /** Every registration made so far, oldest first. */
    ghost var registrations: seq<Registration>

    /** `HttpUtility.UrlEncode`, about which nothing is assumed. */
    const urlEncode: string -> string
    /** The textual form a GUID takes in string interpolation. */
    const tokenText: Guid -> string

    ghost predicate Valid()
      reads this
    {
      sessions == Replay(registrations)
    }

    constructor(urlEncode: string -> string, tokenText: Guid -> string)
      ensures Valid()
      ensures sessions == map[] && registrations == []
      ensures this.urlEncode == urlEncode && this.tokenText == tokenText
    {
      sessions := map[];
      registrations := [];
      this.urlEncode := urlEncode;
      this.tokenText := tokenText;
    }

    /** Stores the session under `token` (a fresh GUID in the running system)
      and returns the token. */
    method GetOnboardingSessionToken(subscriptionKey: string, onboardingCompleteRedirectUrl: string, token: Guid)
      returns (t: Guid)
      requires Valid()
      modifies this
      ensures Valid()
      ensures t == token
      ensures sessions == Register(old(sessions), token, Session(subscriptionKey, onboardingCompleteRedirectUrl))
      ensures registrations == old(registrations) + [Registration(token, Session(subscriptionKey, onboardingCompleteRedirectUrl))]
    {
      var session := Session(subscriptionKey, onboardingCompleteRedirectUrl);
      sessions := sessions[token := session];
      registrations := registrations + [Registration(token, session)];
      t := token;
    }

    /** Looks the token up without removing it: the stored session, or an
      unknown-session fault. */
    method CompleteOnboardingSessionToken(onboardingSessionToken: Guid) returns (r: Result<Session, Fault>)
      ensures r.Success? <==> onboardingSessionToken in sessions
      ensures r.Success? ==> r.value == sessions[onboardingSessionToken]
      ensures r.Failure? ==> r.error == UnknownSession(onboardingSessionToken)
    {
      if onboardingSessionToken in sessions {
        r := Success(sessions[onboardingSessionToken]);
      } else {
        r := Failure(UnknownSession(onboardingSessionToken));
      }
    }

    /** Resolves the API for the subscription key (`api` is what resolution
      yields; None stands for null), then registers the session under `token`
      and posts the initiate request with the callback URL naming that token.
      Returns the initiate response unmodified. */
    method BeginOnboarding(
      applicationKey: Guid,
      subscriptionKey: string,
      clientOrgNumber: string,
      apiBaseUrl: string,
      onOnboardingCompleteRedirectUrl: string,
      token: Guid,
      api: Option<InitiateResponse>)
      returns (r: Result<InitiateResponse, Fault>, calls: seq<ApiCall>)
      requires Valid()
      modifies this
      ensures Valid()
      ensures api.None? ==>
        && r == Failure(ApiNotResolved)
        && calls == [ResolveApi(subscriptionKey)]
        && sessions == old(sessions) && registrations == old(registrations)
      ensures api.Some? ==>
        && r == Success(api.value)
        && calls == [ResolveApi(subscriptionKey),
                     InitiatePost(applicationKey, clientOrgNumber, CallbackUrl(apiBaseUrl, tokenText(token)))]
        && sessions == Register(old(sessions), token, Session(subscriptionKey, onOnboardingCompleteRedirectUrl))
        && registrations == old(registrations) + [Registration(token, Session(subscriptionKey, onOnboardingCompleteRedirectUrl))]
    {
      calls := [ResolveApi(subscriptionKey)];
      if api.None? {
        r := Failure(ApiNotResolved);
        return;
      }
      var onboardingSessionToken := GetOnboardingSessionToken(subscriptionKey, onOnboardingCompleteRedirectUrl, token);
      calls := calls + [InitiatePost(applicationKey, clientOrgNumber, CallbackUrl(apiBaseUrl, tokenText(onboardingSessionToken)))];
      r := Success(api.value);
    }

    /** Handles the callback: finds the session (or fails), parses the status,
      turns an unknown or non-Success status into an error redirect, and
      otherwise resolves the API (`api` is what resolution yields, and then
      what the finalize endpoint answers) and redirects with its outcome.
      Nothing in the table changes, so the same token can be finalized again. */
    method FinalizeOnboarding(
      onboardingSessionToken: Guid,
      onboardingToken: Option<string>,
      onboardingStatus: string,
      api: Option<FinalizeResult>)
      returns (r: Result<string, Fault>, calls: seq<ApiCall>)
      // unknown token: a fault, and neither parsing nor any API call
      ensures onboardingSessionToken !in sessions ==>
        r == Failure(UnknownSession(onboardingSessionToken)) && calls == []
      // every redirect goes to the session's URL followed by one separator
      ensures r.Success? ==>
        onboardingSessionToken in sessions
        && UrlWithQuestionMark(sessions[onboardingSessionToken].redirectUrl) <= r.value
      // the API is touched exactly when the session exists and the status is Success
      ensures calls != [] <==>
        onboardingSessionToken in sessions && Status.Parse(onboardingStatus) == Some(Status.OnboardingStatus.Success)
      ensures onboardingSessionToken in sessions ==>
        var session := sessions[onboardingSessionToken];
        && (Status.Parse(onboardingStatus).None? ==>
              r == Success(ErrorRedirectUrl(session.redirectUrl, UNEXPECTED_STATUS_MESSAGE + onboardingStatus, urlEncode)))
        && (Status.Parse(onboardingStatus).Some? && Status.Parse(onboardingStatus).value != Status.OnboardingStatus.Success ==>
              r == Success(ErrorRedirectUrl(session.redirectUrl, FAILURE_STATUS_MESSAGE + Status.Name(Status.Parse(onboardingStatus).value), urlEncode)))
        && (Status.Parse(onboardingStatus) == Some(Status.OnboardingStatus.Success) && api.None? ==>
              r == Failure(ApiNotResolved) && calls == [ResolveApi(session.subscriptionKey)])
        && (Status.Parse(onboardingStatus) == Some(Status.OnboardingStatus.Success) && api.Some? ==>
              && calls == [ResolveApi(session.subscriptionKey), FinalizePost(onboardingToken)]
              && r == Success(
                   match api.value
                   case Ok(response) => SuccessRedirectUrl(session.redirectUrl, response, urlEncode)
                   case Failed(code, raw) =>
                     ErrorRedirectUrl(session.redirectUrl, FINALIZE_FAILURE_MESSAGE + code + ": " + raw, urlEncode)))
    {
      calls := [];
      var found := CompleteOnboardingSessionToken(onboardingSessionToken);
      if found.Failure? {
        r := Failure(found.error);
        return;
      }
      var session := found.value;

      var status := Status.Parse(onboardingStatus);
      if status.None? {
        r := Success(ErrorRedirectUrl(session.redirectUrl, UNEXPECTED_STATUS_MESSAGE + onboardingStatus, urlEncode));
        return;
      }
      if status.value != Status.OnboardingStatus.Success {
        r := Success(ErrorRedirectUrl(session.redirectUrl, FAILURE_STATUS_MESSAGE + Status.Name(status.value), urlEncode));
        return;
      }

      calls := [ResolveApi(session.subscriptionKey)];
      if api.None? {
        r := Failure(ApiNotResolved);
        return;
      }
      calls := calls + [FinalizePost(onboardingToken)];
      match api.value {
        case Ok(response) =>
          r := Success(SuccessRedirectUrl(session.redirectUrl, response, urlEncode));
        case Failed(code, raw) =>
          r := Success(ErrorRedirectUrl(session.redirectUrl, FINALIZE_FAILURE_MESSAGE + code + ": " + raw, urlEncode));
      }
    }
  }

  // ---------------------------------------------------------------------------
  // Consequences across calls
  // ---------------------------------------------------------------------------

  /** On a consistent service, the table holds exactly the tokens ever
      registered, each with its latest session: nothing is ever removed. */
  lemma SessionsAreLatestRegistrations(service: PowerOfficeGoOnboardingService)
    requires service.Valid()
    ensures forall t :: t in service.sessions <==> LatestFor(service.registrations, t).Some?
    ensures forall t :: t in service.sessions ==> service.sessions[t] == LatestFor(service.registrations, t).value
  {
    forall t {
      ReplayFindsLatest(service.registrations, t);
    }
  }

  /** A token just registered is found again with exactly the session stored. */
  method RegisterThenComplete(service: PowerOfficeGoOnboardingService, subscriptionKey: string, redirectUrl: string, token: Guid)
    returns (found: Result<Session, Fault>)
    requires service.Valid()
    modifies service
    ensures service.Valid()
    ensures found == Success(Session(subscriptionKey, redirectUrl))
  {
    var t := service.GetOnboardingSessionToken(subscriptionKey, redirectUrl, token);
    found := service.CompleteOnboardingSessionToken(t);
  }

  /** Finalizing leaves the table as it was, so finalizing the same token a
      second time, with the same callback and API answers, ends the same way. */
  method FinalizeIsRepeatable(
    service: PowerOfficeGoOnboardingService,
    onboardingSessionToken: Guid,
    onboardingToken: Option<string>,
    onboardingStatus: string,
    api: Option<FinalizeResult>)
    returns (first: Result<string, Fault>, firstCalls: seq<ApiCall>, second: Result<string, Fault>, secondCalls: seq<ApiCall>)
    ensures first == second && firstCalls == secondCalls
    ensures onboardingSessionToken in service.sessions ==> first != Failure(UnknownSession(onboardingSessionToken))
  {
    first, firstCalls := service.FinalizeOnboarding(onboardingSessionToken, onboardingToken, onboardingStatus, api);
    second, secondCalls := service.FinalizeOnboarding(onboardingSessionToken, onboardingToken, onboardingStatus, api);
  }
}
