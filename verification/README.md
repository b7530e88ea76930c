# PowerOfficeGo V2 onboarding — a Dafny model

This project models the onboarding service of the PowerOfficeGoV2Onboarding
library. A host application begins onboarding a client to its PowerOfficeGo
integration. PowerOfficeGo later redirects the user's browser to the library's
callback, and the library finalizes the onboarding and sends the user back to
the host with either the onboarded clients or an error message.

The model has five modules:

- `Status` (`onboarding_status.dfy`): the closed `OnboardingStatus` enum, its
  name rendering and its parsing by exact, case-sensitive name.
- `Controller` (`onboarding_controller.dfy`): the three route constants from
  which the callback URL is built.
- `Onboarding` (`onboarding_service.dfy`): the redirect URL builders, the
  session table and the class `PowerOfficeGoOnboardingService`.
  - `sessions` is the token-to-session dictionary.
  - `GetOnboardingSessionToken` stores a session by indexer assignment.
  - `CompleteOnboardingSessionToken` looks a token up.
  - `BeginOnboarding` and `FinalizeOnboarding` hold the branch logic.
- `Text` (`text.dfy`): the LINQ projection, `string.Join`, and `Split`.
  `Split` is what a receiver of a comma-separated value does with it.
- `Wrappers` (`wrappers.dfy`): `Option` and `Result`.

The PowerOfficeGo API is not called.
- What API resolution yields is an input to each method, an `Option`
  (`None` is the null that makes the service throw).
- What the finalize endpoint answers is a `FinalizeResult`, either
  `Ok(response)` or `Failed(statusCode, rawContent)`.
- `BeginOnboarding` and `FinalizeOnboarding` return the sequence of
  `ApiCall`s they made, so "no API call happens" can be stated.
- Thrown exceptions are `Fault` values in a `Result`.

`HttpUtility.UrlEncode` and the textual form of a GUID are the class constants
`urlEncode` and `tokenText`, arrow-typed values fixed by the constructor. No
law about either is assumed.

Two points worth knowing when reading the model:

- The name `CompleteOnboardingSessionToken` suggests the token is used up,
  but the code only looks it up (PowerOfficeGoV2OnboardingService.cs:146,
  `TryGetValue` with no removal). A session is therefore not consumed by
  finalizing: the same token can be finalized any number of times, with the
  same outcome (`FinalizeIsRepeatable`), and the table only ever grows
  (`SessionsAreLatestRegistrations`).
- The success redirect writes a `)` after the user's email
  (PowerOfficeGoV2OnboardingService.cs:118). The model reproduces it
  (`SuccessRedirectUrl` ends with `)`), so a receiver reads the email with a
  trailing `)`.

## Model

| member | source | states |
|---|---|---|
| `Status.StatusSetIsClosed` | PowerOfficeGoV2Onboarding/OnboardingStatus.cs:3-10 | every status is one of the five listed, and the five are distinct |
| `Status.Name` | PowerOfficeGoV2Onboarding/OnboardingStatus.cs:5-9 | the rendered name of a status is one of the five member names |
| `Status.Parse` | PowerOfficeGoV2Onboarding/PowerOfficeGoV2OnboardingService.cs:85 | parsing succeeds exactly on the five member names, and then yields the status whose name is the input |
| `Status.ParseName` | PowerOfficeGoV2Onboarding/OnboardingStatus.cs:5-9 | parsing the name of any status gives back that status |
| `Status.NameInjective` | PowerOfficeGoV2Onboarding/OnboardingStatus.cs:5-9 | distinct statuses have distinct names |
| `Text.Select` | PowerOfficeGoV2Onboarding/PowerOfficeGoV2OnboardingService.cs:115-117 | the projection has one entry per client, the i-th being the field of the i-th client |
| `Text.Join` | PowerOfficeGoV2Onboarding/PowerOfficeGoV2OnboardingService.cs:115-117 | `string.Join`: empty for no parts, the part itself for one, otherwise opens with the first part and contains the separator; its inverse on comma-free lists is `Split` (`SplitJoin`) |
| `Text.SplitJoin` | PowerOfficeGoV2Onboarding/PowerOfficeGoV2OnboardingService.cs:115-117 | joining a non-empty list whose entries contain no separator, then splitting at the separator, gives back the list |
| `Onboarding.ClientList` | PowerOfficeGoV2Onboarding/PowerOfficeGoV2OnboardingService.cs:115-117 | the comma-joined projection of one client field: empty without clients, the single client's value for one client, and otherwise led by the first client's value; its partner `ClientListRoundTrip` proves that splitting it at commas gives back one value per client, in client order |
| `Onboarding.ClientListRoundTrip` | PowerOfficeGoV2Onboarding/PowerOfficeGoV2OnboardingService.cs:30-32 | with at least one client and no comma in the field, splitting clientKeys or clientOrganizationNumbers at commas yields one entry per client, in client order |
| `Onboarding.UrlWithQuestionMark` | PowerOfficeGoV2Onboarding/PowerOfficeGoV2OnboardingService.cs:107-108 | the URL followed by exactly one character, `&` if the URL contains `?` and `?` otherwise; the result always contains `?` |
| `Onboarding.ErrorRedirectUrl` | PowerOfficeGoV2Onboarding/PowerOfficeGoV2OnboardingService.cs:110-111 | the base URL and its separator, followed only by `errorMessage=` and the encoded message |
| `Onboarding.SuccessRedirectUrl` | PowerOfficeGoV2Onboarding/PowerOfficeGoV2OnboardingService.cs:113-118 | the base URL and its separator, followed exactly by `clientKeys=` with the joined keys, `&clientNames=` with the encoded joined names, `&clientOrganizationNumbers=` with the joined organization numbers, `&userEmail=` with the email, and the `)` written after it; the last character is `)` |
| `Onboarding.ErrorAndSuccessRedirectsDiffer` | PowerOfficeGoV2Onboarding/PowerOfficeGoV2OnboardingService.cs:110-118 | an error redirect and a success redirect to the same base URL are never equal |
| `Onboarding.CallbackUrl` | PowerOfficeGoV2Onboarding/PowerOfficeGoV2OnboardingService.cs:77 | the callback is `apiBaseUrl + "/PowerOfficeGoOnboarding/authenticate?onboardingSessionToken=" + token` |
| `Onboarding.Register` | PowerOfficeGoV2Onboarding/PowerOfficeGoV2OnboardingService.cs:136 | after assignment the token maps to the new session, overwriting any old one; no key is lost and every other entry is unchanged |
| `Onboarding.ReplayFindsLatest` | PowerOfficeGoV2Onboarding/PowerOfficeGoV2OnboardingService.cs:131-153 | after any sequence of registrations a token is in the table iff it was ever registered, and it maps to the session of its latest registration |
| `Onboarding.SessionsAreLatestRegistrations` | PowerOfficeGoV2Onboarding/PowerOfficeGoV2OnboardingService.cs:131-153 | on a service whose table is consistent, a token is in the table iff it was ever registered, and maps to its latest session: no operation removes a session |
| `Onboarding.PowerOfficeGoOnboardingService.constructor` | PowerOfficeGoV2Onboarding/PowerOfficeGoV2OnboardingService.cs:53-62 | the service starts with an empty session table |
| `Onboarding.PowerOfficeGoOnboardingService.GetOnboardingSessionToken` | PowerOfficeGoV2Onboarding/PowerOfficeGoV2OnboardingService.cs:131-140 | stores (subscription key, redirect URL) under the token by indexer assignment and returns the token; the table stays the replay of all registrations |
| `Onboarding.PowerOfficeGoOnboardingService.CompleteOnboardingSessionToken` | PowerOfficeGoV2Onboarding/PowerOfficeGoV2OnboardingService.cs:142-153 | returns the stored session iff the token is present, and an unknown-session fault otherwise; the table is not changed |
| `Onboarding.PowerOfficeGoOnboardingService.BeginOnboarding` | PowerOfficeGoV2Onboarding/PowerOfficeGoV2OnboardingService.cs:64-79 | unresolved API: fault, only the resolve call, table unchanged. Otherwise: session registered under the token, then the initiate call with the callback naming that token, and the response returned as is |
| `Onboarding.PowerOfficeGoOnboardingService.FinalizeOnboarding` | PowerOfficeGoV2Onboarding/PowerOfficeGoV2OnboardingService.cs:81-105 | unknown token: fault, no API call. Unparseable or non-Success status: an error redirect with the stated message, no API call. Success: resolve, then finalize, then a success or error redirect. The API is called iff the session exists and the status is Success; every redirect starts with the session's URL and one separator |
| `Onboarding.RegisterThenComplete` | PowerOfficeGoV2Onboarding/PowerOfficeGoV2OnboardingService.cs:131-153 | a token just registered is looked up to exactly the session stored |
| `Onboarding.FinalizeIsRepeatable` | PowerOfficeGoV2Onboarding/PowerOfficeGoV2OnboardingService.cs:146 | finalizing the same token twice with the same inputs gives the same redirect and the same API calls; a stored token never yields the unknown-session fault |

## Left out

- Asynchrony, the `lock` statements, cancellation tokens and logging: the model is sequential.
- The API service and its endpoints are inputs, not calls. Exceptions thrown inside the initiate or finalize calls (network faults) are not modelled.
- `Guid.NewGuid`: the new token is a parameter of `GetOnboardingSessionToken` and `BeginOnboarding`. Nothing is assumed about its freshness; an existing entry is simply overwritten.
- `HttpUtility.UrlEncode` and the session token's GUID textual form are uninterpreted arrow-typed constants. A client key (a GUID in the source) enters the model already in its textual form; its rendering is not modelled.
- `Status.Parse`: `Enum.TryParse` also accepts numeric strings, surrounding whitespace and comma-separated combinations of names. The model parses exact, case-sensitive names only.
- The HTTP status code in "Failure while finalizing onboarding: {code}: {raw}" is given as the string it renders to. `HttpStatusCode` formatting is not modelled.
- Null values: a null `OnboardedClientsInformation` (an `ArgumentNullException` from `Select` at lines 115-117) is not modelled, and neither is a null redirect URL (a `NullReferenceException` at line 108). Null interpolated values (the status at line 87, the status code and raw content at line 103, the client fields and the email at lines 115-118) are treated as the empty string interpolation renders them as.
- Exceptions are modelled by their kind (`ApiNotResolved`, `UnknownSession(token)`), not by their message texts.
- `string.Join` is modelled with a one-character separator; the code always passes the one-character string ",".
- The controller's `Authenticate` action only forwards its query to `FinalizeOnboarding` and redirects to the result; only its route constants are modelled. Dependency-injection registration is not part of this model, and neither is `OnboardingResult`, a record the service does not use.
