/** The route constants of the callback controller; its single action only
    forwards the query to FinalizeOnboarding and redirects to the result. */
module Controller {

  const CONTROLLER_ROUTE := "PowerOfficeGoOnboarding"
  const ONBOARDING_CALLBACK_ROUTE := "authenticate"
  const ONBOARDING_SESSION_TOKEN_QUERY_PARAM_NAME := "onboardingSessionToken"
}
