/**
 * The application shell: the CORS origin rule, the response for unmatched
 * routes and the global error handler. The environment (production or not,
 * the configured origin) is a parameter.
 */
module App {
  import opened Common

  /* ---------------------------------------------------------------------- */
  /* CORS                                                                   */
  /* ---------------------------------------------------------------------- */

  const LocalhostPrefix: string := "http://localhost:"
  const DefaultCorsOrigin: string := "http://localhost:5173"

  /** `^http://localhost:\d+$`. */
  predicate IsLocalhostOrigin(origin: string)
  {
    && |origin| > |LocalhostPrefix|
    && origin[..|LocalhostPrefix|] == LocalhostPrefix
    && forall i :: |LocalhostPrefix| <= i < |origin| ==> IsDigit(origin[i])
  }

  /** `process.env.CORS_ORIGIN || 'http://localhost:5173'`; None is an unset variable. */
  function AllowedOrigin(corsOrigin: Option<string>): (o: string)
    ensures corsOrigin.Some? && corsOrigin.value != "" ==> o == corsOrigin.value
    ensures corsOrigin.None? || corsOrigin.value == "" ==> o == DefaultCorsOrigin
  {
    if corsOrigin.Some? then OrElse(corsOrigin.value, DefaultCorsOrigin) else DefaultCorsOrigin
  }

  /** The origin callback: no origin, then any local port outside production, then the configured origin. */
  predicate CorsAllows(origin: Option<string>, production: bool, corsOrigin: Option<string>)
  {
    if origin.None? || origin.value == "" then true
    else if !production && IsLocalhostOrigin(origin.value) then true
    else origin.value == AllowedOrigin(corsOrigin)
  }

  /** Every port of localhost is an allowed origin outside production. */
  lemma DevelopmentAllowsLocalPorts(port: string, corsOrigin: Option<string>)
    requires port != [] && forall i :: 0 <= i < |port| ==> IsDigit(port[i])
    ensures CorsAllows(Some(LocalhostPrefix + port), false, corsOrigin)
  {
    var o := LocalhostPrefix + port;
    assert o[..|LocalhostPrefix|] == LocalhostPrefix;
    assert forall i :: |LocalhostPrefix| <= i < |o| ==> o[i] == port[i - |LocalhostPrefix|];
  }

  /** In production only the configured origin is allowed, so another localhost port is refused. */
  lemma ProductionAllowsOnlyConfigured(origin: string, corsOrigin: Option<string>)
    requires origin != ""
    ensures CorsAllows(Some(origin), true, corsOrigin) <==> origin == AllowedOrigin(corsOrigin)
    ensures corsOrigin.None? && origin == LocalhostPrefix + "3000" ==> !CorsAllows(Some(origin), true, corsOrigin)
  {
    if corsOrigin.None? && origin == LocalhostPrefix + "3000" {
      assert origin[17] == '3' && DefaultCorsOrigin[17] == '5';
    }
  }

  /** Whatever production allows, development allows too. */
  lemma ProductionIsStricter(origin: Option<string>, corsOrigin: Option<string>)
    ensures CorsAllows(origin, true, corsOrigin) ==> CorsAllows(origin, false, corsOrigin)
  {
  }

  /** The default origin is itself a localhost origin. */
  lemma DefaultOriginIsLocal()
    ensures IsLocalhostOrigin(DefaultCorsOrigin)
  {
    assert DefaultCorsOrigin == LocalhostPrefix + "5173";
    DevelopmentAllowsLocalPorts("5173", None);
  }

  /* ---------------------------------------------------------------------- */
  /* Error responses                                                        */
  /* ---------------------------------------------------------------------- */

  /** An error reaching the global handler; a zero status and an empty code are absent. */
  datatype AppError = AppError(status: nat, code: string, message: string, stack: string)

  /** The JSON error body; `stack` is present only outside production. */
  datatype ErrorResponse = ErrorResponse(status: nat, code: string, message: string, stack: Option<string>)

  /** The response of a request no route matched. */
  const NotFound: ErrorResponse := ErrorResponse(404, "NOT_FOUND", "The requested resource was not found", None)

  const HiddenMessage: string := "An internal server error occurred"

  /** The global error handler. */
  function HandleError(err: AppError, production: bool): (r: ErrorResponse)
    ensures r.status == (if err.status != 0 then err.status else 500)
    ensures r.code == OrElse(err.code, "SERVER_ERROR")
    ensures production ==> r.message == HiddenMessage && r.stack.None?
    ensures !production ==> r.message == err.message && r.stack == Some(err.stack)
  {
    ErrorResponse(if err.status != 0 then err.status else 500, OrElse(err.code, "SERVER_ERROR"),
                  if production then HiddenMessage else err.message,
                  if production then None else Some(err.stack))
  }

  /** In production the response reveals nothing of the error beyond its status and code. */
  lemma ProductionHidesDetails(e1: AppError, e2: AppError)
    requires e1.status == e2.status && e1.code == e2.code
    ensures HandleError(e1, true) == HandleError(e2, true)
  {
  }
}
