/**
 * How the backend's one database entry point, `neo4j_run`, fails: every
 * failure of the driver leaves it as an HTTPException whose status tells
 * the kind of failure. The driver itself is outside the model.
 */
module BackendDb {
  import opened Strings

  /**
   * Why a database call failed: there was no driver and reconnecting did
   * not help, or the driver raised one of these exceptions with its text.
   */
  datatype DbFailure =
    | NoDriver
    | ServiceUnavailable(message: string)
    | AuthError(message: string)
    | TransientError(message: string)
    | OtherError(message: string)

  /** An HTTPException: the status it answers with and its detail. */
  datatype HttpException = HttpException(status: int, detail: string)

  const NoDriverDetail := "Neo4j driver is not initialized. Please check the connection."

  /**
   * The HTTPException `neo4j_run` raises: 503 when there is no driver or
   * the service is unavailable or in a transient error, 401 when the
   * credentials are refused, 500 for anything else; the driver's message
   * closes the detail.
   */
  function RunError(f: DbFailure): (e: HttpException)
    ensures e.status == 503 || e.status == 401 || e.status == 500
    ensures e.status == 503 <==> f.NoDriver? || f.ServiceUnavailable? || f.TransientError?
    ensures e.status == 401 <==> f.AuthError?
    ensures e.status == 500 <==> f.OtherError?
    ensures f.NoDriver? ==> e.detail == NoDriverDetail
    ensures !f.NoDriver? ==> EndsWith(e.detail, f.message) && |e.detail| > |f.message|
  {
    match f
    case NoDriver => HttpException(503, NoDriverDetail)
    case ServiceUnavailable(m) => HttpException(503, "Neo4j service unavailable: " + m)
    case AuthError(m) => HttpException(401, "Neo4j authentication failed: " + m)
    case TransientError(m) => HttpException(503, "Neo4j transient error: " + m)
    case OtherError(m) => HttpException(500, "Neo4j query error: " + m)
  }

  /** Starlette's `str()` of an HTTPException: `"{status_code}: {detail}"`. */
  function ExceptionText(e: HttpException): string {
    IntToString(e.status) + ": " + e.detail
  }
}
