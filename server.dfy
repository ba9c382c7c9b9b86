/**
 * A backend server with two independent flags: the administrative one
 * (`available`, set by operators) and the health one (`healthy`, set by the
 * health monitor). Only a server with both flags up serves requests.
 */
module Servers {

  /** What `handleRequest` reports; the Java method prints the reason and returns `Handled?`. */
  datatype Response = Handled | AdministrativelyDown | FailedHealthCheck

  class Server {
    const name: string
    var available: bool
    var healthy: bool

    /** A new server is optimistically both available and healthy. */
    constructor (name: string)
      ensures this.name == name
      ensures available && healthy
    {
      this.name := name;
      available := true;
      healthy := true;
    }

    /** The single source of truth for eligibility: recomputed on every read. */
    predicate Eligible()
      reads this
    {
      available && healthy
    }

    method SetAvailable(isAvailable: bool)
      modifies this`available
      ensures available == isAvailable
      ensures healthy == old(healthy)
    {
      available := isAvailable;
    }

    method SetHealthy(isHealthy: bool)
      modifies this`healthy
      ensures healthy == isHealthy
      ensures available == old(available)
    {
      healthy := isHealthy;
    }

    /**
     * Serves the request iff both flags are up; otherwise names the reason,
     * the administrative one taking precedence. Reads the flags, changes nothing.
     */
    method HandleRequest(request: string) returns (r: Response)
      ensures r == Handled <==> available && healthy
      ensures r == AdministrativelyDown <==> !available
      ensures r == FailedHealthCheck <==> available && !healthy
    {
      if available && healthy {
        r := Handled;
      } else {
        r := if !available then AdministrativelyDown else FailedHealthCheck;
      }
    }
  }
}
