/**
 * Concrete sessions against fixed oracles: the status sequences of the
 * authentication probe loop, and the order of the guards of `api_request`.
 */
module ConnectionScenario {
  import opened Wrappers
  import opened Exceptions
  import opened Connection
  import Constants

  const Router: string := "192.168.0.1"
  const Credentials: string := "YWRtaW46YWRtaW4="

  /** Statuses [200]: authenticated after one probe. */
  method AuthFirstProbe() returns (probes: nat, authenticated: bool, r: Outcome<Error>)
    ensures probes == 1 && authenticated && r == Pass
  {
    var t := new Transport((n: nat, q: Request) => Response(200, ""));
    var c := new ArcherConnection(Router, t);
    r := c.AuthenticateBasicAuth(Credentials);
    probes := |t.sent|;
    authenticated := c.isAuthenticated;
  }

  /** Statuses [403, 200]: authenticated after the second probe. */
  method AuthSecondProbe() returns (probes: nat, authenticated: bool, r: Outcome<Error>)
    ensures probes == 2 && authenticated && r == Pass
  {
    var t := new Transport((n: nat, q: Request) => Response(if n == 0 then 403 else 200, ""));
    var c := new ArcherConnection(Router, t);
    r := c.AuthenticateBasicAuth(Credentials);
    probes := |t.sent|;
    authenticated := c.isAuthenticated;
  }

  /** Statuses [403, 403]: two probes, then `AuthError`, the headers installed all the same. */
  method AuthRefused() returns (probes: nat, authenticated: bool, headers: Option<Headers>, r: Outcome<Error>)
    ensures probes == 2 && !authenticated && r == Fail(AuthError)
    ensures headers == Some(Headers("http://" + Router + "/", "Authorization=Basic " + Credentials))
  {
    var t := new Transport((n: nat, q: Request) => Response(403, ""));
    var c := new ArcherConnection(Router, t);
    r := c.AuthenticateBasicAuth(Credentials);
    probes := |t.sent|;
    authenticated := c.isAuthenticated;
    headers := c.headers;
  }

  /**
   * A second authentication of an authenticated session sends no probe and
   * succeeds, although the router would now refuse every request.
   */
  method AuthAgain() returns (probes: nat, r: Outcome<Error>)
    ensures probes == 1 && r == Pass
  {
    var t := new Transport((n: nat, q: Request) => Response(if n == 0 then 200 else 403, ""));
    var c := new ArcherConnection(Router, t);
    var first := c.AuthenticateBasicAuth(Credentials);
    r := c.AuthenticateBasicAuth("d3Jvbmc6d3Jvbmc=");
    probes := |t.sent|;
  }

  /**
   * The guards of `api_request`: `AuthError` before anything is sent, then
   * `ValueError` for an unknown request type, then `RequestError` for a
   * refused request; nothing is sent for the first two.
   */
  method GuardOrder() returns (unauthenticated: Result<Response, Error>, badType: Result<Response, Error>,
      refused: Result<Response, Error>, sentBefore: nat, sentAfter: nat)
    ensures unauthenticated == Err(AuthError) && badType == Err(ValueError) && refused == Err(RequestError)
    ensures sentBefore == 1 && sentAfter == 2
  {
    var t := new Transport((n: nat, q: Request) => Response(if n == 0 then 200 else 500, "[error]0"));
    var c := new ArcherConnection(Router, t);
    unauthenticated := c.ApiRequest("post", Constants.StatsUrl, Some(Constants.StatsQuery));
    var auth := c.AuthenticateBasicAuth(Credentials);
    badType := c.ApiRequest("put", Constants.StatsUrl, Some(Constants.StatsQuery));
    sentBefore := |t.sent|;
    refused := c.ApiRequest("post", Constants.StatsUrl, Some(Constants.StatsQuery));
    sentAfter := |t.sent|;
  }

  /** Toggling a lease changes its flag after a 200, and leaves it alone after a refused request. */
  method ToggleScenario(identifier: string) returns (accepted: Outcome<Error>, enabledAfterAccept: bool,
      rejected: Outcome<Error>, enabledAfterReject: bool)
    ensures accepted == Pass && enabledAfterAccept
    ensures rejected == Fail(RequestError) && enabledAfterAccept == enabledAfterReject
  {
    var lease := new Models.DhcpLease(identifier, None, None, false);
    var t := new Transport((n: nat, q: Request) => Response(if n <= 1 then 200 else 500, ""));
    var c := new ArcherConnection(Router, t);
    var auth := c.AuthenticateBasicAuth(Credentials);
    accepted := c.EnableDhcpLease(lease);
    enabledAfterAccept := lease.isEnabled;
    rejected := c.DisableDhcpLease(lease);
    enabledAfterReject := lease.isEnabled;
  }
}
