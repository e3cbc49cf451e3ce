/**
 * server.js: the bot's web server as far as its own logic goes — the base
 * URL it advertises, the table of short-lived access tokens, the token and
 * permission gate in front of every page, and the flags that serialise
 * restarts. The HTTP stack, timers and random token bytes are outside the model.
 */
module WebServer {
  import opened Wrappers
  import opened JsText
  import opened Utils

  /** `config.serverport`, which the config may give as a number or as text. */
  datatype Port = PortNumber(n: nat) | PortText(s: string)

  /** The port as a template literal renders it. */
  function PortString(port: Port): string {
    match port
    case PortNumber(n) => NatToString(n)
    case PortText(s) => s
  }

  /** The protocol: https only for the number 443 (strict equality, so not for the text "443"). */
  function Protocol(port: Port): string {
    if port == PortNumber(443) then "https" else "http"
  }

  /** The base URL of the Server constructor. */
  function ServerUrl(host: string, port: Port): string {
    var protocol := Protocol(port);
    protocol + "://" + host + (if protocol == "http" && port != PortNumber(80) then ":" + PortString(port) else "") + "/"
  }

  /** What a token records; the expiry timer is not modelled. */
  datatype TokenData = TokenData(expiration: int, permission: Option<string>, room: string, user: string)

  /** A page: the permission its tokens must carry, and whether a token is optional. */
  datatype Page = Page(permission: Option<string>, optionalToken: bool)

  /** A JavaScript string is truthy when it is present and not empty. */
  predicate Truthy(s: Option<string>) {
    s.Some? && s.value != ""
  }

  /** `this.permission && !options.optionalToken` */
  predicate TokenRequired(page: Page) {
    Truthy(page.permission) && !page.optionalToken
  }

  /** A request as the gate sees it. */
  datatype Request = Request(isPost: bool, hasBody: bool, url: string)

  /** How `resolve` ends: one of the two error replies, or the page rendered (after onPost when `posted`). */
  datatype Resolution =
    | InvalidToken
    | TokenMissing
    | Rendered(token: Option<TokenData>, posted: bool)

  /** The token in the query string, when there is a non-empty one. */
  function QueryToken(url: string): Option<string> {
    var query := QueryOf(url);
    if "token" in query && query["token"] != "" then Some(query["token"]) else None
  }

  /** Page.resolve, over the token table as it stands. */
  function Resolve(page: Page, req: Request, tokens: map<string, TokenData>): Resolution {
    var token := QueryToken(req.url);
    if token.Some? then
      if token.value !in tokens || tokens[token.value].permission != page.permission then InvalidToken
      else Rendered(Some(tokens[token.value]), req.isPost && req.hasBody)
    else if TokenRequired(page) then TokenMissing
    else Rendered(None, false)
  }

  /** The restart flags. */
  datatype RestartFlags = RestartFlags(isRestarting: bool, restartPending: bool)

  datatype RestartOutcome = Queued | NoServer | Closing

  /** restart(): queue behind a restart in progress, refuse without a server, or start closing. */
  function RestartStep(f: RestartFlags, hasServer: bool): (RestartOutcome, RestartFlags) {
    if f.isRestarting then (Queued, f.(restartPending := true))
    else if !hasServer then (NoServer, f)
    else (Closing, f.(isRestarting := true))
  }

  /** The close callback: the restart is over, and one queued restart, if any, starts now. */
  function ClosedStep(f: RestartFlags, hasServer: bool): RestartFlags {
    var g := f.(isRestarting := false);
    if g.restartPending then RestartStep(g.(restartPending := false), hasServer).1 else g
  }

  /** `n` more restart calls in a row. */
  function Restarts(f: RestartFlags, hasServer: bool, n: nat): RestartFlags {
    if n == 0 then f else RestartStep(Restarts(f, hasServer, n - 1), hasServer).1
  }

  class Server {
    const url: string
    /** Whether init() created a server: not when https is asked for without SSL files. */
    const hasServer: bool
    var accessTokens: map<string, TokenData>
    var isRestarting: bool
    var restartPending: bool

    function Flags(): RestartFlags
      reads this
    {
      RestartFlags(isRestarting, restartPending)
    }

    constructor (host: string, port: Port, sslConfigured: bool)
      ensures url == ServerUrl(host, port)
      ensures hasServer == (Protocol(port) == "http" || sslConfigured)
      ensures accessTokens == map[] && !isRestarting && !restartPending
    {
      url := ServerUrl(host, port);
      hasServer := Protocol(port) == "http" || sslConfigured;
      accessTokens := map[];
      isRestarting := false;
      restartPending := false;
    }

    method Restart() returns (outcome: RestartOutcome)
      modifies this
      ensures (outcome, Flags()) == RestartStep(old(Flags()), hasServer)
      ensures accessTokens == old(accessTokens)
    {
      if isRestarting {
        restartPending := true;
        return Queued;
      }
      if !hasServer {
        return NoServer;
      }
      isRestarting := true;
      outcome := Closing;
    }

    /** The callback given to close(): init() runs again with the same configuration. */
    method OnClosed()
      modifies this
      ensures Flags() == ClosedStep(old(Flags()), hasServer)
      ensures accessTokens == old(accessTokens)
    {
      isRestarting := false;
      if restartPending {
        restartPending := false;
        var _ := Restart();
      }
    }

    /** createAccessToken, with the random token given; the record expires after `mins` minutes. */
    method CreateAccessToken(permission: string, roomid: string, userid: string, mins: int, token: string)
      returns (issued: string)
      modifies this
      ensures issued == token
      ensures accessTokens == old(accessTokens)[token := TokenData(mins * 60000, Some(permission), roomid, userid)]
      ensures Flags() == old(Flags())
    {
      var data := TokenData(mins * 1000 * 60, Some(permission), roomid, userid);
      accessTokens := accessTokens[token := data];
      issued := token;
    }

    /** getAccessToken: the record, or None for `false`. */
    method GetAccessToken(token: string) returns (data: Option<TokenData>)
      ensures token in accessTokens ==> data == Some(accessTokens[token])
      ensures token !in accessTokens ==> data == None
    {
      if token in accessTokens {
        return Some(accessTokens[token]);
      }
      return None;
    }

    /** removeAccessToken: true iff the token was there; every other token stays. */
    method RemoveAccessToken(token: string) returns (removed: bool)
      modifies this
      ensures removed <==> token in old(accessTokens)
      ensures accessTokens == old(accessTokens) - {token}
      ensures Flags() == old(Flags())
    {
      if token in accessTokens {
        accessTokens := accessTokens - {token};
        return true;
      }
      return false;
    }
  }

  /** The URL is https exactly for port 443, and names the port unless it is 443 or 80. */
  lemma {:induction false} UrlShape(host: string, port: Port)
    ensures port == PortNumber(443) ==> ServerUrl(host, port) == "https://" + host + "/"
    ensures port == PortNumber(80) ==> ServerUrl(host, port) == "http://" + host + "/"
    ensures port != PortNumber(443) && port != PortNumber(80) ==>
      ServerUrl(host, port) == "http://" + host + ":" + PortString(port) + "/"
    ensures ServerUrl(host, port)[..5] == "https" <==> port == PortNumber(443)
  {
    var u := ServerUrl(host, port);
    if port == PortNumber(443) {
      assert u == "https" + ("://" + host + "/");
    } else {
      assert u[4] == ':';
    }
  }

  /** Strict equality: the port given as the text "443" is served over http, with the port in the URL. */
  lemma PortAsTextIsHttp(host: string)
    ensures ServerUrl(host, PortText("443")) == "http://" + host + ":443/"
  {
  }

  /** A page with a permission and no optional token is closed to a request without a token. */
  lemma {:induction false} GateRequiresToken(page: Page, req: Request, tokens: map<string, TokenData>)
    requires QueryToken(req.url).None?
    ensures Resolve(page, req, tokens) == (if TokenRequired(page) then TokenMissing else Rendered(None, false))
  {
  }

  /**
   * A token gets a request through only when it is in the table with the
   * page's own permission, and onPost runs only for a POST with a body
   * behind such a token.
   */
  lemma {:induction false} GateChecksToken(page: Page, req: Request, tokens: map<string, TokenData>)
    ensures var r := Resolve(page, req, tokens);
      && (r.Rendered? && r.token.Some? <==>
            var t := QueryToken(req.url);
            t.Some? && t.value in tokens && tokens[t.value].permission == page.permission)
      && (r.Rendered? && r.posted <==>
            var t := QueryToken(req.url);
            t.Some? && t.value in tokens && tokens[t.value].permission == page.permission
            && req.isPost && req.hasBody)
      && (r.Rendered? && r.token.Some? ==> r.token.value == tokens[QueryToken(req.url).value])
  {
  }

  /** A token that was created opens its page until it is removed; removing one token leaves the others. */
  lemma {:induction false} TokenLifecycle(tokens: map<string, TokenData>, token: string, data: TokenData,
                                          page: Page, req: Request, other: string)
    requires QueryToken(req.url) == Some(token) && data.permission == page.permission
    ensures Resolve(page, req, tokens[token := data]).Rendered?
    ensures Resolve(page, req, tokens[token := data] - {token}) == InvalidToken
    ensures other != token ==> (other in tokens - {token} <==> other in tokens)
  {
  }

  /**
   * Restarts asked for while one is in progress collapse into one: after
   * any number of them, the close callback starts exactly one more restart.
   */
  lemma {:induction false} QueuedRestartsCollapse(hasServer: bool, n: nat)
    requires hasServer && n >= 1
    ensures Restarts(RestartFlags(true, false), hasServer, n) == RestartFlags(true, true)
    ensures ClosedStep(Restarts(RestartFlags(true, false), hasServer, n), hasServer) == RestartFlags(true, false)
  {
    if n > 1 {
      QueuedRestartsCollapse(hasServer, n - 1);
    }
  }

  /** Without a server, restart changes nothing and reports false. */
  lemma {:induction false} NoServerNoRestart(f: RestartFlags)
    requires !f.isRestarting
    ensures RestartStep(f, false) == (NoServer, f)
  {
  }
}
