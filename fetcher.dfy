/**
 * `httpGet` and `gatherMetrics`: one GET of `<url>/v2/apps`, optionally with
 * HTTP basic authentication, classified into a message that carries either
 * the response body or an error, and raced against a timer.
 *
 * The HTTP client is not modelled: the request is a function parameter
 * `send` from the URL and the authentication to what the client's `End()`
 * returns. Whether the reply or the timer wins the race is a parameter too.
 */
module Fetcher {
  import opened Wrappers
  import opened Strings

  /** The message `httpGet` sends on its channel: a body, or an error (nil is `None`). */
  datatype Msg = Msg(response: string, err: Option<string>)

  /** The authentication attached to the request. */
  datatype Auth = NoAuth | BasicAuth(username: string, password: string)

  /**
   * What the client's `End()` returns: the list of errors (nil is `None`; a
   * non-nil empty list is `Some([])`), the response's status code and status
   * text, and the body.
   */
  datatype HttpResult = HttpResult(errs: Option<seq<string>>, statusCode: int, status: string, body: string)

  const CredentialsError := "Cannot parse basic auth credentials"
  const StatusErrorPrefix := "HTTP response code: "

  /**
   * The credential check of `httpGet`. Empty credentials mean no
   * authentication. Otherwise the string is split on EVERY colon: the user
   * is the first field and the password the second, so "u:p:x" gives the
   * password "p"; an empty user or password is an error. Credentials with
   * no colon at all make the exporter panic on the second field, hence the
   * requires.
   */
  function CheckCredentials(creds: string): (r: Result<Auth, string>)
    requires creds == "" || ':' in creds
    ensures creds == "" <==> r == Success(NoAuth)
    ensures r.Failure? ==> r.error == CredentialsError
    ensures r.Success? && r.value.BasicAuth? ==>
      var user, pass := r.value.username, r.value.password;
      var n := |user| + 1 + |pass|;
      && user != "" && pass != "" && ':' !in user && ':' !in pass
      && n <= |creds| && creds[..n] == user + ":" + pass
      && (n == |creds| || creds[n] == ':')
    ensures var c := Split(creds, ':');
      creds != "" && |c| >= 2 ==> (r.Success? <==> c[0] != "" && c[1] != "")
  {
    if creds == "" then Success(NoAuth)
    else
      var c := Split(creds, ':');
      SplitFirstTwo(creds, ':');
      var username, password := c[0], c[1];
      if username == "" || password == "" then Failure(CredentialsError)
      else Success(BasicAuth(username, password))
  }

  /**
   * Classifies what the client returned: any error list gives an error made
   * of the messages joined by ", "; otherwise status code 200 gives the body;
   * any other code gives an error naming the status text.
   */
  function Classify(res: HttpResult): (msg: Msg)
    ensures msg.err.None? <==> res.errs.None? && res.statusCode == 200
    ensures msg.err.None? ==> msg.response == res.body
    ensures msg.err.Some? ==> msg.response == ""
  {
    if res.errs.Some? then Msg("", Some(Join(res.errs.value, ", ")))
    else if res.statusCode == 200 then Msg(res.body, None)
    else Msg("", Some(StatusErrorPrefix + res.status))
  }

  /** The message `httpGet` sends, as a function of the credentials and of the request. */
  function Fetch(url: string, creds: string, send: (string, Auth) -> HttpResult): (msg: Msg)
    requires creds == "" || ':' in creds
    ensures CheckCredentials(creds).Failure? ==> msg == Msg("", Some(CredentialsError))
    ensures msg.err.Some? ==> msg.response == ""
  {
    match CheckCredentials(creds)
    case Failure(e) => Msg("", Some(e))
    case Success(auth) => Classify(send(url, auth))
  }

  /**
   * `httpGet`, step by step: check the credentials, send the request, copy
   * the error messages into a list, then fill in the message.
   */
  method HttpGet(url: string, creds: string, send: (string, Auth) -> HttpResult) returns (msg: Msg)
    requires creds == "" || ':' in creds
    ensures msg == Fetch(url, creds, send)
  {
    msg := Msg("", None);
    var auth := NoAuth;
    if creds != "" {
      var c := Split(creds, ':');
      SplitFirstTwo(creds, ':');
      var username := c[0];
      var password := c[1];
      if username == "" || password == "" {
        msg := msg.(err := Some(CredentialsError));
        return;
      }
      auth := BasicAuth(username, password);
    }
    var res := send(url, auth);
    if res.errs.Some? {
      var errs := res.errs.value;
      var errsStr: seq<string> := [];
      for i := 0 to |errs|
        invariant errsStr == errs[..i]
      {
        errsStr := errsStr + [errs[i]];
      }
      assert errs[..|errs|] == errs;
      msg := msg.(err := Some(Join(errsStr, ", ")));
      return;
    }
    if res.statusCode == 200 {
      msg := msg.(response := res.body);
    } else {
      msg := msg.(err := Some(StatusErrorPrefix + res.status));
    }
  }

  /** Which case of the `select` in `gatherMetrics` is ready first. */
  datatype Race = ReplyFirst | TimerFirst

  /**
   * `gatherMetrics`: the body when the message arrives before the timer and
   * carries no error, and "" otherwise (the error or the timeout is only
   * logged).
   */
  function GatherMetrics(marathonURL: string, creds: string, send: (string, Auth) -> HttpResult, race: Race): string
    requires creds == "" || ':' in creds
  {
    match race
    case TimerFirst => ""
    case ReplyFirst =>
      var msg := Fetch(marathonURL + "/v2/apps", creds, send);
      if msg.err.None? then msg.response else ""
  }

  // ---------------------------------------------------------------------
  // Properties

  /**
   * The credentials are decided by their first two colon-separated fields:
   * any string with a colon is `user + ":" + pass + rest` with no colon in
   * `user` or `pass` and `rest` empty or starting with a colon.
   */
  lemma CredentialsFields(user: string, pass: string, rest: string)
    requires ':' !in user && ':' !in pass
    requires rest == "" || rest[0] == ':'
    ensures CheckCredentials(user + ":" + pass + rest) ==
      if user == "" || pass == "" then Failure(CredentialsError) else Success(BasicAuth(user, pass))
  {
    var creds := user + ":" + pass + rest;
    assert creds == user + [':'] + (pass + rest);
    SplitAtFirst(user, pass + rest, ':');
    if rest == "" {
      assert pass + rest == pass;
      SplitWithoutSeparator(pass, ':');
    } else {
      assert pass + rest == pass + [':'] + rest[1..];
      SplitAtFirst(pass, rest[1..], ':');
    }
  }

  /** The password is the second field, not the rest after the first colon. */
  lemma CredentialsAccepted()
    ensures CheckCredentials("user:pw") == Success(BasicAuth("user", "pw"))
    ensures CheckCredentials("u:p:x") == Success(BasicAuth("u", "p"))
  {
    assert "user:pw" == "user" + ":" + "pw" + "";
    CredentialsFields("user", "pw", "");
    assert "u:p:x" == "u" + ":" + "p" + ":x";
    CredentialsFields("u", "p", ":x");
  }

  /** An empty user or an empty password is rejected. */
  lemma CredentialsRejected()
    ensures CheckCredentials("user:") == Failure(CredentialsError)
    ensures CheckCredentials(":pw") == Failure(CredentialsError)
    ensures CheckCredentials("u::x") == Failure(CredentialsError)
  {
    CredentialsFields("user", "", "");
    assert "u::x" == "u" + ":" + "" + ":x";
    CredentialsFields("u", "", ":x");
  }

  /**
   * A message carries either a body or an error: an error comes with an
   * empty response, and no error means status 200 with the body as response.
   */
  lemma FetchIsExclusive(url: string, creds: string, send: (string, Auth) -> HttpResult)
    requires creds == "" || ':' in creds
    ensures var msg := Fetch(url, creds, send);
      && (msg.err.Some? ==> msg.response == "")
      && (msg.err.None? <==>
            CheckCredentials(creds).Success? && send(url, CheckCredentials(creds).value).errs.None?
            && send(url, CheckCredentials(creds).value).statusCode == 200)
      && (msg.err.None? ==> msg.response == send(url, CheckCredentials(creds).value).body)
  {
  }

  /** Rejected credentials give the parse error whatever the server would have answered: no request is made. */
  lemma RejectedCredentialsSendNothing(url: string, creds: string,
                                       send1: (string, Auth) -> HttpResult, send2: (string, Auth) -> HttpResult)
    requires creds == "" || ':' in creds
    requires CheckCredentials(creds).Failure?
    ensures Fetch(url, creds, send1) == Fetch(url, creds, send2) == Msg("", Some(CredentialsError))
  {
  }

  /** The errors of a failed request: every message, in order, separated by ", ". */
  lemma TransportErrors(url: string, creds: string, send: (string, Auth) -> HttpResult)
    requires creds == "" || ':' in creds
    requires CheckCredentials(creds).Success?
    requires send(url, CheckCredentials(creds).value).errs.Some?
    ensures Fetch(url, creds, send).err == Some(Join(send(url, CheckCredentials(creds).value).errs.value, ", "))
  {
  }

  /** A status other than 200 without transport errors gives an error naming the status text. */
  lemma StatusError(url: string, creds: string, send: (string, Auth) -> HttpResult)
    requires creds == "" || ':' in creds
    requires CheckCredentials(creds).Success?
    requires var res := send(url, CheckCredentials(creds).value); res.errs.None? && res.statusCode != 200
    ensures Fetch(url, creds, send) ==
      Msg("", Some(StatusErrorPrefix + send(url, CheckCredentials(creds).value).status))
  {
  }

  /**
   * `gatherMetrics` yields text only when the reply beat the timer, the
   * credentials were accepted, the request raised no error and the status was
   * 200; the text is then the body of the reply to `<url>/v2/apps`.
   */
  lemma GatherMetricsSuccess(marathonURL: string, creds: string, send: (string, Auth) -> HttpResult, race: Race)
    requires creds == "" || ':' in creds
    ensures race == TimerFirst ==> GatherMetrics(marathonURL, creds, send, race) == ""
    ensures GatherMetrics(marathonURL, creds, send, race) != "" ==>
      && race == ReplyFirst
      && CheckCredentials(creds).Success?
      && var res := send(marathonURL + "/v2/apps", CheckCredentials(creds).value);
         res.errs.None? && res.statusCode == 200 && GatherMetrics(marathonURL, creds, send, race) == res.body
    ensures race == ReplyFirst && CheckCredentials(creds).Success? ==>
      var res := send(marathonURL + "/v2/apps", CheckCredentials(creds).value);
      res.errs.None? && res.statusCode == 200 ==> GatherMetrics(marathonURL, creds, send, race) == res.body
  {
  }
}
