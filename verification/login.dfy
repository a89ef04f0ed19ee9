/**
 * The login screen's submit handler `onLogin` (app/login.tsx): the guard
 * chain over e-mail and password, the login request body, the outcome of the
 * reply (save the session and go to the tabs, or fail with a message), and
 * the handler itself over the screen's state and the session store.
 */
module Login {
  import opened Options
  import opened JsText
  import opened EmailRule
  import opened Validation
  import opened Api
  import opened Session

  const MissingCredentials := "Please enter both email and password"
  const InvalidEmail := "Please enter a valid email address"

  /** The guards of `onLogin`, in the order they run. */
  function Checks(email: string, password: string): seq<Check> {
    [ Check(email != "" && password != "", MissingCredentials),
      Check(IsValidEmail(email), InvalidEmail) ]
  }

  /** The message `onLogin` shows before any request, or `Proceed`. */
  function Validate(email: string, password: string): Verdict {
    if email == "" || password == "" then Reject(MissingCredentials)
    else if !IsValidEmail(email) then Reject(InvalidEmail)
    else Proceed
  }

  /** The handler's guards are the ordered checks, and the first one that fails decides. */
  lemma ValidateIsFirstFailure(email: string, password: string)
    ensures Validate(email, password) == FirstFailure(Checks(email, password))
  {
    var cs := Checks(email, password);
    if Validate(email, password).Reject? {
      EarliestFailureDecides(cs, if !cs[0].passes then 0 else 1);
    }
  }

  /** An empty field stops the handler, whatever the e-mail looks like. */
  lemma EmptyFieldRejected(email: string, password: string)
    requires email == "" || password == ""
    ensures Validate(email, password) == Reject(MissingCredentials)
  {
  }

  /** With both fields filled, the e-mail rule decides. */
  lemma EmailDecides(email: string, password: string)
    requires email != "" && password != ""
    ensures Validate(email, password) == (if IsValidEmail(email) then Proceed else Reject(InvalidEmail))
  {
  }

  /** The JSON body posted to `/login`. */
  datatype LoginBody = LoginBody(email: string, password: string)

  /** The body `onLogin` builds: the trimmed e-mail and the password as typed. */
  function RequestBody(email: string, password: string): LoginBody {
    LoginBody(Trim(email), password)
  }

  /** For credentials that pass validation, the body carries them exactly as typed. */
  lemma AcceptedBodyIsVerbatim(email: string, password: string)
    requires Validate(email, password) == Proceed
    ensures RequestBody(email, password) == LoginBody(email, password)
  {
    ValidEmailIsTrimmed(email);
  }

  /** How a submitted login ends. */
  datatype Outcome = Failed(message: string) | SaveAndGoHome(token: string, user: User, notice: string)

  const LoginFailedTitle := "Login Failed"
  const LoginFailed := "Login failed"
  const NoTokenReceived := "No token received from server"
  const GenericFailure := "Invalid credentials or server error"
  const LoginSuccessful := "Login successful!"

  /** The text the catch block shows for a caught error: `error.message || GenericFailure`. */
  function Surfaced(errorMessage: string): (m: string)
    ensures m != ""
    ensures errorMessage != "" ==> m == errorMessage
    ensures errorMessage == "" ==> m == GenericFailure
  {
    if errorMessage != "" then errorMessage else GenericFailure
  }

  /** `data.user && data.user.token`: the reply carries a user with a non-empty token. */
  predicate HasToken(b: Body) {
    b.user.Some? && Truthy(b.user.value.token)
  }

  /**
   * The outcome of the reply. A non-2xx reply and a 2xx reply without a token
   * throw an error inside the handler; a thrown request throws by itself; the
   * catch block shows the error's message. A 2xx reply with a token saves the
   * session and offers the way to the tabs.
   */
  function OutcomeOf(r: Response): (o: Outcome)
    ensures o.SaveAndGoHome? <==> r.Received? && r.ok && HasToken(r.body)
    ensures o.SaveAndGoHome? ==>
      o.token != "" && o.user == r.body.user.value && o.user.token == Some(o.token) &&
      o.notice == Or(r.body.message, LoginSuccessful)
    ensures o.Failed? ==> o.message != ""
    ensures r.Thrown? ==> o == Failed(Surfaced(r.errorMessage))
    ensures r.Received? && !r.ok ==> o == Failed(Or(r.body.message, LoginFailed))
    ensures r.Received? && r.ok && !HasToken(r.body) ==> o == Failed(NoTokenReceived)
  {
    match r
    case Thrown(e) => Failed(Surfaced(e))
    case Received(ok, body) =>
      if !ok then Failed(Surfaced(Or(body.message, LoginFailed)))
      else if HasToken(body) then SaveAndGoHome(body.user.value.token.value, body.user.value, Or(body.message, LoginSuccessful))
      else Failed(Surfaced(NoTokenReceived))
  }

  /**
   * The catch block's fallback text never stands in for a server's reply: it
   * appears for a reply only if the server sent that very text.
   */
  lemma GenericFailureOnlyForSilentThrow(r: Response)
    requires OutcomeOf(r) == Failed(GenericFailure)
    ensures r.Received? ==> !r.ok && r.body.message == Some(GenericFailure)
  {
  }

  /** The alert shown for an outcome; only a saved session offers the way to the tabs. */
  function AlertFor(o: Outcome): (a: Alert)
    ensures a.onOk.Some? <==> o.SaveAndGoHome?
    ensures a.onOk.Some? ==> a.onOk.value == TabsRoute
    ensures o.Failed? ==> a.title == LoginFailedTitle && a.message == o.message
    ensures o.SaveAndGoHome? ==> a.title == SuccessTitle && a.message == o.notice
  {
    match o
    case Failed(message) => Alert(LoginFailedTitle, message, None)
    case SaveAndGoHome(_, _, notice) => Alert(SuccessTitle, notice, Some(TabsRoute))
  }

  /**
   * The value returned by the save is ignored: a reply with a token leads to the
   * tabs even when the first write throws, and then the storage holds no new
   * session, so a user who was logged out stays logged out.
   */
  lemma SaveFailureStillNavigates(r: Response, m: map<string, string>, serialized: string)
    requires OutcomeOf(r).SaveAndGoHome?
    requires !LoggedIn(m, false)
    ensures AlertFor(OutcomeOf(r)).onOk == Some(TabsRoute)
    ensures !LoggedIn(AfterSave(m, OutcomeOf(r).token, serialized, FirstCallThrows), false)
  {
    var after := AfterSave(m, OutcomeOf(r).token, serialized, FirstCallThrows);
    assert Lookup(after, AuthTokenKey) == Lookup(m, AuthTokenKey);
  }

  /** The `saveAuthData` calls made for an outcome: one exactly when there is a session to save. */
  function SavesFor(o: Outcome): (calls: seq<(string, User)>)
    ensures |calls| == (if o.SaveAndGoHome? then 1 else 0)
    ensures o.SaveAndGoHome? ==> calls[0] == (o.token, o.user)
  {
    if o.SaveAndGoHome? then [(o.token, o.user)] else []
  }

  /** The storage after the handler has dealt with an outcome: saved into, or untouched. */
  function StorageAfter(m: map<string, string>, o: Outcome, c: Codec, fault: Fault): map<string, string> {
    if o.SaveAndGoHome? then AfterSave(m, o.token, c.stringify(o.user), fault) else m
  }

  /** The login screen's state that `onLogin` reads and writes, and the session store it saves to. */
  class LoginScreen {
    var email: string
    var password: string
    var loading: bool
    /** The arguments of the `setLoading` calls, in order. */
    var loadingUpdates: seq<bool>
    /** The bodies posted to `/login`, in order. */
    var requests: seq<LoginBody>
    /** The arguments of the `saveAuthData` calls, in order. */
    var saves: seq<(string, User)>
    /** The alerts shown, in order. */
    var alerts: seq<Alert>
    const store: SessionStore

    constructor (store: SessionStore)
      ensures this.store == store
      ensures email == "" && password == "" && !loading
      ensures loadingUpdates == [] && requests == [] && saves == [] && alerts == []
    {
      this.store := store;
      email, password := "", "";
      loading := false;
      loadingUpdates, requests, saves, alerts := [], [], [], [];
    }

    /**
     * `onLogin`, with `reply` standing for what the request yields, `saveFault`
     * for the storage failure during the save, and `readThrows` for a failure
     * of the token read that follows it (whose result is only logged). The
     * button is replaced by a spinner while `loading`, so the handler only runs
     * when it is false.
     */
    method OnLogin(reply: Response, saveFault: Fault, readThrows: bool)
      requires !loading
      modifies this, store
      ensures email == old(email) && password == old(password) && !loading
      ensures Validate(email, password).Reject? ==>
        alerts == old(alerts) + [Alert(ErrorTitle, Validate(email, password).message, None)] &&
        requests == old(requests) && loadingUpdates == old(loadingUpdates) && saves == old(saves) &&
        store.entries == old(store.entries)
      ensures Validate(email, password).Proceed? ==>
        requests == old(requests) + [RequestBody(email, password)] &&
        loadingUpdates == old(loadingUpdates) + [true, false] &&
        alerts == old(alerts) + [AlertFor(OutcomeOf(reply))] &&
        saves == old(saves) + SavesFor(OutcomeOf(reply)) &&
        store.entries == StorageAfter(old(store.entries), OutcomeOf(reply), store.codec, saveFault)
    {
      var verdict := Validate(email, password);
      if verdict.Reject? {
        alerts := alerts + [Alert(ErrorTitle, verdict.message, None)];
        return;
      }
      Submit(OutcomeOf(reply), saveFault, readThrows);
    }

    /**
     * The part of `onLogin` after the guards, with `outcome` what the reply
     * leads to: raise `loading`, post the body, save the session if the reply
     * carries a token, show the alert, and lower `loading` again whatever
     * happened.
     */
    method Submit(outcome: Outcome, saveFault: Fault, readThrows: bool)
      modifies this, store
      ensures email == old(email) && password == old(password) && !loading
      ensures requests == old(requests) + [RequestBody(email, password)]
      ensures loadingUpdates == old(loadingUpdates) + [true, false]
      ensures alerts == old(alerts) + [AlertFor(outcome)]
      ensures saves == old(saves) + SavesFor(outcome)
      ensures store.entries == StorageAfter(old(store.entries), outcome, store.codec, saveFault)
    {
      Send();
      StoreSession(outcome, saveFault, readThrows);
      Settle(AlertFor(outcome));
      assert loadingUpdates == old(loadingUpdates) + [true] + [false];
    }

    /** `setLoading(true)` and the request to `/login`. */
    method Send()
      modifies this`loading, this`loadingUpdates, this`requests
      ensures loading
      ensures loadingUpdates == old(loadingUpdates) + [true]
      ensures requests == old(requests) + [RequestBody(email, password)]
    {
      loading := true;
      loadingUpdates := loadingUpdates + [true];
      requests := requests + [RequestBody(email, password)];
    }

    /**
     * For an outcome with a token: `saveAuthData(token, user)`, whose result is
     * ignored, then the `getAuthToken()` read whose result is only logged.
     */
    method StoreSession(outcome: Outcome, saveFault: Fault, readThrows: bool)
      modifies this`saves, store
      ensures saves == old(saves) + SavesFor(outcome)
      ensures store.entries == StorageAfter(old(store.entries), outcome, store.codec, saveFault)
    {
      if outcome.SaveAndGoHome? {
        saves := saves + SavesFor(outcome);
        var saved := store.SaveAuthData(outcome.token, outcome.user, saveFault);
        var savedToken := store.GetAuthToken(readThrows);
      }
    }

    /** The alert, then `setLoading(false)` in the `finally` block. */
    method Settle(alert: Alert)
      modifies this`alerts, this`loading, this`loadingUpdates
      ensures alerts == old(alerts) + [alert]
      ensures !loading && loadingUpdates == old(loadingUpdates) + [false]
    {
      alerts := alerts + [alert];
      loading := false;
      loadingUpdates := loadingUpdates + [false];
    }
  }
}
