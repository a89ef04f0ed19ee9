/**
 * What the screens exchange with the outside world, as values: the parsed
 * reply of the remote service and the alerts shown to the user. The HTTP
 * request itself is not modelled; a handler receives the reply as input.
 */
module Api {
  import opened Options

  /**
   * The `user` object of a reply: its `token` field and the remaining profile
   * fields (name, email, ...), kept as strings.
   */
  datatype User = User(token: Option<string>, fields: map<string, string>)

  /** The parsed JSON body of a reply; `message` and `user` may each be missing. */
  datatype Body = Body(message: Option<string>, user: Option<User>)

  /**
   * What `await fetch(...)` followed by `await res.json()` produces: either one
   * of them throws (no connection, a body that is not JSON) with an error
   * message, or a reply arrives with its `ok` flag (2xx status) and its body.
   */
  datatype Response = Thrown(errorMessage: string) | Received(ok: bool, body: Body)

  /**
   * A call of `Alert.alert(title, message, buttons)`. `onOk` is the route the
   * OK button hands to `router.replace`, if the alert has such a button.
   */
  datatype Alert = Alert(title: string, message: string, onOk: Option<string>)

  const ErrorTitle := "Error"
  const SuccessTitle := "Success"
  const TabsRoute := "/(tabs)"
  const LoginRoute := "/login"
}
