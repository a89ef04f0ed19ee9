/**
 * The session store of app/utils/auth.ts: the auth token and the serialized
 * user object, kept under two keys of the device's persistent key-value
 * storage. The storage is a map from keys to strings; each storage call may
 * throw, and the store's operations catch what it throws.
 */
module Session {
  import opened Options
  import opened JsText
  import opened Api

  const AuthTokenKey := "authToken"
  const UserDataKey := "userData"

  /** Which storage call of a two-call operation throws, if any. A call that throws changes nothing. */
  datatype Fault = NoFault | FirstCallThrows | SecondCallThrows

  /**
   * `JSON.stringify` and `JSON.parse` on user objects, which this model does not
   * define; `parse` yields `None` where `JSON.parse` would throw.
   */
  datatype Codec = Codec(stringify: User -> string, parse: string -> Option<User>)

  /** The codec serializes `u` to a non-empty string and parses that string back to `u`. */
  predicate RoundTrips(c: Codec, u: User) {
    c.stringify(u) != "" && c.parse(c.stringify(u)) == Some(u)
  }

  /** `getItem(k)` on a storage holding `m`: the value, or `None` (JavaScript `null`) for a missing key. */
  function Lookup(m: map<string, string>, k: string): (r: Option<string>)
    ensures r.Some? <==> k in m
    ensures r.Some? ==> r.value == m[k]
  {
    if k in m then Some(m[k]) else None
  }

  /** The storage after `saveAuthData(token, user)`, with `serialized` the stringified user. */
  function AfterSave(m: map<string, string>, token: string, serialized: string, fault: Fault): (r: map<string, string>)
    ensures fault == NoFault ==> Lookup(r, AuthTokenKey) == Some(token) && Lookup(r, UserDataKey) == Some(serialized)
    ensures fault == SecondCallThrows ==>
      Lookup(r, AuthTokenKey) == Some(token) && Lookup(r, UserDataKey) == Lookup(m, UserDataKey)
  {
    match fault
    case FirstCallThrows => m
    case SecondCallThrows => m[AuthTokenKey := token]
    case NoFault => m[AuthTokenKey := token][UserDataKey := serialized]
  }

  /** The storage after `logout()`. */
  function AfterLogout(m: map<string, string>, fault: Fault): (r: map<string, string>)
    ensures fault == NoFault ==> Lookup(r, AuthTokenKey) == None && Lookup(r, UserDataKey) == None
    ensures fault == SecondCallThrows ==>
      Lookup(r, AuthTokenKey) == None && Lookup(r, UserDataKey) == Lookup(m, UserDataKey)
  {
    match fault
    case FirstCallThrows => m
    case SecondCallThrows => m - {AuthTokenKey}
    case NoFault => m - {AuthTokenKey, UserDataKey}
  }

  /** A save whose first write throws leaves the storage as it was. */
  lemma FailedSaveChangesNothing(m: map<string, string>, token: string, serialized: string)
    ensures AfterSave(m, token, serialized, FirstCallThrows) == m
  {
  }

  /** A logout whose first removal throws leaves both keys, and all else, in place. */
  lemma FailedLogoutChangesNothing(m: map<string, string>)
    ensures AfterLogout(m, FirstCallThrows) == m
  {
  }

  /** Saving writes no key other than `authToken` and `userData`. */
  lemma SaveTouchesOnlySessionKeys(m: map<string, string>, token: string, serialized: string, fault: Fault, k: string)
    requires k != AuthTokenKey && k != UserDataKey
    ensures Lookup(AfterSave(m, token, serialized, fault), k) == Lookup(m, k)
  {
  }

  /** Logging out removes no key other than `authToken` and `userData`. */
  lemma LogoutTouchesOnlySessionKeys(m: map<string, string>, fault: Fault, k: string)
    requires k != AuthTokenKey && k != UserDataKey
    ensures Lookup(AfterLogout(m, fault), k) == Lookup(m, k)
  {
  }

  /** What `getAuthToken()` returns: the stored token, or `None` if it is missing or the read throws. */
  function ReadToken(m: map<string, string>, readThrows: bool): (r: Option<string>)
    ensures r.Some? <==> !readThrows && AuthTokenKey in m
    ensures r.Some? ==> r.value == m[AuthTokenKey]
  {
    if readThrows then None else Lookup(m, AuthTokenKey)
  }

  /**
   * What `getUserData()` returns: `None` when the read throws, when the stored
   * value is missing or empty (falsy), or when parsing it fails; otherwise the
   * parsed user.
   */
  function ReadUserData(m: map<string, string>, c: Codec, readThrows: bool): (r: Option<User>)
    ensures r.Some? ==> !readThrows && UserDataKey in m && m[UserDataKey] != "" && r == c.parse(m[UserDataKey])
    ensures !readThrows && UserDataKey in m && m[UserDataKey] != "" ==> r == c.parse(m[UserDataKey])
  {
    if readThrows then None
    else
      var stored := Lookup(m, UserDataKey);
      if Truthy(stored) then c.parse(stored.value) else None
  }

  /** What `isLoggedIn()` returns: `!!token`, so an empty token counts as logged out. */
  function LoggedIn(m: map<string, string>, readThrows: bool): (b: bool)
    ensures b <==> !readThrows && AuthTokenKey in m && m[AuthTokenKey] != ""
  {
    Truthy(ReadToken(m, readThrows))
  }

  /** A complete save is read back: the token, and (if the codec round-trips) the user. */
  lemma SaveThenRead(m: map<string, string>, token: string, user: User, c: Codec)
    requires RoundTrips(c, user)
    ensures ReadToken(AfterSave(m, token, c.stringify(user), NoFault), false) == Some(token)
    ensures ReadUserData(AfterSave(m, token, c.stringify(user), NoFault), c, false) == Some(user)
    ensures LoggedIn(AfterSave(m, token, c.stringify(user), NoFault), false) <==> token != ""
  {
    var r := AfterSave(m, token, c.stringify(user), NoFault);
    assert Lookup(r, UserDataKey) == Some(c.stringify(user));
  }

  /**
   * A save whose second write throws leaves the new token next to the previous
   * user data: the two keys now describe different sessions.
   */
  lemma PartialSaveMixesSessions(m: map<string, string>, token: string, serialized: string, c: Codec, readThrows: bool)
    ensures ReadToken(AfterSave(m, token, serialized, SecondCallThrows), false) == Some(token)
    ensures ReadUserData(AfterSave(m, token, serialized, SecondCallThrows), c, readThrows) == ReadUserData(m, c, readThrows)
  {
    var r := AfterSave(m, token, serialized, SecondCallThrows);
    assert Lookup(r, UserDataKey) == Lookup(m, UserDataKey);
  }

  /** After a complete logout nothing is read back and the user is logged out. */
  lemma LogoutClearsSession(m: map<string, string>, c: Codec, readThrows: bool)
    ensures ReadToken(AfterLogout(m, NoFault), readThrows) == None
    ensures ReadUserData(AfterLogout(m, NoFault), c, readThrows) == None
    ensures !LoggedIn(AfterLogout(m, NoFault), readThrows)
  {
    var r := AfterLogout(m, NoFault);
    assert Lookup(r, AuthTokenKey) == None && Lookup(r, UserDataKey) == None;
  }

  /**
   * A logout whose second removal throws logs the user out but leaves the user
   * data behind; one whose first removal throws leaves the session whole.
   */
  lemma PartialLogoutLeavesUserData(m: map<string, string>, c: Codec, readThrows: bool)
    ensures !LoggedIn(AfterLogout(m, SecondCallThrows), readThrows)
    ensures ReadUserData(AfterLogout(m, SecondCallThrows), c, readThrows) == ReadUserData(m, c, readThrows)
    ensures AfterLogout(m, FirstCallThrows) == m
    ensures LoggedIn(AfterLogout(m, FirstCallThrows), readThrows) == LoggedIn(m, readThrows)
    ensures ReadUserData(AfterLogout(m, FirstCallThrows), c, readThrows) == ReadUserData(m, c, readThrows)
  {
    var r := AfterLogout(m, SecondCallThrows);
    assert Lookup(r, AuthTokenKey) == None && Lookup(r, UserDataKey) == Lookup(m, UserDataKey);
    var q := AfterLogout(m, FirstCallThrows);
    assert Lookup(q, AuthTokenKey) == Lookup(m, AuthTokenKey) && Lookup(q, UserDataKey) == Lookup(m, UserDataKey);
  }

  /** The store over the device storage. Only `authToken` and `userData` are ever written. */
  class SessionStore {
    var entries: map<string, string>
    const codec: Codec

    constructor (entries: map<string, string>, codec: Codec)
      ensures this.entries == entries && this.codec == codec
    {
      this.entries := entries;
      this.codec := codec;
    }

    /** `saveAuthData(token, userData)`: two writes in order; a throw stops the sequence and yields false. */
    method SaveAuthData(token: string, user: User, fault: Fault) returns (saved: bool)
      modifies this
      ensures saved <==> fault == NoFault
      ensures entries == AfterSave(old(entries), token, codec.stringify(user), fault)
    {
      if fault == FirstCallThrows {
        return false;
      }
      entries := entries[AuthTokenKey := token];
      if fault == SecondCallThrows {
        return false;
      }
      entries := entries[UserDataKey := codec.stringify(user)];
      return true;
    }

    /** `getAuthToken()` */
    method GetAuthToken(readThrows: bool) returns (token: Option<string>)
      ensures token == ReadToken(entries, readThrows)
    {
      if readThrows {
        return None;
      }
      token := Lookup(entries, AuthTokenKey);
    }

    /** `getUserData()` */
    method GetUserData(readThrows: bool) returns (user: Option<User>)
      ensures user == ReadUserData(entries, codec, readThrows)
    {
      if readThrows {
        return None;
      }
      var stored := Lookup(entries, UserDataKey);
      user := if Truthy(stored) then codec.parse(stored.value) else None;
    }

    /** `isLoggedIn()`: reads the token through `getAuthToken`. */
    method IsLoggedIn(readThrows: bool) returns (loggedIn: bool)
      ensures loggedIn <==> !readThrows && AuthTokenKey in entries && entries[AuthTokenKey] != ""
    {
      var token := GetAuthToken(readThrows);
      loggedIn := Truthy(token);
    }

    /** `logout()`: two removals in order; a throw stops the sequence and is swallowed. */
    method Logout(fault: Fault)
      modifies this
      ensures entries == AfterLogout(old(entries), fault)
    {
      if fault == FirstCallThrows {
        return;
      }
      entries := entries - {AuthTokenKey};
      if fault == SecondCallThrows {
        return;
      }
      entries := entries - {UserDataKey};
    }
  }
}
