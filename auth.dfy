/** The login check and the browser session (lib/auth.ts). The session is two
    entries of the browser's key-value store: `auth_token` and `auth_expiry`,
    the expiry time in milliseconds written as decimal text. */
module Auth {
  import opened Common
  import opened Text
  import opened LocalStorage

  const ValidUsername: string := "yaz"
  const ValidPassword: string := "0306$$"
  const Salt: string := "tiendita_barrazas_2024"

  const TokenKey: string := "auth_token"
  const ExpiryKey: string := "auth_expiry"
  /** 24 hours in milliseconds. */
  const SessionLength: int := 24 * 60 * 60 * 1000

  // ---------------------------------------------------------------------------
  // verifyCredentials

  /** The digest is a parameter: `hash(s)` is the hex SHA-256 digest of `s`,
      None when the digest call fails. */
  ghost predicate Injective(hash: string -> Option<string>)
  {
    forall a, b :: hash(a).Some? && hash(a) == hash(b) ==> a == b
  }

  /** `verifyCredentials(username, password)` */
  function VerifyCredentials(username: string, password: string, hash: string -> Option<string>): bool
  {
    if Trim(username) != ValidUsername then false
    else if Trim(password) == ValidPassword then true
    else
      var given, valid := hash(password + Salt), hash(ValidPassword + Salt);
      given.Some? && valid.Some? && given.value == valid.value
  }

  /** A wrong user name is refused whatever the password and the digest. */
  lemma WrongUserRefused(username: string, password: string, hash: string -> Option<string>)
    requires Trim(username) != ValidUsername
    ensures !VerifyCredentials(username, password, hash)
  {
  }

  /** The right user name with the password, blanks around either ignored, is
      accepted without computing a digest. */
  lemma RightCredentialsAccepted(username: string, password: string, hash: string -> Option<string>)
    requires Trim(username) == ValidUsername && Trim(password) == ValidPassword
    ensures VerifyCredentials(username, password, hash)
  {
  }

  /** With a digest that tells texts apart, the digest comparison accepts
      nothing more: a login succeeds exactly when the trimmed user name and the
      trimmed password are the valid ones. */
  lemma AcceptedIffValid(username: string, password: string, hash: string -> Option<string>)
    requires Injective(hash)
    ensures VerifyCredentials(username, password, hash) <==> Trim(username) == ValidUsername && Trim(password) == ValidPassword
  {
    if Trim(username) == ValidUsername && Trim(password) != ValidPassword {
      var given, valid := hash(password + Salt), hash(ValidPassword + Salt);
      if given.Some? && valid.Some? && given.value == valid.value {
        assert password + Salt == ValidPassword + Salt;
        assert password == (password + Salt)[..|password|];
        assert |password| == |ValidPassword|;
        assert password == ValidPassword;
        TrimOfTrimmed(ValidPassword);
        assert false;
      }
    }
  }

  // ---------------------------------------------------------------------------
  // the session

  /** `localStorage.getItem(key)` read as a condition: absent and "" are both false. */
  function Present(entries: map<string, string>, key: string): bool
  {
    key in entries && entries[key] != ""
  }

  /** `Date.now() > parseInt(expiry, 10)`: an expiry that does not parse is NaN,
      and no time is after NaN. */
  predicate Expired(expiry: string, now: int)
  {
    ParseInt(expiry).Some? && now > ParseInt(expiry).value
  }

  /** What `isAuthenticated()` answers at time `now`. */
  predicate Authenticated(entries: map<string, string>, now: int)
  {
    Present(entries, TokenKey) && Present(entries, ExpiryKey) && !Expired(entries[ExpiryKey], now)
  }

  /** What the store holds after `isAuthenticated()`: both keys are dropped
      when the session has expired. */
  function AfterCheck(entries: map<string, string>, now: int): map<string, string>
  {
    if Present(entries, TokenKey) && Present(entries, ExpiryKey) && Expired(entries[ExpiryKey], now)
    then entries - {TokenKey} - {ExpiryKey}
    else entries
  }

  /** The token text before its base-64 encoding: the user name and the time. */
  function TokenText(now: int): string
  {
    ValidUsername + ":" + IntToString(now)
  }

  /** The store after `setAuthenticated()` at time `now`. */
  function SignedIn(entries: map<string, string>, now: int): map<string, string>
  {
    entries[TokenKey := TokenText(now)][ExpiryKey := IntToString(now + SessionLength)]
  }

  /** `isAuthenticated()` at time `now`; `store == null` is a page without a window. */
  method IsAuthenticated(store: KeyValueStore?, now: int) returns (ok: bool)
    modifies store
    ensures store == null ==> !ok
    ensures store != null ==> ok == Authenticated(old(store.entries), now)
    ensures store != null ==> store.entries == AfterCheck(old(store.entries), now)
  {
    if store == null {
      return false;
    }
    var token := store.GetItem(TokenKey);
    var expiry := store.GetItem(ExpiryKey);
    if token.None? || token.value == "" || expiry.None? || expiry.value == "" {
      return false;
    }
    var expiryTime := ParseInt(expiry.value);
    if expiryTime.Some? && now > expiryTime.value {
      store.RemoveItem(TokenKey);
      store.RemoveItem(ExpiryKey);
      return false;
    }
    ok := true;
  }

  /** `setAuthenticated()` at time `now`. */
  method SetAuthenticated(store: KeyValueStore?, now: int)
    modifies store
    ensures store != null ==> store.entries == SignedIn(old(store.entries), now)
  {
    if store == null {
      return;
    }
    store.SetItem(TokenKey, TokenText(now));
    store.SetItem(ExpiryKey, IntToString(now + SessionLength));
  }

  /** `logout()` */
  method Logout(store: KeyValueStore?)
    modifies store
    ensures store != null ==> store.entries == old(store.entries) - {TokenKey} - {ExpiryKey}
  {
    if store == null {
      return;
    }
    store.RemoveItem(TokenKey);
    store.RemoveItem(ExpiryKey);
  }

  /** A session opened at `t` holds, and is left in place, at every check up to
      `t` plus 24 hours. */
  lemma SessionLasts(entries: map<string, string>, t: int, now: int)
    requires now <= t + SessionLength
    ensures Authenticated(SignedIn(entries, t), now)
    ensures AfterCheck(SignedIn(entries, t), now) == SignedIn(entries, t)
  {
    ParseIntOfToString(t + SessionLength);
    TextsNonEmpty(t);
  }

  /** After 24 hours the check fails and removes both keys. */
  lemma SessionExpires(entries: map<string, string>, t: int, now: int)
    requires now > t + SessionLength
    ensures !Authenticated(SignedIn(entries, t), now)
    ensures var after := AfterCheck(SignedIn(entries, t), now);
            TokenKey !in after && ExpiryKey !in after && !Authenticated(after, now)
  {
    ParseIntOfToString(t + SessionLength);
    TextsNonEmpty(t);
    TextsNonEmpty(t + SessionLength);
  }

  /** After `logout()` no check succeeds. */
  lemma LoggedOut(entries: map<string, string>, now: int)
    ensures !Authenticated(entries - {TokenKey} - {ExpiryKey}, now)
  {
  }

  /** A missing or empty key fails the check and changes nothing. */
  lemma MissingKeyRefused(entries: map<string, string>, now: int)
    requires !Present(entries, TokenKey) || !Present(entries, ExpiryKey)
    ensures !Authenticated(entries, now) && AfterCheck(entries, now) == entries
  {
  }

  /** Both keys present and the expiry not yet passed: the check succeeds and
      leaves the store as it was. */
  lemma LiveSessionKept(entries: map<string, string>, now: int)
    requires Present(entries, TokenKey) && Present(entries, ExpiryKey)
    requires ParseInt(entries[ExpiryKey]).Some? && now <= ParseInt(entries[ExpiryKey]).value
    ensures Authenticated(entries, now) && AfterCheck(entries, now) == entries
  {
  }

  /** A passed expiry fails the check and removes both keys, whatever else the
      store holds. */
  lemma PassedExpiryRemoved(entries: map<string, string>, now: int)
    requires Present(entries, TokenKey) && Present(entries, ExpiryKey)
    requires ParseInt(entries[ExpiryKey]).Some? && now > ParseInt(entries[ExpiryKey]).value
    ensures !Authenticated(entries, now)
    ensures AfterCheck(entries, now) == entries - {TokenKey, ExpiryKey}
  {
    assert entries - {TokenKey} - {ExpiryKey} == entries - {TokenKey, ExpiryKey};
  }

  /** An expiry that does not parse never expires. */
  lemma UnparsableExpiryNeverExpires(entries: map<string, string>, now: int)
    requires Present(entries, TokenKey) && Present(entries, ExpiryKey)
    requires ParseInt(entries[ExpiryKey]).None?
    ensures Authenticated(entries, now) && AfterCheck(entries, now) == entries
  {
  }

  /** The written texts are never empty. */
  lemma TextsNonEmpty(n: int)
    ensures IntToString(n) != "" && TokenText(n) != ""
  {
  }
}
