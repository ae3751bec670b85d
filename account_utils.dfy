/**
 * `AccountUtils`: the account name that joins a user name to a server
 * address and the user name read back from it, the URLs kept for an
 * account, and the restoring of an account's saved cookies into the HTTP
 * state of a client.
 */
module Accounts {
  import opened Wrappers
  import opened Strings
  import opened Http
  import Client

  /** `WEBDAV_PATH_4_0`, the old WebDAV endpoint. */
  const WebdavPath40 := "/remote.php/webdav"

  const AccountNotFoundMessage := "Account not found"

  /**
   * `getBaseUrlForAccount`, given what the account manager keeps under the
   * base URL key of the account.
   */
  function GetBaseUrlForAccount(storedBaseUrl: Option<string>): (r: Outcome<string>)
    ensures r.Threw? <==> storedBaseUrl.None?
    ensures r.Threw? ==> r.exception == AccountNotFound(AccountNotFoundMessage)
    ensures r.Returned? ==> r.value == storedBaseUrl.value
  {
    if storedBaseUrl.None? then Threw(AccountNotFound(AccountNotFoundMessage)) else Returned(storedBaseUrl.value)
  }

  /** `constructFullURLForAccount`, given the same stored base URL. */
  function ConstructFullUrlForAccount(storedBaseUrl: Option<string>): (r: Outcome<string>)
    ensures r.Threw? <==> storedBaseUrl.None?
    ensures r.Threw? ==> r.exception == AccountNotFound(AccountNotFoundMessage)
    ensures r.Returned? ==> StartsWith(r.value, storedBaseUrl.value) && EndsWith(r.value, WebdavPath40)
  {
    if storedBaseUrl.None? then Threw(AccountNotFound(AccountNotFoundMessage))
    else
      var full := storedBaseUrl.value + WebdavPath40;
      assert full[..|storedBaseUrl.value|] == storedBaseUrl.value;
      assert full[|full| - |WebdavPath40|..] == WebdavPath40;
      Returned(full)
  }

  /**
   * The full URL fails exactly when the base URL does, with the same
   * exception, and is the base URL followed by the old WebDAV path.
   */
  lemma FullUrlExtendsBaseUrl(storedBaseUrl: Option<string>)
    ensures var full, base := ConstructFullUrlForAccount(storedBaseUrl), GetBaseUrlForAccount(storedBaseUrl);
      && (full.Threw? <==> base.Threw?)
      && (full.Threw? ==> full.exception == base.exception)
      && (full.Returned? ==>
            StartsWith(full.value, base.value) && EndsWith(full.value, WebdavPath40)
            && |full.value| == |base.value| + |WebdavPath40|)
  {
    if storedBaseUrl.Some? {
      var full := storedBaseUrl.value + WebdavPath40;
      assert full[..|storedBaseUrl.value|] == storedBaseUrl.value;
      assert full[|full| - |WebdavPath40|..] == WebdavPath40;
    }
  }

  /**
   * `getUsernameForAccount`: the account name up to its last '@'; a name
   * without '@' makes `substring` throw, which is caught and gives null.
   */
  function GetUsernameForAccount(accountName: string): (r: Option<string>)
    ensures r.Some? <==> '@' in accountName
    ensures r.Some? ==>
      |r.value| < |accountName| && accountName[..|r.value|] == r.value
      && accountName[|r.value|] == '@' && '@' !in accountName[|r.value| + 1..]
  {
    var at := LastIndexOfChar(accountName, '@');
    if at == -1 then None else Some(accountName[..at])
  }

  /** Android's `Uri.getScheme` is null when the text has no ':' at all. */
  predicate HasScheme(uriText: string) {
    ':' in uriText
  }

  /** An address without a scheme is read as an https one. */
  function WithScheme(uriText: string): string {
    if !HasScheme(uriText) then "https://" + uriText else uriText
  }

  /**
   * `buildAccountName`: the user name, '@', and the address without the
   * text up to and including its first "://".
   */
  function BuildAccountName(serverBaseUrl: string, username: string): (name: string)
    ensures StartsWith(name, username + "@")
  {
    var url := WithScheme(serverBaseUrl);
    var rest := if Contains(url, "://") then url[IndexOf(url, "://") + 3..] else url;
    assert (username + "@" + rest)[..|username| + 1] == username + "@";
    username + "@" + rest
  }

  /** An address without a scheme is kept whole after the '@'. */
  lemma BuildAccountNameWithoutScheme(serverBaseUrl: string, username: string)
    requires !HasScheme(serverBaseUrl)
    ensures BuildAccountName(serverBaseUrl, username) == username + "@" + serverBaseUrl
  {
    var url := "https://" + serverBaseUrl;
    assert OccursAt(url, "://", 5);
    forall j | 0 <= j < 5
      ensures !OccursAt(url, "://", j)
    {
      assert url[j] != ':';
    }
    assert IndexOf(url, "://") == 5;
    assert url[8..] == serverBaseUrl;
  }

  /** An address with a scheme loses the scheme and its "://". */
  lemma BuildAccountNameDropsScheme(scheme: string, rest: string, username: string)
    requires ':' !in scheme
    ensures BuildAccountName(scheme + "://" + rest, username) == username + "@" + rest
  {
    var url := scheme + "://" + rest;
    assert url[|scheme|] == ':';
    assert HasScheme(url);
    assert url[|scheme|..|scheme| + 3] == "://";
    assert OccursAt(url, "://", |scheme|);
    forall j | 0 <= j < |scheme|
      ensures !OccursAt(url, "://", j)
    {
      assert url[j] == scheme[j];
    }
    assert IndexOf(url, "://") == |scheme|;
    assert url[|scheme| + 3..] == rest;
  }

  /** The user name of an account name made of a user name, '@' and a text without '@'. */
  lemma UsernameOfAccountName(username: string, rest: string)
    requires '@' !in rest
    ensures GetUsernameForAccount(username + "@" + rest) == Some(username)
  {
    var name := username + "@" + rest;
    assert name[|username|] == '@';
    assert name[|username| + 1..] == rest;
    assert name[..|username|] == username;
  }

  /**
   * The user name is found again in the account name built from it, unless
   * the server address carries an '@' of its own.
   */
  lemma BuildAccountNameRoundTrip(serverBaseUrl: string, username: string)
    requires '@' !in serverBaseUrl
    ensures GetUsernameForAccount(BuildAccountName(serverBaseUrl, username)) == Some(username)
  {
    var url := WithScheme(serverBaseUrl);
    assert '@' !in url by {
      if !HasScheme(serverBaseUrl) {
        assert forall k | 0 <= k < |url| :: url[k] == ("https://" + serverBaseUrl)[k];
      }
    }
    var rest := if Contains(url, "://") then url[IndexOf(url, "://") + 3..] else url;
    assert '@' !in rest by {
      if Contains(url, "://") {
        assert forall k | 0 <= k < |rest| :: rest[k] == url[IndexOf(url, "://") + 3 + k];
      }
    }
    UsernameOfAccountName(username, rest);
  }

  /**
   * `buildAccountNameOld`: the user name, '@', the host, and ":port" when
   * the address has a port (Android reports -1 otherwise). Reading the
   * host and port out of the address is Android's and comes as parameters.
   */
  function BuildAccountNameOld(serverBaseUrl: string, username: string, hostOf: string -> string, portOf: string -> int)
    : (name: string)
    ensures StartsWith(name, username + "@" + hostOf(WithScheme(serverBaseUrl)))
  {
    var url := WithScheme(serverBaseUrl);
    var accountName := username + "@" + hostOf(url);
    assert (accountName + ":" + IntToString(portOf(url)))[..|accountName|] == accountName;
    if portOf(url) >= 0 then accountName + ":" + IntToString(portOf(url)) else accountName
  }

  /** A decimal port has no '@'. */
  lemma PortTextHasNoAt(port: int)
    requires port >= 0
    ensures '@' !in ":" + IntToString(port)
  {
    var t := NatToString(port);
    assert forall k | 0 <= k < |t| :: t[k] != '@';
  }

  /**
   * The old account name has the port suffix exactly when there is a port,
   * and gives its user name back when the host has no '@'.
   */
  lemma BuildAccountNameOldRoundTrip(serverBaseUrl: string, username: string, hostOf: string -> string, portOf: string -> int)
    ensures var url := WithScheme(serverBaseUrl);
      var name := BuildAccountNameOld(serverBaseUrl, username, hostOf, portOf);
      if portOf(url) >= 0 then name == username + "@" + hostOf(url) + ":" + IntToString(portOf(url))
      else name == username + "@" + hostOf(url)
    ensures '@' !in hostOf(WithScheme(serverBaseUrl)) ==>
      GetUsernameForAccount(BuildAccountNameOld(serverBaseUrl, username, hostOf, portOf)) == Some(username)
  {
    var url := WithScheme(serverBaseUrl);
    var host := hostOf(url);
    if '@' !in host {
      if portOf(url) >= 0 {
        PortTextHasNoAt(portOf(url));
        var rest := host + (":" + IntToString(portOf(url)));
        assert '@' !in rest;
        assert username + "@" + host + ":" + IntToString(portOf(url)) == username + "@" + rest;
        UsernameOfAccountName(username, rest);
      } else {
        UsernameOfAccountName(username, host);
      }
    }
  }

  /**
   * commons-httpclient's `Cookie`, which the older client's `HttpState`
   * holds: the name, value, domain and path that `restoreCookies` sets. The
   * fields it leaves at their defaults are not modelled.
   */
  datatype StateCookie = StateCookie(name: string, value: string, domain: string, path: string)

  /**
   * The cookie one piece of the saved cookie string describes: name before
   * the first '=', value after it, on the server's host and path; nothing
   * when the piece has no '=' (where `substring(0, -1)` throws).
   */
  function CookieOf(piece: string, domain: string, path: string): (r: Option<StateCookie>)
    ensures r.None? <==> '=' !in piece
    ensures r.Some? ==>
      r.value.name + "=" + r.value.value == piece && '=' !in r.value.name
      && r.value.domain == domain && r.value.path == path
  {
    var equalPos := IndexOfChar(piece, '=');
    if equalPos == -1 then None
    else
      assert piece == piece[..equalPos] + "=" + piece[equalPos + 1..];
      Some(StateCookie(piece[..equalPos], piece[equalPos + 1..], domain, path))
  }

  /** What the cookie loop has added, and whether it stopped on a piece without '='. */
  datatype Restoring = Restoring(added: seq<StateCookie>, failed: bool)

  /** The cookie loop over `pieces`, stopping at the first piece without '='. */
  function Restore(pieces: seq<string>, domain: string, path: string): (r: Restoring)
    ensures |r.added| <= |pieces|
    ensures !r.failed ==> |r.added| == |pieces|
  {
    if pieces == [] then Restoring([], false)
    else
      var r := Restore(pieces[..|pieces| - 1], domain, path);
      if r.failed then r
      else
        match CookieOf(pieces[|pieces| - 1], domain, path)
        case None => r.(failed := true)
        case Some(c) => r.(added := r.added + [c])
  }

  /**
   * The loop fails iff some piece has no '='. Without a failure it adds one
   * cookie per piece, in order; with one, it has added exactly the
   * cookies of the pieces before the first piece without '='.
   */
  lemma {:induction false} RestoreMeaning(pieces: seq<string>, domain: string, path: string)
    ensures var r := Restore(pieces, domain, path);
      && (r.failed <==> exists i | 0 <= i < |pieces| :: '=' !in pieces[i])
      && |r.added| <= |pieces|
      && (forall i | 0 <= i < |r.added| :: CookieOf(pieces[i], domain, path) == Some(r.added[i]))
      && (!r.failed ==> |r.added| == |pieces|)
      && (r.failed ==> |r.added| < |pieces| && '=' !in pieces[|r.added|])
  {
    RestoreFails(pieces, domain, path);
    RestoreAdds(pieces, domain, path);
  }

  /** The loop fails iff some piece has no '='. */
  lemma {:induction false} RestoreFails(pieces: seq<string>, domain: string, path: string)
    ensures Restore(pieces, domain, path).failed <==> exists i | 0 <= i < |pieces| :: '=' !in pieces[i]
  {
    if pieces != [] {
      var init := pieces[..|pieces| - 1];
      RestoreFails(init, domain, path);
      if Restore(init, domain, path).failed {
        var i :| 0 <= i < |init| && '=' !in init[i];
        assert pieces[i] == init[i];
      } else {
        assert forall i | 0 <= i < |init| :: pieces[i] == init[i];
      }
    }
  }

  /** The cookies added are those of the first pieces, and a failure sits right after them. */
  lemma RestoreAdds(pieces: seq<string>, domain: string, path: string)
    ensures var r := Restore(pieces, domain, path);
      && |r.added| <= |pieces|
      && (forall i | 0 <= i < |r.added| :: CookieOf(pieces[i], domain, path) == Some(r.added[i]))
      && (!r.failed ==> |r.added| == |pieces|)
      && (r.failed ==> |r.added| < |pieces| && '=' !in pieces[|r.added|])
  {
    RestoreAddsInOrder(pieces, domain, path);
    RestoreStopsAt(pieces, domain, path);
  }

  /** The cookies added are those of the first pieces, in order. */
  lemma {:induction false} RestoreAddsInOrder(pieces: seq<string>, domain: string, path: string)
    ensures var r := Restore(pieces, domain, path);
      forall i | 0 <= i < |r.added| :: CookieOf(pieces[i], domain, path) == Some(r.added[i])
  {
    if pieces != [] {
      var init, last := pieces[..|pieces| - 1], pieces[|pieces| - 1];
      RestoreAddsInOrder(init, domain, path);
      var before, r := Restore(init, domain, path), Restore(pieces, domain, path);
      if !before.failed && CookieOf(last, domain, path).Some? {
        var c := CookieOf(last, domain, path).value;
        assert r.added == before.added + [c];
        forall i | 0 <= i < |r.added|
          ensures CookieOf(pieces[i], domain, path) == Some(r.added[i])
        {
          if i < |before.added| {
            assert pieces[i] == init[i] && r.added[i] == before.added[i];
          }
        }
      } else {
        forall i | 0 <= i < |r.added|
          ensures CookieOf(pieces[i], domain, path) == Some(r.added[i])
        {
          assert pieces[i] == init[i];
        }
      }
    }
  }

  /** A failure sits right after the pieces whose cookies were added. */
  lemma {:induction false} RestoreStopsAt(pieces: seq<string>, domain: string, path: string)
    ensures var r := Restore(pieces, domain, path);
      r.failed ==> |r.added| < |pieces| && '=' !in pieces[|r.added|]
  {
    if pieces != [] {
      var init, last := pieces[..|pieces| - 1], pieces[|pieces| - 1];
      RestoreStopsAt(init, domain, path);
      var before := Restore(init, domain, path);
      if before.failed {
        assert pieces[|before.added|] == init[|before.added|];
      }
    }
  }

  /** `name=value` pairs with no '=' in a name and no ';' anywhere, joined by ';'. */
  function CookiesString(cookies: seq<StateCookie>): string {
    JoinWith(Pairs(cookies), ";")
  }

  function Pairs(cookies: seq<StateCookie>): (r: seq<string>)
    ensures |r| == |cookies|
    ensures forall i | 0 <= i < |r| :: r[i] == cookies[i].name + "=" + cookies[i].value
  {
    if cookies == [] then [] else [cookies[0].name + "=" + cookies[0].value] + Pairs(cookies[1..])
  }

  /** Cookies that can be written into a cookie string and read back. */
  predicate Writable(c: StateCookie) {
    '=' !in c.name && ';' !in c.name && ';' !in c.value
  }

  /** Splitting such a cookie string on ';' gives its pairs back. */
  lemma SplitCookiesString(cookies: seq<StateCookie>)
    requires |cookies| >= 1
    requires forall c | c in cookies :: Writable(c)
    ensures JavaSplit(CookiesString(cookies), ';') == Pairs(cookies)
  {
    var pairs := Pairs(cookies);
    forall i | 0 <= i < |pairs|
      ensures ';' !in pairs[i]
    {
      assert cookies[i] in cookies;
    }
    SplitAllJoin(pairs, ';');
    var s := CookiesString(cookies);
    assert pairs[|pairs| - 1][|cookies[|pairs| - 1].name|] == '=';
    if ';' !in s {
      assert SplitAll(s, ';') == [s];
    }
  }

  /**
   * Restoring a cookie string made of cookies' pairs gives those cookies
   * back, each on the server's host and path.
   */
  lemma RestoreRoundTrip(cookies: seq<StateCookie>, domain: string, path: string)
    requires |cookies| >= 1
    requires forall c | c in cookies :: Writable(c)
    ensures var r := Restore(JavaSplit(CookiesString(cookies), ';'), domain, path);
      !r.failed && r.added == seq(|cookies|, i requires 0 <= i < |cookies| => cookies[i].(domain := domain, path := path))
  {
    SplitCookiesString(cookies);
    var pairs := Pairs(cookies);
    forall i | 0 <= i < |pairs|
      ensures '=' in pairs[i]
    {
      assert pairs[i][|cookies[i].name|] == '=';
    }
    RestoreMeaning(pairs, domain, path);
    var r := Restore(pairs, domain, path);
    forall i | 0 <= i < |cookies|
      ensures r.added[i] == cookies[i].(domain := domain, path := path)
    {
      var c := r.added[i];
      assert CookieOf(pairs[i], domain, path) == Some(c);
      assert cookies[i] in cookies;
      SplitPairUnique(c.name, c.value, cookies[i].name, cookies[i].value);
    }
  }

  /** A pair splits at its first '=' into the name it was made from when the name has no '='. */
  lemma SplitPairUnique(n1: string, v1: string, n2: string, v2: string)
    requires n1 + "=" + v1 == n2 + "=" + v2
    requires '=' !in n1 && '=' !in n2
    ensures n1 == n2 && v1 == v2
  {
    var s := n1 + "=" + v1;
    assert s == n2 + "=" + v2;
    var r := IndexOfChar(s, '=');
    assert s[..|n1|] == n1 && s[|n1|] == '=';
    assert r == |n1|;
    assert s[..|n2|] == n2 && s[|n2|] == '=';
    assert r == |n2|;
    assert n1 == s[..r] == n2;
    assert v1 == s[r + 1..] == v2;
  }

  /** The cookies the commons-httpclient `HttpState` of a client has been given, in order. */
  class HttpState {
    var cookies: seq<StateCookie>

    constructor ()
      ensures cookies == []
    {
      cookies := [];
    }

    /** `addCookie`. */
    method AddCookie(c: StateCookie)
      modifies this
      ensures cookies == old(cookies) + [c]
    {
      cookies := cookies + [c];
    }
  }

  /**
   * `restoreCookies`: the account's saved cookie string (what the account
   * manager keeps under the cookies key, given by `savedCookies`) split on
   * ';', each piece added to the state as a cookie on the host and path of
   * the client's base URI. A piece without '=' throws, after the pieces
   * before it have been added. A null account does nothing.
   */
  method RestoreCookies(account: Option<string>, client: Client.OwnCloudClient, state: HttpState,
                        savedCookies: string -> Option<string>, hostOf: string -> string, pathOf: string -> string)
    returns (thrown: Option<Exception>)
    modifies state
    ensures account.None? || savedCookies(account.value).None? ==> thrown.None? && state.cookies == old(state.cookies)
    ensures account.Some? && savedCookies(account.value).Some? ==>
      var r := Restore(JavaSplit(savedCookies(account.value).value, ';'), hostOf(client.baseUri), pathOf(client.baseUri));
      && state.cookies == old(state.cookies) + r.added
      && (thrown.Some? <==> r.failed)
      && (thrown.Some? ==> thrown.value == StringIndexOutOfBounds)
  {
    thrown := None;
    if account.None? {
      return;
    }
    var serverUri := client.baseUri;
    var cookiesString := savedCookies(account.value);
    if cookiesString.None? {
      return;
    }
    var cookies := JavaSplit(cookiesString.value, ';');
    if |cookies| > 0 {
      thrown := AddCookies(state, cookies, hostOf(serverUri), pathOf(serverUri));
    }
  }

  /** The loop of `restoreCookies` over the pieces of the cookie string. */
  method AddCookies(state: HttpState, cookies: seq<string>, domain: string, path: string) returns (thrown: Option<Exception>)
    modifies state
    ensures var r := Restore(cookies, domain, path);
      && state.cookies == old(state.cookies) + r.added
      && (thrown.Some? <==> r.failed)
      && (thrown.Some? ==> thrown.value == StringIndexOutOfBounds)
  {
    var i := 0;
    while i < |cookies|
      invariant 0 <= i <= |cookies|
      invariant !Restore(cookies[..i], domain, path).failed
      invariant state.cookies == old(state.cookies) + Restore(cookies[..i], domain, path).added
    {
      assert cookies[..i + 1][..i] == cookies[..i];
      var equalPos := IndexOfChar(cookies[i], '=');
      if equalPos == -1 {
        assert Restore(cookies[..i + 1], domain, path).failed;
        RestoreStops(cookies, i, domain, path);
        return Some(StringIndexOutOfBounds);
      }
      var cookie := StateCookie(cookies[i][..equalPos], cookies[i][equalPos + 1..], domain, path);
      state.AddCookie(cookie);
      i := i + 1;
    }
    assert cookies[..i] == cookies;
    return None;
  }

  /** Once the loop has failed, later pieces change nothing. */
  lemma {:induction false} RestoreStops(pieces: seq<string>, i: nat, domain: string, path: string)
    requires i < |pieces| && Restore(pieces[..i + 1], domain, path).failed
    ensures Restore(pieces, domain, path) == Restore(pieces[..i + 1], domain, path)
    decreases |pieces|
  {
    if |pieces| > i + 1 {
      var init := pieces[..|pieces| - 1];
      assert init[..i + 1] == pieces[..i + 1];
      RestoreStops(init, i, domain, path);
    } else {
      assert pieces[..i + 1] == pieces;
    }
  }
}
