/**
 * The in-memory cookie store behind `HttpClient`'s cookie jar: one list of
 * cookies per host, shared by every client, replaced wholesale whenever a
 * response for that host delivers cookies.
 */
module Cookies {
  import opened Wrappers

  /**
   * okhttp's `Cookie`: every field that its `equals` compares, so two values
   * of this type are equal exactly when okhttp counts the cookies equal.
   */
  datatype Cookie = Cookie(name: string, value: string, expiresAt: int, domain: string, path: string,
                           secure: bool, httpOnly: bool, persistent: bool, hostOnly: bool)

  predicate NoDuplicates(cs: seq<Cookie>) {
    forall i, j :: 0 <= i < j < |cs| ==> cs[i] != cs[j]
  }

  /**
   * The duplicate-free list built from a `HashSet` of the cookies. The set's
   * iteration order is not specified; this model keeps first occurrences in
   * order, and the contract promises only the set and the absence of duplicates.
   */
  function Dedup(cs: seq<Cookie>): (r: seq<Cookie>)
    ensures forall c :: c in r <==> c in cs
    ensures NoDuplicates(r)
    ensures |r| <= |cs|
  {
    if cs == [] then []
    else
      var rest := Dedup(cs[..|cs| - 1]);
      var last := cs[|cs| - 1];
      assert cs == cs[..|cs| - 1] + [last];
      if last in rest then rest else rest + [last]
  }

  /** The store after `saveFromResponse(url, cookies)` for a URL on `host`. */
  function Saved(store: map<string, seq<Cookie>>, host: string, cookies: seq<Cookie>): map<string, seq<Cookie>> {
    store[host := Dedup(cookies)]
  }

  /** What `loadForRequest` returns for a URL on `host`. */
  function Loaded(store: map<string, seq<Cookie>>, host: string): seq<Cookie> {
    if host in store then store[host] else []
  }

  /** Loading after saving gives back exactly the saved cookies, each once. */
  lemma LoadSaved(store: map<string, seq<Cookie>>, host: string, cookies: seq<Cookie>)
    ensures forall c :: c in Loaded(Saved(store, host, cookies), host) <==> c in cookies
    ensures NoDuplicates(Loaded(Saved(store, host, cookies), host))
  {
  }

  /** Saving for one host leaves every other host's cookies as they were. */
  lemma LoadSavedOtherHost(store: map<string, seq<Cookie>>, host: string, other: string, cookies: seq<Cookie>)
    requires other != host
    ensures Loaded(Saved(store, host, cookies), other) == Loaded(store, other)
  {
  }

  /** A later save for a host replaces the earlier one entirely. */
  lemma SaveReplaces(store: map<string, seq<Cookie>>, host: string, first: seq<Cookie>, second: seq<Cookie>)
    ensures Saved(Saved(store, host, first), host, second) == Saved(store, host, second)
  {
  }

  /** `sCookieStore`. */
  class CookieStore {
    var store: map<string, seq<Cookie>>

    constructor ()
      ensures store == map[]
    {
      store := map[];
    }

    /** `saveFromResponse`: the host's list becomes the duplicate-free cookies. */
    method SaveFromResponse(host: string, cookies: seq<Cookie>)
      modifies this
      ensures store == Saved(old(store), host, cookies)
    {
      var nonDuplicated := Dedup(cookies);
      store := store[host := nonDuplicated];
    }

    /** `loadForRequest`: the stored list, or an empty list for an unknown host. */
    method LoadForRequest(host: string) returns (r: seq<Cookie>)
      ensures r == Loaded(store, host)
      ensures host !in store ==> r == []
    {
      if host in store {
        r := store[host];
      } else {
        r := [];
      }
    }

    /** `getCookiesFromUrl`: the stored list, or null for an unknown host. */
    method GetCookiesFromUrl(host: string) returns (r: Option<seq<Cookie>>)
      ensures r.None? <==> host !in store
      ensures r.Some? ==> r.value == store[host]
    {
      if host in store {
        r := Some(store[host]);
      } else {
        r := None;
      }
    }

    /** `clearCookies`: forgets every host. */
    method Clear()
      modifies this
      ensures store == map[]
      ensures forall h :: Loaded(store, h) == []
    {
      store := map[];
    }
  }
}
