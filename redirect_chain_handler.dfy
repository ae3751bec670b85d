/**
 * `RedirectChainHandler`: an interceptor that records the URL of every request
 * in a call's redirect chain and tells whether the chain mixed secure and
 * plain-text schemes.
 */
module RedirectChain {
  import opened Strings
  import opened Http

  /** The first test of the classification: the URL starts with the https scheme name. */
  predicate UsesHttps(u: string) {
    StartsWith(u, HttpsScheme)
  }

  /** The second test: the URL starts with "http://". */
  predicate UsesHttp(u: string) {
    StartsWith(u, HttpScheme + "://")
  }

  predicate HasHttps(chain: seq<string>) {
    exists i :: 0 <= i < |chain| && UsesHttps(chain[i])
  }

  predicate HasHttp(chain: seq<string>) {
    exists i :: 0 <= i < |chain| && UsesHttp(chain[i])
  }

  /** The chain visited at least one https URL and at least one http URL. */
  predicate MixedSchemes(chain: seq<string>) {
    HasHttps(chain) && HasHttp(chain)
  }

  /** No URL falls in both categories, so the precedence of the https test never matters. */
  lemma SchemesExclusive(u: string)
    ensures !(UsesHttps(u) && UsesHttp(u))
  {
    if UsesHttps(u) {
      assert u[4] == u[..5][4] == 's';
    }
    if UsesHttp(u) {
      assert u[4] == u[..7][4] == ':';
    }
  }

  lemma HasSchemesSubset(x: seq<string>, y: seq<string>)
    requires forall u :: u in x ==> u in y
    ensures HasHttps(x) ==> HasHttps(y)
    ensures HasHttp(x) ==> HasHttp(y)
  {
    if HasHttps(x) {
      var i :| 0 <= i < |x| && UsesHttps(x[i]);
      assert x[i] in x;
      var j :| 0 <= j < |y| && y[j] == x[i];
    }
    if HasHttp(x) {
      var i :| 0 <= i < |x| && UsesHttp(x[i]);
      assert x[i] in x;
      var j :| 0 <= j < |y| && y[j] == x[i];
    }
  }

  /** The flag depends only on which URLs were visited, not on their order or repetition. */
  lemma MixedSchemesOrderIrrelevant(a: seq<string>, b: seq<string>)
    requires forall u :: u in a <==> u in b
    ensures MixedSchemes(a) == MixedSchemes(b)
  {
    HasSchemesSubset(a, b);
    HasSchemesSubset(b, a);
  }

  /** Once the chain is mixed, further hops cannot clear the flag. */
  lemma MixedSchemesMonotone(a: seq<string>, b: seq<string>)
    requires MixedSchemes(a)
    ensures MixedSchemes(a + b)
  {
    var i :| 0 <= i < |a| && UsesHttps(a[i]);
    var j :| 0 <= j < |a| && UsesHttp(a[j]);
    assert (a + b)[i] == a[i] && (a + b)[j] == a[j];
  }

  /** A chain whose URLs all use one scheme is never flagged. */
  lemma SingleSchemeNotMixed(chain: seq<string>)
    requires (forall i :: 0 <= i < |chain| ==> UsesHttps(chain[i])) ||
             (forall i :: 0 <= i < |chain| ==> !UsesHttps(chain[i]))
    ensures !MixedSchemes(chain)
  {
    if HasHttp(chain) {
      var j :| 0 <= j < |chain| && UsesHttp(chain[j]);
      SchemesExclusive(chain[j]);
    }
  }

  class RedirectChainHandler {
    /** `_redirectChain`: the URLs intercepted so far, in call order. */
    var chain: seq<string>

    constructor ()
      ensures chain == []
    {
      chain := [];
    }

    /** `intercept`: records the request URL, then lets the call proceed. */
    method Intercept(url: string)
      modifies this
      ensures chain == old(chain) + [url]
    {
      chain := chain + [url];
    }

    /** Records the URLs of a call's requests one interception at a time. */
    method InterceptAll(urls: seq<string>)
      modifies this
      ensures chain == old(chain) + urls
    {
      var k := 0;
      while k < |urls|
        invariant 0 <= k <= |urls|
        invariant chain == old(chain) + urls[..k]
      {
        Intercept(urls[k]);
        assert urls[..k + 1] == urls[..k] + [urls[k]];
        k := k + 1;
      }
    }

    /** `hasBeenRedirectedUnsecureLocation`. */
    method HasBeenRedirectedUnsecureLocation() returns (r: bool)
      ensures r == MixedSchemes(chain)
    {
      var containsHttpsRequests := false;
      var containsHttpRequests := false;
      var i := 0;
      while i < |chain|
        invariant 0 <= i <= |chain|
        invariant containsHttpsRequests == HasHttps(chain[..i])
        invariant containsHttpRequests == HasHttp(chain[..i])
      {
        var url := chain[i];
        assert chain[..i + 1] == chain[..i] + [url];
        if UsesHttps(url) {
          containsHttpsRequests := true;
          SchemesExclusive(url);
        } else if UsesHttp(url) {
          containsHttpRequests := true;
        }
        i := i + 1;
      }
      assert chain[..i] == chain;
      r := containsHttpRequests && containsHttpsRequests;
    }
  }
}
