/** OIDC discovery: the redirect chain that is followed, and where an accepted document comes
    from. */
module Discovery {
  import opened Ascii

  datatype Url = Url(scheme: string, host: string)

  predicate SameHost(a: Url, b: Url) {
    Lower(a.host) == Lower(b.host)
  }

  /** noDiscoveryCrossOriginRedirect. */
  predicate Allowed(prev: Url, next: Url) {
    SameHost(next, prev) && !(prev.scheme == "https" && next.scheme != "https")
  }

  /** The redirects the client follows from `first`: up to the first one that is refused, which
      fails the fetch. */
  method Follow(first: Url, targets: seq<Url>) returns (ok: bool, chain: seq<Url>)
    ensures |chain| > 0 && chain[0] == first && Followed(chain)
    ensures ok ==> chain == [first] + targets
    ensures ok <==> Followed([first] + targets)
  {
    chain := [first];
    for i := 0 to |targets|
      invariant chain == [first] + targets[..i] && Followed(chain)
    {
      ghost var all := [first] + targets;
      assert all[i + 1] == targets[i] && all[i] == chain[i];
      if !Allowed(chain[|chain| - 1], targets[i]) {
        return false, chain;
      }
      chain := chain + [targets[i]];
    }
    assert targets[..|targets|] == targets;
    ok := true;
  }

  predicate Followed(chain: seq<Url>) {
    forall i :: 0 <= i < |chain| - 1 ==> Allowed(chain[i], chain[i + 1])
  }

  lemma SameHostExactly(a: Url, b: Url)
    ensures SameHost(a, b) <==> SameLetters(a.host, b.host)
  {
    SameLowerExactly(a.host, b.host);
  }

  /** Along any followed chain the host is the issuer's, letter case aside, and https is never
      left once reached. */
  lemma {:induction false} ChainStaysHome(chain: seq<Url>, i: nat, j: nat)
    requires Followed(chain) && i <= j < |chain|
    ensures SameHost(chain[i], chain[j]) && (chain[i].scheme == "https" ==> chain[j].scheme == "https")
    decreases j - i
  {
    if i < j {
      assert Allowed(chain[j - 1], chain[j]);
      ChainStaysHome(chain, i, j - 1);
    }
  }

  /** The redirect-by-redirect rule, said of the whole chain: it is followed if and only if every URL is
      on the host of the first, and none after an https one is without it. */
  lemma FollowedExactly(chain: seq<Url>)
    requires |chain| > 0
    ensures Followed(chain) <==>
              && (forall i :: 0 <= i < |chain| ==> SameLetters(chain[0].host, chain[i].host))
              && (forall i, j :: 0 <= i < j < |chain| && chain[i].scheme == "https" ==> chain[j].scheme == "https")
  {
    forall i, j ensures 0 <= i < |chain| && 0 <= j < |chain| ==>
                          (SameHost(chain[i], chain[j]) <==> SameLetters(chain[i].host, chain[j].host))
    {
      if 0 <= i < |chain| && 0 <= j < |chain| {
        SameHostExactly(chain[i], chain[j]);
      }
    }
    if Followed(chain) {
      forall i, j | 0 <= i <= j < |chain|
        ensures SameHost(chain[i], chain[j]) && (chain[i].scheme == "https" ==> chain[j].scheme == "https")
      {
        ChainStaysHome(chain, i, j);
      }
    } else {
      var i :| 0 <= i < |chain| - 1 && !Allowed(chain[i], chain[i + 1]);
      assert SameHost(chain[0], chain[i]) && SameHost(chain[0], chain[i + 1]) ==> SameHost(chain[i + 1], chain[i]);
    }
  }

  datatype Document = Document(endpoints: bool, issuerMatches: bool, jwks: Url, jwksParses: bool)

  /** discoverOIDC's acceptance of what the chain's end served. */
  predicate Accepted(issuer: Url, chain: seq<Url>, d: Document) {
    && |chain| > 0 && chain[0] == issuer && Followed(chain)
    && d.endpoints && d.issuerMatches && d.jwksParses && SameHost(d.jwks, issuer)
  }

  /** A document from an https issuer is accepted if and only if every URL of its chain, the one that
      served it included, is https on the issuer's host, it has its endpoints, names the issuer,
      and the key URL it names parses and is on that host. */
  lemma AcceptedExactly(issuer: Url, chain: seq<Url>, d: Document)
    requires issuer.scheme == "https" && |chain| > 0 && chain[0] == issuer
    ensures Accepted(issuer, chain, d) <==>
              && (forall i :: 0 <= i < |chain| ==>
                    chain[i].scheme == "https" && SameLetters(issuer.host, chain[i].host))
              && d.endpoints && d.issuerMatches && d.jwksParses && SameLetters(d.jwks.host, issuer.host)
  {
    FollowedExactly(chain);
    SameHostExactly(d.jwks, issuer);
    if Followed(chain) {
      forall i | 0 <= i < |chain| ensures chain[i].scheme == "https" {
        ChainStaysHome(chain, 0, i);
      }
    }
  }
}
