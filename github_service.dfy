/**
 * The GitHub service: the decomposition of a pull-request link into
 * organisation, repository and number, and the `PrDetails` record built from
 * the pull request the client returns.
 */
module GithubService {
  import opened Wrappers
  import opened PyText
  import EnvLoader

  /** The `PrDetails` dataclass. `pr.body` is `None` for a pull request without a description. */
  datatype PrDetails = PrDetails(
    orgName: string,
    repoName: string,
    prNumber: int,
    prTitle: string,
    prBody: Option<string>)

  /** What `repo.get_pull(n)` yields that the record keeps. */
  datatype PullRequest = PullRequest(title: string, body: Option<string>)

  /** The exceptions `fetch_pr_details` can raise. */
  datatype FetchError =
    | IndexError                  // fewer than five `/`-separated segments
    | ValueError(literal: string) // the last segment is not an integer literal
    | GithubError(message: string) // the client's lookup of the repository or pull request failed

  datatype PrLocation = PrLocation(org: string, repo: string, number: int)

  /**
   * `split("/")`, then `[3]`, `[4]` and `int([-1])`. Indexing comes first, so
   * a short link is an index error whatever its last segment is. Nothing else
   * is checked: not the host, not a `pull` segment, not the sign of the number.
   */
  function LocatePr(link: string): (r: Result<PrLocation, FetchError>)
    ensures var parts := Split(link, '/');
            && (|parts| < 5 ==> r == Failure(IndexError))
            && (|parts| >= 5 && !IsIntLiteral(parts[|parts| - 1]) ==> r == Failure(ValueError(parts[|parts| - 1])))
            && (r.Success? <==> |parts| >= 5 && IsIntLiteral(parts[|parts| - 1]))
            && (r.Success? ==> && r.value.org == parts[3] && r.value.repo == parts[4]
                               && ParseInt(parts[|parts| - 1]) == Some(r.value.number))
  {
    var parts := Split(link, '/');
    if |parts| < 5 then Failure(IndexError)
    else
      match ParseInt(parts[|parts| - 1])
      case None => Failure(ValueError(parts[|parts| - 1]))
      case Some(n) => Success(PrLocation(parts[3], parts[4], n))
  }

  /**
   * Any link made of at least five separator-free segments whose last is
   * `str(n)` locates segment 3, segment 4 and `n`, whatever the other
   * segments say and whatever the sign of `n`.
   */
  lemma LocateSegments(parts: seq<string>, n: int)
    requires |parts| >= 5 && Separated(parts, '/')
    requires parts[|parts| - 1] == IntToString(n) && WithinStrLimit(n)
    ensures LocatePr(Join(parts, '/')) == Success(PrLocation(parts[3], parts[4], n))
  {
    JoinThenSplit(parts, '/');
    LocateSplit(Join(parts, '/'), parts, n);
  }

  /** A link that splits into at least five segments, the last `str(n)`, locates `n`. */
  lemma LocateSplit(link: string, parts: seq<string>, n: int)
    requires Split(link, '/') == parts && |parts| >= 5
    requires parts[|parts| - 1] == IntToString(n) && WithinStrLimit(n)
    ensures LocatePr(link) == Success(PrLocation(parts[3], parts[4], n))
  {
    ParseIntOfIntToString(n);
  }

  /** The segments of `https://<host>/<org>/<repo>/pull/<digits>`. */
  lemma CanonicalLinkSegments(host: string, org: string, repo: string, digits: string)
    ensures Join(["https:", "", host, org, repo, "pull", digits], '/')
            == "https://" + host + "/" + org + "/" + repo + "/pull/" + digits
  {
    var parts := ["https:", "", host, org, repo, "pull", digits];
    var j5 := "pull" + "/" + digits;
    var j4 := repo + "/" + j5;
    var j3 := org + "/" + j4;
    var j2 := host + "/" + j3;
    var j1 := "" + "/" + j2;
    assert Join(parts[6..], '/') == digits;
    assert Join(parts[5..], '/') == j5;
    assert Join(parts[4..], '/') == j4;
    assert Join(parts[3..], '/') == j3;
    assert Join(parts[2..], '/') == j2;
    assert Join(parts[1..], '/') == j1;
    assert Join(parts, '/') == "https:" + "/" + j1;
  }

  /** `https://<host>/<org>/<repo>/pull/<n>` locates `(org, repo, n)`. */
  lemma LocateCanonicalLink(host: string, org: string, repo: string, n: int)
    requires '/' !in host && '/' !in org && '/' !in repo && WithinStrLimit(n)
    ensures LocatePr("https://" + host + "/" + org + "/" + repo + "/pull/" + IntToString(n))
            == Success(PrLocation(org, repo, n))
  {
    var digits := IntToString(n);
    assert '/' !in digits by {
      assert AllDigits(NatToString(if n < 0 then -n else n));
      if n < 0 { assert digits == "-" + NatToString(-n); }
    }
    var parts := ["https:", "", host, org, repo, "pull", digits];
    assert Separated(parts, '/') by {
      assert '/' !in "https:" && '/' !in "pull";
    }
    CanonicalLinkSegments(host, org, repo, digits);
    LocateSegments(parts, n);
  }

  /** A link with fewer than five segments, such as `https://x/y`, is an index error. */
  lemma ShortLinkIsIndexError()
    ensures LocatePr("https://x/y") == Failure(IndexError)
  {
    var parts := ["https:", "", "x", "y"];
    assert Join(parts, '/') == "https://x/y" by {
      assert Join(parts[3..], '/') == "y";
      assert Join(parts[2..], '/') == "x/y";
      assert Join(parts[1..], '/') == "/x/y";
    }
    JoinThenSplit(parts, '/');
  }

  /** A trailing `/` leaves an empty last segment, which `int()` rejects. */
  lemma TrailingSlashIsValueError(parts: seq<string>)
    requires |parts| >= 4 && Separated(parts, '/')
    ensures LocatePr(Join(parts + [""], '/')) == Failure(ValueError(""))
  {
    var all := parts + [""];
    assert Separated(all, '/') by {
      forall i | 0 <= i < |all| ensures '/' !in all[i] {
        if i < |parts| { assert all[i] == parts[i]; }
      }
    }
    JoinThenSplit(all, '/');
  }

  /**
   * A number of more digits than the conversion limit, such as 4301 ones,
   * is a `ValueError` even though every character is a digit.
   */
  lemma OverlongNumberIsValueError(parts: seq<string>)
    requires |parts| >= 5 && Separated(parts, '/')
    requires AllDigits(parts[|parts| - 1]) && |parts[|parts| - 1]| > MaxStrDigits
    ensures LocatePr(Join(parts, '/')) == Failure(ValueError(parts[|parts| - 1]))
  {
    JoinThenSplit(parts, '/');
  }

  /**
   * `fetch_pr_details(link)`: locate, look the pull request up through the
   * client (`get_repo("org/repo").get_pull(n)`, given here as `lookup`), and
   * record the parsed parts with the title and body.
   */
  function FetchPrDetails(link: string, lookup: (string, int) -> Result<PullRequest, string>): (r: Result<PrDetails, FetchError>)
    ensures LocatePr(link).Failure? ==> r == Failure(LocatePr(link).error)
    ensures LocatePr(link).Success? ==>
              var loc := LocatePr(link).value;
              match lookup(loc.org + "/" + loc.repo, loc.number)
              case Failure(msg) => r == Failure(GithubError(msg))
              case Success(pr) => r == Success(PrDetails(loc.org, loc.repo, loc.number, pr.title, pr.body))
  {
    match LocatePr(link)
    case Failure(e) => Failure(e)
    case Success(loc) =>
      match lookup(loc.org + "/" + loc.repo, loc.number)
      case Failure(msg) => Failure(GithubError(msg))
      case Success(pr) => Success(PrDetails(loc.org, loc.repo, loc.number, pr.title, pr.body))
  }

  /** The record carries exactly the segments and number of the link it was fetched for. */
  lemma FetchedDetailsMatchLink(link: string, lookup: (string, int) -> Result<PullRequest, string>)
    requires FetchPrDetails(link, lookup).Success?
    ensures var d := FetchPrDetails(link, lookup).value;
            var parts := Split(link, '/');
            && |parts| >= 5
            && d.orgName == parts[3] && d.repoName == parts[4]
            && ParseInt(parts[|parts| - 1]) == Some(d.prNumber)
  {
  }

  /** `Auth.Token(token)` asserts that the token is a non-empty string; a missing variable is `None`. */
  predicate AcceptedToken(token: Option<string>) {
    token.Some? && token.value != ""
  }

  /** Why `GithubService()` raised. */
  datatype ClientError =
    | InvalidToken  // the AssertionError of `Auth.Token` on a missing or empty token

  /** The service object: a client made once from the token, and a no-op `authenticate`. */
  class GithubService {
    const token: string
    /** How often `authenticate` has run; the call itself does nothing. */
    ghost var authenticateCalls: nat

    /**
     * The object `GithubService()` builds once the client has accepted the
     * token; `NewGithubService` is the call that can fail.
     */
    constructor (token: string)
      requires token != ""
      ensures this.token == token
      ensures authenticateCalls == 0
    {
      this.token := token;
      authenticateCalls := 0;
    }

    method Authenticate()
      modifies this
      ensures authenticateCalls == old(authenticateCalls) + 1
    {
      authenticateCalls := authenticateCalls + 1;
    }
  }

  /**
   * `GithubService()`: reads GITHUB_TOKEN from the store and builds the
   * client from it, which raises for a missing or empty token.
   */
  method NewGithubService(env: EnvLoader.EnvStore) returns (r: Result<GithubService, ClientError>)
    ensures r.Failure? <==> !AcceptedToken(env.FetchEnvVariable(EnvLoader.GithubToken))
    ensures r.Failure? ==> r.error == InvalidToken
    ensures r.Success? ==>
              && fresh(r.value)
              && env.FetchEnvVariable(EnvLoader.GithubToken) == Some(r.value.token)
              && r.value.authenticateCalls == 0
  {
    var token := env.FetchEnvVariable(EnvLoader.GithubToken);
    if !AcceptedToken(token) {
      return Failure(InvalidToken);
    }
    var service := new GithubService(token.value);
    return Success(service);
  }
}

/** `str(pr_details)`: the dataclass `__repr__` of a `PrDetails` record. */
module PrDetailsText {
  import opened Wrappers
  import opened PyText
  import opened PyRepr
  import opened GithubService

  /** `repr` of the optional body: `None`, or the quoted text. */
  function BodyRepr(body: Option<string>): string {
    match body
    case None => "None"
    case Some(b) => Repr(b)
  }

  /**
   * `str(pr_details)`, the dataclass's generated `repr`: each field as
   * `name=value`, strings quoted and escaped. Written right to left so that
   * each field's text is followed by the rest.
   */
  function DetailsRepr(d: PrDetails): string {
    "PrDetails(org_name=" + (Repr(d.orgName)
    + (", repo_name=" + (Repr(d.repoName)
    + (", pr_number=" + (IntToString(d.prNumber)
    + (", pr_title=" + (Repr(d.prTitle)
    + (", pr_body=" + (BodyRepr(d.prBody) + ")")))))))))
  }

  /** The body's text, followed by the closing parenthesis, gives the body back. */
  lemma BodyReprPrefixFree(a: Option<string>, b: Option<string>, x: string, y: string)
    requires BodyRepr(a) + x == BodyRepr(b) + y
    ensures a == b && x == y
  {
    BodyReprStart(a, x);
    BodyReprStart(b, y);
    if a.None? && b.None? {
      SamePrefixRest("None", x, y);
    } else if a.Some? && b.Some? {
      ReprPrefixFree(a.value, b.value, x, y);
    }
  }

  /** Only the text of an absent body starts with `N`; a present one starts with a quote. */
  lemma BodyReprStart(body: Option<string>, x: string)
    ensures (BodyRepr(body) + x)[0] == 'N' <==> body.None?
  {
    if body.Some? {
      assert (BodyRepr(body) + x)[0] == ReprQuote(body.value);
    }
  }

  /** Distinct records print differently: the text determines every field. */
  lemma DetailsReprInjective(a: PrDetails, b: PrDetails)
    requires DetailsRepr(a) == DetailsRepr(b)
    ensures a == b
  {
    var a5, b5 := ", pr_body=" + (BodyRepr(a.prBody) + ")"), ", pr_body=" + (BodyRepr(b.prBody) + ")");
    var a4, b4 := ", pr_title=" + (Repr(a.prTitle) + a5), ", pr_title=" + (Repr(b.prTitle) + b5);
    var a3, b3 := ", pr_number=" + (IntToString(a.prNumber) + a4), ", pr_number=" + (IntToString(b.prNumber) + b4);
    var a2, b2 := ", repo_name=" + (Repr(a.repoName) + a3), ", repo_name=" + (Repr(b.repoName) + b3);
    SamePrefixRest("PrDetails(org_name=", Repr(a.orgName) + a2, Repr(b.orgName) + b2);
    ReprPrefixFree(a.orgName, b.orgName, a2, b2);
    SamePrefixRest(", repo_name=", Repr(a.repoName) + a3, Repr(b.repoName) + b3);
    ReprPrefixFree(a.repoName, b.repoName, a3, b3);
    SamePrefixRest(", pr_number=", IntToString(a.prNumber) + a4, IntToString(b.prNumber) + b4);
    assert a4[0] == ',' && b4[0] == ',';
    IntToStringPrefixFree(a.prNumber, b.prNumber, a4, b4);
    SamePrefixRest(", pr_title=", Repr(a.prTitle) + a5, Repr(b.prTitle) + b5);
    ReprPrefixFree(a.prTitle, b.prTitle, a5, b5);
    SamePrefixRest(", pr_body=", BodyRepr(a.prBody) + ")", BodyRepr(b.prBody) + ")");
    BodyReprPrefixFree(a.prBody, b.prBody, ")", ")");
  }
}
