/**
 * The memoising service registry: a dict from service names to service
 * objects, filled on first request and never emptied (no lock is taken).
 */
module Providers {
  import opened Wrappers
  import EnvLoader
  import GithubService
  import OpenAiService

  const GithubKey := "github"
  const OpenaiKey := "openai"

  /** An entry of `_services`, tagged with the class of the object it holds. */
  datatype Service =
    | GithubEntry(github: GithubService.GithubService)
    | OpenAIEntry(openai: OpenAiService.OpenAIService)

  /** Every entry of `before` is still in `after`, unchanged. */
  ghost predicate Grows(before: map<string, Service>, after: map<string, Service>) {
    forall k | k in before :: k in after && after[k] == before[k]
  }

  class ServiceRegistry {
    var services: map<string, Service>

    /** Each name holds an object of the class its getter returns. */
    ghost predicate Valid()
      reads this
    {
      && (GithubKey in services ==> services[GithubKey].GithubEntry?)
      && (OpenaiKey in services ==> services[OpenaiKey].OpenAIEntry?)
    }

    constructor ()
      ensures Valid() && services == map[]
    {
      services := map[];
    }

    /**
     * `get_github_service()`: on first use construct, authenticate once and
     * store; afterwards return the stored object without constructing. A
     * construction that raises stores nothing, so the next call tries again.
     */
    method GetGithubService(env: EnvLoader.EnvStore) returns (r: Result<GithubService.GithubService, GithubService.ClientError>)
      requires Valid()
      modifies this
      ensures Valid() && Grows(old(services), services)
      ensures r.Success? ==> GithubKey in services && services[GithubKey] == GithubEntry(r.value)
      ensures GithubKey in old(services) ==> r.Success? && services == old(services)
      ensures GithubKey !in old(services) && !GithubService.AcceptedToken(env.FetchEnvVariable(EnvLoader.GithubToken)) ==>
                r == Failure(GithubService.InvalidToken) && services == old(services)
      ensures GithubKey !in old(services) && GithubService.AcceptedToken(env.FetchEnvVariable(EnvLoader.GithubToken)) ==>
                && r.Success?
                && fresh(r.value)
                && r.value.authenticateCalls == 1
                && env.FetchEnvVariable(EnvLoader.GithubToken) == Some(r.value.token)
                && services == old(services)[GithubKey := GithubEntry(r.value)]
    {
      if GithubKey in services {
        return Success(services[GithubKey].github);
      }
      var made := GithubService.NewGithubService(env);
      if made.Failure? {
        return Failure(made.error);
      }
      var service := made.value;
      service.Authenticate();
      services := services[GithubKey := GithubEntry(service)];
      r := Success(service);
    }

    /** `get_openai_service()`: the same memoisation under "openai"; a failed `authenticate` stores nothing. */
    method GetOpenaiService(env: EnvLoader.EnvStore) returns (r: Result<OpenAiService.OpenAIService, OpenAiService.ClientError>)
      requires Valid()
      modifies this
      ensures Valid() && Grows(old(services), services)
      ensures r.Success? ==> OpenaiKey in services && services[OpenaiKey] == OpenAIEntry(r.value)
      ensures OpenaiKey in old(services) ==> r.Success? && services == old(services)
      ensures OpenaiKey !in old(services) && env.FetchEnvVariable(EnvLoader.OpenaiApiKey).None? ==>
                r == Failure(OpenAiService.OpenAIError) && services == old(services)
      ensures OpenaiKey !in old(services) && env.FetchEnvVariable(EnvLoader.OpenaiApiKey).Some? ==>
                && r.Success?
                && fresh(r.value)
                && r.value.apiKey == env.FetchEnvVariable(EnvLoader.OpenaiApiKey)
                && r.value.client == Some(OpenAiService.OpenAIClient(r.value.apiKey.value))
                && services == old(services)[OpenaiKey := OpenAIEntry(r.value)]
    {
      if OpenaiKey in services {
        return Success(services[OpenaiKey].openai);
      }
      var service := new OpenAiService.OpenAIService(env);
      var auth := service.Authenticate();
      if auth.Fail? {
        return Failure(auth.error);
      }
      services := services[OpenaiKey := OpenAIEntry(service)];
      r := Success(service);
    }
  }

  /**
   * With both credentials set, two requests for each service return one
   * object per service, built and authenticated once, and getting one
   * leaves the other's entry alone.
   */
  method RepeatedRequestsShareOneObject(env: EnvLoader.EnvStore)
    returns (g1: Result<GithubService.GithubService, GithubService.ClientError>,
             g2: Result<GithubService.GithubService, GithubService.ClientError>,
             o1: Result<OpenAiService.OpenAIService, OpenAiService.ClientError>,
             o2: Result<OpenAiService.OpenAIService, OpenAiService.ClientError>)
    requires GithubService.AcceptedToken(env.FetchEnvVariable(EnvLoader.GithubToken))
    requires env.FetchEnvVariable(EnvLoader.OpenaiApiKey).Some?
    ensures g1.Success? && g1 == g2 && g1.value.authenticateCalls == 1
    ensures o1.Success? && o1 == o2
  {
    var registry := new ServiceRegistry();
    g1 := registry.GetGithubService(env);
    o1 := registry.GetOpenaiService(env);
    assert registry.services[GithubKey] == GithubEntry(g1.value);
    g2 := registry.GetGithubService(env);
    o2 := registry.GetOpenaiService(env);
  }

  /**
   * With neither credential set, every request raises and the registry stays
   * empty, so a later request constructs afresh.
   */
  method MissingCredentialsAreNotCached(env: EnvLoader.EnvStore)
    returns (g1: Result<GithubService.GithubService, GithubService.ClientError>,
             g2: Result<GithubService.GithubService, GithubService.ClientError>,
             o1: Result<OpenAiService.OpenAIService, OpenAiService.ClientError>,
             remaining: map<string, Service>)
    requires env.FetchEnvVariable(EnvLoader.GithubToken).None?
    requires env.FetchEnvVariable(EnvLoader.OpenaiApiKey).None?
    ensures g1 == g2 == Failure(GithubService.InvalidToken)
    ensures o1 == Failure(OpenAiService.OpenAIError)
    ensures remaining == map[]
  {
    var registry := new ServiceRegistry();
    g1 := registry.GetGithubService(env);
    o1 := registry.GetOpenaiService(env);
    g2 := registry.GetGithubService(env);
    remaining := registry.services;
  }
}
