/**
 * The injectable environment store: a module-level dict holding the two
 * credentials, replaced wholesale by `load_env_variables` and read by
 * `fetch_env_variable`. A value is `None` when the variable is unset.
 */
module EnvLoader {
  import opened Wrappers

  const GithubToken := "GITHUB_TOKEN"
  const OpenaiApiKey := "OPENAI_API_KEY"

  type EnvVars = map<string, Option<string>>

  class EnvStore {
    var vars: EnvVars

    /** The store as first built from the process environment (`os.getenv` results). */
    constructor (githubToken: Option<string>, openaiApiKey: Option<string>)
      ensures vars.Keys == {GithubToken, OpenaiApiKey}
      ensures vars[GithubToken] == githubToken && vars[OpenaiApiKey] == openaiApiKey
    {
      vars := map[GithubToken := githubToken, OpenaiApiKey := openaiApiKey];
    }

    /** `load_env_variables(custom)`: a given map replaces the store, `None` keeps it; returns a copy. */
    method LoadEnvVariables(custom: Option<EnvVars>) returns (snapshot: EnvVars)
      modifies this
      ensures custom.Some? ==> vars == custom.value
      ensures custom.None? ==> vars == old(vars)
      ensures snapshot == vars
    {
      if custom.Some? {
        vars := custom.value;
      }
      snapshot := vars;
    }

    /** `fetch_env_variable(name)`: `_env_vars.get(name)`. */
    function FetchEnvVariable(name: string): (r: Option<string>)
      reads this
      ensures name !in vars ==> r.None?
      ensures name in vars ==> r == vars[name]
    {
      if name in vars then vars[name] else None
    }

    /** Reading a variable right after injecting a map reads that map. */
    method InjectThenFetch(custom: EnvVars, name: string) returns (r: Option<string>)
      modifies this
      ensures vars == custom
      ensures r == (if name in custom then custom[name] else None)
    {
      var _ := LoadEnvVariables(Some(custom));
      r := FetchEnvVariable(name);
    }
  }
}
