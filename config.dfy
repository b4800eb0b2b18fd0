/**
 * Server configuration: the projection of the loaded YAML document onto
 * host, port and transport, each with its own default.
 */
module Config {
  import opened Wrappers
  import opened Json

  const DefaultHost := JString("127.0.0.1")
  const DefaultPort := JNumber(8000)
  const DefaultTransport := JString("http")

  datatype ConfigError =
    | FileNotFoundError(message: string)
    | AttributeError   // `.get` called on a document or section that is not a mapping

  /** The message of the error `load_config` raises for a missing file. */
  function NotFoundMessage(path: string): string {
    "Configuration file not found: " + path + ". Please create config.yaml with server settings."
  }

  /**
   * `load_config(path)`: the parsed document, given as `document` (`None`
   * when the file does not exist; an empty file parses to `JNull`).
   */
  function LoadConfig(path: string, document: Option<Json>): (r: Result<Json, ConfigError>)
    ensures document.None? <==> r.Failure?
    ensures document.None? ==> r == Failure(FileNotFoundError(NotFoundMessage(path)))
    ensures document.Some? ==> r == Success(document.value)
  {
    match document
    case None => Failure(FileNotFoundError(NotFoundMessage(path)))
    case Some(d) => Success(d)
  }

  /** `d.get(key, default)` on a mapping. */
  function Get(d: map<string, Json>, key: string, default: Json): Json {
    if key in d then d[key] else default
  }

  /** The dict `get_server_config` returns for a server section. */
  function Project(server: map<string, Json>): map<string, Json> {
    map["host" := Get(server, "host", DefaultHost),
        "port" := Get(server, "port", DefaultPort),
        "transport" := Get(server, "transport", DefaultTransport)]
  }

  /** `get_server_config(path)`. */
  function GetServerConfig(path: string, document: Option<Json>): (r: Result<map<string, Json>, ConfigError>)
    ensures document.None? ==> r == Failure(FileNotFoundError(NotFoundMessage(path)))
    ensures r.Success? ==> r.value.Keys == {"host", "port", "transport"}
    ensures r.Success? <==>
              document.Some? && document.value.JObject?
              && var c := document.value.fields;
                 "server" !in c || c["server"].JObject?
    ensures document.Some? && document.value.JObject? && "server" !in document.value.fields ==>
              r == Success(map["host" := DefaultHost, "port" := DefaultPort, "transport" := DefaultTransport])
    ensures document.Some? && document.value.JObject? && "server" in document.value.fields
            && document.value.fields["server"].JObject? ==>
              var s := document.value.fields["server"].fields;
              && r.Success?
              && (("host" in s ==> r.value["host"] == s["host"]) && ("host" !in s ==> r.value["host"] == DefaultHost))
              && (("port" in s ==> r.value["port"] == s["port"]) && ("port" !in s ==> r.value["port"] == DefaultPort))
              && (("transport" in s ==> r.value["transport"] == s["transport"])
                  && ("transport" !in s ==> r.value["transport"] == DefaultTransport))
  {
    match LoadConfig(path, document)
    case Failure(e) => Failure(e)
    case Success(config) =>
      match config
      case JObject(c) =>
        var server := Get(c, "server", JObject(map[]));
        (match server
         case JObject(s) => Success(Project(s))
         case _ => Failure(AttributeError))
      case _ => Failure(AttributeError)
  }

  /**
   * Projecting is idempotent: a document whose server section is an earlier
   * result gives that result back, so only the three keys ever matter.
   */
  lemma ProjectionIsIdempotent(path: string, document: Option<Json>, other: map<string, Json>)
    requires GetServerConfig(path, document).Success?
    ensures var r := GetServerConfig(path, document).value;
            GetServerConfig(path, Some(JObject(other["server" := JObject(r)]))) == Success(r)
  {
  }

  /** Keys other than the three, at the top level or in the section, do not affect the result. */
  lemma OtherKeysDropped(path: string, server: map<string, Json>, extra: map<string, Json>, top: map<string, Json>)
    requires forall k | k in extra :: k !in {"host", "port", "transport"}
    ensures GetServerConfig(path, Some(JObject(top["server" := JObject(server + extra)])))
            == GetServerConfig(path, Some(JObject(map["server" := JObject(server - extra.Keys)])))
  {
    var a := server + extra;
    var b := server - extra.Keys;
    assert forall k | k in {"host", "port", "transport"} :: (k in a <==> k in b) && (k in a ==> a[k] == b[k]);
  }
}
