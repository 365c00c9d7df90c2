/** Process environment and the argument > environment > default precedence shared by
    the three revisions of client construction (src/pinecone/mod.rs,
    pinecone_sdk/src/pinecone/mod.rs, pinecone_sdk/src/pinecone.rs). */
module Environment {
  import opened Wrappers

  /** The process environment: variable name to value. A name that is absent stands for
      `std::env::var` returning an error. */
  type Env = map<string, string>

  /** A header map: header name to header value. */
  type Headers = map<string, string>

  /** The JSON decoder used for `PINECONE_ADDITIONAL_HEADERS`: a header map, or the decoder's
      error text. It is a parameter: its internals are not modelled. */
  type JsonParser = string -> Result<Headers, string>

  const ApiKeyVar: string := "PINECONE_API_KEY"
  const ControllerHostVar: string := "PINECONE_CONTROLLER_HOST"
  const AdditionalHeadersVar: string := "PINECONE_ADDITIONAL_HEADERS"
  const DefaultControllerHost: string := "https://api.pinecone.io"

  /** `std::env::var(name).ok()` */
  function Var(env: Env, name: string): (r: Option<string>)
    ensures r.Some? <==> name in env
    ensures r.Some? ==> r.value == env[name]
  {
    if name in env then Some(env[name]) else None
  }

  /** The API key: the argument, else `PINECONE_API_KEY`; `None` when neither is given. */
  function ResolveApiKey(arg: Option<string>, env: Env): Option<string> {
    match arg
    case Some(key) => Some(key)
    case None => Var(env, ApiKeyVar)
  }

  /** The controller host: the argument, else `PINECONE_CONTROLLER_HOST`, else the
      public endpoint. */
  function ResolveControllerHost(arg: Option<string>, env: Env): string {
    arg.GetOr(Var(env, ControllerHostVar).GetOr(DefaultControllerHost))
  }

  /** The header map read from `PINECONE_ADDITIONAL_HEADERS`: empty when the variable is
      unset, the decoded map when it holds JSON, the decoder's error otherwise. */
  function EnvHeaders(env: Env, parse: JsonParser): Result<Headers, string> {
    match Var(env, AdditionalHeadersVar)
    case None => Success(map[])
    case Some(text) => parse(text)
  }

  /** The eager fallback of `unwrap_or(match ...)`: the environment is read and decoded before
      the argument is looked at, so an undecodable variable fails even when headers are given. */
  function EagerHeaders(arg: Option<Headers>, env: Env, parse: JsonParser): Result<Headers, string> {
    var fallback := EnvHeaders(env, parse);
    if fallback.Failure? then Failure(fallback.error) else Success(arg.GetOr(fallback.value))
  }

  /** The lazy fallback of a `match` on the argument: the environment is read only when no
      headers are given. */
  function LazyHeaders(arg: Option<Headers>, env: Env, parse: JsonParser): Result<Headers, string> {
    match arg
    case Some(h) => Success(h)
    case None => EnvHeaders(env, parse)
  }

  /** The API key is the argument when one is given, the environment value otherwise, and
      missing exactly when both are absent. */
  lemma ApiKeyPrecedence(arg: Option<string>, env: Env)
    ensures arg.Some? ==> ResolveApiKey(arg, env) == arg
    ensures arg.None? && ApiKeyVar in env ==> ResolveApiKey(arg, env) == Some(env[ApiKeyVar])
    ensures ResolveApiKey(arg, env).None? <==> arg.None? && ApiKeyVar !in env
  {
  }

  /** The controller host is the argument, else the environment value, else the default. */
  lemma ControllerHostPrecedence(arg: Option<string>, env: Env)
    ensures arg.Some? ==> ResolveControllerHost(arg, env) == arg.value
    ensures arg.None? && ControllerHostVar in env ==> ResolveControllerHost(arg, env) == env[ControllerHostVar]
    ensures arg.None? && ControllerHostVar !in env ==> ResolveControllerHost(arg, env) == DefaultControllerHost
  {
  }

  /** The lazy reading: explicit headers are used as given whatever the environment holds;
      without them the environment decides, an unset variable giving the empty map. */
  lemma LazyHeadersPrecedence(arg: Option<Headers>, env: Env, parse: JsonParser)
    ensures arg.Some? ==> LazyHeaders(arg, env, parse) == Success(arg.value)
    ensures arg.None? && AdditionalHeadersVar !in env ==> LazyHeaders(arg, env, parse) == Success(map[])
    ensures arg.None? && AdditionalHeadersVar in env ==> LazyHeaders(arg, env, parse) == parse(env[AdditionalHeadersVar])
  {
  }

  /** The eager reading fails exactly when the variable is set and does not decode, whether
      or not headers are given; when it succeeds the argument still wins. */
  lemma EagerHeadersPrecedence(arg: Option<Headers>, env: Env, parse: JsonParser)
    ensures EagerHeaders(arg, env, parse).Failure?
        <==> AdditionalHeadersVar in env && parse(env[AdditionalHeadersVar]).Failure?
    ensures EagerHeaders(arg, env, parse).Success? && arg.Some? ==> EagerHeaders(arg, env, parse).value == arg.value
  {
  }

  /** The two readings differ on exactly one kind of input: headers given as an argument
      together with an environment variable that does not decode. Everywhere else they agree. */
  lemma EagerDiffersFromLazy(arg: Option<Headers>, env: Env, parse: JsonParser)
    ensures EagerHeaders(arg, env, parse) != LazyHeaders(arg, env, parse)
        <==> arg.Some? && EnvHeaders(env, parse).Failure?
  {
  }
}
