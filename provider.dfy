/**
 The provider of internal/provider/provider.go: its constant metadata, schema
 and registrations, and Configure, which resolves the Nautobot URL and token
 from the configuration and the environment and builds the API client.
 */
module Provider {
  import opened Wrappers
  import opened Framework

  const ProviderTypeName: string := "nautobot"
  const UrlEnvVar: string := "NAUTOBOT_URL"
  const TokenEnvVar: string := "NAUTOBOT_TOKEN"

  /** nautobotProviderModel: the provider block as the host decoded it. */
  datatype ProviderModel = ProviderModel(url: Attr<string>, token: Attr<string>)

  /** apiClient: the server URL and the token its request editor was built
      from. The generated client handles are not modelled. */
  datatype ApiClient = ApiClient(server: string, token: string)

  /** The outcome of Config.Get: the decoded model and the diagnostics it produced. */
  datatype ConfigureRequest = ConfigureRequest(config: ProviderModel, getDiagnostics: seq<Diagnostic>)

  /** The fields the provider writes into its (fresh) ConfigureResponse. */
  datatype ConfigureResponse = ConfigureResponse(
    diagnostics: seq<Diagnostic>,
    dataSourceData: Option<ApiClient>,
    resourceData: Option<ApiClient>)

  /** The process environment. */
  type Environment = map<string, string>

  /** os.Getenv: the empty string for an unset variable. */
  function Getenv(env: Environment, key: string): (v: string)
    ensures key in env ==> v == env[key]
    ensures key !in env ==> v == ""
  {
    if key in env then env[key] else ""
  }

  const UrlSummary: string := "Nautobot URL was not provided."
  const UrlDetail: string :=
    "The provider cannot create the Nautobot API client as there is an unknown configuration value for the Nautobot API host. "
    + "Either target apply the source of the value first, set the value statically in the configuration, or use the NAUTOBOT_URL environment variable."
  const TokenUnknownSummary: string := "Nautobot Token was not provided - IsUnknown."
  const TokenEmptySummary: string := "Nautobot Token was not provided - is empty string."
  const TokenDetail: string :=
    "The provider cannot create the Nautobot API client as there is an unknown configuration value for the Nautobot token. "
    + "Either target apply the source of the value first, set the value statically in the configuration, or use the NAUTOBOT_TOKEN environment variable."

  // The URL diagnostics for an unknown and for an empty value are the same.
  const UrlUnknownError: Diagnostic := AttributeError("url", UrlSummary, UrlDetail)
  const UrlEmptyError: Diagnostic := AttributeError("url", UrlSummary, UrlDetail)
  const TokenUnknownError: Diagnostic := AttributeError("token", TokenUnknownSummary, TokenDetail)
  const TokenEmptyError: Diagnostic := AttributeError("token", TokenEmptySummary, TokenDetail)

  /** `[d]` when `c` holds, else nothing. */
  function When(c: bool, d: Diagnostic): seq<Diagnostic>
  {
    if c then [d] else []
  }

  /** The four configuration errors are errors, and the URL ones differ from
      the token ones. */
  lemma ConfigurationErrorsDistinct()
    ensures UrlUnknownError.severity == Error && TokenUnknownError.severity == Error
    ensures UrlEmptyError.severity == Error && TokenEmptyError.severity == Error
    ensures UrlUnknownError != TokenUnknownError && UrlEmptyError != TokenEmptyError
  {
    assert |"url"| != |"token"|;
  }

  /** Two checks that may each record a distinct error, run on a list without
      errors, leave exactly the errors whose checks fired, in order. */
  lemma TwoChecks(ds: seq<Diagnostic>, c1: bool, d1: Diagnostic, after1: seq<Diagnostic>,
                  c2: bool, d2: Diagnostic, after2: seq<Diagnostic>)
    requires !HasError(ds) && d1.severity == Error && d2.severity == Error && d1 != d2
    requires after1 == if c1 then Add(ds, d1) else ds
    requires after2 == if c2 then Add(after1, d2) else after1
    ensures after2 == ds + When(c1, d1) + When(c2, d2)
    ensures HasError(after2) <==> c1 || c2
  {
    assert d1 !in ds && d2 !in ds;
    assert after1 == ds + When(c1, d1);
    assert d2 !in after1;
  }

  /** The value Configure settles on for one attribute: the configured value
      unless it is null, in which case the environment's. */
  function Resolve(a: Attr<string>, fallback: string): (s: string)
    ensures a.Null? ==> s == fallback
    ensures a.Known? ==> s == a.value
    ensures a.Unknown? ==> s == ""
  {
    if !a.Null? then ValueString(a) else fallback
  }

  /** The URL Configure uses: a known configured value, the empty string
      included, overrides NAUTOBOT_URL; a null one falls back to it. */
  function ResolvedUrl(config: ProviderModel, env: Environment): (url: string)
    ensures config.url.Known? ==> url == config.url.value
    ensures config.url.Null? ==> url == Getenv(env, UrlEnvVar)
  {
    Resolve(config.url, Getenv(env, UrlEnvVar))
  }

  /** The token Configure uses, resolved against NAUTOBOT_TOKEN the same way. */
  function ResolvedToken(config: ProviderModel, env: Environment): (token: string)
    ensures config.token.Known? ==> token == config.token.value
    ensures config.token.Null? ==> token == Getenv(env, TokenEnvVar)
  {
    Resolve(config.token, Getenv(env, TokenEnvVar))
  }

  /** nautobotProvider.Configure. */
  method Configure(req: ConfigureRequest, env: Environment) returns (resp: ConfigureResponse)
    // Data sources and resources receive the same client, or neither gets one.
    ensures resp.dataSourceData == resp.resourceData
    // A client is built exactly when no error was recorded.
    ensures resp.dataSourceData.Some? <==> !HasError(resp.diagnostics)
    ensures resp.dataSourceData.Some? <==>
              && !HasError(req.getDiagnostics)
              && !req.config.url.Unknown? && !req.config.token.Unknown?
              && ResolvedUrl(req.config, env) != "" && ResolvedToken(req.config, env) != ""
    // The client is built from the resolved, non-empty URL and token.
    ensures resp.dataSourceData.Some? ==>
              && resp.dataSourceData.value.server == ResolvedUrl(req.config, env)
              && resp.dataSourceData.value.token == ResolvedToken(req.config, env)
              && resp.dataSourceData.value.server != ""
              && resp.dataSourceData.value.token != ""
    // Phase 0: an error while decoding the configuration halts at once.
    ensures HasError(req.getDiagnostics) ==>
              resp.diagnostics == AppendAll([], req.getDiagnostics)
    // Phase 1: every unknown value is reported, then Configure halts without
    // looking at the environment.
    ensures !HasError(req.getDiagnostics) && (req.config.url.Unknown? || req.config.token.Unknown?) ==>
              resp.diagnostics == AppendAll([], req.getDiagnostics)
                                  + When(req.config.url.Unknown?, UrlUnknownError)
                                  + When(req.config.token.Unknown?, TokenUnknownError)
    // Phase 2: every empty resolved value is reported.
    ensures !HasError(req.getDiagnostics) && !req.config.url.Unknown? && !req.config.token.Unknown? ==>
              resp.diagnostics == AppendAll([], req.getDiagnostics)
                                  + When(ResolvedUrl(req.config, env) == "", UrlEmptyError)
                                  + When(ResolvedToken(req.config, env) == "", TokenEmptyError)
  {
    ConfigurationErrorsDistinct();
    var config := req.config;
    var diagnostics := AppendAll([], req.getDiagnostics);
    if HasError(diagnostics) {
      return ConfigureResponse(diagnostics, None, None);
    }
    ghost var initial := diagnostics;

    if config.url.Unknown? {
      diagnostics := Add(diagnostics, UrlUnknownError);
    }
    ghost var afterUrl := diagnostics;
    if config.token.Unknown? {
      diagnostics := Add(diagnostics, TokenUnknownError);
    }
    TwoChecks(initial, config.url.Unknown?, UrlUnknownError, afterUrl,
              config.token.Unknown?, TokenUnknownError, diagnostics);
    if HasError(diagnostics) {
      return ConfigureResponse(diagnostics, None, None);
    }

    var url := Getenv(env, UrlEnvVar);
    var token := Getenv(env, TokenEnvVar);
    if !config.url.Null? {
      url := ValueString(config.url);
    }
    if !config.token.Null? {
      token := ValueString(config.token);
    }

    if url == "" {
      diagnostics := Add(diagnostics, UrlEmptyError);
    }
    ghost var afterUrlCheck := diagnostics;
    if token == "" {
      diagnostics := Add(diagnostics, TokenEmptyError);
    }
    TwoChecks(initial, url == "", UrlEmptyError, afterUrlCheck,
              token == "", TokenEmptyError, diagnostics);
    if HasError(diagnostics) {
      return ConfigureResponse(diagnostics, None, None);
    }

    var client := ApiClient(url, token);
    resp := ConfigureResponse(diagnostics, Some(client), Some(client));
  }

  /** The constructors Provider.DataSources and Provider.Resources can return. */
  datatype Factory = NewManufacturersDataSource

  /** nautobotProvider.Metadata. */
  function Metadata(): (typeName: string)
    ensures typeName == "nautobot"
  {
    ProviderTypeName
  }

  /** nautobotProvider.Schema: the provider block has exactly the optional
      string attributes url and token, of which only token is sensitive. */
  function Schema(): (s: map<string, AttrDecl>)
    ensures s.Keys == {"url", "token"}
    ensures forall a :: a in s ==>
              s[a].typ == StringType && s[a].optional && !s[a].required && !s[a].computed
    ensures s["token"].sensitive && !s["url"].sensitive
  {
    map[
      "url" := AttrDecl(StringType, false, true, false, false, ""),
      "token" := AttrDecl(StringType, false, true, false, true, "")
    ]
  }

  /** nautobotProvider.DataSources: the manufacturers data source only. */
  function DataSources(): (factories: seq<Factory>)
    ensures |factories| == 1 && factories[0] == NewManufacturersDataSource
  {
    [NewManufacturersDataSource]
  }

  /** nautobotProvider.Resources: nil. */
  function Resources(): (factories: seq<Factory>)
    ensures |factories| == 0
  {
    []
  }
}
