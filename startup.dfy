/** The two defaults `main` computes and the one check `loadConfig` makes
    (main.go:20-42, 119-122). Environment variables and the config file's
    contents are parameters. */
module Startup {
  import opened Wrappers
  import Target

  const DEFAULT_CONFIG_PATH := "config.json"
  const DEFAULT_PORT := "8080"

  /** The decoded contents of the config file. */
  datatype Config = Config(proxyUrl: string)

  /** What opening and JSON-decoding the config file gave. */
  datatype ConfigSource =
    | OpenFailed(reason: string)
    | DecodeFailed(reason: string)
    | Decoded(config: Config)

  /** The config path: `CONFIG_PATH` when set and non-empty, otherwise
      "config.json". */
  function ConfigPath(configPathEnv: string): (path: string)
    ensures path != ""
    ensures configPathEnv != "" ==> path == configPathEnv
    ensures configPathEnv == "" ==> path == DEFAULT_CONFIG_PATH
  {
    if configPathEnv != "" then configPathEnv else DEFAULT_CONFIG_PATH
  }

  /** The listen address: ":" followed by `PORT` when set and non-empty,
      otherwise ":8080". */
  function ListenAddress(portEnv: string): (addr: string)
    ensures |addr| >= 2 && addr[0] == ':'
    ensures addr[1..] == if portEnv != "" then portEnv else DEFAULT_PORT
  {
    ":" + (if portEnv != "" then portEnv else DEFAULT_PORT)
  }

  /** `loadConfig`: a config is accepted only when it decoded and names a
      proxy; each failure carries Go's error text. */
  function LoadConfig(src: ConfigSource): (r: Result<Config, string>)
    ensures r.Success? <==> src.Decoded? && src.config.proxyUrl != ""
    ensures r.Success? ==> r.value == src.config && r.value.proxyUrl != ""
    ensures src.OpenFailed? ==> r == Failure("open config: " + src.reason)
    ensures src.DecodeFailed? ==> r == Failure("decode config: " + src.reason)
    ensures src.Decoded? && src.config.proxyUrl == "" ==> r == Failure("proxy_url is required in config.json")
  {
    match src
    case OpenFailed(reason) => Failure("open config: " + reason)
    case DecodeFailed(reason) => Failure("decode config: " + reason)
    case Decoded(cfg) =>
      if cfg.proxyUrl == "" then Failure("proxy_url is required in config.json") else Success(cfg)
  }

  /** What start-up settles before serving: the config read from the chosen
      path, the parsed proxy URL and the listen address; or the fatal message
      `log.Fatalf` prints. `parseProxy` is `url.Parse` with its error text. */
  datatype Settings = Settings(config: Config, proxy: Target.Url, addr: string)

  function Boot(configPathEnv: string, portEnv: string, read: string -> ConfigSource,
                parseProxy: string -> Result<Target.Url, string>): (r: Result<Settings, string>)
    ensures r.Success? <==>
              LoadConfig(read(ConfigPath(configPathEnv))).Success? &&
              parseProxy(LoadConfig(read(ConfigPath(configPathEnv))).value.proxyUrl).Success?
    ensures r.Success? ==>
              r.value.config.proxyUrl != "" && parseProxy(r.value.config.proxyUrl) == Success(r.value.proxy) &&
              r.value.addr == ListenAddress(portEnv)
    ensures r.Success? ==> r.value.config == LoadConfig(read(ConfigPath(configPathEnv))).value
    ensures LoadConfig(read(ConfigPath(configPathEnv))).Success? &&
            parseProxy(LoadConfig(read(ConfigPath(configPathEnv))).value.proxyUrl).Failure? ==>
              r == Failure("invalid proxy url: " + parseProxy(LoadConfig(read(ConfigPath(configPathEnv))).value.proxyUrl).error)
    ensures LoadConfig(read(ConfigPath(configPathEnv))).Failure? ==>
              r == Failure("failed to load " + ConfigPath(configPathEnv) + ": " + LoadConfig(read(ConfigPath(configPathEnv))).error)
  {
    var path := ConfigPath(configPathEnv);
    match LoadConfig(read(path))
    case Failure(e) => Failure("failed to load " + path + ": " + e)
    case Success(cfg) =>
      match parseProxy(cfg.proxyUrl)
      case Failure(e) => Failure("invalid proxy url: " + e)
      case Success(proxy) => Success(Settings(cfg, proxy, ListenAddress(portEnv)))
  }
}
