/**
 * Integration configuration: the development and production settings for the
 * six integrations, the choice between them, and the check that the NEAR
 * settings are all present.
 *
 * A configuration is a plain JavaScript object. The build environment
 * (`process.env`) is an input: the map of the variables that are set.
 */
module IntegrationConfig {
  import opened Wrappers
  import Js

  type Env = map<string, string>

  /** `process.env.NAME`: the variable's text, or `undefined` when it is not set. */
  function EnvVar(env: Env, name: string): Js.Value {
    if name in env then Js.Str(env[name]) else Js.Undefined
  }

  /** `process.env.NAME || fallback`: a set but empty variable also falls back. */
  function EnvOr(env: Env, name: string, fallback: string): (v: Js.Value)
    requires fallback != ""
    ensures v.Str? && v.s != ""
    ensures name in env && env[name] != "" ==> v == Js.Str(env[name])
    ensures name !in env || env[name] == "" ==> v == Js.Str(fallback)
  {
    Js.Or(EnvVar(env, name), Js.Str(fallback))
  }

  /** The network every integration of a configuration names. */
  function NetworkName(production: bool): Js.Value {
    Js.Str(if production then "mainnet" else "testnet")
  }

  /**
   * The configuration shared by `developmentConfig` (`production` false) and
   * `productionConfig` (`production` true): an object of six integrations
   * whose `nearShade` entry is the NEAR settings for that network.
   */
  function ConfigFor(env: Env, production: bool): (c: Js.Value)
    ensures c.Obj?
    ensures Js.OptMember(c, "nearShade") == NearShadeConfig(env, production)
  {
    var c := Js.Obj(map[
      "securedFinance" := Js.Obj(map[
        "network" := NetworkName(production),
        "apiKey" := EnvVar(env, "VITE_SECURED_FINANCE_API_KEY"),
        "contractAddress" := EnvVar(env, "VITE_SECURED_FINANCE_CONTRACT")]),
      "filecoin" := Js.Obj(map[
        "endpoint" := EnvOr(env, "VITE_FILECOIN_ENDPOINT", "https://api.node.glif.io"),
        "token" := EnvVar(env, "VITE_FILECOIN_TOKEN"),
        "network" := NetworkName(production)]),
      "anthropicMCP" := Js.Obj(map[
        "apiKey" := Js.Or(EnvVar(env, "VITE_ANTHROPIC_API_KEY"), Js.Str("")),
        "model" := Js.Str("claude-3-sonnet-20240229"),
        "maxTokens" := Js.Num(4000.0)]),
      "weatherXM" := Js.Obj(map[
        "apiKey" := EnvVar(env, "VITE_WEATHERXM_API_KEY"),
        "baseUrl" := EnvOr(env, "VITE_WEATHERXM_BASE_URL", "https://api.weatherxm.com/api/v1"),
        "network" := NetworkName(production)]),
      "checkerNetwork" := Js.Obj(map[
        "apiKey" := EnvVar(env, "VITE_CHECKER_NETWORK_API_KEY"),
        "baseUrl" := EnvOr(env, "VITE_CHECKER_NETWORK_BASE_URL", "https://api.checker.network/v1"),
        "network" := NetworkName(production)]),
      "nearShade" := NearShadeConfig(env, production)]);
    c
  }

  /**
   * The NEAR settings: the configuration's network, its RPC, wallet and helper
   * URLs, and the contract name, every one of them non-empty.
   */
  function NearShadeConfig(env: Env, production: bool): (c: Js.Value)
    ensures c.Obj?
    ensures Js.OptMember(c, "networkId") == NetworkName(production)
    ensures Js.Truthy(Js.OptMember(c, "networkId")) && Js.Truthy(Js.OptMember(c, "nodeUrl"))
    ensures Js.Truthy(Js.OptMember(c, "walletUrl")) && Js.Truthy(Js.OptMember(c, "helperUrl"))
    ensures Js.Truthy(Js.OptMember(c, "contractName"))
  {
    if production then
      Js.Obj(map[
        "networkId" := Js.Str("mainnet"),
        "nodeUrl" := Js.Str("https://rpc.mainnet.near.org"),
        "walletUrl" := Js.Str("https://app.mynearwallet.com/"),
        "helperUrl" := Js.Str("https://helper.mainnet.near.org"),
        "contractName" := EnvOr(env, "VITE_NEAR_CONTRACT_NAME", "shade-agents.near")])
    else
      Js.Obj(map[
        "networkId" := Js.Str("testnet"),
        "nodeUrl" := Js.Str("https://rpc.testnet.near.org"),
        "walletUrl" := Js.Str("https://testnet.mynearwallet.com/"),
        "helperUrl" := Js.Str("https://helper.testnet.near.org"),
        "contractName" := EnvOr(env, "VITE_NEAR_CONTRACT_NAME", "shade-agents.testnet")])
  }

  /** `developmentConfig`: valid for every environment, on `testnet`. */
  function DevelopmentConfig(env: Env): (c: Js.Value)
    ensures ConfigValid(c)
    ensures PathValue(c, ["nearShade", "networkId"]) == Js.Str("testnet")
  {
    ConfigForNetwork(env, false);
    NearShadeSettingsValid(ConfigFor(env, false), env, false);
    ConfigFor(env, false)
  }

  /** `productionConfig`: valid for every environment, on `mainnet`. */
  function ProductionConfig(env: Env): (c: Js.Value)
    ensures ConfigValid(c)
    ensures PathValue(c, ["nearShade", "networkId"]) == Js.Str("mainnet")
  {
    ConfigForNetwork(env, true);
    NearShadeSettingsValid(ConfigFor(env, true), env, true);
    ConfigFor(env, true)
  }

  /**
   * `getIntegrationConfig`: the development configuration when the `DEV` flag is
   * set or `VITE_NODE_ENV` is exactly `development`, otherwise the production one.
   */
  function GetIntegrationConfig(dev: bool, nodeEnv: Js.Value, env: Env): (config: Js.Value)
    ensures PathValue(config, ["nearShade", "networkId"]) == Js.Str("testnet") <==> dev || nodeEnv == Js.Str("development")
    ensures PathValue(config, ["nearShade", "networkId"]) == Js.Str("mainnet") <==> !(dev || nodeEnv == Js.Str("development"))
    ensures ConfigValid(config)
    ensures config == (if dev || nodeEnv == Js.Str("development") then DevelopmentConfig(env) else ProductionConfig(env))
    ensures config == DevelopmentConfig(env) <==> dev || nodeEnv == Js.Str("development")
  {
    var isDevelopment := dev || nodeEnv == Js.Str("development");
    if isDevelopment then DevelopmentConfig(env) else ProductionConfig(env)
  }

  // ------------------------------------------------------------ validation

  /** The dotted fields `validateConfig` requires, already split at the dots. */
  const RequiredFields: seq<seq<string>> := [
    ["nearShade", "networkId"],
    ["nearShade", "nodeUrl"],
    ["nearShade", "walletUrl"],
    ["nearShade", "helperUrl"],
    ["nearShade", "contractName"]]

  /** `v?.[k0]?.[k1]...`: reading a path never throws; a missing step gives `undefined`. */
  function PathValue(v: Js.Value, path: seq<string>): Js.Value
    decreases |path|
  {
    if path == [] then v else Js.OptMember(PathValue(v, path[..|path| - 1]), path[|path| - 1])
  }

  lemma PathValuePair(v: Js.Value, k0: string, k1: string)
    ensures PathValue(v, [k0, k1]) == Js.OptMember(Js.OptMember(v, k0), k1)
  {
    assert [k0, k1][..1] == [k0];
    assert [k0][..0] == [];
    assert PathValue(v, [k0]) == Js.OptMember(PathValue(v, []), k0);
    assert PathValue(v, [k0, k1]) == Js.OptMember(PathValue(v, [k0]), k1);
  }

  /** Every required field holds a truthy value. */
  predicate ConfigValid(config: Js.Value) {
    forall f :: 0 <= f < |RequiredFields| ==> Js.Truthy(PathValue(config, RequiredFields[f]))
  }

  /**
   * `validateConfig`: walks the required fields in order and stops at the first
   * one whose value is falsy, reporting it in `missing` (the field the warning names).
   */
  method ValidateConfig(config: Js.Value) returns (ok: bool, missing: Option<seq<string>>)
    ensures ok <==> ConfigValid(config)
    ensures ok ==> missing.None?
    ensures !ok ==> exists f :: 0 <= f < |RequiredFields| && missing == Some(RequiredFields[f]) &&
                                !Js.Truthy(PathValue(config, RequiredFields[f])) &&
                                forall g :: 0 <= g < f ==> Js.Truthy(PathValue(config, RequiredFields[g]))
  {
    var f := 0;
    while f < |RequiredFields|
      invariant 0 <= f <= |RequiredFields|
      invariant forall g :: 0 <= g < f ==> Js.Truthy(PathValue(config, RequiredFields[g]))
    {
      var keys := RequiredFields[f];
      var value := config;
      var k := 0;
      while k < |keys|
        invariant 0 <= k <= |keys|
        invariant value == PathValue(config, keys[..k])
      {
        value := Js.OptMember(value, keys[k]);
        assert keys[..k + 1][..k] == keys[..k];
        k := k + 1;
      }
      assert keys[..|keys|] == keys;
      if !Js.Truthy(value) {
        return false, Some(keys);
      }
      f := f + 1;
    }
    return true, None;
  }

  /** Any configuration carrying a shipped `nearShade` entry validates. */
  lemma NearShadeSettingsValid(config: Js.Value, env: Env, production: bool)
    requires Js.OptMember(config, "nearShade") == NearShadeConfig(env, production)
    ensures ConfigValid(config)
  {
    forall f | 0 <= f < |RequiredFields|
      ensures Js.Truthy(PathValue(config, RequiredFields[f]))
    {
      assert RequiredFields[f] == ["nearShade", RequiredFields[f][1]];
      PathValuePair(config, "nearShade", RequiredFields[f][1]);
      NearShadeFieldTruthy(env, production, f);
    }
  }

  lemma NearShadeFieldTruthy(env: Env, production: bool, f: nat)
    requires f < |RequiredFields|
    ensures Js.Truthy(Js.OptMember(NearShadeConfig(env, production), RequiredFields[f][1]))
  {
    assert RequiredFields[f][1] == ["networkId", "nodeUrl", "walletUrl", "helperUrl", "contractName"][f];
  }

  /** The NEAR network of a shipped configuration: `mainnet` in production, `testnet` otherwise. */
  lemma ConfigForNetwork(env: Env, production: bool)
    ensures PathValue(ConfigFor(env, production), ["nearShade", "networkId"]) == NetworkName(production)
  {
    PathValuePair(ConfigFor(env, production), "nearShade", "networkId");
  }

  /** Only `nearShade` is inspected: any other integration's settings may change, or go, freely. */
  lemma OtherIntegrationsIgnored(props: map<string, Js.Value>, key: string, v: Js.Value)
    requires key != "nearShade"
    ensures ConfigValid(Js.Obj(props[key := v])) <==> ConfigValid(Js.Obj(props))
  {
    forall f | 0 <= f < |RequiredFields|
      ensures PathValue(Js.Obj(props[key := v]), RequiredFields[f]) == PathValue(Js.Obj(props), RequiredFields[f])
    {
      assert RequiredFields[f] == [RequiredFields[f][0], RequiredFields[f][1]];
      PathValuePair(Js.Obj(props[key := v]), RequiredFields[f][0], RequiredFields[f][1]);
      PathValuePair(Js.Obj(props), RequiredFields[f][0], RequiredFields[f][1]);
    }
  }

  /** Without a `VITE_ANTHROPIC_API_KEY` the development configuration carries an empty key and still validates. */
  lemma EmptyAnthropicKeyStillValid()
    ensures PathValue(DevelopmentConfig(map[]), ["anthropicMCP", "apiKey"]) == Js.Str("")
    ensures ConfigValid(DevelopmentConfig(map[]))
  {
    PathValuePair(DevelopmentConfig(map[]), "anthropicMCP", "apiKey");
  }

  /**
   * A missing `nearShade` object, or an empty string in one of its fields,
   * makes validation fail without any error being raised.
   */
  lemma MissingOrEmptyFieldFails(config: Js.Value, f: nat)
    requires f < |RequiredFields|
    requires Js.OptMember(config, "nearShade") == Js.Undefined ||
             Js.OptMember(Js.OptMember(config, "nearShade"), RequiredFields[f][1]) == Js.Str("")
    ensures !ConfigValid(config)
  {
    assert RequiredFields[f] == ["nearShade", RequiredFields[f][1]];
    PathValuePair(config, "nearShade", RequiredFields[f][1]);
  }
}
