/** The decisions the plugin makes about a service and about each of its
    functions: whether the plugin or a function is skipped, which layers,
    environment, handler and packaging a function ends up with, which
    CloudWatch filter pattern is installed and which subscription filter
    calls a function's log group needs. Each is computed here from values;
    the `Plugin` module applies them to the function definitions in place. */
module Attach {
  import opened Text
  import opened Js
  import opened Settings

  // ---------------------------------------------------------------------
  // Skipping the plugin, a deployment, a function

  /** `shouldSkipPlugin`: the plugin stays active when no `stages` option is
      set or when the option includes the current stage (a substring of a
      string option, an element of a list); an option with no `includes`
      method makes the check throw. */
  function ShouldSkipPlugin(config: Config, stage: Value): (r: Completion<bool>)
    ensures r == Normal(false) <==> !Truthy(config.stages) || Includes(config.stages, stage) == Normal(true)
    ensures r.Thrown? <==> Truthy(config.stages) && !config.stages.Str? && !config.stages.Arr?
    ensures config.stages.Arr? && !stage.Arr? ==>
              (r == Normal(false) <==> stage in config.stages.items)
  {
    if !Truthy(config.stages) then Normal(false)
    else
      match Includes(config.stages, stage)
      case Thrown => Thrown
      case Normal(found) => Normal(!found)
  }

  /** An empty `stages` list is still truthy: the plugin is off for every
      stage. */
  lemma EmptyStageListSkipsEveryStage(config: Config, stage: Value)
    requires config.stages == Arr([])
    ensures ShouldSkipPlugin(config, stage) == Normal(true)
  {
  }

  /** A string `stages` option is searched as text, so it enables every
      stage whose name occurs in it: "production" enables "prod". */
  lemma StageStringMatchesInfix(config: Config, a: string, x: string, b: string)
    requires config.stages == Str(a + x + b)
    ensures ShouldSkipPlugin(config, Str(x)) == Normal(false)
  {
    ContainsInfix(a, x, b);
  }

  /** The runtimes the plugin has a handler wrapper for. */
  const WrappedRuntimes: seq<string> :=
    ["nodejs10.x", "nodejs12.x", "nodejs8.10", "python2.7", "python3.6", "python3.7", "python3.8"]

  /** `shouldSkipFunction`: a function is skipped when a non-empty `include`
      list does not name it, or when an `exclude` list names it. Options that
      are not lists select nothing. */
  function ShouldSkipFunction(config: Config, funcName: string): (r: bool)
    ensures r <==>
              (config.includeFunctions.Arr? && config.includeFunctions.items != []
                 && Str(funcName) !in config.includeFunctions.items)
              || (config.excludeFunctions.Arr? && Str(funcName) in config.excludeFunctions.items)
  {
    var included := if config.includeFunctions.Undefined? then Arr([]) else config.includeFunctions;
    var exclude := if config.excludeFunctions.Undefined? then Arr([]) else config.excludeFunctions;
    if !IsEmpty(included) && included.Arr? && IndexOf(included.items, Str(funcName)) == -1 then
      true
    else
      exclude.Arr? && IndexOf(exclude.items, Str(funcName)) != -1
  }

  /** Why `addLayer` leaves a function alone, checked in this order. */
  datatype Skip = NoRegion | NoAccountId | UnsupportedRuntime | NotSelected

  /** The runtime a function runs on: its own, else the provider's. */
  function Runtime(functionRuntime: Value, providerRuntime: Value): (r: Value)
    ensures !functionRuntime.Undefined? ==> r == functionRuntime
    ensures functionRuntime.Undefined? ==> r == providerRuntime
  {
    if functionRuntime.Undefined? then providerRuntime else functionRuntime
  }

  /** The guards at the head of `addLayer`. A function is instrumented
      exactly when a region is set, an account id is known (from the options
      or from the function's environment), the runtime is a string that is
      either wrapped or served by the extension, and the function is
      selected. */
  function AddLayerSkip(region: string, config: Config, env: map<string, Value>, runtime: Value, funcName: string)
    : (r: Option<Skip>)
    ensures r == None <==>
              region != ""
              && (Truthy(config.accountId) || Truthy(Get(env, AccountIdVar)))
              && runtime.Str? && (runtime.s in WrappedRuntimes || Truthy(config.enableExtension))
              && !ShouldSkipFunction(config, funcName)
    ensures r == Some(NoRegion) <==> region == ""
    ensures r == Some(UnsupportedRuntime) ==> !runtime.Str? || !Truthy(config.enableExtension)
  {
    if region == "" then Some(NoRegion)
    else if !Truthy(config.accountId) && !Truthy(Get(env, AccountIdVar)) then Some(NoAccountId)
    else if !runtime.Str? || (runtime.s !in WrappedRuntimes && !Truthy(config.enableExtension)) then
      Some(UnsupportedRuntime)
    else if ShouldSkipFunction(config, funcName) then Some(NotSelected)
    else None
  }

  // ---------------------------------------------------------------------
  // Layers

  /** The layer to attach: the `layerArn` option, else the one looked up for
      the runtime. */
  function LayerArn(config: Config, fetched: Value): (r: Value)
    ensures Truthy(config.layerArn) ==> r == config.layerArn
    ensures !Truthy(config.layerArn) ==> r == fetched
  {
    if Truthy(config.layerArn) then config.layerArn else fetched
  }

  /** A declared layer counts as the New Relic one when it is a string that
      the layer ARN matches; an undefined ARN matches every string. The ARN
      is matched as text, not as a regular expression. */
  predicate NewRelicLayer(layer: Value, arn: Value)
  {
    layer.Str? && (arn.Undefined? || Contains(layer.s, Show(arn)))
  }

  predicate AlreadyLayered(layers: seq<Value>, arn: Value)
  {
    exists i :: 0 <= i < |layers| && NewRelicLayer(layers[i], arn)
  }

  /** The layer list after `addLayer`: unchanged when a New Relic layer is
      already declared, else the ARN at the front (when `prepend` is the
      boolean true) or at the back. */
  function AttachLayer(layers: seq<Value>, arn: Value, prepend: Value): (r: seq<Value>)
    ensures AlreadyLayered(layers, arn) ==> r == layers
    ensures !AlreadyLayered(layers, arn) && prepend == Bool(true) ==> r == [arn] + layers
    ensures !AlreadyLayered(layers, arn) && prepend != Bool(true) ==> r == layers + [arn]
  {
    if AlreadyLayered(layers, arn) then layers
    else if prepend == Bool(true) then [arn] + layers
    else layers + [arn]
  }

  lemma ContainsItself(s: string)
    ensures Contains(s, s)
  {
  }

  /** A string ARN is declared exactly once after attaching, when it was not
      matched before, and the other layers keep their order. */
  lemma LayerAddedOnce(layers: seq<Value>, arn: Value, prepend: Value)
    requires arn.Str? && !AlreadyLayered(layers, arn)
    ensures multiset(AttachLayer(layers, arn, prepend))[arn] == 1
    ensures AlreadyLayered(AttachLayer(layers, arn, prepend), arn)
  {
    ContainsItself(arn.s);
    assert arn !in layers;
    assert multiset(layers)[arn] == 0;
    var r := AttachLayer(layers, arn, prepend);
    var j := if prepend == Bool(true) then 0 else |layers|;
    assert r[j] == arn && NewRelicLayer(r[j], arn);
  }

  /** Attaching a string ARN twice gives the same layers as attaching it
      once. */
  lemma AttachLayerIdempotent(layers: seq<Value>, arn: Value, prepend: Value)
    requires arn.Str?
    ensures AttachLayer(AttachLayer(layers, arn, prepend), arn, prepend) == AttachLayer(layers, arn, prepend)
  {
    if !AlreadyLayered(layers, arn) {
      LayerAddedOnce(layers, arn, prepend);
    }
  }

  /** When the layer lookup finds no ARN and the function declares no string
      layer, `undefined` is added once more, and the list still holds no
      string, so every later attach adds it again. */
  lemma MissingArnStacks(layers: seq<Value>, prepend: Value)
    requires forall i :: 0 <= i < |layers| ==> !layers[i].Str?
    ensures var r := AttachLayer(layers, Undefined, prepend);
            |r| == |layers| + 1 && multiset(r)[Undefined] == multiset(layers)[Undefined] + 1
            && forall i :: 0 <= i < |r| ==> !r[i].Str?
  {
    assert !AlreadyLayered(layers, Undefined);
  }

  /** An undefined ARN matches any declared string layer, so the layers are
      left as they are. */
  lemma MissingArnMatchesString(layers: seq<Value>, prepend: Value, i: nat)
    requires i < |layers| && layers[i].Str?
    ensures AttachLayer(layers, Undefined, prepend) == layers
  {
    assert NewRelicLayer(layers[i], Undefined);
  }

  // ---------------------------------------------------------------------
  // Environment

  const HandlerVar: string := "NEW_RELIC_LAMBDA_HANDLER"
  const LogEnabledVar: string := "NEW_RELIC_LOG_ENABLED"
  const LogVar: string := "NEW_RELIC_LOG"
  const LogLevelVar: string := "NEW_RELIC_LOG_LEVEL"
  const NoConfigFileVar: string := "NEW_RELIC_NO_CONFIG_FILE"
  const AppNameVar: string := "NEW_RELIC_APP_NAME"
  const AccountIdVar: string := "NEW_RELIC_ACCOUNT_ID"
  const TrustedAccountKeyVar: string := "NEW_RELIC_TRUSTED_ACCOUNT_KEY"
  const ServerlessModeVar: string := "NEW_RELIC_SERVERLESS_MODE_ENABLED"
  const ExtensionEnabledVar: string := "NEW_RELIC_LAMBDA_EXTENSION_ENABLED"
  const LicenseKeyVar: string := "NEW_RELIC_LICENSE_KEY"
  const SendFunctionLogsVar: string := "NEW_RELIC_EXTENSION_SEND_FUNCTION_LOGS"

  /** The log level used when a function sets none: the provider-wide
      environment's level, the `logLevel` option, "debug" under the `debug`
      option, and "error" otherwise. */
  function DefaultLogLevel(globalLevel: Value, config: Config): (r: Value)
    ensures Truthy(r)
    ensures r == globalLevel || r == config.logLevel || r == Str("debug") || r == Str("error")
    ensures Truthy(globalLevel) ==> r == globalLevel
    ensures !Truthy(globalLevel) && !Truthy(config.logLevel) && !Truthy(config.debug) ==> r == Str("error")
  {
    if Truthy(globalLevel) then globalLevel
    else if Truthy(config.logLevel) then config.logLevel
    else if Truthy(config.debug) then Str("debug")
    else Str("error")
  }

  /** `logLevel`: logging on, to stdout unless a destination is set, at the
      function's own level or else the default one. */
  function LogSettings(env: map<string, Value>, globalLevel: Value, config: Config): map<string, Value>
  {
    var e := env[LogEnabledVar := Str("true")];
    var e := e[LogVar := Or(Get(e, LogVar), Str("stdout"))];
    if Truthy(Get(e, LogLevelVar)) then e
    else e[LogLevelVar := DefaultLogLevel(globalLevel, config)]
  }

  /** What `logLevel` leaves behind: logging enabled, a destination, and a
      truthy level that is the function's own when it had one. */
  lemma LogSettingsValues(env: map<string, Value>, globalLevel: Value, config: Config)
    ensures var r := LogSettings(env, globalLevel, config);
            r.Keys == env.Keys + {LogEnabledVar, LogVar, LogLevelVar}
            && r[LogEnabledVar] == Str("true")
            && r[LogVar] == Or(Get(env, LogVar), Str("stdout"))
            && Truthy(r[LogLevelVar])
            && (Truthy(Get(env, LogLevelVar)) ==> r[LogLevelVar] == env[LogLevelVar])
            && (!Truthy(Get(env, LogLevelVar)) ==> r[LogLevelVar] == DefaultLogLevel(globalLevel, config))
  {
  }

  /** Every other variable keeps its value under `logLevel`. */
  lemma LogSettingsFrame(env: map<string, Value>, globalLevel: Value, config: Config, k: string)
    requires k != LogEnabledVar && k != LogVar && k != LogLevelVar
    ensures Get(LogSettings(env, globalLevel, config), k) == Get(env, k)
  {
  }

  /** What `addLayer` knows about the plugin besides its options. */
  datatype Credentials = Credentials(licenseKey: Value, managedSecretConfigured: bool)

  /** The extension's settings: on or off, the license key when no managed
      secret holds it, and function-log forwarding on request. */
  function ExtensionSettings(env: map<string, Value>, config: Config, creds: Credentials): map<string, Value>
  {
    if Truthy(config.enableExtension) then
      var e := env[ExtensionEnabledVar := Str("true")];
      var e := if !creds.managedSecretConfigured && Truthy(creds.licenseKey) then e[LicenseKeyVar := creds.licenseKey] else e;
      if Truthy(config.enableFunctionLogs) then e[SendFunctionLogsVar := Str("true")] else e
    else
      env[ExtensionEnabledVar := Str("false")]
  }

  lemma ExtensionSettingsValues(env: map<string, Value>, config: Config, creds: Credentials)
    ensures var r := ExtensionSettings(env, config, creds);
            Get(r, ExtensionEnabledVar) == Str(if Truthy(config.enableExtension) then "true" else "false")
            && (Truthy(config.enableExtension) && !creds.managedSecretConfigured && Truthy(creds.licenseKey)
                ==> Get(r, LicenseKeyVar) == creds.licenseKey)
            && (!(Truthy(config.enableExtension) && !creds.managedSecretConfigured && Truthy(creds.licenseKey))
                ==> Get(r, LicenseKeyVar) == Get(env, LicenseKeyVar))
            && (Truthy(config.enableExtension) && Truthy(config.enableFunctionLogs)
                ==> Get(r, SendFunctionLogsVar) == Str("true"))
            && (!(Truthy(config.enableExtension) && Truthy(config.enableFunctionLogs))
                ==> Get(r, SendFunctionLogsVar) == Get(env, SendFunctionLogsVar))
  {
  }

  lemma ExtensionSettingsFrame(env: map<string, Value>, config: Config, creds: Credentials, k: string)
    requires k !in ExtensionVars
    ensures Get(ExtensionSettings(env, config, creds), k) == Get(env, k)
  {
  }

  /** The identity variables: existing truthy values win; the application
      name defaults to the deployed name, else the function's key; the
      trusted account key defaults to the account id. */
  function IdentitySettings(env: map<string, Value>, config: Config, name: Value, funcName: string)
    : map<string, Value>
  {
    var e := env[NoConfigFileVar := Or(Get(env, NoConfigFileVar), Str("true"))];
    var e := e[AppNameVar := Or(Get(e, AppNameVar), Or(name, Str(funcName)))];
    var e := e[AccountIdVar := Or(Get(e, AccountIdVar), config.accountId)];
    e[TrustedAccountKeyVar := Or(Get(e, TrustedAccountKeyVar), Or(Get(e, AccountIdVar), config.trustedAccountKey))]
  }

  lemma IdentitySettingsValues(env: map<string, Value>, config: Config, name: Value, funcName: string)
    ensures var r := IdentitySettings(env, config, name, funcName);
            Get(r, NoConfigFileVar) == Or(Get(env, NoConfigFileVar), Str("true"))
            && Get(r, AppNameVar) == Or(Get(env, AppNameVar), Or(name, Str(funcName)))
            && Get(r, AccountIdVar) == Or(Get(env, AccountIdVar), config.accountId)
            && Get(r, TrustedAccountKeyVar)
               == Or(Get(env, TrustedAccountKeyVar), Or(Get(r, AccountIdVar), config.trustedAccountKey))
  {
  }

  lemma IdentitySettingsFrame(env: map<string, Value>, config: Config, name: Value, funcName: string, k: string)
    requires k != NoConfigFileVar && k != AppNameVar && k != AccountIdVar && k != TrustedAccountKeyVar
    ensures Get(IdentitySettings(env, config, name, funcName), k) == Get(env, k)
  {
  }

  /** Once the account guard of `addLayer` has passed, the account id
      variable is set, so the trusted account key falls back to it and the
      `trustedAccountKey` option is never read. */
  lemma TrustedKeyFallsBackToAccount(env: map<string, Value>, config: Config, name: Value, funcName: string)
    requires Truthy(config.accountId) || Truthy(Get(env, AccountIdVar))
    ensures Truthy(Get(IdentitySettings(env, config, name, funcName), AccountIdVar))
    ensures !Truthy(Get(env, TrustedAccountKeyVar)) ==>
              Get(IdentitySettings(env, config, name, funcName), TrustedAccountKeyVar)
              == Get(IdentitySettings(env, config, name, funcName), AccountIdVar)
  {
  }

  /** The variables `addLayer` writes before the extension settings, and
      those the extension settings write. */
  const BaseVars: set<string> :=
    {HandlerVar, LogEnabledVar, LogVar, LogLevelVar, NoConfigFileVar, AppNameVar,
     AccountIdVar, TrustedAccountKeyVar, ServerlessModeVar}
  const ExtensionVars: set<string> := {ExtensionEnabledVar, LicenseKeyVar, SendFunctionLogsVar}

  lemma HandlerVarDistinct()
    ensures HandlerVar !in {LogEnabledVar, LogVar, LogLevelVar, NoConfigFileVar, AppNameVar}
    ensures HandlerVar !in {AccountIdVar, TrustedAccountKeyVar, ServerlessModeVar}
    ensures HandlerVar !in ExtensionVars
  {
  }

  lemma ExtensionVarsDistinct()
    ensures LicenseKeyVar !in BaseVars
    ensures ExtensionEnabledVar !in BaseVars
    ensures SendFunctionLogsVar !in BaseVars
  {
  }

  /** The environment before the extension settings, in the order `addLayer`
      writes it: the original handler, the log settings when `logEnabled` is
      the boolean true, the identity variables, and serverless mode for
      Python runtimes. */
  function BaseEnvironment(env: map<string, Value>, handler: Value, name: Value, funcName: string,
                           runtime: string, globalLevel: Value, config: Config)
    : (r: map<string, Value>)
  {
    var e := env[HandlerVar := handler];
    var e := if config.logEnabled == Bool(true) then LogSettings(e, globalLevel, config) else e;
    var e := IdentitySettings(e, config, name, funcName);
    if Contains(runtime, "python") then e[ServerlessModeVar := Str("true")] else e
  }

  /** Only the base variables change; the handler variable holds the
      function's original handler. */
  lemma BaseEnvironmentFrame(env: map<string, Value>, handler: Value, name: Value, funcName: string,
                             runtime: string, globalLevel: Value, config: Config, k: string)
    requires k !in BaseVars || k == HandlerVar
    ensures Get(BaseEnvironment(env, handler, name, funcName, runtime, globalLevel, config), k)
            == if k == HandlerVar then handler else Get(env, k)
  {
    HandlerVarDistinct();
    var e := env[HandlerVar := handler];
    if config.logEnabled == Bool(true) {
      LogSettingsFrame(e, globalLevel, config, k);
    }
    var e2 := if config.logEnabled == Bool(true) then LogSettings(e, globalLevel, config) else e;
    IdentitySettingsFrame(e2, config, name, funcName, k);
  }

  /** The whole environment `addLayer` leaves on an instrumented function. */
  function AttachedEnvironment(env: map<string, Value>, handler: Value, name: Value, funcName: string,
                               runtime: string, globalLevel: Value, config: Config, creds: Credentials)
    : (r: map<string, Value>)
  {
    ExtensionSettings(BaseEnvironment(env, handler, name, funcName, runtime, globalLevel, config), config, creds)
  }

  /** The function's original handler survives in the environment, where the
      wrapper that replaces it looks it up. */
  lemma AttachedEnvironmentKeepsHandler(env: map<string, Value>, handler: Value, name: Value, funcName: string,
                                        runtime: string, globalLevel: Value, config: Config, creds: Credentials)
    ensures Get(AttachedEnvironment(env, handler, name, funcName, runtime, globalLevel, config, creds), HandlerVar) == handler
  {
    HandlerVarDistinct();
    BaseEnvironmentFrame(env, handler, name, funcName, runtime, globalLevel, config, HandlerVar);
    var base := BaseEnvironment(env, handler, name, funcName, runtime, globalLevel, config);
    ExtensionSettingsFrame(base, config, creds, HandlerVar);
  }

  /** Variables that are neither New Relic's base variables nor the
      extension's keep their values. */
  lemma AttachedEnvironmentFrame(env: map<string, Value>, handler: Value, name: Value, funcName: string,
                                 runtime: string, globalLevel: Value, config: Config, creds: Credentials, k: string)
    requires k !in BaseVars && k !in ExtensionVars
    ensures Get(AttachedEnvironment(env, handler, name, funcName, runtime, globalLevel, config, creds), k) == Get(env, k)
  {
    BaseEnvironmentFrame(env, handler, name, funcName, runtime, globalLevel, config, k);
    var base := BaseEnvironment(env, handler, name, funcName, runtime, globalLevel, config);
    ExtensionSettingsFrame(base, config, creds, k);
  }

  /** The identity variables are none of the variables written around them. */
  lemma IdentityVarsApart(k: string)
    requires k in {NoConfigFileVar, AppNameVar, AccountIdVar, TrustedAccountKeyVar}
    ensures k != HandlerVar && k != LogEnabledVar && k != LogVar && k != LogLevelVar && k != ServerlessModeVar
    ensures k !in ExtensionVars
  {
  }

  /** The identity variables of the finished environment: an existing truthy
      value wins over the default, and once the account guard of `addLayer`
      has passed the account id is set and the trusted account key is its
      prior value or else that account id. */
  lemma AttachedEnvironmentIdentity(env: map<string, Value>, handler: Value, name: Value, funcName: string,
                                    runtime: string, globalLevel: Value, config: Config, creds: Credentials)
    requires Truthy(config.accountId) || Truthy(Get(env, AccountIdVar))
    ensures var r := AttachedEnvironment(env, handler, name, funcName, runtime, globalLevel, config, creds);
            Get(r, NoConfigFileVar) == Or(Get(env, NoConfigFileVar), Str("true"))
            && Get(r, AppNameVar) == Or(Get(env, AppNameVar), Or(name, Str(funcName)))
            && Get(r, AccountIdVar) == Or(Get(env, AccountIdVar), config.accountId)
            && Truthy(Get(r, AccountIdVar))
            && Get(r, TrustedAccountKeyVar) == Or(Get(env, TrustedAccountKeyVar), Get(r, AccountIdVar))
  {
    var e0 := env[HandlerVar := handler];
    var e1 := if config.logEnabled == Bool(true) then LogSettings(e0, globalLevel, config) else e0;
    var e2 := IdentitySettings(e1, config, name, funcName);
    var base := BaseEnvironment(env, handler, name, funcName, runtime, globalLevel, config);
    forall k | k in {NoConfigFileVar, AppNameVar, AccountIdVar, TrustedAccountKeyVar}
      ensures Get(e1, k) == Get(env, k)
      ensures Get(base, k) == Get(e2, k)
      ensures Get(AttachedEnvironment(env, handler, name, funcName, runtime, globalLevel, config, creds), k) == Get(base, k)
    {
      IdentityVarsApart(k);
      if config.logEnabled == Bool(true) {
        LogSettingsFrame(e0, globalLevel, config, k);
      }
      ExtensionSettingsFrame(base, config, creds, k);
    }
    IdentitySettingsValues(e1, config, name, funcName);
  }

  /** A license key in the environment comes only from the plugin, only with
      the extension on, and only when no managed secret was set up. */
  lemma LicenseKeyOnlyWithoutSecret(env: map<string, Value>, handler: Value, name: Value, funcName: string,
                                    runtime: string, globalLevel: Value, config: Config, creds: Credentials)
    requires !Truthy(Get(env, LicenseKeyVar))
    ensures var r := AttachedEnvironment(env, handler, name, funcName, runtime, globalLevel, config, creds);
            Truthy(Get(r, LicenseKeyVar)) <==>
              Truthy(config.enableExtension) && !creds.managedSecretConfigured && Truthy(creds.licenseKey)
  {
    ExtensionVarsDistinct();
    BaseEnvironmentFrame(env, handler, name, funcName, runtime, globalLevel, config, LicenseKeyVar);
  }

  // ---------------------------------------------------------------------
  // Handler and packaging

  const NodeWrapper: string := "newrelic-lambda-wrapper.handler"
  const NodeHelperWrapper: string := "newrelic-wrapper-helper.handler"
  const PythonWrapper: string := "newrelic_lambda_wrapper.handler"

  /** `getHandlerWrapper`: the handler of the wrapper for the runtime, or the
      function's own handler for a runtime that has none. */
  function HandlerWrapper(runtime: string, handler: Value): (r: Value)
  {
    if runtime == "nodejs10.x" || runtime == "nodejs12.x" then Str(NodeWrapper)
    else if runtime == "nodejs8.10" then Str(NodeHelperWrapper)
    else if Contains(runtime, "python") then Str(PythonWrapper)
    else handler
  }

  /** The wrapper each runtime of the wrapped list gets: the Node.js 10 and
      12 runtimes the Node.js wrapper, Node.js 8.10 the helper file's
      handler, and the Python runtimes the Python wrapper. */
  lemma WrapperOfEachRuntime(i: nat, handler: Value)
    requires i < |WrappedRuntimes|
    ensures i < 2 ==> HandlerWrapper(WrappedRuntimes[i], handler) == Str(NodeWrapper)
    ensures i == 2 ==> HandlerWrapper(WrappedRuntimes[i], handler) == Str(NodeHelperWrapper)
    ensures 3 <= i ==> HandlerWrapper(WrappedRuntimes[i], handler) == Str(PythonWrapper)
  {
    if 3 <= i {
      assert "python" <= WrappedRuntimes[i];
      PythonRuntimeWrapped(WrappedRuntimes[i], handler);
    }
  }

  /** Any runtime whose name contains "python", listed or not, gets the
      Python wrapper: none of the Node.js names contains it. */
  lemma PythonRuntimeWrapped(runtime: string, handler: Value)
    requires Contains(runtime, "python")
    ensures HandlerWrapper(runtime, handler) == Str(PythonWrapper)
  {
    ContainsHead(runtime, "python");
  }

  /** Every runtime of the wrapped list gets a wrapper. */
  lemma WrappedRuntimesAreWrapped(runtime: string, handler: Value)
    requires runtime in WrappedRuntimes
    ensures HandlerWrapper(runtime, handler) in {Str(NodeWrapper), Str(NodeHelperWrapper), Str(PythonWrapper)}
  {
    if runtime !in ["nodejs10.x", "nodejs12.x", "nodejs8.10"] {
      assert "python" <= runtime;
    }
  }

  /** A runtime outside the wrapped list that does not mention Python keeps
      its own handler: the extension alone instruments it. */
  lemma UnwrappedRuntimeKeepsHandler(runtime: string, handler: Value)
    requires runtime !in WrappedRuntimes && !Contains(runtime, "python")
    ensures HandlerWrapper(runtime, handler) == handler
  {
    assert runtime != "nodejs10.x" && runtime != "nodejs12.x" && runtime != "nodejs8.10" by {
      assert WrappedRuntimes[0] == "nodejs10.x" && WrappedRuntimes[1] == "nodejs12.x";
      assert WrappedRuntimes[2] == "nodejs8.10";
    }
  }

  /** A function's `package` section: its `exclude` list and its other
      settings. */
  datatype Package = Package(exclude: Option<seq<Value>>, others: map<string, Value>)

  const HelperExclude: string := "!newrelic-wrapper-helper.js"

  function Excludes(pkg: Package): seq<Value>
  {
    if pkg.exclude.Some? then pkg.exclude.value else []
  }

  /** `updatePackageExcludes`: Node.js functions get the helper file's
      negated exclusion appended; other packages are returned as they are. */
  function PackageExcludes(runtime: string, pkg: Package): (r: Package)
    ensures !Contains(runtime, "nodejs") ==> r == pkg
    ensures Contains(runtime, "nodejs") ==> r.others == pkg.others && r.exclude.Some?
    ensures Contains(runtime, "nodejs") ==> Excludes(pkg) <= Excludes(r)
    ensures Contains(runtime, "nodejs") ==>
              |Excludes(r)| == |Excludes(pkg)| + 1 && Excludes(r)[|Excludes(pkg)|] == Str(HelperExclude)
    ensures Contains(runtime, "nodejs") ==>
              multiset(Excludes(r))[Str(HelperExclude)] == multiset(Excludes(pkg))[Str(HelperExclude)] + 1
  {
    if !Contains(runtime, "nodejs") then pkg
    else Package(Some(Excludes(pkg) + [Str(HelperExclude)]), pkg.others)
  }

  /** The entry is not deduplicated: packaging twice lists it twice more. */
  lemma PackageExcludesRepeats(runtime: string, pkg: Package)
    requires Contains(runtime, "nodejs")
    ensures multiset(Excludes(PackageExcludes(runtime, PackageExcludes(runtime, pkg))))[Str(HelperExclude)]
            == multiset(Excludes(pkg))[Str(HelperExclude)] + 2
  {
  }

  // ---------------------------------------------------------------------
  // A whole `addLayer`

  /** The fields of a function definition that `addLayer` reads or writes.
      `None` stands for a field the definition does not declare. */
  datatype Definition = Definition(
    name: Value,
    handler: Value,
    runtime: Value,
    layers: Option<seq<Value>>,
    environment: Option<map<string, Value>>,
    pkg: Option<Package>)

  /** The provider settings `addLayer` reads: the region the plugin keeps
      (see `ProviderRegion`), the provider-wide runtime and the provider-wide
      environment's log level. */
  datatype Service = Service(region: string, runtime: Value, globalLogLevel: Value)

  const DefaultRegion: string := "us-east-1"

  /** The region the plugin keeps: the provider's `region` setting, or
      "us-east-1" when the service sets none. */
  function ProviderRegion(configured: Option<string>): string
  {
    if configured.Some? then configured.value else DefaultRegion
  }

  /** `addLayer` reports a missing region only when the service sets the
      region explicitly to the empty string; an unset region takes the
      default. */
  lemma NoRegionOnlyWhenSetEmpty(configured: Option<string>, config: Config, env: map<string, Value>,
                                 runtime: Value, funcName: string)
    ensures AddLayerSkip(ProviderRegion(configured), config, env, runtime, funcName) == Some(NoRegion)
            <==> configured == Some("")
  {
  }

  function DeclaredLayers(d: Definition): seq<Value>
  {
    if d.layers.Some? then d.layers.value else []
  }

  function DeclaredEnvironment(d: Definition): map<string, Value>
  {
    if d.environment.Some? then d.environment.value else map[]
  }

  function DeclaredPackage(d: Definition): Package
  {
    if d.pkg.Some? then d.pkg.value else Package(None, map[])
  }

  /** Why `addLayer` would leave the definition alone, if it would. */
  function SkipOf(d: Definition, funcName: string, service: Service, config: Config): Option<Skip>
  {
    AddLayerSkip(service.region, config, DeclaredEnvironment(d), Runtime(d.runtime, service.runtime), funcName)
  }

  /** The definition after `addLayer` has instrumented it: the layer
      attached unless one matches already, the environment completed, the
      handler replaced by the runtime's wrapper, the package excludes
      updated. The name and runtime are never written. */
  function Attached(d: Definition, funcName: string, service: Service, config: Config, creds: Credentials,
                    fetchedArn: Value): (r: Definition)
    requires Runtime(d.runtime, service.runtime).Str?
    ensures r.name == d.name && r.runtime == d.runtime
    ensures r.environment.Some? && r.pkg.Some?
    ensures Get(r.environment.value, HandlerVar) == d.handler
    ensures AlreadyLayered(DeclaredLayers(d), LayerArn(config, fetchedArn)) ==> r.layers == d.layers
    ensures !AlreadyLayered(DeclaredLayers(d), LayerArn(config, fetchedArn)) ==>
              r.layers == Some(AttachLayer(DeclaredLayers(d), LayerArn(config, fetchedArn), config.prepend))
  {
    var runtime := Runtime(d.runtime, service.runtime).s;
    var arn := LayerArn(config, fetchedArn);
    var layers := if AlreadyLayered(DeclaredLayers(d), arn) then d.layers
                  else Some(AttachLayer(DeclaredLayers(d), arn, config.prepend));
    var env := AttachedEnvironment(DeclaredEnvironment(d), d.handler, d.name, funcName, runtime,
                                   service.globalLogLevel, config, creds);
    AttachedEnvironmentKeepsHandler(DeclaredEnvironment(d), d.handler, d.name, funcName, runtime,
                                    service.globalLogLevel, config, creds);
    Definition(d.name, HandlerWrapper(runtime, d.handler), d.runtime, layers, Some(env),
               Some(PackageExcludes(runtime, DeclaredPackage(d))))
  }

  /** `Attached` component by component, for callers that build the
      definition one field at a time. */
  lemma AttachedParts(d: Definition, funcName: string, service: Service, config: Config, creds: Credentials,
                      fetchedArn: Value)
    requires Runtime(d.runtime, service.runtime).Str?
    ensures var runtime := Runtime(d.runtime, service.runtime).s;
            var arn := LayerArn(config, fetchedArn);
            Attached(d, funcName, service, config, creds, fetchedArn)
            == Definition(d.name, HandlerWrapper(runtime, d.handler), d.runtime,
                          if AlreadyLayered(DeclaredLayers(d), arn) then d.layers
                          else Some(AttachLayer(DeclaredLayers(d), arn, config.prepend)),
                          Some(AttachedEnvironment(DeclaredEnvironment(d), d.handler, d.name, funcName, runtime,
                                                   service.globalLogLevel, config, creds)),
                          Some(PackageExcludes(runtime, DeclaredPackage(d))))
  {
  }

  /** `addLayer` on one definition, skipped or not. */
  function AddLayerResult(d: Definition, funcName: string, service: Service, config: Config, creds: Credentials,
                          fetchedArn: Value): (r: Definition)
    ensures SkipOf(d, funcName, service, config).Some? ==> r == d
  {
    if SkipOf(d, funcName, service, config).Some? then d
    else Attached(d, funcName, service, config, creds, fetchedArn)
  }

  /** A second `addLayer` with a string layer ARN leaves the layers of the
      first one as they are: deploying again attaches no second copy. */
  lemma RepeatedAddLayerKeepsLayers(d: Definition, funcName: string, service: Service, config: Config,
                                    creds: Credentials, fetchedArn: Value)
    requires LayerArn(config, fetchedArn).Str?
    ensures var once := AddLayerResult(d, funcName, service, config, creds, fetchedArn);
            AddLayerResult(once, funcName, service, config, creds, fetchedArn).layers == once.layers
  {
    var arn := LayerArn(config, fetchedArn);
    var once := AddLayerResult(d, funcName, service, config, creds, fetchedArn);
    if SkipOf(d, funcName, service, config) == None && SkipOf(once, funcName, service, config) == None {
      if !AlreadyLayered(DeclaredLayers(d), arn) {
        LayerAddedOnce(DeclaredLayers(d), arn, config.prepend);
      }
      assert AlreadyLayered(DeclaredLayers(once), arn);
    }
  }

  /** `addLayer` on each definition of a list, in order, with the same
      options and credentials. */
  function AddLayerResults(ds: seq<Definition>, funcNames: seq<string>, service: Service, config: Config,
                           creds: Credentials, fetchedArns: seq<Value>): (r: seq<Definition>)
    requires |funcNames| == |ds| && |fetchedArns| == |ds|
    ensures |r| == |ds|
  {
    seq(|ds|, i requires 0 <= i < |ds| => AddLayerResult(ds[i], funcNames[i], service, config, creds, fetchedArns[i]))
  }

  /** Why `addLayer` would skip each definition of a list, if it would. */
  function SkipsOf(ds: seq<Definition>, funcNames: seq<string>, service: Service, config: Config)
    : (r: seq<Option<Skip>>)
    requires |funcNames| == |ds|
    ensures |r| == |ds|
  {
    seq(|ds|, i requires 0 <= i < |ds| => SkipOf(ds[i], funcNames[i], service, config))
  }

  lemma SkipIgnoresSubscriptionOption(d: Definition, funcName: string, service: Service, config: Config, b: Value)
    ensures SkipOf(d, funcName, service, config.(disableAutoSubscription := b)) == SkipOf(d, funcName, service, config)
  {
    var c := config.(disableAutoSubscription := b);
    assert ShouldSkipFunction(c, funcName) == ShouldSkipFunction(config, funcName);
  }

  lemma LogSettingsIgnoreSubscriptionOption(env: map<string, Value>, globalLevel: Value, config: Config, b: Value)
    ensures LogSettings(env, globalLevel, config.(disableAutoSubscription := b)) == LogSettings(env, globalLevel, config)
  {
    assert DefaultLogLevel(globalLevel, config.(disableAutoSubscription := b)) == DefaultLogLevel(globalLevel, config);
  }

  lemma IdentityIgnoresSubscriptionOption(env: map<string, Value>, config: Config, name: Value, funcName: string,
                                          b: Value)
    ensures IdentitySettings(env, config.(disableAutoSubscription := b), name, funcName)
            == IdentitySettings(env, config, name, funcName)
  {
  }

  lemma BaseIgnoresSubscriptionOption(env: map<string, Value>, handler: Value, name: Value, funcName: string,
                                      runtime: string, globalLevel: Value, config: Config, b: Value)
    ensures BaseEnvironment(env, handler, name, funcName, runtime, globalLevel, config.(disableAutoSubscription := b))
            == BaseEnvironment(env, handler, name, funcName, runtime, globalLevel, config)
  {
    var c := config.(disableAutoSubscription := b);
    var e := env[HandlerVar := handler];
    LogSettingsIgnoreSubscriptionOption(e, globalLevel, config, b);
    var e2 := if config.logEnabled == Bool(true) then LogSettings(e, globalLevel, config) else e;
    IdentityIgnoresSubscriptionOption(e2, config, name, funcName, b);
  }

  lemma EnvironmentIgnoresSubscriptionOption(env: map<string, Value>, handler: Value, name: Value, funcName: string,
                                             runtime: string, globalLevel: Value, config: Config, creds: Credentials,
                                             b: Value)
    ensures var c := config.(disableAutoSubscription := b);
            AttachedEnvironment(env, handler, name, funcName, runtime, globalLevel, c, creds)
            == AttachedEnvironment(env, handler, name, funcName, runtime, globalLevel, config, creds)
  {
    var c := config.(disableAutoSubscription := b);
    BaseIgnoresSubscriptionOption(env, handler, name, funcName, runtime, globalLevel, config, b);
    var base := BaseEnvironment(env, handler, name, funcName, runtime, globalLevel, config);
    assert ExtensionSettings(base, c, creds) == ExtensionSettings(base, config, creds);
  }

  /** `addLayer` never reads the `disableAutoSubscription` option, so its
      own write of that option does not change what later calls do. */
  lemma AddLayerIgnoresSubscriptionOption(d: Definition, funcName: string, service: Service, config: Config,
                                          creds: Credentials, fetchedArn: Value, b: Value)
    ensures var c := config.(disableAutoSubscription := b);
            SkipOf(d, funcName, service, c) == SkipOf(d, funcName, service, config)
            && AddLayerResult(d, funcName, service, c, creds, fetchedArn)
               == AddLayerResult(d, funcName, service, config, creds, fetchedArn)
  {
    SkipIgnoresSubscriptionOption(d, funcName, service, config, b);
    if SkipOf(d, funcName, service, config) == None {
      EnvironmentIgnoresSubscriptionOption(DeclaredEnvironment(d), d.handler, d.name, funcName,
                                           Runtime(d.runtime, service.runtime).s, service.globalLogLevel,
                                           config, creds, b);
    }
  }

  // ---------------------------------------------------------------------
  // Log subscriptions

  const DefaultFilterPatterns: seq<Value> :=
    [Str("REPORT"), Str("NR_LAMBDA_MONITORING"), Str("Task timed out"), Str("RequestId")]

  /** One filter term: the value, quoted, marked optional. */
  function FilterTerms(xs: seq<Value>): (r: seq<string>)
    ensures |r| == |xs|
  {
    if xs == [] then [] else ["?" + Quoted(Show(xs[0]))] + FilterTerms(xs[1..])
  }

  /** The CloudWatch filter pattern built from the `cloudWatchFilter` option
      (the default terms when it is unset): a list becomes its elements as
      optional quoted terms, a string is used as it is, and a "*" in either
      means every event (the empty pattern). A `null`, a boolean or a number
      has no `indexOf` and makes the step throw. */
  function FilterString(filter: Value): (r: Completion<string>)
    ensures r.Thrown? <==> filter.Null? || filter.Bool? || filter.Num?
    ensures filter.Str? ==> r == Normal(if '*' in filter.s then "" else filter.s)
    ensures filter.Arr? && Str("*") in filter.items ==> r == Normal("")
  {
    var f := if filter.Undefined? then Arr(DefaultFilterPatterns) else filter;
    match f
    case Arr(xs) =>
      if IndexOf(xs, Str("*")) == -1 then Normal(Join(FilterTerms(xs), " ")) else Normal("")
    case Str(s) =>
      if '*' in s then Normal("") else Normal(s)
    case _ => Thrown
  }

  function Shows(xs: seq<Value>): (r: seq<string>)
    ensures |r| == |xs| && forall i :: 0 <= i < |xs| ==> r[i] == Show(xs[i])
  {
    if xs == [] then [] else [Show(xs[0])] + Shows(xs[1..])
  }

  lemma {:induction false} FilterTermsQuoted(xs: seq<Value>)
    requires forall i :: 0 <= i < |xs| ==> '"' !in Show(xs[i])
    ensures QuotedStrings(Join(FilterTerms(xs), " ")) == Shows(xs)
  {
    if xs == [] {
      QuotedStringsNone("");
    } else {
      var rest := xs[1..];
      var later := Join(FilterTerms(rest), " ");
      FilterTermsQuoted(rest);
      var w := Show(xs[0]);
      if rest == [] {
        assert Join(FilterTerms(xs), " ") == "?" + Quoted(w) + "";
        QuotedStringsCons("?", w, "");
        QuotedStringsNone("");
      } else {
        assert Join(FilterTerms(xs), " ") == "?" + Quoted(w) + (" " + later);
        QuotedStringsCons("?", w, " " + later);
        QuotedStringsSkipPlain(" ", later);
      }
      assert Shows(xs) == [w] + Shows(rest);
    }
  }

  /** A list without "*" becomes its optional quoted terms joined by
      spaces. */
  lemma FilterStringOfList(xs: seq<Value>)
    requires Str("*") !in xs
    ensures FilterString(Arr(xs)) == Normal(Join(FilterTerms(xs), " "))
  {
    var k := IndexOf(xs, Str("*"));
    assert k == -1;
  }

  /** A list without "*" whose values print without a double quote gives a
      pattern whose quoted terms are exactly those values, in order. */
  lemma FilterListRoundTrip(xs: seq<Value>) returns (pattern: string)
    requires Str("*") !in xs
    requires forall i :: 0 <= i < |xs| ==> '"' !in Show(xs[i])
    ensures FilterString(Arr(xs)) == Normal(pattern)
    ensures QuotedStrings(pattern) == Shows(xs)
  {
    FilterStringOfList(xs);
    FilterTermsQuoted(xs);
    pattern := Join(FilterTerms(xs), " ");
  }

  /** Unset, the option stands for the four default terms, which meet the
      conditions of the round trip above. */
  lemma DefaultFilterTerms()
    ensures FilterString(Undefined) == FilterString(Arr(DefaultFilterPatterns))
    ensures Str("*") !in DefaultFilterPatterns
    ensures forall i :: 0 <= i < |DefaultFilterPatterns| ==> '"' !in Show(DefaultFilterPatterns[i])
  {
    DefaultTermsQuoteFree();
  }

  lemma DefaultTermsQuoteFree()
    ensures forall i :: 0 <= i < |DefaultFilterPatterns| ==> '"' !in Show(DefaultFilterPatterns[i])
  {
    forall i | 0 <= i < |DefaultFilterPatterns|
      ensures '"' !in Show(DefaultFilterPatterns[i])
    {
      var v := DefaultFilterPatterns[i];
      assert Show(v) == v.s;
    }
  }

  const NewRelicFilterName: string := "NewRelicLogStreaming"

  /** A subscription filter found on a function's log group. */
  datatype Filter = Filter(filterName: Value, filterPattern: Value)

  /** The filter calls `ensureLogSubscription` issues, in the order it
      starts them. */
  datatype FilterCall = RemoveFilter | AddFilter

  /** Whether to warn about filters New Relic did not install, and the calls
      to make. */
  datatype Plan = Plan(warning: bool, calls: seq<FilterCall>)

  predicate IsNewRelicFilter(f: Filter)
  {
    StrictEquals(f.filterName, Str(NewRelicFilterName))
  }

  function Competing(filters: seq<Filter>): (r: seq<Filter>)
    ensures forall f :: f in r <==> f in filters && !IsNewRelicFilter(f)
  {
    if filters == [] then []
    else (if IsNewRelicFilter(filters[0]) then [] else [filters[0]]) + Competing(filters[1..])
  }

  function Existing(filters: seq<Filter>): (r: seq<Filter>)
    ensures forall f :: f in r <==> f in filters && IsNewRelicFilter(f)
  {
    if filters == [] then []
    else (if IsNewRelicFilter(filters[0]) then [filters[0]] else []) + Existing(filters[1..])
  }

  /** The New Relic filters whose pattern differs from the wanted one. */
  function Stale(filters: seq<Filter>, pattern: string): (r: seq<Filter>)
    ensures forall f :: f in r <==> f in filters && !StrictEquals(f.filterPattern, Str(pattern))
    ensures (forall f :: f in filters ==> StrictEquals(f.filterPattern, Str(pattern))) ==> r == []
  {
    if filters == [] then []
    else (if StrictEquals(filters[0].filterPattern, Str(pattern)) then [] else [filters[0]])
         + Stale(filters[1..], pattern)
  }

  /** Each filter that is not New Relic's is kept as often as it occurs. */
  lemma {:induction false} CompetingCount(filters: seq<Filter>, f: Filter)
    ensures multiset(Competing(filters))[f] == if IsNewRelicFilter(f) then 0 else multiset(filters)[f]
  {
    if filters != [] {
      CompetingCount(filters[1..], f);
      assert filters == [filters[0]] + filters[1..];
    }
  }

  /** Each New Relic filter is kept as often as it occurs. */
  lemma {:induction false} ExistingCount(filters: seq<Filter>, f: Filter)
    ensures multiset(Existing(filters))[f] == if IsNewRelicFilter(f) then multiset(filters)[f] else 0
  {
    if filters != [] {
      ExistingCount(filters[1..], f);
      assert filters == [filters[0]] + filters[1..];
    }
  }

  /** Each filter with another pattern is kept as often as it occurs. */
  lemma {:induction false} StaleCount(filters: seq<Filter>, pattern: string, f: Filter)
    ensures multiset(Stale(filters, pattern))[f]
            == if StrictEquals(f.filterPattern, Str(pattern)) then 0 else multiset(filters)[f]
  {
    if filters != [] {
      StaleCount(filters[1..], pattern, f);
      assert filters == [filters[0]] + filters[1..];
    }
  }

  /** The filters `ensureLogSubscription` replaces are the New Relic filters
      with another pattern, each as often as it occurs on the log group. */
  lemma StaleNewRelicCount(filters: seq<Filter>, pattern: string, f: Filter)
    ensures multiset(Stale(Existing(filters), pattern))[f]
            == if IsNewRelicFilter(f) && !StrictEquals(f.filterPattern, Str(pattern)) then multiset(filters)[f] else 0
  {
    StaleCount(Existing(filters), pattern, f);
    ExistingCount(filters, f);
  }

  function Repeat(call: FilterCall, n: nat): (r: seq<FilterCall>)
    ensures |r| == n && forall i :: 0 <= i < n ==> r[i] == call
  {
    if n == 0 then [] else [call] + Repeat(call, n - 1)
  }

  lemma CompetingWitness(filters: seq<Filter>)
    ensures |Competing(filters)| > 0 <==> exists f :: f in filters && !IsNewRelicFilter(f)
  {
    if |Competing(filters)| > 0 {
      assert Competing(filters)[0] in Competing(filters);
    }
  }

  /** The classification step of `ensureLogSubscription`, given the filters
      on the function's log group and the wanted pattern. */
  function SubscriptionPlan(filters: seq<Filter>, pattern: string): (r: Plan)
    ensures r.warning <==> exists f :: f in filters && !IsNewRelicFilter(f)
  {
    var existing := Existing(filters);
    var stale := Stale(existing, pattern);
    var warning := |Competing(filters)| > 0;
    CompetingWitness(filters);
    if |existing| > 0 then
      Plan(warning, Repeat(RemoveFilter, |stale|) + Repeat(AddFilter, |stale|))
    else
      Plan(warning, [AddFilter])
  }

  /** With no New Relic filter yet, exactly one is added. */
  lemma FirstSubscriptionAdds(filters: seq<Filter>, pattern: string)
    requires forall f :: f in filters ==> !IsNewRelicFilter(f)
    ensures SubscriptionPlan(filters, pattern).calls == [AddFilter]
  {
    if |Existing(filters)| > 0 {
      assert Existing(filters)[0] in Existing(filters);
    }
  }

  /** A function already subscribed with the wanted pattern needs no call. */
  lemma CurrentSubscriptionKept(filters: seq<Filter>, pattern: string)
    requires exists f :: f in filters && IsNewRelicFilter(f)
    requires forall f :: f in filters && IsNewRelicFilter(f) ==> f.filterPattern == Str(pattern)
    ensures SubscriptionPlan(filters, pattern).calls == []
  {
    var f :| f in filters && IsNewRelicFilter(f);
    assert f in Existing(filters);
  }

  /** Every stale New Relic filter is removed and replaced, all removals
      started before any addition. */
  lemma StaleSubscriptionsReplaced(filters: seq<Filter>, pattern: string)
    requires exists f :: f in filters && IsNewRelicFilter(f)
    ensures var calls := SubscriptionPlan(filters, pattern).calls;
            var n := |Stale(Existing(filters), pattern)|;
            |calls| == 2 * n
            && (forall i :: 0 <= i < n ==> calls[i] == RemoveFilter)
            && (forall i :: n <= i < 2 * n ==> calls[i] == AddFilter)
  {
    var f :| f in filters && IsNewRelicFilter(f);
    assert f in Existing(filters);
  }

  /** How many functions `addLogSubscriptions` subscribes, in declaration
      order: the loop returns at the first function that is not selected, so
      exactly the functions before it are subscribed. */
  function SubscribedCount(config: Config, funcNames: seq<string>): (n: nat)
    ensures n <= |funcNames|
    ensures forall i :: 0 <= i < n ==> !ShouldSkipFunction(config, funcNames[i])
    ensures n < |funcNames| ==> ShouldSkipFunction(config, funcNames[n])
  {
    if funcNames == [] || ShouldSkipFunction(config, funcNames[0]) then 0
    else 1 + SubscribedCount(config, funcNames[1..])
  }

  /** An excluded function listed first leaves every function without a
      subscription, whatever is selected after it. */
  lemma ExcludedFunctionStopsSubscriptions(config: Config, funcNames: seq<string>)
    requires funcNames != [] && config.excludeFunctions.Arr? && Str(funcNames[0]) in config.excludeFunctions.items
    ensures SubscribedCount(config, funcNames) == 0
  {
  }

  // ---------------------------------------------------------------------
  // The gates of `run`

  /** Why `run` stops before touching any function. */
  datatype Halt = FrameworkTooOld | PluginOrder | IncludeAndExclude

  const WebpackPlugin: string := "serverless-webpack"
  const ThisPlugin: string := "serverless-newrelic-lambda-layers"

  /** The gates of `run`, in order: a framework older than 1.34.0, the
      webpack plugin listed after this one, and both `include` and `exclude`
      set. */
  function RunHalt(supportsLayers: bool, plugins: seq<Value>, config: Config): (r: Option<Halt>)
    ensures !supportsLayers <==> r == Some(FrameworkTooOld)
    ensures r == None ==> IsEmpty(config.includeFunctions) || IsEmpty(config.excludeFunctions)
    ensures supportsLayers && !IsEmpty(config.includeFunctions) && !IsEmpty(config.excludeFunctions)
            ==> r.Some?
    ensures supportsLayers ==>
              (r == Some(PluginOrder) <==> IndexOf(plugins, Str(WebpackPlugin)) > IndexOf(plugins, Str(ThisPlugin)))
    ensures r == None <==>
              supportsLayers && IndexOf(plugins, Str(WebpackPlugin)) <= IndexOf(plugins, Str(ThisPlugin))
              && (IsEmpty(config.includeFunctions) || IsEmpty(config.excludeFunctions))
  {
    if !supportsLayers then Some(FrameworkTooOld)
    else if IndexOf(plugins, Str(WebpackPlugin)) > IndexOf(plugins, Str(ThisPlugin)) then Some(PluginOrder)
    else if !IsEmpty(config.excludeFunctions) && !IsEmpty(config.includeFunctions) then Some(IncludeAndExclude)
    else None
  }

  /** With both plugins listed, `run` goes on exactly when webpack comes
      first. */
  lemma WebpackMustComeFirst(plugins: seq<Value>, config: Config, i: nat, j: nat)
    requires i < |plugins| && j < |plugins|
    requires plugins[i] == Str(WebpackPlugin) && plugins[j] == Str(ThisPlugin)
    requires IsEmpty(config.includeFunctions) || IsEmpty(config.excludeFunctions)
    ensures RunHalt(true, plugins, config) == None <==> IndexOf(plugins, Str(WebpackPlugin)) < IndexOf(plugins, Str(ThisPlugin))
  {
    assert StrictEquals(plugins[i], Str(WebpackPlugin)) && StrictEquals(plugins[j], Str(ThisPlugin));
  }

  /** Webpack listed without this plugin stops `run` too. */
  /** Without webpack in the plugin list, `run` goes on on a supporting
      framework unless both `include` and `exclude` are set. */
  lemma WebpackAbsentGoesOn(plugins: seq<Value>, config: Config)
    requires Str(WebpackPlugin) !in plugins
    requires IsEmpty(config.includeFunctions) || IsEmpty(config.excludeFunctions)
    ensures RunHalt(true, plugins, config) == None
  {
  }

  lemma WebpackWithoutThisPluginHalts(plugins: seq<Value>, config: Config, i: nat)
    requires i < |plugins| && plugins[i] == Str(WebpackPlugin)
    requires Str(ThisPlugin) !in plugins
    ensures RunHalt(true, plugins, config) == Some(PluginOrder)
  {
    assert StrictEquals(plugins[i], Str(WebpackPlugin));
  }
}
