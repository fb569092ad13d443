/** The plugin object and the function definitions it updates in place.
    Remote answers (the layer lookup, the license-key query, the secret
    stack) are parameters; the framework's logging is left out. */
module Plugin {
  import opened Js
  import opened Settings
  import opened Attach
  import Text
  import Api
  import Integration

  /** A log subscription `addLogSubscriptions` starts: the deployed function
      name and the filter pattern. */
  datatype Subscription = Subscription(functionName: Value, pattern: string)

  /** The license key `retrieveLicenseKey` reads from a query answer:
      `data.actor.account.licenseKey`, or `null` when the path is missing. */
  function RetrievedLicenseKey(reply: Api.Reply<Value>): (r: Value)
    requires reply.Answered?
    ensures reply.section.Present? && !reply.section.value.Undefined? ==> r == reply.section.value
    ensures !(reply.section.Present? && !reply.section.value.Undefined?) ==> r == Null
  {
    match reply.section
    case Present(v) => if v.Undefined? then Null else v
    case _ => Null
  }

  /** The options as `run` leaves them before attaching layers: the
      extension is switched on unless it is explicitly the boolean false. */
  function ExtensionDefaulted(config: Config, hasConfig: bool): (r: Config)
    ensures config.enableExtension != Bool(false) && hasConfig ==> r == config.(enableExtension := Bool(true))
    ensures config.enableExtension == Bool(false) || !hasConfig ==> r == config
  {
    if config.enableExtension != Bool(false) && hasConfig then config.(enableExtension := Bool(true)) else config
  }

  /** Whether `run`'s license step rejects: the extension is on, no key is
      held yet, and the license-key query fails. */
  predicate LicenseFails(config: Config, licenseKey: Value, keyReply: Api.Reply<Value>)
  {
    config.enableExtension != Bool(false) && !Truthy(licenseKey) && keyReply.TransportError?
  }

  /** The options after `addLayer` calls of which at least one
      instrumented a function (`attached`): with function logs under the
      extension, the automatic subscription is switched off, when the options
      section exists to keep the write. */
  function AfterAddLayer(config: Config, hasConfig: bool, attached: bool): (r: Config)
    ensures r.enableExtension == config.enableExtension && r.enableFunctionLogs == config.enableFunctionLogs
    ensures r == config || r == config.(disableAutoSubscription := Bool(true))
    ensures r.disableAutoSubscription == Bool(true) <==>
              config.disableAutoSubscription == Bool(true)
              || (hasConfig && Truthy(config.enableExtension) && Truthy(config.enableFunctionLogs) && attached)
    ensures !(hasConfig && Truthy(config.enableExtension) && Truthy(config.enableFunctionLogs) && attached) ==> r == config
  {
    if hasConfig && Truthy(config.enableExtension) && Truthy(config.enableFunctionLogs) && attached
    then config.(disableAutoSubscription := Bool(true)) else config
  }

  /** With function logs sent by the extension, a `run` that instruments
      at least one function switches the automatic subscription off, so
      `addLogSubscriptions` subscribes nothing afterwards. */
  lemma FunctionLogsDisableAutoSubscription(config: Config, skips: seq<Option<Skip>>)
    requires config.enableExtension != Bool(false) && Truthy(config.enableFunctionLogs)
    requires None in skips
    ensures AfterAddLayer(ExtensionDefaulted(config, true), true, None in skips).disableAutoSubscription == Bool(true)
  {
  }

  /** Two rounds of `addLayer` leave the options as one round over both. */
  lemma AfterAddLayerComposes(config: Config, hasConfig: bool, a: bool, b: bool)
    ensures AfterAddLayer(AfterAddLayer(config, hasConfig, a), hasConfig, b) == AfterAddLayer(config, hasConfig, a || b)
  {
  }


  /** Writing the `i`-th element of `a` over a sequence that agrees with `a`
      before `i` and with `b` from `i` on moves the boundary one step. */
  lemma SpliceStep<T>(a: seq<T>, b: seq<T>, i: nat)
    requires |a| == |b| && i < |a|
    ensures (a[..i] + b[i..])[i := a[i]] == a[..i + 1] + b[i + 1..]
  {
    assert a[..i + 1] == a[..i] + [a[i]];
    assert b[i..] == [b[i]] + b[i + 1..];
  }

  lemma PrefixStep<T>(s: seq<T>, i: nat)
    requires i < |s|
    ensures s[..i + 1] == s[..i] + [s[i]]
  {
  }

  lemma SpliceDone<T>(a: seq<T>, b: seq<T>)
    requires |a| == |b|
    ensures a[..|a|] + b[|a|..] == a
  {
  }

  class LayerPlugin {
    /** Whether the service declares a `custom.newRelic` section. Without
        one, the `config` getter hands out a fresh empty object on every
        read, so nothing written to it is kept. */
    const hasConfig: bool
    var config: Config
    const service: Service
    const stage: Value
    /** The keys of the service's functions, in the order `Object.keys`
        lists them, and their definitions at the same positions. `addLayer`
        rewrites a definition by writing its position. */
    const functionNames: seq<string>
    var functions: seq<Definition>
    /** `shouldSkipPlugin`, evaluated once at construction: no hooks are
        registered when it is true, and construction fails when it throws. */
    const skipped: Completion<bool>
    var licenseKey: Value
    var managedSecretConfigured: bool

    predicate Valid()
      reads this
    {
      (!hasConfig ==> config == Unset) && |functions| == |functionNames|
    }

    constructor (hasConfig: bool, config: Config, configuredRegion: Option<string>, runtime: Value,
                 globalLogLevel: Value, stage: Value, functionNames: seq<string>, functions: seq<Definition>)
      requires !hasConfig ==> config == Unset
      requires |functions| == |functionNames|
      ensures Valid()
      ensures this.hasConfig == hasConfig && this.config == config
      ensures service == Service(ProviderRegion(configuredRegion), runtime, globalLogLevel) && this.stage == stage
      ensures this.functionNames == functionNames && this.functions == functions
      ensures skipped == ShouldSkipPlugin(config, stage)
      ensures licenseKey == Null && !managedSecretConfigured
    {
      this.hasConfig := hasConfig;
      this.config := config;
      service := Service(ProviderRegion(configuredRegion), runtime, globalLogLevel);
      this.stage := stage;
      this.functionNames := functionNames;
      this.functions := functions;
      skipped := ShouldSkipPlugin(config, stage);
      licenseKey := Null;
      managedSecretConfigured := false;
    }

    /** A write through the `config` getter: kept only when the section
        exists. */
    method WriteConfig(c: Config)
      modifies this`config
      ensures config == if hasConfig then c else old(config)
    {
      if hasConfig {
        config := c;
      }
    }

    /** `logLevel` on a function's environment. */
    method LogLevel(env: map<string, Value>) returns (r: map<string, Value>)
      ensures r == LogSettings(env, service.globalLogLevel, config)
    {
      r := env[LogEnabledVar := Str("true")];
      r := r[LogVar := if Truthy(Get(r, LogVar)) then r[LogVar] else Str("stdout")];
      if !Truthy(Get(r, LogLevelVar)) {
        var globalLevel := service.globalLogLevel;
        if Truthy(globalLevel) {
          r := r[LogLevelVar := globalLevel];
        } else if Truthy(config.logLevel) {
          r := r[LogLevelVar := config.logLevel];
        } else if Truthy(config.debug) {
          r := r[LogLevelVar := Str("debug")];
        } else {
          r := r[LogLevelVar := Str("error")];
        }
      }
    }

    /** The environment writes of `addLayer`, in its order. The extension
        settings come last; the `disableAutoSubscription` write that goes
        with function logs is left to the caller. */
    method CompleteEnvironment(env: map<string, Value>, handler: Value, name: Value, funcName: string, runtime: string)
      returns (r: map<string, Value>)
      ensures r == AttachedEnvironment(env, handler, name, funcName, runtime, service.globalLogLevel, config,
                                       Credentials(licenseKey, managedSecretConfigured))
    {
      r := env[HandlerVar := handler];
      if config.logEnabled == Bool(true) {
        r := LogLevel(r);
      }
      r := IdentityDefaults(r, name, funcName);
      if Text.Contains(runtime, "python") {
        r := r[ServerlessModeVar := Str("true")];
      }
      assert r == BaseEnvironment(env, handler, name, funcName, runtime, service.globalLogLevel, config);
      r := ExtensionFlags(r);
    }

    /** The identity variables of `addLayer`: each keeps a truthy value or
        takes its default. */
    method IdentityDefaults(env: map<string, Value>, name: Value, funcName: string) returns (r: map<string, Value>)
      ensures r == IdentitySettings(env, config, name, funcName)
    {
      r := env[NoConfigFileVar := Or(Get(env, NoConfigFileVar), Str("true"))];
      r := r[AppNameVar := Or(Get(r, AppNameVar), Or(name, Str(funcName)))];
      r := r[AccountIdVar := Or(Get(r, AccountIdVar), config.accountId)];
      r := r[TrustedAccountKeyVar := Or(Get(r, TrustedAccountKeyVar), Or(Get(r, AccountIdVar), config.trustedAccountKey))];
    }

    /** The extension variables of `addLayer`, written from the options and
        the plugin's license key and managed-secret flag. */
    method ExtensionFlags(env: map<string, Value>) returns (r: map<string, Value>)
      ensures r == ExtensionSettings(env, config, Credentials(licenseKey, managedSecretConfigured))
    {
      r := env;
      if Truthy(config.enableExtension) {
        r := r[ExtensionEnabledVar := Str("true")];
        if !managedSecretConfigured && Truthy(licenseKey) {
          r := r[LicenseKeyVar := licenseKey];
        }
        if Truthy(config.enableFunctionLogs) {
          r := r[SendFunctionLogsVar := Str("true")];
        }
      } else {
        r := r[ExtensionEnabledVar := Str("false")];
      }
    }

    /** `addLayer` on the function at position `i`: the guards, then the
        layer, the environment, the handler and the package of its
        definition. `fetchedArn` is the answer of the layer lookup, used only
        when no `layerArn` option is set. With function logs under the
        extension, the automatic log subscription is switched off in the
        options. */
    method AddLayer(i: nat, fetchedArn: Value) returns (skip: Option<Skip>)
      requires Valid() && i < |functions|
      modifies this`config, this`functions
      ensures Valid()
      ensures skip == SkipOf(old(functions[i]), functionNames[i], service, old(config))
      ensures functions == old(functions)[i := AddLayerResult(old(functions[i]), functionNames[i], service, old(config),
                                                              Credentials(licenseKey, managedSecretConfigured), fetchedArn)]
      ensures config == AfterAddLayer(old(config), hasConfig, skip == None)
    {
      var funcDef := functions[i];
      skip := Guards(funcDef, functionNames[i]);
      if skip == None {
        var instrumented := Instrumented(funcDef, functionNames[i], Runtime(funcDef.runtime, service.runtime).s,
                                         fetchedArn);
        functions := functions[i := instrumented];
        if Truthy(config.enableExtension) && Truthy(config.enableFunctionLogs) {
          WriteConfig(config.(disableAutoSubscription := Bool(true)));
        }
      }
    }

    /** The guards of `addLayer`, in its order: no region, no account ID in
        the options or the function's environment, a runtime that is not a
        string or neither wrapped nor served by the extension, a function that
        is not selected. */
    method Guards(d: Definition, funcName: string) returns (skip: Option<Skip>)
      ensures skip == SkipOf(d, funcName, service, config)
    {
      if service.region == "" {
        return Some(NoRegion);
      }
      var environment := if d.environment.Some? then d.environment.value else map[];
      var runtime := Runtime(d.runtime, service.runtime);
      if !Truthy(config.accountId) && !Truthy(Get(environment, AccountIdVar)) {
        return Some(NoAccountId);
      }
      if !runtime.Str? || (runtime.s !in WrappedRuntimes && !Truthy(config.enableExtension)) {
        return Some(UnsupportedRuntime);
      }
      if ShouldSkipFunction(config, funcName) {
        return Some(NotSelected);
      }
      return None;
    }

    /** The writes of `addLayer` to a function that passed its guards, on a
        copy of its definition `d`. */
    method Instrumented(d: Definition, funcName: string, runtime: string, fetchedArn: Value) returns (r: Definition)
      requires Runtime(d.runtime, service.runtime) == Str(runtime)
      ensures r == Attached(d, funcName, service, config, Credentials(licenseKey, managedSecretConfigured), fetchedArn)
    {
      r := d;
      var environment := if d.environment.Some? then d.environment.value else map[];
      var pkg := if d.pkg.Some? then d.pkg.value else Package(None, map[]);
      var layers := if d.layers.Some? then d.layers.value else [];
      var arn := if Truthy(config.layerArn) then config.layerArn else fetchedArn;
      if !AlreadyLayered(layers, arn) {
        if config.prepend == Bool(true) {
          layers := [arn] + layers;
        } else {
          layers := layers + [arn];
        }
        r := r.(layers := Some(layers));
      }
      environment := CompleteEnvironment(environment, d.handler, d.name, funcName, runtime);
      r := r.(environment := Some(environment), handler := HandlerWrapper(runtime, d.handler),
              pkg := Some(PackageExcludes(runtime, pkg)));
      AttachedParts(d, funcName, service, config, Credentials(licenseKey, managedSecretConfigured), fetchedArn);
    }

    /** `configureLicenseForExtension`: fetches the license key unless one is
        already held (a failed query rejects), then tries to store it in a
        managed secret, and records success. Returns the remote calls made. */
    method ConfigureLicenseForExtension(keyReply: Api.Reply<Value>, secretReply: Integration.StackReply)
      returns (r: Completion<seq<Integration.Call>>)
      modifies this`licenseKey, this`managedSecretConfigured
      ensures Truthy(old(licenseKey)) ==> licenseKey == old(licenseKey)
      ensures !Truthy(old(licenseKey)) && keyReply.TransportError? ==>
                r == Thrown && licenseKey == old(licenseKey) && managedSecretConfigured == old(managedSecretConfigured)
      ensures !Truthy(old(licenseKey)) && keyReply.Answered? ==> licenseKey == RetrievedLicenseKey(keyReply)
      ensures r.Thrown? <==> !Truthy(old(licenseKey)) && keyReply.TransportError?
      ensures r.Normal? ==>
                var secret := Integration.CreateManagedSecret(Integration.Integration(config, service.region, licenseKey),
                                                              secretReply);
                managedSecretConfigured == (old(managedSecretConfigured) || Truthy(secret.result))
                && r.value == (if Truthy(old(licenseKey)) then [] else [LicenseKeyCall()]) + secret.calls
    {
      var calls := [];
      if !Truthy(licenseKey) {
        calls := [LicenseKeyCall()];
        if keyReply.TransportError? {
          return Thrown;
        }
        licenseKey := RetrievedLicenseKey(keyReply);
      }
      var secret := Integration.CreateManagedSecret(Integration.Integration(config, service.region, licenseKey),
                                                    secretReply);
      if Truthy(secret.result) {
        managedSecretConfigured := true;
      }
      return Normal(calls + secret.calls);
    }

    /** The license-key query `retrieveLicenseKey` sends. */
    function LicenseKeyCall(): Integration.Call
      reads this
    {
      Integration.Graphql(Api.NerdgraphRequest(config.apiKey, service.region, Api.LicenseKeyQuery(config.accountId)))
    }

    /** `addLogSubscriptions`: unless explicitly disabled, reads the function
        table (which throws on a service without functions), computes the
        filter pattern and starts a subscription for each function in order,
        but returns at the first function that is not selected. */
    method AddLogSubscriptions() returns (r: Completion<seq<Subscription>>)
      requires Valid()
      ensures config.disableAutoSubscription == Bool(true) ==> r == Normal([])
      ensures config.disableAutoSubscription != Bool(true) && functions == [] ==> r == Thrown
      ensures config.disableAutoSubscription != Bool(true) && functions != [] ==>
                (r.Thrown? <==> FilterString(config.cloudWatchFilter).Thrown?)
      ensures config.disableAutoSubscription != Bool(true) && r.Normal? ==>
                var n := SubscribedCount(config, functionNames);
                |r.value| == n
                && forall i :: 0 <= i < n ==>
                     r.value[i] == Subscription(functions[i].name, FilterString(config.cloudWatchFilter).value)
    {
      if config.disableAutoSubscription == Bool(true) {
        return Normal([]);
      }
      if functions == [] {
        return Thrown;
      }
      var filter := FilterString(config.cloudWatchFilter);
      if filter.Thrown? {
        return Thrown;
      }
      var started := Subscriptions(filter.value);
      return Normal(started);
    }

    /** The loop of `addLogSubscriptions`: a subscription with `pattern`
        for each function in order, up to the first one not selected. */
    method Subscriptions(pattern: string) returns (started: seq<Subscription>)
      requires Valid()
      ensures |started| == SubscribedCount(config, functionNames)
      ensures forall j :: 0 <= j < |started| ==> started[j] == Subscription(functions[j].name, pattern)
    {
      var names, defs := functionNames, functions;
      started := [];
      var i := 0;
      assert names[i..] == names;
      while i < |defs|
        invariant 0 <= i <= |defs|
        invariant SubscribedCount(config, names) == i + SubscribedCount(config, names[i..])
        invariant |started| == i
        invariant forall j :: 0 <= j < i ==> started[j] == Subscription(defs[j].name, pattern)
      {
        assert names[i..][0] == names[i];
        if ShouldSkipFunction(config, names[i]) {
          return;
        }
        assert names[i..][1..] == names[i + 1..];
        started := started + [Subscription(defs[i].name, pattern)];
        i := i + 1;
      }
    }

    /** `run`: the gates, then (unless the extension is explicitly off) the
        extension switched on and the license configured, then the function
        table is read (which throws on a service without functions) and
        `addLayer` runs on every function, in order. `arns[i]` is the layer
        lookup's answer for the `i`-th function. */
    method Run(supportsLayers: bool, plugins: seq<Value>, arns: seq<Value>,
               keyReply: Api.Reply<Value>, secretReply: Integration.StackReply)
      returns (r: Completion<Option<Halt>>)
      requires Valid()
      requires |arns| == |functions|
      modifies this`config, this`functions, this`licenseKey, this`managedSecretConfigured
      ensures Valid()
      ensures RunHalt(supportsLayers, plugins, old(config)).Some? ==>
                r == Normal(RunHalt(supportsLayers, plugins, old(config)))
                && config == old(config) && licenseKey == old(licenseKey)
                && managedSecretConfigured == old(managedSecretConfigured)
      ensures RunHalt(supportsLayers, plugins, old(config)) == None ==>
                (r == Thrown <==> old(functions) == [] || LicenseFails(old(config), old(licenseKey), keyReply))
      ensures (RunHalt(supportsLayers, plugins, old(config)) == None && old(functions) != []
               && !LicenseFails(old(config), old(licenseKey), keyReply)) ==> r == Normal(None)
      ensures r.Normal? ==> r.value == RunHalt(supportsLayers, plugins, old(config))
      ensures LicenseFails(old(config), old(licenseKey), keyReply) || old(config).enableExtension == Bool(false) ==>
                licenseKey == old(licenseKey) && managedSecretConfigured == old(managedSecretConfigured)
      ensures RunHalt(supportsLayers, plugins, old(config)) == None && old(config).enableExtension != Bool(false)
              && !LicenseFails(old(config), old(licenseKey), keyReply) ==>
                licenseKey == (if Truthy(old(licenseKey)) then old(licenseKey) else RetrievedLicenseKey(keyReply))
                && managedSecretConfigured ==
                     (old(managedSecretConfigured)
                      || Truthy(Integration.CreateManagedSecret(
                                  Integration.Integration(ExtensionDefaulted(old(config), hasConfig), service.region,
                                                          licenseKey),
                                  secretReply).result))
      ensures !(r == Normal(None)) ==> functions == old(functions)
      ensures r == Normal(None) ==>
                var c := ExtensionDefaulted(old(config), hasConfig);
                var creds := Credentials(licenseKey, managedSecretConfigured);
                functions == AddLayerResults(old(functions), functionNames, service, c, creds, arns)
                && config == AfterAddLayer(c, hasConfig, None in SkipsOf(old(functions), functionNames, service, c))
    {
      var halt := RunHalt(supportsLayers, plugins, config);
      if halt.Some? {
        return Normal(halt);
      }
      if config.enableExtension != Bool(false) {
        WriteConfig(config.(enableExtension := Bool(true)));
        var configured := ConfigureLicenseForExtension(keyReply, secretReply);
        if configured.Thrown? {
          return Thrown;
        }
      }
      if functions == [] {
        return Thrown;
      }
      assert config == ExtensionDefaulted(old(config), hasConfig);
      AddLayerToEach(arns);
      return Normal(None);
    }

    /** Step `i` of the loop of `run`: `AddLayer` on the `i`-th function
        once the earlier calls may have switched the automatic subscription
        off. It does to the function what it would have done under the
        options `c` the loop started from, so the first `i + 1` definitions
        are then those `addLayer` makes of `olds` under `c`. */
    method AddLayerStep(i: nat, arns: seq<Value>, ghost c: Config, ghost attachedBefore: bool,
                        ghost olds: seq<Definition>, ghost expected: seq<Definition>, ghost skips: seq<Option<Skip>>)
      returns (skip: Option<Skip>)
      requires Valid() && i < |olds| && |olds| == |functions| && |arns| == |functions|
      requires expected == AddLayerResults(olds, functionNames, service, c,
                                           Credentials(licenseKey, managedSecretConfigured), arns)
      requires skips == SkipsOf(olds, functionNames, service, c)
      requires functions == expected[..i] + olds[i..]
      requires config == AfterAddLayer(c, hasConfig, attachedBefore)
      modifies this`config, this`functions
      ensures Valid()
      ensures skip == skips[i]
      ensures functions == expected[..i + 1] + olds[i + 1..]
      ensures config == AfterAddLayer(c, hasConfig, attachedBefore || skip == None)
    {
      ghost var creds := Credentials(licenseKey, managedSecretConfigured);
      AddLayerIgnoresSubscriptionOption(olds[i], functionNames[i], service, c, creds, arns[i], Bool(true));
      skip := AddLayer(i, arns[i]);
      AfterAddLayerComposes(c, hasConfig, attachedBefore, skip == None);
      SpliceStep(expected, olds, i);
    }

    /** The loop of `run` over the service's functions: `addLayer` on each,
        in order. Its own write of `disableAutoSubscription` does not change
        what it does to later functions. */
    method AddLayerToEach(arns: seq<Value>)
      requires Valid()
      requires |arns| == |functions|
      modifies this`config, this`functions
      ensures Valid()
      ensures functions == AddLayerResults(old(functions), functionNames, service, old(config),
                                           Credentials(licenseKey, managedSecretConfigured), arns)
      ensures config == AfterAddLayer(old(config), hasConfig,
                                      None in SkipsOf(old(functions), functionNames, service, old(config)))
    {
      ghost var c := config;
      ghost var olds := functions;
      ghost var expected := AddLayerResults(olds, functionNames, service, c,
                                            Credentials(licenseKey, managedSecretConfigured), arns);
      ghost var skips := SkipsOf(olds, functionNames, service, c);
      ghost var attachedAny := false;
      var i := 0;
      while i < |functions|
        invariant 0 <= i <= |olds| && |functions| == |olds|
        invariant Valid()
        invariant functions == expected[..i] + olds[i..]
        invariant attachedAny == (None in skips[..i])
        invariant config == AfterAddLayer(c, hasConfig, attachedAny)
      {
        var skip := AddLayerStep(i, arns, c, attachedAny, olds, expected, skips);
        PrefixStep(skips, i);
        attachedAny := attachedAny || skip == None;
        i := i + 1;
      }
      SpliceDone(expected, olds);
      assert skips[..i] == skips;
    }
  }
}
