/** The plugin's options, the object read from `custom.newRelic` in the
    service definition. Every option is an arbitrary JavaScript value;
    `Undefined` stands for an option that is not set. */
module Settings {
  import opened Js

  datatype Config = Config(
    accountId: Value,
    apiKey: Value,
    enableIntegration: Value,
    enableExtension: Value,
    enableFunctionLogs: Value,
    disableAutoSubscription: Value,
    includeFunctions: Value,   // the `include` option
    excludeFunctions: Value,   // the `exclude` option
    layerArn: Value,
    prepend: Value,
    cloudWatchFilter: Value,
    logEnabled: Value,
    logLevel: Value,
    debug: Value,
    trustedAccountKey: Value,
    stages: Value,
    linkedAccount: Value,
    customRolePolicy: Value)

  /** The empty options object that the `config` getter hands out when the
      service declares no `custom.newRelic` section. */
  const Unset: Config :=
    Config(Undefined, Undefined, Undefined, Undefined, Undefined, Undefined,
           Undefined, Undefined, Undefined, Undefined, Undefined, Undefined,
           Undefined, Undefined, Undefined, Undefined, Undefined, Undefined)
}
