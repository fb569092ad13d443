# serverless-newrelic-lambda-layers, modelled in Dafny

This project models the core of the Serverless Framework plugin that adds New Relic's Lambda layer to the functions of a service.

- **Options.** The options (`custom.newRelic`) are a `Settings.Config` value of JavaScript values (`Js.Value`). `Unset` stands for a service without that section.
- **Attach.** The per-function decisions are pure functions over a function definition, with lemmas about them:
  - whether the plugin or a function is skipped;
  - the layer list;
  - the environment variables;
  - the handler wrapper and the package excludes;
  - the CloudWatch filter pattern;
  - the classification of existing subscription filters;
  - the gates of `run`.
- **Plugin.** The plugin object is the class `Plugin.LayerPlugin`. Its fields are the ones the source updates: the options, the license key, the managed-secret flag and the service's functions.
  - The function table is a sequence field. `addLayer` rewrites one position of it, and `run` loops over all positions.
  - Every method is proved against the pure functions of `Attach`.
- **Integration.** The New Relic AWS integration flow of `dist/integration.js` covers `check`, `enable`, `checkAwsIntegrationRole`, `createCFStack` and `createManagedSecret`.
  - Each is a pure function of the answers the remote services give.
  - Each returns the remote calls it makes, in order, together with its outcome.
- **Poller.** `waitForStatus` of `dist/utils.js` is a state machine. It is driven by the status seen at each retry counter.
- **Api.** The NerdGraph documents of `dist/api.js` are built as text. `nerdgraphFetch` is the request it would send.

Every remote answer is a parameter: the layer lookup, the NerdGraph replies, STS, IAM and CloudFormation. The framework's logging is not modelled.

Two behaviours of the code are modelled as written:

- **Early return in `addLogSubscriptions`.** It returns at the first function that is not selected, so any selected function after it gets no subscription. It does not skip just that function.
- **A service without functions.** Reading the function table of such a service throws, because `Object.assign` is applied to nothing. So `run` and `addLogSubscriptions` fail there.

The `cloudWatchFilter` option throws unless it is undefined, a string or a list, because `null`, booleans and numbers have no `indexOf`. It is not turned into its string form in those cases.

## Model

| member | source | states |
|---|---|---|
| Attach.ShouldSkipPlugin | dist/index.js:251-258 | the plugin stays active exactly when no `stages` option is set or it includes the stage; a `stages` option that is neither text nor a list makes the check throw; for a list and a plain stage, active means listed |
| Attach.EmptyStageListSkipsEveryStage | dist/index.js:252-257 | an empty `stages` list is truthy and switches the plugin off for every stage |
| Attach.StageStringMatchesInfix | dist/index.js:253 | a string `stages` option is searched as text, so any infix of it counts as a listed stage |
| Attach.ShouldSkipFunction | dist/index.js:259-272 | a function is skipped exactly when a non-empty `include` list omits it or an `exclude` list names it; options that are not lists select nothing |
| Attach.Runtime | dist/index.js:173 | a function's own runtime wins; only an undefined one falls back to the provider's |
| Attach.NoRegionOnlyWhenSetEmpty | dist/index.js:31 | with the region defaulting to "us-east-1", `addLayer` reports a missing region exactly when the service sets the region to the empty string |
| Attach.AddLayerSkip | dist/index.js:169-194 | a function is instrumented exactly when there is a region, an account id (option or environment), a string runtime that is wrapped or served by the extension, and the function is selected; no region is reported first |
| Attach.LayerArn | dist/index.js:195-197 | a truthy `layerArn` option is used, else the looked-up ARN |
| Attach.AttachLayer | dist/index.js:198-211 | layers stay unchanged when a New Relic layer is already declared; otherwise the ARN is put in front when `prepend` is the boolean true, else at the end, and nothing else moves |
| Attach.LayerAddedOnce | dist/index.js:198-211 | a string ARN not yet declared occurs exactly once after attaching |
| Attach.AttachLayerIdempotent | dist/index.js:198-211 | attaching a string ARN twice gives the same layers as attaching it once |
| Attach.RepeatedAddLayerKeepsLayers | dist/index.js:198-211 | a second `addLayer` with a string ARN leaves the layers as the first one left them |
| Attach.MissingArnStacks | dist/index.js:195-211 | when the function declares no string layer, an ARN the lookup did not find is added as one more `undefined`, and the list still holds no string, so every later run adds it again |
| Attach.MissingArnMatchesString | dist/index.js:198-201 | an undefined ARN matches any declared string layer, so the layers are left as they are |
| Attach.DefaultLogLevel | dist/index.js:278-292 | the default level is truthy and is the provider-wide level, the `logLevel` option, "debug" or "error", in that order of precedence |
| Attach.LogSettingsValues | dist/index.js:273-293 | `logLevel` enables logging, keeps a truthy destination or sets stdout, and keeps a truthy level or sets the default one |
| Attach.LogSettingsFrame | dist/index.js:273-293 | `logLevel` changes no variable but its three |
| Attach.IdentitySettingsValues | dist/index.js:216-229 | each identity variable keeps a truthy value or takes its default: "true", the function name or key, the account id, then the account id or the trusted-key option |
| Attach.IdentitySettingsFrame | dist/index.js:216-229 | the identity step changes no other variable |
| Attach.TrustedKeyFallsBackToAccount | dist/index.js:222-229 | once the account guard has passed, the account id variable is truthy and an unset trusted account key takes it |
| Attach.ExtensionSettingsValues | dist/index.js:233-245 | the extension flag is "true" or "false" with the option; the license key is written only with the extension on, no managed secret and a truthy key; function logs only with the extension on and the option set |
| Attach.ExtensionSettingsFrame | dist/index.js:233-245 | the extension step writes only its three variables |
| Attach.BaseEnvironmentFrame | dist/index.js:212-232 | before the extension step only New Relic's base variables change, and the handler variable holds the original handler |
| Attach.AttachedEnvironmentKeepsHandler | dist/index.js:212 | the finished environment holds the function's original handler |
| Attach.AttachedEnvironmentFrame | dist/index.js:212-246 | variables of the user that are not New Relic's keep their values |
| Attach.AttachedEnvironmentIdentity | dist/index.js:212-246 | end to end: existing truthy identity values win over the defaults, and with the account guard passed the account id is set and the trusted account key is its prior value or else that account id |
| Attach.LicenseKeyOnlyWithoutSecret | dist/index.js:233-237 | a license key appears in the environment only when the extension is on, no managed secret is configured and the plugin holds a truthy key |
| Attach.WrappedRuntimesAreWrapped | dist/index.js:302-314 | every runtime of the wrapped list gets one of the three wrapper handlers |
| Attach.WrapperOfEachRuntime | dist/index.js:302-311 | `getHandlerWrapper` per listed runtime: Node.js 10 and 12 get the Node.js wrapper, Node.js 8.10 the helper file's handler, each Python runtime the Python wrapper |
| Attach.PythonRuntimeWrapped | dist/index.js:310-311 | any runtime whose name contains "python", listed or not, gets the Python wrapper, since no Node.js name contains it |
| Attach.UnwrappedRuntimeKeepsHandler | dist/index.js:302-314 | other runtimes without "python" in their name keep the function's own handler |
| Attach.PackageExcludes | dist/index.js:327-335 | Node.js runtimes get exactly one entry, the helper exclusion, appended to `exclude`, keeping the earlier entries in order and the other package fields; other runtimes keep the package as it is |
| Attach.PackageExcludesRepeats | dist/index.js:331-333 | the entry is not deduplicated: packaging twice lists it twice |
| Attach.Attached | dist/index.js:195-248 | an instrumented definition keeps its name and runtime, has an environment and a package, keeps its handler in the environment, and has its layers attached as `AttachLayer` says |
| Attach.AddLayerResult | dist/index.js:166-248 | a skipped function's definition is left completely unchanged |
| Attach.AddLayerResults | dist/index.js:108-114 | `addLayer` over the function table gives one definition per function |
| Attach.SkipsOf | dist/index.js:108-114 | one skip decision per function, at its position |
| Attach.SkipIgnoresSubscriptionOption | dist/index.js:169-194 | the guards do not read `disableAutoSubscription` |
| Attach.LogSettingsIgnoreSubscriptionOption | dist/index.js:273-293 | `logLevel` does not read `disableAutoSubscription` |
| Attach.IdentityIgnoresSubscriptionOption | dist/index.js:216-229 | the identity step does not read `disableAutoSubscription` |
| Attach.BaseIgnoresSubscriptionOption | dist/index.js:212-232 | the base environment does not read `disableAutoSubscription` |
| Attach.EnvironmentIgnoresSubscriptionOption | dist/index.js:212-246 | the finished environment does not read `disableAutoSubscription` |
| Attach.AddLayerIgnoresSubscriptionOption | dist/index.js:166-248 | what `addLayer` does to a definition does not depend on `disableAutoSubscription`, the one option it writes, so the concurrent calls of `run` agree with a sequential order |
| Attach.FilterTerms | dist/index.js:131 | one optional quoted term per filter value |
| Attach.FilterString | dist/index.js:127-136 | undefined, strings and lists give a pattern and anything else throws; a string or list containing "*" gives the empty pattern; a string without it is used as it is |
| Attach.Shows | dist/index.js:131 | one string form per filter value |
| Attach.FilterTermsQuoted | dist/index.js:131-132 | the quoted literals of the joined terms are exactly the values' string forms, in order |
| Attach.FilterStringOfList | dist/index.js:129-132 | a list without "*" becomes its optional quoted terms joined by spaces |
| Attach.FilterListRoundTrip | dist/index.js:129-132 | for a list without "*" whose values print without a double quote, the values can be read back from the pattern |
| Attach.DefaultFilterTerms | dist/index.js:127-132 | an unset option gives the pattern of the four default terms, which contain no "*" and no double quote |
| Attach.DefaultTermsQuoteFree | dist/index.js:20-25 | the default terms print without a double quote |
| Attach.Competing | dist/index.js:378 | the competing filters are exactly those not named NewRelicLogStreaming |
| Attach.Existing | dist/index.js:382 | the existing filters are exactly those named NewRelicLogStreaming |
| Attach.Stale | dist/index.js:386 | stale filters are exactly those whose pattern is not the wanted one; none when all patterns match |
| Attach.Repeat | dist/index.js:385-390 | `n` copies of a filter call |
| Attach.CompetingCount | dist/index.js:378 | each filter not named NewRelicLogStreaming is kept as often as it occurs, and New Relic's are dropped |
| Attach.ExistingCount | dist/index.js:382 | each filter named NewRelicLogStreaming is kept as often as it occurs, and the others are dropped |
| Attach.StaleCount | dist/index.js:386 | each filter with another pattern is kept as often as it occurs, and those with the wanted pattern are dropped |
| Attach.StaleNewRelicCount | dist/index.js:382-386 | the filters to replace are the New Relic filters whose pattern is not the wanted one, each counted as often as it occurs on the log group |
| Attach.CompetingWitness | dist/index.js:378-381 | there are competing filters exactly when some filter is not New Relic's |
| Attach.SubscriptionPlan | dist/index.js:378-395 | a warning is given exactly when some filter is not New Relic's |
| Attach.FirstSubscriptionAdds | dist/index.js:392-395 | without a New Relic filter exactly one filter is added |
| Attach.CurrentSubscriptionKept | dist/index.js:383-391 | a New Relic filter with the wanted pattern needs no call |
| Attach.StaleSubscriptionsReplaced | dist/index.js:383-391 | each stale New Relic filter is removed and replaced, all removals before all additions |
| Attach.SubscribedCount | dist/index.js:139-146 | the subscribed functions are the longest prefix of selected functions, and the one after it is not selected |
| Attach.ExcludedFunctionStopsSubscriptions | dist/index.js:139-142 | an excluded function listed first leaves every function without a subscription, whatever is selected after it |
| Attach.RunHalt | dist/index.js:82-101 | `run` stops for an old framework exactly when layers are unsupported; on a supporting framework it stops for plugin order exactly when webpack's index is after this plugin's; it goes on exactly when the framework supports layers, the order is right and `include` or `exclude` is empty |
| Attach.WebpackMustComeFirst | dist/index.js:92-101 | with both plugins listed and not both `include` and `exclude` set, `run` goes on exactly when webpack comes first |
| Attach.WebpackAbsentGoesOn | dist/index.js:92-101 | without webpack in the plugin list, `run` goes on unless both `include` and `exclude` are set |
| Attach.WebpackWithoutThisPluginHalts | dist/index.js:92-96 | webpack listed without this plugin stops `run` |
| Plugin.RetrievedLicenseKey | dist/index.js:441-448 | the license key is the value at `data.actor.account.licenseKey`, or null when it is missing |
| Plugin.ExtensionDefaulted | dist/index.js:102-103 | `run` switches the extension on unless it is the boolean false, and only a present options section keeps the write |
| Plugin.AfterAddLayer | dist/index.js:238-241 | `addLayer` changes no option but `disableAutoSubscription`; that one is true afterwards exactly when it was already true or, with an options section, the extension and function logs are on and a function was instrumented; otherwise the options are unchanged |
| Plugin.FunctionLogsDisableAutoSubscription | dist/index.js:102-114 | with the extension not switched off and function logs on, a `run` that instruments a function leaves `disableAutoSubscription` true, the value on which `Plugin.LayerPlugin.AddLogSubscriptions` subscribes nothing |
| Plugin.AfterAddLayerComposes | dist/index.js:108-114 | two rounds of `addLayer` leave the options as one round over both |
| Plugin.LayerPlugin.constructor | dist/index.js:27-45 | holds the options, the functions, the provider region or "us-east-1" when none is set, no license key and no managed secret, and whether the plugin is skipped |
| Plugin.LayerPlugin.WriteConfig | dist/index.js:46-48 | a write to the options is kept only when the options section exists |
| Plugin.LayerPlugin.LogLevel | dist/index.js:273-293 | `logLevel` on an environment gives the settings `LogSettingsValues` describes |
| Plugin.LayerPlugin.CompleteEnvironment | dist/index.js:212-245 | the environment writes, in order, give the finished environment the lemmas above describe |
| Plugin.LayerPlugin.IdentityDefaults | dist/index.js:216-229 | the identity writes give the variables `IdentitySettingsValues` describes |
| Plugin.LayerPlugin.ExtensionFlags | dist/index.js:233-245 | the extension writes give the variables `ExtensionSettingsValues` describes |
| Plugin.LayerPlugin.AddLayer | dist/index.js:166-248 | only the `i`-th definition changes: it is skipped unchanged or instrumented; the options change only to switch off automatic subscription after an instrumented function with function logs |
| Plugin.LayerPlugin.Guards | dist/index.js:169-194 | the guards report the first reason to skip, as `AddLayerSkip` orders them |
| Plugin.LayerPlugin.Instrumented | dist/index.js:195-248 | the writes to a guarded function give the instrumented definition that `Attached` describes |
| Plugin.LayerPlugin.ConfigureLicenseForExtension | dist/index.js:69-79 | a held key is kept, otherwise it is fetched and a failed query rejects; the secret flag becomes set when the secret stack is created or exists; returns the remote calls in order; it rejects exactly when no key is held and the query fails |
| Plugin.LayerPlugin.AddLogSubscriptions | dist/index.js:120-149 | disabled means no subscription; a service without functions throws; otherwise it throws exactly when the filter does, and it subscribes the prefix `SubscribedCount` gives, each with the filter pattern |
| Plugin.LayerPlugin.Subscriptions | dist/index.js:138-146 | one subscription per function up to the first unselected one, in order, with the deployed name and the pattern |
| Plugin.LayerPlugin.Run | dist/index.js:80-116 | a halt changes nothing; without a halt, `run` rejects exactly when the service has no functions or the license step rejects (extension on, no key held, failed query), and functions are left as they were then; otherwise it resolves and each function gets `addLayer` with its looked-up ARN, and the options record whether any function was instrumented; with the extension switched off or a failed license step the key and secret flag are unchanged, otherwise a held key is kept or the retrieved one stored, and the secret flag is set when the secret stack is created or exists |
| Plugin.LayerPlugin.AddLayerStep | dist/index.js:110-112 | one iteration of the loop of `run` moves the boundary between instrumented and untouched definitions by one |
| Plugin.LayerPlugin.AddLayerToEach | dist/index.js:108-114 | `addLayer` over every function gives `AddLayerResults`, and the options record whether any function was instrumented |
| Integration.LinkedAccountName | dist/integration.js:26 | the `linkedAccount` option, or the default name built from the account id when it is undefined |
| Integration.Matching | dist/integration.js:30-34 | exactly the linked accounts that match on name, external id and account id, all three |
| Integration.CreateCFStack | dist/integration.js:153-178 | one create-stack call for the stack named with a hyphen and the account id, passing the account number and the role policy name (empty by default); none without the template; the stack id only when creation succeeds |
| Integration.RoleAndStackNamesDiffer | dist/integration.js:134-155 | the role and its stack have different names, underscore against hyphen |
| Integration.CheckAwsIntegrationRole | dist/integration.js:125-152 | without an account id nothing is asked; a found role gives its ARN after one call; a missing role gives no ARN, and its calls are the role lookup, the stack creation and the poll of that stack, in that order; no NerdGraph request is sent |
| Integration.EnableNeedsRoleArn | dist/integration.js:85-88 | without a role ARN `enable` sends no mutation |
| Integration.EnableCalls | dist/integration.js:84-106 | the calls of `enable`: the role check's, the link mutation when there is an ARN, and the configure mutation when the link answer is clean |
| Integration.EnableMutations | dist/integration.js:92-106 | at most two mutations, link first; configure is sent exactly when the ARN is there and the link answer is clean, naming the first linked account |
| Integration.EnableSucceedsOnlyWhenBothClean | dist/integration.js:93-107 | `enable` succeeds exactly when the ARN is there and both answers are clean |
| Integration.CheckMatchesOnTriple | dist/integration.js:30-44 | an integration is found exactly when some entry matches on all three fields |
| Integration.CheckEnablesOnlyWithoutMatch | dist/integration.js:35-43 | with a match nothing more is asked; without one `enable` runs only when `enableIntegration` is set |
| Integration.CheckRejectsOnTransportError | dist/integration.js:27 | a failed linked-accounts request rejects `check` before anything else is asked |
| Integration.CreateManagedSecret | dist/integration.js:47-81 | the stack id on success; "Already created" exactly when the error names the secret stack and says it exists; false otherwise |
| Integration.DeferredEnable | dist/integration.js:139-150 | after a missing role, `enable` runs exactly when polling succeeds |
| Integration.DeferredEnableAtMostOnce | dist/integration.js:142-149 | the poller calls back once exactly when the deferred `enable` runs, and never more |
| Poller.WaitForStatus | dist/utils.js:16-35 | polling terminates; it fetches first, fetches within its budget, and calls back once exactly on success, as its last step |
| Poller.FailedStops | dist/utils.js:22-23 | a status mentioning FAILED stops after one fetch |
| Poller.PastCeilingNeverSucceeds | dist/utils.js:22-23 | past retry 120 no tick succeeds, even on CREATE_COMPLETE |
| Poller.CompleteIsNotFailure | dist/utils.js:22-25 | the success status does not mention FAILED |
| Poller.FailedCheckIsIncludes | dist/utils.js:22 | the FAILED test of a tick is JavaScript's `includes`: text search on a string, element search on an array, a TypeError otherwise |
| Poller.CompleteTick | dist/utils.js:22-29 | a tick within the ceiling that sees CREATE_COMPLETE succeeds |
| Poller.CompleteCallsBack | dist/utils.js:25-29 | CREATE_COMPLETE within the ceiling calls back once and stops |
| Poller.OtherStatusReschedules | dist/utils.js:30 | any other status within the ceiling schedules exactly one more tick |
| Poller.BrokenFetchStops | dist/utils.js:19-34 | a failed fetch or a missing status ends polling with an error |
| Poller.NeverSettles | dist/utils.js:16-35 | a status that never settles is abandoned after exactly the ticks left to the ceiling |
| Poller.PollingBounded | dist/utils.js:16-35 | from the first tick: at most 122 fetches and at most one callback |
| Api.NerdgraphRequest | dist/api.js:14-27 | both branches of the region test choose the same endpoint; the request carries the API key and the document |
| Api.LinkMutationLiterals | dist/api.js:28-40 | the link mutation's only string literals are the role ARN and the linked-account name, in that order, and it names the account id |
| Api.ConfigureMutationNesting | dist/api.js:41-61 | the configure mutation nests the linked account id under the service under the provider |
| Api.LinkedAccountsQueryAccount | dist/api.js:62-80 | the linked-accounts query selects the given account |
| Api.LinkedAccountsQueryFields | dist/api.js:62-80 | the query asks for the three fields that `check` compares |
| Api.LicenseKeyQueryPath | dist/api.js:81-91 | the license query selects `licenseKey` directly under the account, the path `retrieveLicenseKey` reads |

## Left out

- **Network and file I/O.** The following are parameters of the model: `fetch` inside `nerdgraphFetch`, `getLayerArn`'s HTTP request, the provider's STS, IAM, Lambda and CloudFormation requests, and `fetchPolicy`'s template read. A missing template is a reply value.
- **Files.** `addNodeHelper`, `removeNodeHelper` and `cleanup` write and delete files and are not modelled. Only the handler they select is modelled.
- **Timing.** The 30-second `setTimeout` of `waitForStatus` is not modelled. A run is the sequence of its ticks.
- **Concurrency.** `Promise.all` in `run` is modelled sequentially. The interleavings agree with that order because `addLayer` does not read the one option it writes (`Attach.AddLayerIgnoresSubscriptionOption`).
- **`check` does not wait for `enable`.** The un-awaited `enable` in `check` is modelled as its calls appended after `check`'s own.
- **Framework version.** The framework version test (semver) is a boolean input.
- **Plugins option.** The `plugins.modules` form of the plugins option is taken as already unwrapped into a list.
- **Regex layer match.** `layer.match(layerArn)` treats the ARN as a regular expression. The model uses substring search, and an undefined ARN matches every string layer.
- **lodash paths.** `_.get` paths are modelled only for the paths the plugin reads.
- **Logging and hooks.** CLI log lines and the binding of hooks to lifecycle events are not modelled. The constructor only records whether the plugin is skipped.
- **Other log operations.** `removeLogSubscriptions`, the remote sequencing of `ensureLogSubscription`, `getDestinationArn`, `addLogIngestionFunction`, `getSarTemplate` and `formatFunctionVariables` are not modelled. Only `ensureLogSubscription`'s filter classification is (`Attach.SubscriptionPlan`).
- **Shared objects.** Function definitions share objects in the source: the environment and layer arrays are mutated in place. The model rewrites the definition at its position in the function table, so aliasing between definitions is not modelled.
- **Key order.** `Object.keys` lists integer-like keys first. The function table is taken in the order given.
- **Values.** Numbers are integers, plain objects appear only as arrays, and the provider region, when the service sets one, is a string; a region set to another falsy value (`null`, `false`, `0`) is not modelled.
- Plugin.LayerPlugin.Run: each layer lookup is a value that always arrives. In the source, `getLayerArn` rejects when its request fails or its answer is not JSON; that function's `addLayer` then rejects before it changes the definition, the other functions are still instrumented, and `run` rejects through `Promise.all`. The model does not capture that rejection.
- Plugin.LayerPlugin.AddLogSubscriptions: returns the subscriptions it starts instead of their remote effects.
