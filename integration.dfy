/** The New Relic AWS integration flow. An `Integration` is built once from
    the plugin's options, region and license key and never changes, so each
    of its methods is a function of the remote answers it receives: it
    returns what it decides and the remote calls it makes, in order. */
module Integration {
  import opened Text
  import opened Js
  import opened Settings
  import opened Api
  import Poller

  datatype Integration = Integration(config: Config, region: string, licenseKey: Value)

  datatype Parameter = Parameter(key: string, value: Value)

  /** A remote call, in the order the flow issues it. `PollStack` starts
      the status poller on the named stack; its callback runs later. */
  datatype Call =
    | Graphql(request: Request)
    | CallerIdentity
    | GetRole(roleName: string)
    | CreateStack(stackName: string, parameters: seq<Parameter>)
    | PollStack(stackId: Value)

  /** An entry of the linked-accounts list, with the three fields compared. */
  datatype LinkedAccount = LinkedAccount(name: Value, externalId: Value, nrAccountId: Value)

  /** The STS caller-identity answer. */
  datatype IdentityReply = Identity(account: Value) | IdentityFailed

  /** The IAM `getRole` answer; a missing `Role` counts as a failure. */
  datatype RoleLookup = RoleFound(arn: Value) | RoleLookupFailed

  /** Creating a CloudFormation stack: the stack id, the request refused
      (with the error's string form), or the template could not be read so
      no request was sent. */
  datatype StackReply = Created(stackId: Value) | Refused(error: string) | TemplateUnreadable(error: string)

  /** `data.cloudLinkAccount`: the ids of the returned linked accounts, in
      order (absent when the list is), and the `errors` value. */
  datatype LinkSection = LinkSection(linkedAccountIds: Option<seq<Value>>, errors: Value)

  /** `data.cloudConfigureIntegration`: its `errors` value. */
  datatype ConfigureSection = ConfigureSection(errors: Value)

  /** The answers `enable` receives, in the order it asks. */
  datatype EnableReplies = EnableReplies(
    role: RoleLookup, stack: StackReply, link: Reply<LinkSection>, configure: Reply<ConfigureSection>)

  datatype EnableOutcome = NoRoleArn | TransportFailed | LinkFailed | ConfigureFailed | Enabled(linkedAccountId: Value)

  datatype EnableRun = EnableRun(outcome: EnableOutcome, calls: seq<Call>)

  datatype CheckOutcome = AlreadyLinked | ManualSetupRequired | Enabling(enable: EnableOutcome) | Rejected

  datatype CheckRun = CheckRun(outcome: CheckOutcome, calls: seq<Call>)

  datatype RoleCheck = RoleCheck(arn: Value, calls: seq<Call>)

  datatype StackCreation = StackCreation(stackId: Value, calls: seq<Call>)

  datatype SecretCreation = SecretCreation(result: Value, calls: seq<Call>)

  const LinkedAccountPrefix: string := "New Relic Lambda Integration - "
  const RolePrefix: string := "NewRelicLambdaIntegrationRole_"
  const RoleStackPrefix: string := "NewRelicLambdaIntegrationRole-"
  const SecretStackName: string := "NewRelicLicenseKeySecret"

  /** The `linkedAccount` option, defaulted (only when it is undefined) to a
      name derived from the account id. */
  function LinkedAccountName(config: Config): (r: Value)
    ensures !config.linkedAccount.Undefined? ==> r == config.linkedAccount
    ensures config.linkedAccount.Undefined? ==> r == Str(LinkedAccountPrefix + Show(config.accountId))
  {
    match config.linkedAccount
    case Undefined => Str(LinkedAccountPrefix + Show(config.accountId))
    case other => other
  }

  /** `getCallerIdentity`: the AWS account, or undefined when STS fails. */
  function CallerAccount(reply: IdentityReply): Value
  {
    match reply
    case Identity(account) => account
    case IdentityFailed => Undefined
  }

  predicate IsMatch(a: LinkedAccount, name: Value, externalId: Value, accountId: Value)
  {
    StrictEquals(a.name, name) && StrictEquals(a.externalId, externalId) && StrictEquals(a.nrAccountId, accountId)
  }

  /** The `filter` of `check`: the entries that match on all three fields,
      in their order. */
  function Matching(accounts: seq<LinkedAccount>, name: Value, externalId: Value, accountId: Value)
    : (r: seq<LinkedAccount>)
    ensures |r| <= |accounts|
    ensures forall a :: a in r ==> a in accounts && IsMatch(a, name, externalId, accountId)
    ensures forall a :: a in accounts && IsMatch(a, name, externalId, accountId) ==> a in r
  {
    if accounts == [] then []
    else
      var rest := Matching(accounts[1..], name, externalId, accountId);
      assert forall a :: a in accounts[1..] ==> a in accounts;
      if IsMatch(accounts[0], name, externalId, accountId) then [accounts[0]] + rest else rest
  }

  function LinkedAccountsRequest(it: Integration): Request
  {
    NerdgraphRequest(it.config.apiKey, it.region, LinkedAccountsQuery(it.config.accountId))
  }

  function LinkRequest(it: Integration, roleArn: Value): Request
  {
    NerdgraphRequest(it.config.apiKey, it.region,
                     LinkAccountMutation(it.config.accountId, roleArn, LinkedAccountName(it.config)))
  }

  function ConfigureRequest(it: Integration, linkedAccountId: Value): Request
  {
    NerdgraphRequest(it.config.apiKey, it.region,
                     ServiceIntegrationMutation(it.config.accountId, Str("aws"), Str("lambda"), linkedAccountId))
  }

  function RoleName(accountId: Value): string
  {
    RolePrefix + Show(accountId)
  }

  function RoleStackName(accountId: Value): string
  {
    RoleStackPrefix + Show(accountId)
  }

  /** `errors && errors.length`: a non-empty string or array. */
  predicate HasErrors(errors: Value)
  {
    match errors
    case Str(s) => |s| > 0
    case Arr(xs) => |xs| > 0
    case _ => false
  }

  /** The link answer lets `enable` go on: the section is there and has no
      errors. A missing section defaults to one with an error, and a `null`
      one cannot be destructured. */
  predicate LinkClean(reply: Reply<LinkSection>)
  {
    reply.Answered? && reply.section.Present? && !HasErrors(reply.section.value.errors)
  }

  predicate ConfigureClean(reply: Reply<ConfigureSection>)
  {
    reply.Answered? && reply.section.Present? && !HasErrors(reply.section.value.errors)
  }

  /** `_.get(linkedAccounts, "[0].id")`. */
  function FirstLinkedId(section: LinkSection): Value
  {
    match section.linkedAccountIds
    case Some(ids) => if |ids| > 0 then ids[0] else Undefined
    case None => Undefined
  }

  /** The Graphql requests among `calls`, in order. */
  function Requests(calls: seq<Call>): seq<Request>
  {
    if calls == [] then []
    else (if calls[0].Graphql? then [calls[0].request] else []) + Requests(calls[1..])
  }

  lemma {:induction false} RequestsAppend(a: seq<Call>, b: seq<Call>)
    ensures Requests(a + b) == Requests(a) + Requests(b)
  {
    if a == [] {
      assert a + b == b;
    } else {
      RequestsAppend(a[1..], b);
      assert (a + b)[1..] == a[1..] + b;
    }
  }

  lemma RequestsOfOne(c: Call)
    ensures Requests([c]) == if c.Graphql? then [c.request] else []
  {
    assert [c][1..] == [];
  }

  /** `createCFStack`: creates the role stack, named with a hyphen, passing
      the account number and the role policy name (empty by default). */
  function CreateCFStack(it: Integration, accountId: Value, reply: StackReply): (r: StackCreation)
    ensures !reply.TemplateUnreadable? ==>
              r.calls == [CreateStack(RoleStackName(accountId),
                                      [Parameter("NewRelicAccountNumber", Str(Show(accountId))),
                                       Parameter("PolicyName",
                                                 if it.config.customRolePolicy.Undefined? then Str("")
                                                 else it.config.customRolePolicy)])]
    ensures reply.TemplateUnreadable? ==> r.calls == []
    ensures r.stackId == if reply.Created? then reply.stackId else Undefined
  {
    var policyName := if it.config.customRolePolicy.Undefined? then Str("") else it.config.customRolePolicy;
    var params := [Parameter("NewRelicAccountNumber", Str(Show(accountId))), Parameter("PolicyName", policyName)];
    match reply
    case TemplateUnreadable(_) => StackCreation(Undefined, [])
    case Refused(_) => StackCreation(Undefined, [CreateStack(RoleStackName(accountId), params)])
    case Created(id) => StackCreation(id, [CreateStack(RoleStackName(accountId), params)])
  }

  /** The role and its stack are named apart: underscore against hyphen. */
  lemma RoleAndStackNamesDiffer(accountId: Value)
    ensures RoleName(accountId) != RoleStackName(accountId)
  {
    var i := |RolePrefix| - 1;
    assert RoleName(accountId)[i] == RolePrefix[i] == '_';
    assert RoleStackName(accountId)[i] == RoleStackPrefix[i] == '-';
  }

  /** `checkAwsIntegrationRole`: the ARN of the integration role, or
      undefined. Without an account id nothing is asked. When the role cannot
      be read, the role stack is created and the poller started on it; its
      success callback runs `enable` again later. */
  function CheckAwsIntegrationRole(it: Integration, role: RoleLookup, stack: StackReply): (r: RoleCheck)
    ensures !Truthy(it.config.accountId) ==> r == RoleCheck(Undefined, [])
    ensures Truthy(it.config.accountId) ==>
              |r.calls| >= 1 && r.calls[0] == GetRole(RoleName(it.config.accountId))
    ensures Truthy(it.config.accountId) && role.RoleFound? ==> r.arn == role.arn && |r.calls| == 1
    ensures role.RoleLookupFailed? ==> r.arn == Undefined
    ensures Truthy(it.config.accountId) && role.RoleLookupFailed? ==>
              r.calls[|r.calls| - 1]
              == PollStack(CreateCFStack(it, it.config.accountId, stack).stackId)
    ensures Truthy(it.config.accountId) && role.RoleLookupFailed? ==>
              var created := CreateCFStack(it, it.config.accountId, stack);
              r.calls == [GetRole(RoleName(it.config.accountId))] + created.calls + [PollStack(created.stackId)]
    ensures Requests(r.calls) == []
  {
    var accountId := it.config.accountId;
    if !Truthy(accountId) then RoleCheck(Undefined, [])
    else
      var lookup := [GetRole(RoleName(accountId))];
      RequestsOfOne(lookup[0]);
      match role
      case RoleFound(arn) => RoleCheck(arn, lookup)
      case RoleLookupFailed =>
        var created := CreateCFStack(it, accountId, stack);
        var poll := [PollStack(created.stackId)];
        RequestsOfOne(poll[0]);
        RequestsOfOne(GetRole(RoleName(accountId)));
        assert Requests(created.calls) == [] by {
          if created.calls != [] {
            RequestsOfOne(created.calls[0]);
          }
        }
        RequestsAppend(lookup, created.calls);
        RequestsAppend(lookup + created.calls, poll);
        RoleCheck(Undefined, lookup + created.calls + poll)
  }

  /** `enable`: link the role to the New Relic account, then configure the
      Lambda integration on the linked account, stopping at the first
      failure. */
  function Enable(it: Integration, externalId: Value, replies: EnableReplies): (r: EnableRun)
  {
    var role := CheckAwsIntegrationRole(it, replies.role, replies.stack);
    if !Truthy(role.arn) then EnableRun(NoRoleArn, role.calls)
    else
      var linked := role.calls + [Graphql(LinkRequest(it, role.arn))];
      match replies.link
      case TransportError => EnableRun(TransportFailed, linked)
      case Answered(section) =>
        if !LinkClean(replies.link) then EnableRun(LinkFailed, linked)
        else
          var id := FirstLinkedId(section.value);
          var configured := linked + [Graphql(ConfigureRequest(it, id))];
          match replies.configure
          case TransportError => EnableRun(TransportFailed, configured)
          case Answered(_) =>
            if !ConfigureClean(replies.configure) then EnableRun(ConfigureFailed, configured)
            else EnableRun(Enabled(id), configured)
  }

  /** Without a role ARN `enable` sends no mutation. */
  lemma EnableNeedsRoleArn(it: Integration, externalId: Value, replies: EnableReplies)
    requires !Truthy(CheckAwsIntegrationRole(it, replies.role, replies.stack).arn)
    ensures Enable(it, externalId, replies).outcome == NoRoleArn
    ensures Requests(Enable(it, externalId, replies).calls) == []
  {
  }

  /** The calls of `enable`: the role check's, then the link mutation when
      there is an ARN, then the configure mutation when the link is clean. */
  lemma EnableCalls(it: Integration, externalId: Value, replies: EnableReplies)
    ensures var role := CheckAwsIntegrationRole(it, replies.role, replies.stack);
            Enable(it, externalId, replies).calls
            == role.calls
               + (if !Truthy(role.arn) then []
                  else [Graphql(LinkRequest(it, role.arn))]
                       + (if !LinkClean(replies.link) then []
                          else [Graphql(ConfigureRequest(it, FirstLinkedId(replies.link.section.value)))]))
  {
  }

  /** `enable` sends at most the two mutations, link first. The configure
      mutation is sent exactly when the role ARN is there and the link answer
      is clean, and it names the first linked account returned. */
  lemma EnableMutations(it: Integration, externalId: Value, replies: EnableReplies)
    ensures var role := CheckAwsIntegrationRole(it, replies.role, replies.stack);
            var sent := Requests(Enable(it, externalId, replies).calls);
            && |sent| <= 2
            && (|sent| >= 1 <==> Truthy(role.arn))
            && (|sent| >= 1 ==> sent[0] == LinkRequest(it, role.arn))
            && (|sent| == 2 <==> Truthy(role.arn) && LinkClean(replies.link))
            && (|sent| == 2 ==> sent[1] == ConfigureRequest(it, FirstLinkedId(replies.link.section.value)))
  {
    var role := CheckAwsIntegrationRole(it, replies.role, replies.stack);
    EnableCalls(it, externalId, replies);
    if Truthy(role.arn) {
      var link := Graphql(LinkRequest(it, role.arn));
      RequestsOfOne(link);
      if LinkClean(replies.link) {
        var configure := Graphql(ConfigureRequest(it, FirstLinkedId(replies.link.section.value)));
        RequestsOfOne(configure);
        RequestsAppend([link], [configure]);
        assert [link] + [configure] == [link, configure];
        RequestsAppend(role.calls, [link, configure]);
      } else {
        assert [link] + [] == [link];
        RequestsAppend(role.calls, [link]);
      }
    } else {
      assert role.calls + [] == role.calls;
    }
  }

  /** `enable` ends in success exactly when the ARN is there and both answers
      are clean: a missing or failing configure answer never reaches the
      success branch. */
  lemma EnableSucceedsOnlyWhenBothClean(it: Integration, externalId: Value, replies: EnableReplies)
    ensures Enable(it, externalId, replies).outcome.Enabled?
            <==> Truthy(CheckAwsIntegrationRole(it, replies.role, replies.stack).arn)
                 && LinkClean(replies.link) && ConfigureClean(replies.configure)
    ensures Enable(it, externalId, replies).outcome.Enabled? ==>
              Enable(it, externalId, replies).outcome.linkedAccountId == FirstLinkedId(replies.link.section.value)
  {
  }

  /** `check`: look for a linked account matching the configured name, the
      caller's AWS account and the New Relic account; without one, start
      `enable` when `enableIntegration` is set. */
  function Check(it: Integration, accounts: Reply<seq<LinkedAccount>>, identity: IdentityReply,
                 replies: EnableReplies): CheckRun
  {
    var fetched := [Graphql(LinkedAccountsRequest(it))];
    match accounts
    case TransportError => CheckRun(Rejected, fetched)
    case Answered(section) =>
      var asked := fetched + [CallerIdentity];
      if section.NullSection? then CheckRun(Rejected, asked)
      else
        var list := if section.Present? then section.value else [];
        var externalId := CallerAccount(identity);
        var found := Matching(list, LinkedAccountName(it.config), externalId, it.config.accountId);
        if |found| < 1 then
          if Truthy(it.config.enableIntegration) then
            var run := Enable(it, externalId, replies);
            CheckRun(Enabling(run.outcome), asked + run.calls)
          else CheckRun(ManualSetupRequired, asked)
        else CheckRun(AlreadyLinked, asked)
  }

  /** An account is found exactly when one entry equals the expected
      name, external id and account id, all three. */
  lemma CheckMatchesOnTriple(it: Integration, list: seq<LinkedAccount>, identity: IdentityReply,
                             replies: EnableReplies)
    ensures Check(it, Answered(Present(list)), identity, replies).outcome == AlreadyLinked
            <==> exists a :: a in list &&
                   IsMatch(a, LinkedAccountName(it.config), CallerAccount(identity), it.config.accountId)
  {
    var found := Matching(list, LinkedAccountName(it.config), CallerAccount(identity), it.config.accountId);
    if |found| >= 1 {
      assert found[0] in found;
    }
  }

  /** With a match `check` asks nothing more. Without one it runs `enable`
      exactly once, for the caller's account, when `enableIntegration` is
      truthy, and otherwise asks nothing more. */
  lemma CheckEnablesOnlyWithoutMatch(it: Integration, section: Section<seq<LinkedAccount>>,
                                     identity: IdentityReply, replies: EnableReplies)
    requires !section.NullSection?
    ensures var r := Check(it, Answered(section), identity, replies);
            var asked := [Graphql(LinkedAccountsRequest(it)), CallerIdentity];
            var list := if section.Present? then section.value else [];
            var none := forall a :: a in list ==>
                          !IsMatch(a, LinkedAccountName(it.config), CallerAccount(identity), it.config.accountId);
            && (r.outcome.Enabling? <==> none && Truthy(it.config.enableIntegration))
            && (r.outcome.Enabling? ==>
                  r.calls == asked + Enable(it, CallerAccount(identity), replies).calls
                  && r.outcome.enable == Enable(it, CallerAccount(identity), replies).outcome)
            && (!r.outcome.Enabling? ==> r.calls == asked)
  {
    var list := if section.Present? then section.value else [];
    var found := Matching(list, LinkedAccountName(it.config), CallerAccount(identity), it.config.accountId);
    if |found| >= 1 {
      assert found[0] in found;
    }
  }

  /** A failing linked-accounts request rejects `check` before anything else. */
  lemma CheckRejectsOnTransportError(it: Integration, identity: IdentityReply, replies: EnableReplies)
    ensures Check(it, TransportError, identity, replies) == CheckRun(Rejected, [Graphql(LinkedAccountsRequest(it))])
  {
  }

  /** True of an error whose text names the secret stack and says it exists. */
  predicate SecretAlreadyExists(error: string)
  {
    Contains(error, SecretStackName) && Contains(error, "already exists")
  }

  /** `createManagedSecret`: create the license-key secret stack. The result
      is the stack id; on an error, "Already created" when the secret stack
      is reported as existing, and `false` otherwise. */
  function CreateManagedSecret(it: Integration, reply: StackReply): (r: SecretCreation)
    ensures reply.Created? ==> r.result == reply.stackId
    ensures !reply.Created? ==> (r.result == Str("Already created") <==> SecretAlreadyExists(reply.error))
    ensures !reply.Created? ==> (r.result != Str("Already created") <==> r.result == Bool(false))
    ensures r.calls == if reply.TemplateUnreadable? then []
                       else [CreateStack(SecretStackName, [Parameter("LicenseKey", it.licenseKey),
                                                           Parameter("Region", Str(it.region))])]
  {
    var params := [Parameter("LicenseKey", it.licenseKey), Parameter("Region", Str(it.region))];
    var calls := if reply.TemplateUnreadable? then [] else [CreateStack(SecretStackName, params)];
    match reply
    case Created(id) => SecretCreation(id, calls)
    case _ => SecretCreation(if SecretAlreadyExists(reply.error) then Str("Already created") else Bool(false), calls)
  }

  /** What follows a missing role: the poller runs on the new stack, and
      its callback, `enable` again, runs only if the stack is created. */
  datatype Deferred = Deferred(poll: Poller.Run, enable: Option<EnableRun>)

  function DeferredEnable(it: Integration, externalId: Value, statusAt: nat -> Poller.Observation,
                          replies: EnableReplies): (r: Deferred)
    ensures r.enable.Some? <==> r.poll.outcome == Poller.Succeeded
    ensures r.enable.Some? ==> r.enable.value == Enable(it, externalId, replies)
  {
    var poll := Poller.WaitForStatus(statusAt, 0);
    Deferred(poll, if poll.outcome == Poller.Succeeded then Some(Enable(it, externalId, replies)) else None)
  }

  /** The deferred `enable` runs at most once, and only after the poller
      saw the stack created within its ceiling. */
  lemma DeferredEnableAtMostOnce(it: Integration, externalId: Value, statusAt: nat -> Poller.Observation,
                                 replies: EnableReplies)
    ensures var d := DeferredEnable(it, externalId, statusAt, replies);
            Poller.Callbacks(d.poll.events) == (if d.enable.Some? then 1 else 0)
  {
  }
}
