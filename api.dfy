/** The NerdGraph (GraphQL) client of the plugin: the request that
    `nerdgraphFetch` sends, and the four query and mutation documents it
    sends. The documents are template strings: arguments are interpolated
    with their string form and nothing is escaped. Each document is written
    as a few blocks of its lines, an interpolated line being one fragment. */
module Api {
  import opened Text
  import opened Js

  const GraphqlUrl: string := "https://api.newrelic.com/graphql"

  /** A query or mutation document: the builder that produces it and the
      arguments it is given. `Render` is its text. */
  datatype Document =
    | LinkedAccountsQuery(accountId: Value)
    | LicenseKeyQuery(accountId: Value)
    | LinkAccountMutation(accountId: Value, roleArn: Value, linkedAccount: Value)
    | ServiceIntegrationMutation(accountId: Value, provider: Value, service: Value, linkedAccountId: Value)

  /** The POST that `nerdgraphFetch` issues: endpoint, `API-Key` header and
      the document sent as the `query` field of the JSON body. */
  datatype Request = Request(url: string, apiKey: Value, document: Document)

  /** The part of a parsed answer that a caller reads with `_.get`: not
      there, there but `null`, or present. */
  datatype Section<T> = Absent | NullSection | Present(value: T)

  /** What a NerdGraph call yields to its caller: the request failed, or the
      parsed body, read at the caller's path. */
  datatype Reply<T> = TransportError | Answered(section: Section<T>)

  /** The request for `document`. The endpoint is chosen on whether `region`
      mentions "eu", but both choices are the same URL. */
  function NerdgraphRequest(apiKey: Value, region: string, document: Document): (r: Request)
    ensures r.url == GraphqlUrl
    ensures r.apiKey == apiKey && r.document == document
  {
    var url := if Contains(region, "eu") then GraphqlUrl else GraphqlUrl;
    Request(url, apiKey, document)
  }

  /** The text of a document, as its builder writes it. */
  function Render(document: Document): string
  {
    match document
    case LinkedAccountsQuery(accountId) => FetchLinkedAccounts(accountId)
    case LicenseKeyQuery(accountId) => FetchLicenseKey(accountId)
    case LinkAccountMutation(accountId, roleArn, linkedAccount) =>
      CloudLinkAccountMutation(accountId, roleArn, linkedAccount)
    case ServiceIntegrationMutation(accountId, provider, service, linkedAccountId) =>
      CloudServiceIntegrationMutation(accountId, provider, service, linkedAccountId)
  }

  // cloudLinkAccountMutation

  /** The line of the link mutation that names the New Relic account; the
      role ARN literal follows it. */
  function LinkAccountLine(accountId: Value): string
  {
    "    cloudLinkAccount(accountId: " + Show(accountId) + ", accounts: {aws: [{arn: "
  }

  function LinkOpening(accountId: Value): seq<string>
  {
    ["\n",
     "  mutation {\n",
     LinkAccountLine(accountId)]
  }

  const LinkedAccountsSelection: seq<string> :=
    ["}]}) {\n",
     "      linkedAccounts {\n",
     "        id\n",
     "        name\n",
     "      }\n"]

  const LinkErrorsSelection: seq<string> :=
    ["      errors {\n",
     "          message\n",
     "      }\n",
     "    }\n",
     "  }\n"]

  function CloudLinkAccountParts(accountId: Value, roleArn: Value, linkedAccount: Value): seq<string>
  {
    [Concat(LinkOpening(accountId)),
     Quoted(Show(roleArn)), ", name: ", Quoted(Show(linkedAccount)),
     Concat(LinkedAccountsSelection),
     Concat(LinkErrorsSelection)]
  }

  /** `cloudLinkAccountMutation`: links the AWS role `roleArn`, under the
      name `linkedAccount`, to the New Relic account `accountId`. */
  function CloudLinkAccountMutation(accountId: Value, roleArn: Value, linkedAccount: Value): string
  {
    Concat(CloudLinkAccountParts(accountId, roleArn, linkedAccount))
  }

  // cloudServiceIntegrationMutation

  /** The `integrations` argument: `{provider: {service: {linkedAccountId: id}}}`. */
  function IntegrationsArgument(provider: Value, service: Value, linkedAccountId: Value): string
  {
    "{" + Show(provider) + ": {" + Show(service) + ": {linkedAccountId: " + Show(linkedAccountId) + "}}}"
  }

  function IntegrationsLine(provider: Value, service: Value, linkedAccountId: Value): string
  {
    "      integrations: " + IntegrationsArgument(provider, service, linkedAccountId) + "\n"
  }

  function ConfigureOpening(accountId: Value, provider: Value, service: Value, linkedAccountId: Value): seq<string>
  {
    ["\n",
     "  mutation {\n",
     "    cloudConfigureIntegration (\n",
     "      accountId: " + Show(accountId) + ",\n",
     IntegrationsLine(provider, service, linkedAccountId)]
  }

  const IntegrationsSelection: seq<string> :=
    ["    ) {\n",
     "      integrations {\n",
     "        id\n",
     "        name\n",
     "        service {\n"]

  const ServiceSelection: seq<string> :=
    ["          id\n",
     "          name\n",
     "        }\n",
     "      }\n"]

  const ConfigureErrorsSelection: seq<string> :=
    ["      errors {\n",
     "        linkedAccountId\n",
     "        message\n",
     "      }\n",
     "    }\n",
     "  }\n"]

  function CloudServiceIntegrationParts(accountId: Value, provider: Value, service: Value,
                                        linkedAccountId: Value): seq<string>
  {
    [Concat(ConfigureOpening(accountId, provider, service, linkedAccountId)),
     Concat(IntegrationsSelection),
     Concat(ServiceSelection),
     Concat(ConfigureErrorsSelection)]
  }

  /** `cloudServiceIntegrationMutation`: turns on `service` of `provider`
      for the linked account `linkedAccountId`. */
  function CloudServiceIntegrationMutation(accountId: Value, provider: Value, service: Value,
                                           linkedAccountId: Value): string
  {
    Concat(CloudServiceIntegrationParts(accountId, provider, service, linkedAccountId))
  }

  // fetchLinkedAccounts

  /** The `account(id: ...)` selector shared by both queries. */
  function AccountSelector(accountId: Value): string
  {
    "      account(id: " + Show(accountId) + ") {\n"
  }

  function LinkedAccountsOpening(accountId: Value): seq<string>
  {
    ["\n",
     "  query {\n",
     "    actor {\n",
     AccountSelector(accountId),
     "        cloud {\n",
     "          linkedAccounts {\n"]
  }

  const LinkedAccountFields: seq<string> :=
    ["            id\n",
     "            name\n",
     "            createdAt\n",
     "            updatedAt\n",
     "            authLabel\n",
     "            externalId\n",
     "            nrAccountId\n"]

  const LinkedAccountsClosing: seq<string> :=
    ["          }\n",
     "        }\n",
     "      }\n",
     "    }\n",
     "  }\n"]

  function FetchLinkedAccountsParts(accountId: Value): seq<string>
  {
    [Concat(LinkedAccountsOpening(accountId)),
     Concat(LinkedAccountFields),
     Concat(LinkedAccountsClosing)]
  }

  /** `fetchLinkedAccounts`: the cloud accounts linked to `accountId`. */
  function FetchLinkedAccounts(accountId: Value): string
  {
    Concat(FetchLinkedAccountsParts(accountId))
  }

  // fetchLicenseKey

  function FetchLicenseKeyParts(accountId: Value): seq<string>
  {
    ["\n",
     "  {\n",
     "    actor {\n",
     AccountSelector(accountId),
     "        licenseKey\n",
     "        name\n",
     "        id\n",
     "      }\n",
     "    }\n",
     "  }\n"]
  }

  /** `fetchLicenseKey`: the license key of `accountId`. */
  function FetchLicenseKey(accountId: Value): string
  {
    Concat(FetchLicenseKeyParts(accountId))
  }

  // Properties of the documents

  lemma LinkAccountLineQuoteFree(accountId: Value)
    requires '"' !in Show(accountId)
    ensures '"' !in LinkAccountLine(accountId)
  {
  }

  lemma LinkOpeningQuoteFree(accountId: Value)
    requires '"' !in Show(accountId)
    ensures '"' !in Concat(LinkOpening(accountId))
  {
    LinkAccountLineQuoteFree(accountId);
    ConcatWithout(LinkOpening(accountId), '"');
  }

  lemma LinkedAccountsSelectionQuoteFree()
    ensures '"' !in Concat(LinkedAccountsSelection)
  {
    ConcatWithout(LinkedAccountsSelection, '"');
  }

  lemma LinkErrorsSelectionQuoteFree()
    ensures '"' !in Concat(LinkErrorsSelection)
  {
    ConcatWithout(LinkErrorsSelection, '"');
  }

  /** The role ARN and the linked-account name are the document's only two
      string literals and read back verbatim, while the account id stands
      unquoted in the `accountId:` argument. Nothing is escaped, so this holds
      only while none of the three values contains a double quote. */
  lemma LinkMutationLiterals(accountId: Value, roleArn: Value, linkedAccount: Value)
    requires '"' !in Show(accountId) && '"' !in Show(roleArn) && '"' !in Show(linkedAccount)
    ensures QuotedStrings(CloudLinkAccountMutation(accountId, roleArn, linkedAccount))
            == [Show(roleArn), Show(linkedAccount)]
    ensures Contains(CloudLinkAccountMutation(accountId, roleArn, linkedAccount),
                     "    cloudLinkAccount(accountId: " + Show(accountId) + ", accounts: {aws: [{arn: ")
  {
    var parts := CloudLinkAccountParts(accountId, roleArn, linkedAccount);
    LinkOpeningQuoteFree(accountId);
    LinkedAccountsSelectionQuoteFree();
    LinkErrorsSelectionQuoteFree();
    QuotedStringsOfTwo(parts, 1, Show(roleArn), 3, Show(linkedAccount));
    ConcatContainsPart(parts, 0);
    ConcatContainsPart(LinkOpening(accountId), 2);
    ContainsTrans(Concat(parts), parts[0], LinkAccountLine(accountId));
  }

  /** The configure mutation nests the linked account id under the service
      under the provider. */
  lemma ConfigureMutationNesting(accountId: Value, provider: Value, service: Value, linkedAccountId: Value)
    ensures Contains(CloudServiceIntegrationMutation(accountId, provider, service, linkedAccountId),
                     "      integrations: " + IntegrationsArgument(provider, service, linkedAccountId) + "\n")
  {
    var parts := CloudServiceIntegrationParts(accountId, provider, service, linkedAccountId);
    var opening := ConfigureOpening(accountId, provider, service, linkedAccountId);
    ConcatContainsPart(parts, 0);
    ConcatContainsPart(opening, 4);
    ContainsTrans(Concat(parts), parts[0], IntegrationsLine(provider, service, linkedAccountId));
  }

  /** The linked-accounts query selects `account(id: accountId)`, with the
      account id unquoted. */
  lemma LinkedAccountsQueryAccount(accountId: Value)
    ensures Contains(FetchLinkedAccounts(accountId), "      account(id: " + Show(accountId) + ") {\n")
  {
    var parts := FetchLinkedAccountsParts(accountId);
    ConcatContainsPart(parts, 0);
    ConcatContainsPart(LinkedAccountsOpening(accountId), 3);
    ContainsTrans(Concat(parts), parts[0], AccountSelector(accountId));
  }

  /** The linked-accounts query asks for the three fields that identify a
      link: name, externalId and nrAccountId. */
  lemma LinkedAccountsQueryFields(accountId: Value)
    ensures Contains(FetchLinkedAccounts(accountId), "            name\n")
    ensures Contains(FetchLinkedAccounts(accountId), "            externalId\n")
    ensures Contains(FetchLinkedAccounts(accountId), "            nrAccountId\n")
  {
    var parts := FetchLinkedAccountsParts(accountId);
    var doc := Concat(parts);
    ConcatContainsPart(parts, 1);
    ConcatContainsPart(LinkedAccountFields, 1);
    ContainsTrans(doc, parts[1], LinkedAccountFields[1]);
    ConcatContainsPart(LinkedAccountFields, 5);
    ContainsTrans(doc, parts[1], LinkedAccountFields[5]);
    ConcatContainsPart(LinkedAccountFields, 6);
    ContainsTrans(doc, parts[1], LinkedAccountFields[6]);
  }

  /** The license query selects `licenseKey` directly inside
      `actor { account(id: accountId) { ... } }`, the path
      `data.actor.account.licenseKey` the plugin reads back. */
  lemma LicenseKeyQueryPath(accountId: Value)
    ensures Contains(FetchLicenseKey(accountId),
                     "    actor {\n" + AccountSelector(accountId) + "        licenseKey\n")
  {
    var parts := FetchLicenseKeyParts(accountId);
    ConcatContainsRun(parts, 2, "    actor {\n", AccountSelector(accountId), "        licenseKey\n");
  }
}
