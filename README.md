# AWS security analyzer hub: a Dafny model

The system is a small agent hub. It speaks the A2A (agent-to-agent) protocol over JSON-RPC 2.0 and routes each request to a registered analysis agent. This project models four of its pieces and proves what they promise.

- **The agent registry** (`agent_registry.py`). This is a two-level table from agent ID and skill ID to the class implementing that skill. `register_agent` fills it and refuses classes that are not agents. `get_agent` reads it.
- **The A2A server** (`a2a_server.py`):
  - The hub card at `/.well-known/agent.json` aggregates the skills of all agent cards. Skills are keyed by card name and skill ID. A skill's name gets its card's short name as a prefix, unless that prefix is empty or the name already starts with it.
  - The start-up check compares card agent IDs with registry agent IDs.
  - `POST /a2a/analyzer/{agent_id}` handles requests. It refuses "coming soon" agents and checks the JSON-RPC envelope. When the first message has role "user" and non-empty parts, it sets the `agent_id` of each of those parts' non-empty `json` objects to the path's agent ID. It then checks the task and dispatches it to the registered agent, or to the default analysis when none is registered.
- **The AWS account analysis agent** (`agents/aws_account_analysis.py`):
  - It extracts 12-digit account IDs from trust and bucket policies.
  - It detects `sts:ExternalId` conditions.
  - It sorts the accounts of each IAM role and S3 bucket into trusted entities, known vendors and unknown accounts. It also files cross-account roles, and files as vulnerable the non-trusted roles without an external ID.
  - It merges the IAM and S3 results and counts them.
- **The EC2 AMI eye agent** (`agents/aws_ec2_eye.py`):
  - It classifies every AMI that the region's described instances use, in any instance state, into seven tiers: verified, self-hosted, allowed, trusted, private-shared, known-unverified and unknown-unverified.
  - It records the EBS snapshot lineage of allowed, trusted and private-shared AMIs, when at least one snapshot is found.
  - It compiles the inventory and its counts.

Modules:
- `Wrappers` holds Option and Result.
- `JsonValue` holds JSON values, where a Python dict is a sequence of key/value pairs.
- `Strings` holds split, join, prefixes and a duplicate-free append.
- `AgentRegistry` models the registry.
- `A2AServer` models the server.
- `AccountAnalysis` models the account analysis agent.
- `Ec2Eye` models the EC2 AMI eye agent.

The loops that build or update results in the source are methods with loops. Each is proved against a specification function, and the properties are then proved about those functions. These methods are:
- `AddOneSkill`, `AddCardSkills` and `GetAgentCard` for the hub card.
- `OverrideAgentIds` and `HandleAgentSpecificRequest` for the request handler.
- `Walk`, `WalkPrincipal` and `ExtractAccountIds` for account-ID extraction.
- `BuildTable`, `FetchReferenceData` and `FetchTrustedAccounts` for the reference tables.
- `FileCross`, `FileAccount`, `FileCrossAccounts`, `FileAccounts`, `CheckRole`, `CheckIamRoles`, `CheckS3Buckets`, `MergeDicts`, `TotalLength` and `AccountAnalysis.Analyze` for the account analysis.
- `SnapshotLineage`, `RecordAmis`, `ClassifyAmi`, `ClassifyKey`, `ClassifyNew`, `ScanRegion`, `ScanRegions` and `Ec2Eye.Analyze` for the AMI scan.

For example, `Walk` is proved against `CollectIds`, and `CheckIamRoles` against a replay of per-role filings. `ScanRegions` is proved against a reference classification of each AMI in the first region that runs it.

Some search loops only compute a yes/no answer or a first match. These are recursive functions with iff contracts:
- the card-ID loop of the start-up check (`CardAgentIds`);
- the scan for the first `json` part in the task check (`FirstJsonPart`);
- the statement and condition loops of the external-ID test (`StatementScan`, `ConditionScan`).

## Model

| member | source | states |
|---|---|---|
| AgentRegistry.Lookup | agent_registry.py:34-38 | The lookup finds nothing exactly when the agent ID or, under it, the skill ID is absent. |
| AgentRegistry.Registered | agent_registry.py:26-29 | After registration the pair maps to the class. No other pair's lookup changes. The agent IDs gain the registered one. |
| AgentRegistry.Registry.constructor | agent_registry.py:18 | The registry starts empty. |
| AgentRegistry.Registry.Get | agent_registry.py:34-38 | `get_agent` answers the table lookup on the current registry. |
| AgentRegistry.Registry.Register | agent_registry.py:20-32 | A class that is not an agent gets the TypeError message and leaves the registry unchanged. Any other class is filed under the pair and handed back. |
| AgentRegistry.RegisterThenGet | agent_registry.py:20-38 | A lookup after registration finds the registered class for that pair and the earlier answer for every other pair. |
| AgentRegistry.RegisterCommutes | agent_registry.py:26-29 | Registering two different pairs gives the same registry in either order. Re-registering a pair keeps the later class. |
| A2AServer.DictItems | a2a_server.py:139 | A card's skill list is accepted only when every entry is a dict. |
| A2AServer.Renamed | a2a_server.py:147-152 | The copy differs from the skill at most in its name. The name is prefixed "<card prefix> - " exactly when the prefix is non-empty and the name does not start with it; otherwise the copy is the skill. A non-string name with a prefix fails, as `startswith` would. |
| A2AServer.AddOneSkill | a2a_server.py:139-155 | Adding one skill with the `seen_skills` set gives the aggregation step on the key sequence. The step fails exactly when that does. |
| A2AServer.AddCardSkills | a2a_server.py:139-156 | The loop over one card's skills extends the aggregation of everything before it. A failure means some prefix of the skills fails to aggregate. |
| A2AServer.SkillItems | a2a_server.py:139 | It reads the card's `skills` list, defaulting to empty. |
| A2AServer.GetAgentCard | a2a_server.py:105-160 | The endpoint returns the hub card around `AggregatedSkills` (lines 133-160), or that function's error: no cards loaded, or a card that makes Python raise. |
| A2AServer.AddSkillKeys | a2a_server.py:143-155 | A skill step adds the skill's compound key if new. It appends one skill exactly when it appends one key. |
| A2AServer.AggregateKeySet | a2a_server.py:133-155 | The aggregated keys are duplicate-free, one per listed skill, and are exactly the keys of the entries. |
| A2AServer.AggregateKeys | a2a_server.py:133-155 | Each key occurs once and has one skill. The keys are exactly those that some card-skill entry carries. |
| A2AServer.AggregateFirst | a2a_server.py:139-155 | Each listed skill is the renamed copy of the first entry with its key. Later duplicates are dropped. |
| A2AServer.AggregateOrder | a2a_server.py:139-155 | The skills are listed in the order in which their keys first occur. |
| A2AServer.SameIdDifferentCards | a2a_server.py:133-142 | Skills with the same ID on different cards get different keys, so both are kept. |
| A2AServer.CardAgentIds | a2a_server.py:78-83 | The card agent IDs are the IDs of all cards' agent lists, minus the "_coming_soon" ones. A card whose list is malformed makes the check fail. |
| A2AServer.Validate | a2a_server.py:74-98 | Missing implementations are card IDs not in the registry. Missing cards are registry IDs not in the cards. |
| A2AServer.NoWarningsIffAgree | a2a_server.py:89-96 | There is no warning exactly when card IDs and registry IDs are equal. |
| A2AServer.ComingSoonNeverMissing | a2a_server.py:79-90 | A "_coming_soon" agent ID is never reported as a missing implementation. |
| A2AServer.OverridePart | a2a_server.py:233-241 | A part with a truthy `json` gets that object's `agent_id` set to the path's ID. All else is kept, and any other part is unchanged. A non-dict part or a truthy non-dict `json` fails, as the attribute access would. |
| A2AServer.OverrideParts | a2a_server.py:233-241 | Every part is overridden in place. It fails exactly when some part fails. |
| A2AServer.OverrideAgentIds | a2a_server.py:227-241 | The loop over the parts computes `Override` (lines 227-241): the params with the first user message's parts overridden, or failure where Python raises. |
| A2AServer.FirstJsonOverridden | a2a_server.py:233-241 | After the override, a truthy first JSON part carries the path's agent ID. |
| A2AServer.FirstJsonPart | a2a_server.py:322-327 | The details part is the first non-None `json` of the parts. It is absent exactly when every part has an empty one. The scan raises exactly when it reaches a part that is not a dict before finding one. |
| A2AServer.CheckDetails | a2a_server.py:322-331 | Missing or empty details give the "missing details" invalid-request error. A scan that raises, or truthy details that are not a dict, give an internal error. Truthy details are accepted exactly when they are a dict. Success carries the task's ID, messages and context and the non-empty details of the first JSON part. |
| A2AServer.CheckTaskObject | a2a_server.py:304-320 | A task that is not a dict, or a first message that is not a dict, gives an internal error. A task without the required fields gives "bad task". A first message not from the user, or without parts, gives "bad user message". Whenever the task and its first message pass, the details check decides. |
| A2AServer.CheckTask | a2a_server.py:300-331 | Params without a task give "missing task". Otherwise the task object is checked. |
| A2AServer.CheckedDetails | a2a_server.py:316-331 | A passed check carries the truthy first JSON part of the first message and the task's messages. |
| A2AServer.GetAgentJson | a2a_server.py:342-343 | For string IDs the dispatcher's lookup is the registry lookup. A class is found only for string IDs. |
| A2AServer.DefaultAnalysis | a2a_server.py:392-414 | The fallback result has status "warning" and echoes the agent and skill IDs. |
| A2AServer.TaskObject | a2a_server.py:357-378 | The completed task keeps the task ID and context. Its messages are the old ones plus the agent's reply. |
| A2AServer.Reply | a2a_server.py:383-389 | The reply is a JSON-RPC 2.0 result echoing the request ID and carrying the task, with no error. |
| A2AServer.DoneReply | a2a_server.py:295-389 | When `SendTask` (the model of `handle_send_task`) dispatches, its answer is an error-free reply with the request ID and a task object. Its error paths are those of `CheckTask`, and `RegisteredOrFallback` states which analysis it returns. |
| A2AServer.Dispatch | a2a_server.py:333-389 | Dispatch succeeds exactly when the registry lookup does not raise. A list or dict ID raises, as an unhashable key would, and gives an internal error. Success is a reply with a completed task. |
| A2AServer.RegisteredOrFallback | a2a_server.py:342-353 | A registered agent's analysis is used. Otherwise the default analysis is used, with the request ID kept. |
| A2AServer.HandleAgentSpecificRequest | a2a_server.py:182-291 | The handler method returns `HandleBody` of the path, the body and the current registry. `HandleBody` is `Handle` on the decoded payload, where an undecodable body has none. |
| A2AServer.ErrorBodyReads | a2a_server.py:264-291 | An error body carries its code and the request ID. |
| A2AServer.ComingSoonFirst | a2a_server.py:190-202 | A "coming soon" agent always gets 503 with code -32001 and a null ID, whatever the payload. |
| A2AServer.UnknownMethod | a2a_server.py:247-257 | A valid envelope whose method is not "tasks/send" gets -32601 with the request ID. |
| A2AServer.ResponseKinds | a2a_server.py:182-291 | Every response of the model's handler `Handle` is one of: a 200 reply echoing the ID with a task, 503/-32001, 400/-32700, 400/-32600, 200/-32601 or 500/-32603. The source itself can also answer a plain-text 500 (see Findings). |
| A2AServer.PayloadKinds | a2a_server.py:204-291 | `HandlePayload`, the handler once the body is parsed, answers a reply, 400/-32600, 200/-32601 or 500/-32603. |
| A2AServer.SendKinds | a2a_server.py:224-243 | "tasks/send" gets a reply with the request ID, 400/-32600 or 500/-32603. |
| A2AServer.NotUtf8AsWritten | a2a_server.py:204-281 | As written, a body that is not UTF-8 (for a non-coming-soon agent) gets status 500 with no JSON-RPC body. |
| A2AServer.NotUtf8ParseError | a2a_server.py:262-271 | As intended, such a body is answered exactly like one that is not JSON: 400 with -32700 and a null ID. |
| A2AServer.AsWrittenAgrees | a2a_server.py:182-291 | The as-written and intended handlers agree on every other body. |
| A2AServer.TaskResponseKinds | a2a_server.py:259-291 | The outcome of a task becomes a 200 reply, a 400/-32600 or a 500/-32603 response. |
| A2AServer.PathAgentDispatched | a2a_server.py:227-243 | After the override, the checked details name the path's agent ID, whatever the payload said. |
| AccountAnalysis.PrincipalAccount | agents/aws_account_analysis.py:193-207 | An account read from a principal string is a 12-digit ID. |
| AccountAnalysis.CollectIdsSound | agents/aws_account_analysis.py:189-212 | The walk keeps the found list duplicate-free and only extends it. The walk adds exactly the account IDs of the node. |
| AccountAnalysis.CollectPrincipalItemsSound | agents/aws_account_analysis.py:200-207 | The same holds for a list of AWS principals. |
| AccountAnalysis.AccountIdsAreAccountIds | agents/aws_account_analysis.py:196-207 | Every extracted value is a 12-digit account ID. |
| AccountAnalysis.AccountIdListSound | agents/aws_account_analysis.py:184-215 | The result list is duplicate-free, holds exactly the document's account IDs, and holds only 12-digit IDs. |
| AccountAnalysis.NestedObjectUnderAwsIgnored | agents/aws_account_analysis.py:192-207 | A dict under the "AWS" key is not searched. |
| AccountAnalysis.IamArnPrincipal | agents/aws_account_analysis.py:193-197 | An IAM ARN's fifth colon field is its account ID. |
| AccountAnalysis.Walk | agents/aws_account_analysis.py:189-212 | The recursive walk with its loops computes the specification walk. |
| AccountAnalysis.WalkPrincipal | agents/aws_account_analysis.py:192-207 | The walk of an "AWS" value computes the principal walk. |
| AccountAnalysis.ExtractAccountIds | agents/aws_account_analysis.py:184-215 | The result lists each account ID of the document once, and nothing else. |
| AccountAnalysis.ConditionScan | agents/aws_account_analysis.py:228-231 | It is true exactly when some condition operator holds `sts:ExternalId`. |
| AccountAnalysis.StatementScan | agents/aws_account_analysis.py:224-232 | It is true exactly when some statement allows with an external ID. |
| AccountAnalysis.HasExternalId | agents/aws_account_analysis.py:217-232 | A policy has an external ID exactly when one of its statements is an Allow with an `sts:ExternalId` condition. |
| AccountAnalysis.NoStatementsNoExternalId | agents/aws_account_analysis.py:221-223 | A policy without statements has no external ID. |
| AccountAnalysis.SingleStatementAsList | agents/aws_account_analysis.py:224 | A single statement counts like a one-element list. |
| AccountAnalysis.NonAllowIgnored | agents/aws_account_analysis.py:225-227 | A statement that is not an Allow changes nothing. |
| AccountAnalysis.Overwrite | agents/aws_account_analysis.py:131-137 | One entry's accounts are set to its value. All other accounts keep theirs. |
| AccountAnalysis.TableLast | agents/aws_account_analysis.py:131-137 | The table holds every listed account, with the value of the last entry that lists it. |
| AccountAnalysis.BuildTable | agents/aws_account_analysis.py:131-137 | The nested loop computes the table. |
| AccountAnalysis.FetchReferenceData | agents/aws_account_analysis.py:121-141 | No vendor data gives an empty map. Otherwise each listed account maps to the last listing entry, with "Unknown"/"third-party" defaults. |
| AccountAnalysis.FetchTrustedAccounts | agents/aws_account_analysis.py:143-164 | The same for trusted accounts, with the "Internal" default and type "trusted". |
| AccountAnalysis.Findings.File | agents/aws_account_analysis.py:273-288 | `setdefault(key, []).append(name)` appends to that bucket's key and changes nothing else. |
| AccountAnalysis.ReplayGet | agents/aws_account_analysis.py:273-288 | A result key is present exactly when something was filed under it. Its list is the filed names, in order. |
| AccountAnalysis.ReplayMember | agents/aws_account_analysis.py:273-288 | A name appears under a bucket and key exactly when it was filed there. |
| AccountAnalysis.SumLengthsReplay | agents/aws_account_analysis.py:108 | The summed list lengths of a bucket count its filings. |
| AccountAnalysis.Categorise | agents/aws_account_analysis.py:276-288 | Trusted wins over known vendor, which wins over unknown. The key is the trusted name, the vendor name, or "id (alias)". |
| AccountAnalysis.FileCross | agents/aws_account_analysis.py:262-273 | It files one account's cross-account entry, if any. |
| AccountAnalysis.FileAccount | agents/aws_account_analysis.py:276-288 | It files one account's category, and its vulnerable entry when audited. |
| AccountAnalysis.FileCrossAccounts | agents/aws_account_analysis.py:262-273 | The loop files the cross-account entries of all accounts. |
| AccountAnalysis.FileAccounts | agents/aws_account_analysis.py:276-288 | The loop files the categories of all accounts. |
| AccountAnalysis.CheckRole | agents/aws_account_analysis.py:256-288 | One role's pass files its cross-account entries, then its categories. |
| AccountAnalysis.CheckIamRoles | agents/aws_account_analysis.py:234-289 | The results are the replay of every role's filings, in order. |
| AccountAnalysis.CheckS3Buckets | agents/aws_account_analysis.py:291-322 | The results are the replay of the bucket filings. The first unreadable policy ends the scan. |
| AccountAnalysis.ExactlyOneCategory | agents/aws_account_analysis.py:276-286 | Each account gets exactly one category filing. |
| AccountAnalysis.RoleVulnerable | agents/aws_account_analysis.py:276-288 | A role is filed as vulnerable under a key exactly when a non-trusted account in it with that key lacks an external ID. |
| AccountAnalysis.RoleCross | agents/aws_account_analysis.py:262-273 | A role is filed as cross-account under a key exactly when a non-caller account in it displays as that key. |
| AccountAnalysis.RoleCategorised | agents/aws_account_analysis.py:276-286 | Each account of a role's policy gets its category filing. |
| AccountAnalysis.IamVulnerable | agents/aws_account_analysis.py:255-289 | The vulnerable results hold a role under a key exactly when that role is vulnerable under it. |
| AccountAnalysis.IamCross | agents/aws_account_analysis.py:255-273 | The cross-account results hold a role under a key exactly when that role is cross-account under it. |
| AccountAnalysis.VulnerableAlsoCategorised | agents/aws_account_analysis.py:279-288 | A vulnerable key is also a known-vendor or unknown-account key of the role. |
| AccountAnalysis.TrustedNeverVulnerable | agents/aws_account_analysis.py:277-278 | A trusted account only files as trusted. |
| AccountAnalysis.S3NoOverlay | agents/aws_account_analysis.py:302-319 | The S3 pass never files a vulnerable or cross-account entry. |
| AccountAnalysis.CrossDisplay | agents/aws_account_analysis.py:264-271 | The cross-account key is the account ID followed by, in brackets, the known vendor's name, else the trusted name, else the alias, else "Unknown". |
| AccountAnalysis.CrossDisplayDistinct | agents/aws_account_analysis.py:264-273 | Different account IDs never share a cross-account key, so a role's accounts are filed under separate keys. |
| AccountAnalysis.TrustedAndKnownDisplay | agents/aws_account_analysis.py:265-278 | An account both trusted and known categorises as trusted but displays with its vendor name. So `Categorise` and `CrossDisplay` use opposite precedence. |
| AccountAnalysis.Merged | agents/aws_account_analysis.py:324-333 | Shared keys hold the duplicate-free union of their lists. Other keys keep their list. |
| AccountAnalysis.MergeDicts | agents/aws_account_analysis.py:324-333 | The loop computes the merge. |
| AccountAnalysis.TotalLength | agents/aws_account_analysis.py:108 | The loop sums the list lengths. |
| AccountAnalysis.Analyze | agents/aws_account_analysis.py:73-109 | The report merges IAM and S3 findings, takes the vulnerable and cross-account results from IAM, counts its maps, and sums the cross-account names. |
| AccountAnalysis.CrossCount | agents/aws_account_analysis.py:262-273 | A role adds one cross-account name per non-caller account. Category filings add none. |
| AccountAnalysis.TotalCrossAccountRoles | agents/aws_account_analysis.py:108 | The cross-account total grows role by role by the number of non-caller accounts. |
| Ec2Eye.VendorMap.VendorName | agents/aws_ec2_eye.py:17-18 | An unlisted account has the empty vendor name. |
| Ec2Eye.NewVendorMap | agents/aws_ec2_eye.py:15-16 | Without a mapping the vendor map is empty. |
| Ec2Eye.DefaultVendorMapIsEmpty | agents/aws_ec2_eye.py:14-18 | The map the agent builds names no vendor at all. |
| Ec2Eye.ImageOf | agents/aws_ec2_eye.py:134-138 | A missing or empty image description reads as the empty image. |
| Ec2Eye.Providers | agents/aws_ec2_eye.py:124 | The providers are those of every image criterion. |
| Ec2Eye.AllowedOf | agents/aws_ec2_eye.py:121-126 | Missing settings give no state and no accounts. |
| Ec2Eye.DataOf | agents/aws_ec2_eye.py:140-144 | The record carries the image's public flag, owner and alias with their defaults, and the region name. Its vendor is "Unknown" exactly when the name is empty or "Unknown". |
| Ec2Eye.TierOf | agents/aws_ec2_eye.py:146-160 | Each of the seven tiers is chosen exactly under its branch condition, in the source's order. |
| Ec2Eye.NeverKnownUnverified | agents/aws_ec2_eye.py:143-158 | With the agent's vendor map, `Classify` (TierOf applied to the AMI's record, lines 133-160) never gives known-unverified. |
| Ec2Eye.NoSettingsNoAllowed | agents/aws_ec2_eye.py:121-152 | Without allowed-images settings no AMI is allowed. |
| Ec2Eye.MissingMetadataIsPrivate | agents/aws_ec2_eye.py:134-156 | `Classify` gives an AMI without metadata empty fields, and makes it allowed, trusted or private-shared. |
| Ec2Eye.AnyGroupAll | agents/aws_ec2_eye.py:176 | A snapshot is public exactly when some permission is the group "all". |
| Ec2Eye.UserIds | agents/aws_ec2_eye.py:177 | "Shared with" holds exactly the permissions' user IDs. A single permission gives its user ID, or nothing when it has none. |
| Ec2Eye.SnapshotInfoOf | agents/aws_ec2_eye.py:173-181 | A snapshot without permissions is private and unshared. Otherwise it is public exactly when the group "all" is allowed, and it is shared with the permissions' user IDs. |
| Ec2Eye.SnapshotIds | agents/aws_ec2_eye.py:165-171 | The snapshot IDs are exactly those of the EBS mappings. A single mapping gives its snapshot ID, or nothing when it has none. |
| Ec2Eye.UserIdsAppend | agents/aws_ec2_eye.py:177 | The user IDs of concatenated permission lists are the concatenation of their user IDs, in order and with repetitions. |
| Ec2Eye.SnapshotIdsAppend | agents/aws_ec2_eye.py:165-171 | The snapshot IDs of concatenated device lists are the concatenation of their snapshot IDs, in order and with repetitions. |
| Ec2Eye.Lineage | agents/aws_ec2_eye.py:164-181 | The lineage has one record per snapshot ID, in order. |
| Ec2Eye.SnapshotLineage | agents/aws_ec2_eye.py:164-181 | The loop computes the lineage. |
| Ec2Eye.ScannedAmis | agents/aws_ec2_eye.py:116-119 | The scanned AMIs are those of every region's instances. |
| Ec2Eye.RecordAmis | agents/aws_ec2_eye.py:116-119 | Recording instances extends the duplicate-free key list by their AMIs. |
| Ec2Eye.FirstRegion | agents/aws_ec2_eye.py:103-131 | An AMI is classified in the first region where it runs. |
| Ec2Eye.ReferenceAppend | agents/aws_ec2_eye.py:103-131 | Scanning another region keeps earlier AMIs' classification region and adds its own AMIs and instances. |
| Ec2Eye.Inventory.Put | agents/aws_ec2_eye.py:147-160 | Filing an AMI changes only its tier's map. |
| Ec2Eye.TiersAdd | agents/aws_ec2_eye.py:147-160 | Filing an AMI in its reference tier keeps every tier map exact. |
| Ec2Eye.LineageAdd | agents/aws_ec2_eye.py:162-183 | Lineage is recorded for exactly those processed AMIs that are allowed, trusted or private-shared and have a non-empty snapshot list. |
| Ec2Eye.ClassifiedAppend | agents/aws_ec2_eye.py:103-131 | Scanning another region keeps earlier classifications valid. |
| Ec2Eye.ClassifyAmi | agents/aws_ec2_eye.py:133-183 | A new AMI is classified and processed. |
| Ec2Eye.ClassifyKey | agents/aws_ec2_eye.py:128-131 | Processed AMIs are skipped. Others are classified. |
| Ec2Eye.ClassifyNew | agents/aws_ec2_eye.py:128-183 | After a region, all AMIs scanned so far are processed and classified. |
| Ec2Eye.ScanRegion | agents/aws_ec2_eye.py:104-183 | One region's step keeps the scan state: keys, processed AMIs, classifications and instance count. |
| Ec2Eye.ScanRegions | agents/aws_ec2_eye.py:102-183 | The state after all regions describes them. |
| Ec2Eye.ScannedDescribed | agents/aws_ec2_eye.py:185-217 | A report built from the scan state describes the regions. |
| Ec2Eye.Analyze | agents/aws_ec2_eye.py:82-218 | The scanned regions are `RegionsToScan`: the requested ones, or all described regions when none are requested (lines 83-84). The report classifies every AMI of those regions, never lists one as known-unverified, and counts tiers, lineage, instances and AMIs. |
| Ec2Eye.NoKnownUnverified | agents/aws_ec2_eye.py:143-158 | With the empty vendor map the known-unverified tier stays empty. |
| JsonValue.Assign | a2a_server.py:241 | Setting a key changes only that key's value. |
| JsonValue.PyStr | a2a_server.py:142 | A string formats as itself and None formats as "None". |
| Strings.Split | agents/aws_account_analysis.py:195 | Splitting gives at least one part, and no part contains the separator. |
| Strings.JoinSplit | agents/aws_account_analysis.py:195 | Joining the parts of a split gives back the string. |
| Strings.SplitJoin | agents/aws_account_analysis.py:195 | Splitting a join of separator-free parts gives back the parts. |
| Strings.TextBefore | a2a_server.py:150 | `split(" Agent")[0]` is the longest prefix before the first occurrence. |
| Strings.Dedup | agents/aws_account_analysis.py:330 | `list(set(...))` is duplicate-free with the same elements. |
| Strings.Add | agents/aws_account_analysis.py:197 | Adding to a set keeps it duplicate-free and adds exactly the element. |
| Strings.ContainsAt | agents/aws_account_analysis.py:193 | Substring search holds exactly when the text occurs at some position. |

## Left out

- AWS calls: boto3 sessions, STS, IAM, S3, EC2 and their pagination are not modelled. The fetched data is an input: an `Environment` or `Region` record, the aliases map and the caller's account ID.
- get_account_aliases is a boto3 call, so its result is an input map.
- Credential guards and catch-all `except` handlers of both agents' `analyze` are not modelled. The model starts where the data has been fetched.
- File input is not modelled: YAML, reading files and parsing policy JSON. Parsed reference entries are `Option` inputs, and a bucket policy is parsed, absent or unparsable.
- Timestamps are not modelled. The clock is a `now` parameter of the default analysis.
- Logging, asyncio, FastAPI routing and `JSONResponse` are not modelled.
- `request.json()` is modelled only by its outcome: a JSON value, text that is not JSON, or bytes that are not UTF-8.
- The handler's answer to a body that is not UTF-8 is modelled as written only in `HandleBodyAsWritten`. `HandleAgentSpecificRequest` follows the intended parse-error answer (see Findings).
- An instance without `ImageId` is not modelled: the source files it under the key `None`. `Region.instances` holds AMI ID strings only.
- A `trusted_accounts` parameter given as one string is not modelled: the source's `owner in trusted_list` then becomes a substring test. `Config.trustedList` is a list of account IDs.
- load_agents, load_agent_cards and AGENT_TO_CARD_MAP are not modelled. get_specific_agent_card and list_agent_cards are plain dictionary reads and are not modelled. The loaded cards and registry are inputs.
- The error messages of -32603 responses are not modelled exactly: the Python exception text has no counterpart here.
- `Repr` approximates Python's `repr` escaping only for plain values.
- The registered agent's `analyze` is not modelled. Its result is the `analysis` parameter.
- Float JSON numbers are not modelled. Numbers are integers.
- A2AServer.OverrideParts: the in-place update of the request payload is modelled as a rebuilt value. Aliasing between the payload and later reads is therefore not modelled.
- AccountAnalysis.Merged: does not fix the order of a merged list. Python's `list(set(...))` order is unspecified.
- Strings.Dedup: does not fix the order of its result, for the same reason.
- Duplicate keys in a JSON object are not modelled. Lookups read the first binding, matching a Python dict's single binding.
- Strings.IsDigit: `str.isdigit` is modelled on ASCII digits only.
- AccountAnalysis.HasExternalId: a non-dict statement or condition makes Python raise AttributeError. The model answers false.
- Accounts are strings already, so `str(acct)` is the identity.
- Mutation of `dict1` in `_merge_dicts` and of source cards in the hub card needs no modelling: values are immutable here, so neither is ever modified.
- AgentRegistry.Registry.Register: the default `skill_id="analyze"` is the constant `DefaultSkill` passed by its callers, not a default parameter.

## Findings

| source | as written | input that shows it | evidently intended | confidence | as-written member | corrected member |
|---|---|---|---|---|---|---|
| a2a_server.py:204-281 | A body that is not UTF-8 makes `request.json()` raise `UnicodeDecodeError`. That error is a `ValueError` but not a `JSONDecodeError`. The `ValueError` handler then reads `payload` before any assignment, so an `UnboundLocalError` escapes and the client gets a plain-text 500. | a POST to `/a2a/analyzer/{agent_id}`, for an agent ID not ending in `_coming_soon`, whose body is the single byte 0xFF | 400 with JSON-RPC error -32700 "Parse error" and a null ID, as for any other body that cannot be parsed | not executed | A2AServer.NotUtf8AsWritten | A2AServer.NotUtf8ParseError |
