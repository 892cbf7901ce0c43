# platform_hub core, modelled in Dafny

platform_hub is a self-service cloud provisioning hub. A React frontend lets a
user describe a resource (EC2 instance, S3 bucket, RDS database, security
group, Elastic IP, load balancer, ECS service), either through a single
request form or a multi-step stack wizard with dependencies between resources.
A Python backend turns each request into a GitHub Actions workflow dispatch and
records the deployment. The workflow reports progress through a webhook, and
the frontend follows a deployment over a push channel with a polling fallback.

This project models the behaviour of that core as pure Dafny functions over
immutable data, and proves properties of it:

- `Json`, `Strings`, `Seqs`: JSON-like values with JavaScript truthiness,
  Python `dict.get`, ASCII case mapping, decimal rendering with its inverse,
  first-occurrence `replace`, and `join`.
- `DeploymentSync`: the `useDeploymentStatus` hook as a state machine. Each
  event (a fetch result, a socket message, error or close, a tick, a refetch)
  yields a new state plus the requests the hook issues.
- `DeploymentPage`, `StackStatusPage`, `Dashboard`: what the status pages and
  the dashboard derive from that state (chips, labels, ordering, counts).
- `Labels`, `StackForm`, `Dependencies`, `StackReview`: the stack request
  flow, covering the label tables, the form's steps and validation, dependency
  rules, and the review text.
- `Wizard`, `WizardReview`, `SecurityGroupForm`, `RdsForm`, `EcsForm`,
  `S3Form`, `AlbForm`, `SimpleRequestForm`, `ResourceConfiguration`: the
  wizard, its per-type forms and the single-resource request form.
- `GithubDispatch`, `Terraform`, `BackendApi`: the workflow dispatch
  (configuration defaults, inputs, deployment id), `execute_terraform`, and
  the HTTP routes including the webhook's upsert.

Network, database, clock and random-id calls are parameters. An HTTP or
database outcome is an abstract value, the store is a map from deployment id
to row, and timestamps and uuids are arguments.

Points where the code's behaviour is easy to misread:

- The hook's completed flag is set only when a pulled status is completed or
  failed (frontend/src/hooks/useDeploymentStatus.ts:73-75), or when a
  `deployment_finished` message arrives (143-145). A pushed `status_update`
  that carries a terminal status does not set it.
- The deployment page reads `status?.error`
  (frontend/src/pages/DeploymentStatus.tsx:133), so the page means to show a
  failed pull. The hook keeps that error in separate state and returns only
  `{status, logs, refetch}`, so the page never sees it (second finding below).
- The socket's `onclose` handler checks the completed flag before it restarts
  polling (useDeploymentStatus.ts:172), so a finished deployment is meant to
  stay quiet. The `onerror` handler has no such check and can restart polling
  (first finding below).
- The stack form (frontend/src/components/EnhancedResourceRequestForm.tsx:571-601)
  renders local placeholder components. The separate `ResourceConfiguration`,
  `DependencyConfiguration` and `ResourceReview` component files are modelled
  as written.

## Model

| member | source | states |
|---|---|---|
| DeploymentSync.Settle | frontend/src/hooks/useDeploymentStatus.ts:64-68 | a fetched record is stored with every field of the server's body kept, plus `isLoading: false` and `error: null` |
| DeploymentSync.Merge | frontend/src/hooks/useDeploymentStatus.ts:131-139 | a pushed update overrides the fields it carries, keeps every other field of the held snapshot, and leaves the snapshot well-formed |
| DeploymentSync.StartPolling | frontend/src/hooks/useDeploymentStatus.ts:190-209 | starting to poll pulls status and logs at once and adds exactly one interval |
| DeploymentSync.Start | frontend/src/hooks/useDeploymentStatus.ts:108-222 | on mount the channel opens exactly when push is enabled and an id is given; an interval starts only when push is off and polling on; a pull happens when either starts |
| DeploymentSync.OnStatusFetched | frontend/src/hooks/useDeploymentStatus.ts:58-80 | a resolved status pull replaces the snapshot; a completed or failed status marks the deployment completed and pulls the logs once more; nothing else changes |
| DeploymentSync.OnStatusFailed | frontend/src/hooks/useDeploymentStatus.ts:52-84 | a failed or token-less status pull records the error and changes nothing else |
| DeploymentSync.OnLogsFetched | frontend/src/hooks/useDeploymentStatus.ts:88-105 | the log list is replaced only when the reply carries logs, and nothing else changes |
| DeploymentSync.OnMessage | frontend/src/hooks/useDeploymentStatus.ts:124-157 | a status update merges into a held snapshot (none stays none) and pulls logs; a finished signal marks completion and pulls both; an error message records its error and changes nothing else; any other message, malformed ones included, changes nothing; completion is never undone |
| DeploymentSync.OnSocketError | frontend/src/hooks/useDeploymentStatus.ts:159-165 | a channel error starts an interval exactly when polling is enabled and none is live (and, in the guarded variant, the deployment is not completed); it issues both pulls exactly when it starts one, and leaves everything else, the channel flag included, as it was |
| DeploymentSync.OnSocketClose | frontend/src/hooks/useDeploymentStatus.ts:167-175 | a close drops the channel and starts an interval exactly when polling is enabled, the deployment is not completed and none is live; it issues both pulls exactly when it starts one and changes nothing else |
| DeploymentSync.OnTick | frontend/src/hooks/useDeploymentStatus.ts:196-208 | a tick after completion cancels its interval without pulling; before completion it pulls status and logs |
| DeploymentSync.Step | frontend/src/hooks/useDeploymentStatus.ts:51-209 | one event goes to its handler; socket events only while the channel is open and ticks only while an interval is live; the handlers' rows state each case |
| DeploymentSync.Run | frontend/src/hooks/useDeploymentStatus.ts:108-222 | the state after mount and a sequence of events; RunKeepsInv and AtMostOneTimer state what it keeps |
| DeploymentSync.StepPreservesInv | frontend/src/hooks/useDeploymentStatus.ts:159-209 | every event keeps at most one interval, none when polling is off, and only well-formed snapshots |
| DeploymentSync.AtMostOneTimer | frontend/src/hooks/useDeploymentStatus.ts:162-196 | from any state meeting the invariant, any sequence of events leaves at most one live interval |
| DeploymentSync.RunKeepsInv | frontend/src/hooks/useDeploymentStatus.ts:108-222 | every state reachable from mount meets the invariant |
| DeploymentSync.StepKeepsCompleted | frontend/src/hooks/useDeploymentStatus.ts:72-75 | no single event resets the completed flag |
| DeploymentSync.CompletedIsAbsorbing | frontend/src/hooks/useDeploymentStatus.ts:143-146 | once completed, the deployment stays completed under any sequence of events |
| DeploymentSync.GuardedStepStartsNoTimerWhenCompleted | frontend/src/hooks/useDeploymentStatus.ts:159-175 | with the completion guard on `onerror`, no event starts an interval after completion |
| DeploymentSync.GuardedNoTimerAfterCompletion | frontend/src/hooks/useDeploymentStatus.ts:159-175 | with the guard, the number of intervals never grows after completion, whatever follows |
| DeploymentSync.AsWrittenErrorRestartsPollingAfterCompletion | frontend/src/hooks/useDeploymentStatus.ts:159-165 | as written, a channel error after completion starts a new interval and pulls status and logs again |
| DeploymentSync.FailedPullNeverReachesPage | frontend/src/hooks/useDeploymentStatus.ts:81-84 | as written, after a failed status pull the returned snapshot never carries a truthy error |
| DeploymentSync.FailedPullReachesPageWhenReturned | frontend/src/hooks/useDeploymentStatus.ts:225-230 | with the error state returned beside the snapshot, a failed pull is visible and the last snapshot stays |
| DeploymentSync.StatusUpdateScenario | frontend/src/hooks/useDeploymentStatus.ts:129-142 | a pushed status change after a first pull changes the status, keeps the other fields and pulls the logs |
| DeploymentSync.WsUrl | frontend/src/hooks/useDeploymentStatus.ts:112-113 | the channel address uses `wss:` exactly when the API is reached over `https:`, then the API host, then the deployment's path; an unset base uses the hosted default |
| Labels.LabelOr | frontend/src/components/ResourceReview.tsx:28-85 | a table lookup shows the table's non-empty label, and the key itself when the table does not know it |
| Labels.ResourceTypeLabelsFaithful | frontend/src/components/ResourceReview.tsx:29-37 | the seven type labels are non-empty and pairwise distinct |
| Labels.RegionLabelsFaithful | frontend/src/components/ResourceReview.tsx:44-49 | the four region labels are non-empty and pairwise distinct |
| Labels.EnvironmentLabelsFaithful | frontend/src/components/ResourceReview.tsx:56-61 | the four environment labels are non-empty and pairwise distinct |
| Labels.SizeLabelsFaithful | frontend/src/components/ResourceReview.tsx:68-72 | the three size labels are non-empty and pairwise distinct |
| Labels.SubnetLabelsFaithful | frontend/src/components/ResourceReview.tsx:79-83 | the three subnet labels are non-empty and pairwise distinct |
| Labels.FaithfulLookup | frontend/src/components/ResourceReview.tsx:28-85 | on a table with non-empty labels the `|| key` fallback only ever fires for unknown keys |
| Labels.FaithfulLabelsSeparateKeys | frontend/src/components/ResourceReview.tsx:28-85 | on such a table two known keys show the same label only if they are the same key |
| Labels.TypeLabel | frontend/src/components/ResourceReview.tsx:28-40 | a known type shows its label, an unknown one its raw name |
| Labels.RegionLabel | frontend/src/components/ResourceReview.tsx:43-52 | a known region shows its label, an unknown one its code |
| Labels.EnvironmentLabel | frontend/src/components/ResourceReview.tsx:55-64 | a known environment shows its label, an unknown one its code |
| Labels.SizeLabel | frontend/src/components/ResourceReview.tsx:67-75 | a known size shows its label, an unknown one its code |
| Labels.SubnetLabel | frontend/src/components/ResourceReview.tsx:78-86 | a known subnet shows its zone label, an unknown one its id |
| StackForm.SelectedDependencies | frontend/src/components/EnhancedResourceRequestForm.tsx:294 | a resource's dependency list, or none when it has no list |
| StackForm.DefaultConfiguration | frontend/src/components/EnhancedResourceRequestForm.tsx:225-278 | unknown types get `{}`; EC2 gets a medium size in the first subnet without an Elastic IP; a load balancer is internet-facing over two subnets; a service wants one task; a security group starts with one SSH rule |
| StackForm.DefaultEmptyIffUnknown | frontend/src/components/EnhancedResourceRequestForm.tsx:225-278 | the default configuration is empty exactly for the types outside the seven listed |
| StackForm.PortRequiredUnlessIcmp | frontend/src/components/EnhancedResourceRequestForm.tsx:152-168 | a rule with type, protocol and source is valid without a port only for ICMP, and otherwise exactly when it has a port |
| StackForm.RuleValid | frontend/src/components/EnhancedResourceRequestForm.tsx:152-168 | a rule needs a type, a protocol and a source, and a port range unless it is ICMP |
| StackForm.DefaultsMeetRules | frontend/src/components/EnhancedResourceRequestForm.tsx:149-186 | the default load balancer has the two subnets its schema demands, the default service a desired count of one, and the default SSH rule is complete |
| StackForm.InitialResources | frontend/src/components/EnhancedResourceRequestForm.tsx:337-349 | the form starts with one unnamed EC2 instance in eu-west-2/dev with EC2 defaults and an empty dependency list |
| StackForm.AddResource | frontend/src/components/EnhancedResourceRequestForm.tsx:449-460 | Add appends an unnamed EC2 resource with EC2 defaults and no dependency list, keeping the others |
| StackForm.AddedResourceBlocksSubmit | frontend/src/components/EnhancedResourceRequestForm.tsx:190-201 | after Add the form is invalid, since the new resource has no name |
| StackForm.ResourceValid | frontend/src/components/EnhancedResourceRequestForm.tsx:190-199 | an entry needs a non-empty id, type, name, region and environment |
| StackForm.FormValid | frontend/src/components/EnhancedResourceRequestForm.tsx:189-201 | the form needs at least one resource and every resource valid |
| StackForm.RemoveResource | frontend/src/components/EnhancedResourceRequestForm.tsx:370-373 | delete removes exactly the chosen card, keeps the order of the rest, and leaves at least one |
| StackForm.RemovalsKeepOne | frontend/src/components/EnhancedResourceRequestForm.tsx:370-373 | no sequence of delete clicks empties the list |
| StackForm.ChangeType | frontend/src/components/EnhancedResourceRequestForm.tsx:386-392 | changing a card's type replaces its type and its configuration by the new type's defaults and nothing else |
| StackForm.SubmitPayload | frontend/src/components/EnhancedResourceRequestForm.tsx:287-296 | one body item per resource, in order, with the configuration as parameters and a missing dependency list sent as `[]` |
| StackForm.SubmitPayloadAppend | frontend/src/components/EnhancedResourceRequestForm.tsx:287-296 | the body of a joined list is the joined bodies |
| Dependencies.ValidTargets | frontend/src/components/DependencyConfiguration.tsx:48-60 | an unknown source type may depend on nothing, and no source may depend on an S3 bucket |
| Dependencies.ValidIffListed | frontend/src/components/DependencyConfiguration.tsx:48-60 | the validity check answers yes exactly for the eleven listed (source, target) pairs, and no for an unknown source |
| Dependencies.S3BucketIsolated | frontend/src/components/DependencyConfiguration.tsx:50-57 | an S3 bucket is neither the source nor the target of any valid dependency |
| Dependencies.Describe | frontend/src/components/DependencyConfiguration.tsx:63-91 | a non-empty table entry is used as is; a missing pair gets the fallback text |
| Dependencies.ConfigDescription | frontend/src/components/DependencyConfiguration.tsx:63-91 | a valid pair gets its own description, different from "Connect these resources"; every other pair gets that fallback |
| Dependencies.ReviewDescription | frontend/src/components/ResourceReview.tsx:89-117 | a valid pair gets its own review text, different from "Connected to"; every other pair gets that fallback |
| Dependencies.DescriptionsCoverValidPairs | frontend/src/components/DependencyConfiguration.tsx:65-88 | both description tables are keyed by exactly the valid pairs, so no valid pair falls back and no invalid one is described |
| Dependencies.CandidatesFrom | frontend/src/components/DependencyConfiguration.tsx:111-113 | the positions from a start index on that are other resources of a valid target type: all of them, only them, in increasing order |
| Dependencies.PotentialDependencies | frontend/src/components/DependencyConfiguration.tsx:111-113 | the candidate list of a resource never contains itself, contains every other resource of a valid target type and nothing else, in list order |
| Dependencies.HasCardIffCandidate | frontend/src/components/DependencyConfiguration.tsx:109-118 | a resource gets a card exactly when some other resource is a valid target for it |
| Dependencies.WarningIffNoCards | frontend/src/components/DependencyConfiguration.tsx:203-213 | the "no dependencies possible" warning appears exactly when no card is shown, i.e. when no two distinct resources form a valid pair |
| Dependencies.LoneOrBucketsOnlyShowWarning | frontend/src/components/DependencyConfiguration.tsx:203-213 | a stack of one resource, or of buckets only, always shows the warning |
| Dependencies.Toggle | frontend/src/components/DependencyConfiguration.tsx:155-160 | clicking a selected id gives the selection with every copy of that id removed (see ToggleOffKeepsOrder for the order); clicking an unselected one appends it at the end |
| Dependencies.ToggleOffKeepsOrder | frontend/src/components/DependencyConfiguration.tsx:156-157 | removing a selected id splits over any cut of the selection, and a single entry stays exactly when it is another id, so the other ids keep their order and every copy |
| Dependencies.ToggleTwice | frontend/src/components/DependencyConfiguration.tsx:155-160 | two clicks on an unselected candidate restore the selection exactly |
| Dependencies.ToggleFlipsMembership | frontend/src/components/DependencyConfiguration.tsx:155-160 | a click flips the membership of the clicked id and of no other id |
| Dependencies.SetDependencies | frontend/src/components/DependencyConfiguration.tsx:98-100 | only the dependency list of the chosen resource changes; every other resource is untouched |
| Dependencies.ClickCandidate | frontend/src/components/DependencyConfiguration.tsx:155-160 | a click on a candidate toggles its id in the owner's selection (a missing list counting as empty) and changes no other resource |
| Dependencies.DependenciesOf | frontend/src/components/ResourceReview.tsx:384-386 | the "depends on" view holds exactly the resources whose id the resource lists |
| Dependencies.DependentsOf | frontend/src/components/ResourceReview.tsx:379-381 | the "depended on by" view holds exactly the resources that list this resource's id |
| Dependencies.DependenciesOfInOrder | frontend/src/components/ResourceReview.tsx:384-386 | the "depends on" view is computed piece by piece over the stack: it keeps the stack's order and each listed resource as often as it occurs |
| Dependencies.DependentsOfInOrder | frontend/src/components/ResourceReview.tsx:379-381 | the "depended on by" view keeps the stack's order and multiplicity in the same way |
| Dependencies.DependentsDualDependencies | frontend/src/components/ResourceReview.tsx:378-386 | within one stack, y appears under x's dependents exactly when x appears under y's dependencies |
| Dependencies.NoListNoDependencies | frontend/src/components/ResourceReview.tsx:384-386 | a resource with a missing or empty dependency list shows "No dependencies" |
| StackReview.Flag | frontend/src/components/ResourceReview.tsx:129-132 | a flag row shows one of its two words, the first exactly when the field is truthy |
| StackReview.Labelled | frontend/src/components/ResourceReview.tsx:122-127 | a string field is shown through its label table (unknown codes as themselves); any other value is shown unlabelled |
| StackReview.Ec2Summary | frontend/src/components/ResourceReview.tsx:120-140 | the EC2 summary has three rows, plus a "User Data Script" row exactly when a script is set; size is labelled and the Elastic IP row reads Yes exactly when requested; the subnet row is fixed only by the definition |
| StackReview.S3Summary | frontend/src/components/ResourceReview.tsx:143-170 | the bucket summary has four rows; public access reads "Allowed" only when it is truthy, otherwise "Blocked"; the versioning, encryption and website rows are fixed only by the definition |
| StackReview.RdsSummary | frontend/src/components/ResourceReview.tsx:173-206 | the database summary has five rows and shows the engine unformatted; the size, name, Multi-AZ and public rows are fixed only by the definition |
| StackReview.RuleLineOf | frontend/src/components/ResourceReview.tsx:221-225 | a rule reads "Inbound" exactly when its type is ingress and "Outbound" for anything else, then " - ", the upper-cased protocol, a space and the port range; the second line is "Source: " followed by the source |
| StackReview.RuleLines | frontend/src/components/ResourceReview.tsx:220-227 | one line per rule, in the rules' order |
| StackReview.SecurityGroupRules | frontend/src/components/ResourceReview.tsx:220 | a falsy rule list shows no line; an array shows one line per rule |
| StackReview.ElasticIpSummary | frontend/src/components/ResourceReview.tsx:233-242 | an Elastic IP shows a single row, Yes exactly when it is associated on creation |
| StackReview.SubnetText | frontend/src/components/ResourceReview.tsx:258 | a subnet id is shown by its label |
| StackReview.SubnetsText | frontend/src/components/ResourceReview.tsx:254-261 | falsy subnets read "None selected"; an array reads as its labels joined with ", " |
| StackReview.LoadBalancerSummary | frontend/src/components/ResourceReview.tsx:245-282 | five rows; the scheme reads Internet-facing only for that exact value, the subnets row is the joined labels, and a falsy HTTP port shows as 80; the HTTPS and deletion-protection rows are fixed only by the definition |
| StackReview.EcsSummary | frontend/src/components/ResourceReview.tsx:285-338 | five rows, plus container port and health check path exactly when a load balancer is required; the strategy reads "Rolling Update" exactly for rolling and Blue/Green otherwise; the task, count, auto-scaling, load-balancer and extra rows are fixed only by the definition |
| StackReview.ConfigurationSummary | frontend/src/components/ResourceReview.tsx:341-364 | each known type gets the summary of its own kind (EC2, bucket, database, Elastic IP, load balancer, ECS rows; a security group its description and rules); exactly the unknown types get the "no specific configuration" note |
| StackReview.DefaultSubnetsText | frontend/src/components/ResourceReview.tsx:254-261 | the two default subnets review as "eu-west-2a (Public), eu-west-2b (Public)" |
| StackReview.DefaultLoadBalancerReview | frontend/src/components/ResourceReview.tsx:245-282 | a freshly added load balancer reviews as internet-facing on both public subnets, port 80 |
| StackReview.DefaultSecurityGroupReview | frontend/src/components/ResourceReview.tsx:209-230 | a freshly added security group reviews its one rule as "Inbound - TCP 22" from 0.0.0.0/0 |
| StackReview.Heading | frontend/src/components/ResourceReview.tsx:392-394 | a named resource is titled by its name, an unnamed one by its 1-based position |
| StackReview.UnnamedHeadingsDiffer | frontend/src/components/ResourceReview.tsx:392-394 | two unnamed resources at different positions never share a heading |
| StackReview.EntryName | frontend/src/components/ResourceReview.tsx:445 | an unnamed dependency is shown as its type label and its 1-based position in the stack |
| StackReview.DependsOnEntries | frontend/src/components/ResourceReview.tsx:436-451 | one entry per dependency, each described with the resource as the source of the pair |
| StackReview.DependedOnByEntries | frontend/src/components/ResourceReview.tsx:458-474 | one entry per dependent, each described with the dependent as the source of the pair |
| StackReview.LinkDescribedAlikeOnBothSides | frontend/src/components/ResourceReview.tsx:436-474 | a dependency chosen in the form appears on both resources' review cards with the same description |
| Wizard.NumberText | frontend/src/components/EnhancedResourceWizard.tsx:185 | a number renders as decimal text that reads back as the same number; a cleared field renders empty, and only then |
| Wizard.GetSteps | frontend/src/components/EnhancedResourceWizard.tsx:31-46 | every plan starts with "Resource Selection" and ends with "Review"; ECS has five steps, EC2 and RDS four, every other type three |
| Wizard.StepContent | frontend/src/components/EnhancedResourceWizard.tsx:258-293 | step 0 is always type selection; without a selectable type later steps ask to select a type; a selectable type shows its review on the plan's last step and nothing past it |
| Wizard.ContentMatchesStepLabels | frontend/src/components/EnhancedResourceWizard.tsx:31-46 | for each selectable type the form shown at every step is the form the stepper label at that step names |
| Wizard.Navigate | frontend/src/components/EnhancedResourceWizard.tsx:314-341 | Back moves one step back except at step 0; Next advances exactly before the last step with a type chosen, and otherwise stays; choosing a selectable type on step 0 sets it; the type changes only that way and no other form value changes |
| Wizard.NavigationStaysInPlan | frontend/src/components/EnhancedResourceWizard.tsx:315-342 | from a reachable state, any sequence of button presses stays inside the plan and never reaches an empty step or the "select a type" placeholder |
| Wizard.InitialNavInv | frontend/src/components/EnhancedResourceWizard.tsx:49-125 | the wizard starts in a reachable state |
| Wizard.TypeParameters | frontend/src/components/EnhancedResourceWizard.tsx:168-232 | an unknown type has no parameters; EC2 sends its volume size as text and its security group; S3 sends the public-access flag as block_public_access; ECS sends the load balancer only when it is ticked, null otherwise; the RDS parameters are fixed only by the definition |
| Wizard.FormatRequestPayload | frontend/src/components/EnhancedResourceWizard.tsx:168-238 | the basic fields are copied; the parameters are the type's parameters plus rds_security_group_id exactly when the RDS link is ticked, and nothing else |
| Wizard.VolumeSizeRoundTrip | frontend/src/components/EnhancedResourceWizard.tsx:185 | an EC2 request's volume size is a string that reads back as the number entered |
| Wizard.UnknownTypeParameters | frontend/src/components/EnhancedResourceWizard.tsx:180-236 | a type outside the four sends no parameters except the optional RDS link |
| WizardReview.DetailsFor | frontend/src/components/wizard/ResourceReview.tsx:20-33 | each of the four selectable types gets its own details block, and that block only for that type; exactly the other types get "No resource type selected" |
| Strings.SpaceFirstUnderscore | frontend/src/components/wizard/ResourceReview.tsx:429 | the type heading (and the stack page's status chip) keeps the text's length; the first underscore becomes a space and every other character is kept; a text without an underscore is unchanged |
| WizardReview.SingleUnderscoreGone | frontend/src/components/wizard/ResourceReview.tsx:429 | a type with exactly one underscore is shown with no underscore at all |
| WizardReview.SelectableTypesDisplayWithoutUnderscore | frontend/src/components/wizard/ResourceReview.tsx:429 | the four selectable types are all headed without an underscore, although only the first one is replaced |
| WizardReview.EnvironmentColour | frontend/src/components/wizard/ResourceReview.tsx:446-450 | prod is red, staging amber, test blue, and every other environment green, each exactly |
| WizardReview.RuleText | frontend/src/components/wizard/ResourceReview.tsx:391-394 | a rule line is the upper-cased protocol, ": ", then the from-port and to-port texts joined by " - "; the second line is the CIDR followed by the description in brackets, or "No description" when it is empty |
| WizardReview.RuleTextDeterminesPorts | frontend/src/components/wizard/ResourceReview.tsx:392 | for blank or non-negative ports, two rules of one protocol with the same line have the same port range: the line shows the range itself |
| WizardReview.RulesShown | frontend/src/components/wizard/ResourceReview.tsx:380-400 | "No inbound rules defined" exactly when the list is empty; otherwise one line per rule, in order |
| WizardReview.AnyCoversSsh | frontend/src/components/wizard/ResourceReview.tsx:476-478 | the scan is true exactly when some rule is TCP with a range around port 22 |
| WizardReview.SshWarningIffNoCoveringRule | frontend/src/components/wizard/ResourceReview.tsx:476-482 | for an instance, the SSH note shows exactly when no rule is TCP with a range that takes in port 22 |
| WizardReview.InitialRuleSilencesSshWarning | frontend/src/components/wizard/ResourceReview.tsx:476-482 | the starting SSH rule keeps the note away, and deleting every rule brings it back |
| WizardReview.BlankFromPortCountsAsOpen | frontend/src/components/wizard/ResourceReview.tsx:477 | a cleared "from" port compares as 0, so such a rule still silences the note when its "to" port reaches 22 |
| WizardReview.AtMostOneNote | frontend/src/components/wizard/ResourceReview.tsx:475-495 | the SSH, public-bucket and Multi-AZ notes never show together, since each needs a different type |
| WizardReview.WarnsNoSsh | frontend/src/components/wizard/ResourceReview.tsx:476-482 | the SSH note: an instance with no TCP rule covering port 22 |
| WizardReview.WarnsPublicBucket | frontend/src/components/wizard/ResourceReview.tsx:484-488 | the bucket note: a bucket whose public access is not blocked |
| WizardReview.SuggestsMultiAz | frontend/src/components/wizard/ResourceReview.tsx:490-494 | the Multi-AZ note: a production database without Multi-AZ |
| SecurityGroupForm.FindPreset | frontend/src/components/wizard/SecurityGroupForm.tsx:61 | a found preset is on the menu under that name; nothing is found exactly when no preset has that name |
| SecurityGroupForm.FindByOwnName | frontend/src/components/wizard/SecurityGroupForm.tsx:61 | with distinct names, looking up an entry's own name finds that entry |
| SecurityGroupForm.PortPresetNamesDistinct | frontend/src/components/wizard/SecurityGroupForm.tsx:34-41 | no two presets share a menu name |
| SecurityGroupForm.RuleOf | frontend/src/components/wizard/SecurityGroupForm.tsx:67-73 | the added rule carries the preset's protocol, ports, CIDR and description, and not its menu name |
| SecurityGroupForm.AddPreset | frontend/src/components/wizard/SecurityGroupForm.tsx:58-78 | with no selection, or one naming no preset, nothing changes; otherwise the preset's rule is appended after the existing rules and the selection is cleared |
| SecurityGroupForm.OfferedPresetAddsItsRule | frontend/src/components/wizard/SecurityGroupForm.tsx:58-78 | choosing a menu entry and pressing "add" appends exactly that entry's rule |
| SecurityGroupForm.AddPresetTwiceAddsOnce | frontend/src/components/wizard/SecurityGroupForm.tsx:58-78 | a second press adds nothing, because the first clears the selection |
| SecurityGroupForm.AddCustomRule | frontend/src/components/wizard/SecurityGroupForm.tsx:260-266 | a custom rule is appended after the existing ones: TCP, blank ports, open to 0.0.0.0/0, no description |
| SecurityGroupForm.RemoveRule | frontend/src/components/wizard/SecurityGroupForm.tsx:241 | deleting rule k keeps every other rule in order |
| SecurityGroupForm.RemoveUndoesAddCustom | frontend/src/components/wizard/SecurityGroupForm.tsx:241-266 | deleting a just-added custom rule restores the list |
| SecurityGroupForm.AutoName | frontend/src/components/wizard/SecurityGroupForm.tsx:48-52 | an empty group name becomes the resource name with "-sg"; a set name is kept; the group is otherwise untouched and always ends up named |
| SecurityGroupForm.AutoNameSettles | frontend/src/components/wizard/SecurityGroupForm.tsx:48-52 | the effect settles after one run, and later renames of the resource do not change a group name once set |
| SecurityGroupForm.PortText | frontend/src/components/wizard/SecurityGroupForm.tsx:145 | a single port is labelled with text that reads back as that port |
| SecurityGroupForm.PortTextDeterminesRange | frontend/src/components/wizard/SecurityGroupForm.tsx:145 | for non-negative ports, two equal port labels mean equal ranges |
| SecurityGroupForm.PresetLabel | frontend/src/components/wizard/SecurityGroupForm.tsx:145 | a menu entry starts with the preset's name and " (" and ends with ")" |
| SecurityGroupForm.SinglePortTcpLabel | frontend/src/components/wizard/SecurityGroupForm.tsx:145 | a single-port TCP preset reads "Name (TCP: port)" |
| SecurityGroupForm.PresetLabelsShowOnePort | frontend/src/components/wizard/SecurityGroupForm.tsx:34-41 | every offered preset is labelled with exactly one TCP port |
| RdsForm.EngineVersions | frontend/src/components/wizard/RDSConfigForm.tsx:68-79 | the PostgreSQL family is offered exactly the PostgreSQL versions; every other engine, MariaDB included, the MySQL ones |
| RdsForm.ChangeEngine | frontend/src/components/wizard/RDSConfigForm.tsx:82-92 | the engine is stored; the MySQL family resets the version to 8.0, the PostgreSQL family to 14.3, any other engine keeps it; nothing else changes |
| RdsForm.MappedEngineVersionOffered | frontend/src/components/wizard/RDSConfigForm.tsx:82-92 | for the four mapped engines the version set is one the version selector offers |
| RdsForm.MariadbKeepsPostgresVersion | frontend/src/components/wizard/RDSConfigForm.tsx:82-92 | choosing PostgreSQL and then MariaDB leaves version 14.3, which MariaDB's list does not offer |
| RdsForm.ChangeEngineOffered | frontend/src/components/wizard/RDSConfigForm.tsx:68-92 | the corrected selector always leaves an offered version, agrees with the original on the mapped engines, and keeps a version that is still offered |
| RdsForm.OfferedVersionAfterAnyChanges | frontend/src/components/wizard/RDSConfigForm.tsx:68-92 | with the correction, any sequence of engine changes keeps the version on offer |
| RdsForm.InitialVersionOffered | frontend/src/components/EnhancedResourceWizard.tsx:49-125 | the wizard starts with MySQL 8.0, a version its list offers |
| EcsForm.SizeKey | frontend/src/components/wizard/ECSConfigForm.tsx:246-247 | a size's selector key is non-trivial text `cpu-memory` |
| EcsForm.SizeKeyInjective | frontend/src/components/wizard/ECSConfigForm.tsx:246-247 | two sizes with the same key are the same size |
| EcsForm.FargateKeysDistinct | frontend/src/components/wizard/ECSConfigForm.tsx:26-33 | the six listed sizes have six different keys |
| EcsForm.FindSize | frontend/src/components/wizard/ECSConfigForm.tsx:56-58 | a found size is listed and has the key; nothing is found exactly when no listed size has it |
| EcsForm.SelectSize | frontend/src/components/wizard/ECSConfigForm.tsx:55-64 | a listed key sets cpu and memory to that size, whose key it is; any other key changes nothing |
| EcsForm.SelectThenShow | frontend/src/components/wizard/ECSConfigForm.tsx:55-69 | after selecting a listed size, the selector shows that size's key |
| EcsForm.ShowThenSelect | frontend/src/components/wizard/ECSConfigForm.tsx:55-69 | re-selecting the key the selector shows for a listed size changes nothing |
| EcsForm.InitialSizeListed | frontend/src/components/wizard/ECSConfigForm.tsx:66-69 | the wizard starts on the first listed size, 256-512 |
| EcsForm.ToggleAlb | frontend/src/components/wizard/ECSConfigForm.tsx:72-79 | the switch sets the load-balancer flag; switching on with no load-balancer name names it after the resource with "-alb"; nothing else changes |
| EcsForm.ToggleAlbKeepsName | frontend/src/components/wizard/ECSConfigForm.tsx:72-79 | switching off and on again keeps the name given the first time |
| S3Form.SanitiseChar | frontend/src/components/wizard/S3ConfigForm.tsx:42 | every character becomes a lower-case letter, a digit or '-': lower-case letters and digits stay, capitals are lowered, anything else becomes '-' |
| S3Form.Sanitise | frontend/src/components/wizard/S3ConfigForm.tsx:42 | the sanitised name has the same length and is sanitised character by character |
| S3Form.SanitisedAlphabet | frontend/src/components/wizard/S3ConfigForm.tsx:42 | a sanitised name holds only lower-case letters, digits and '-' |
| S3Form.SanitiseIdempotent | frontend/src/components/wizard/S3ConfigForm.tsx:42 | sanitising an already sanitised name changes nothing |
| S3Form.Suggestion | frontend/src/components/wizard/S3ConfigForm.tsx:42 | the suggestion is the sanitised resource name followed by "-", the environment and "-bucket" |
| S3Form.SuggestBucketName | frontend/src/components/wizard/S3ConfigForm.tsx:39-45 | the suggestion is filled in only when the resource has a name and the bucket has none; otherwise nothing changes |
| S3Form.SuggestionSettles | frontend/src/components/wizard/S3ConfigForm.tsx:39-45 | a second run changes nothing, and once set the bucket name survives later edits of name or environment |
| AlbForm.AlbNameEffect | frontend/src/components/wizard/ALBConfigForm.tsx:26-31 | an empty load-balancer name becomes the resource name with "-alb" once the resource is named; otherwise nothing changes |
| AlbForm.AlbNameSettles | frontend/src/components/wizard/ALBConfigForm.tsx:26-31 | the naming effect settles after one run |
| AlbForm.PortSync | frontend/src/components/wizard/ALBConfigForm.tsx:33-38 | a set container port that differs from the target port becomes the target port, and its decimal text the health-check port; nothing else changes, and a blank or zero port changes nothing |
| AlbForm.PortSyncSettles | frontend/src/components/wizard/ALBConfigForm.tsx:33-38 | after one run the target port equals a set container port, so a second run changes nothing |
| AlbForm.InitialPortsInSync | frontend/src/components/wizard/ALBConfigForm.tsx:33-38 | from the wizard's initial values the effect does nothing |
| SimpleRequestForm.SizeMapping | frontend/src/components/ResourceRequestForm.tsx:427-434 | small, medium and large map to t2.micro, t2.small and t2.medium; any other size to t2.micro |
| SimpleRequestForm.SizeMappingSeparatesSizes | frontend/src/components/ResourceRequestForm.tsx:427-434 | the three sizes map to three different instance types |
| SimpleRequestForm.BuildRequest | frontend/src/components/ResourceRequestForm.tsx:455-466 | the request copies type, name, environment and region, maps the size, fixes the volume at "20" and always carries a subnet: the chosen one or the default |
| SimpleRequestForm.BuildRequestKeepsFields | frontend/src/components/ResourceRequestForm.tsx:455-466 | two forms that send the same request agree on type, name, environment and region |
| SimpleRequestForm.InitialInvalid | frontend/src/components/ResourceRequestForm.tsx:380-389 | the initial values lack a name, so the untouched form cannot be submitted |
| SimpleRequestForm.Press | frontend/src/components/ResourceRequestForm.tsx:442-448 | Back and Next move one step and stay within the three steps (Back is disabled on the first, Next absent on the last) |
| SimpleRequestForm.SubmitOnlyOnReview | frontend/src/components/ResourceRequestForm.tsx:700 | the submit button shows exactly on the third step, the one labelled Review |
| SimpleRequestForm.NextThenBack | frontend/src/components/ResourceRequestForm.tsx:442-448 | Next then Back returns to the same step |
| SimpleRequestForm.AfterSubmit | frontend/src/components/ResourceRequestForm.tsx:476-480 | a created request opens its deployment page; a failure shows the server's detail, or a fixed message when there is none; an error is never blank |
| ResourceConfiguration.PanelFor | frontend/src/components/ResourceConfiguration.tsx:616-639 | each of the seven known types gets its own panel, and that panel only for that type; exactly the other types get "Configuration not available" |
| ResourceConfiguration.PanelIffDefaults | frontend/src/components/ResourceConfiguration.tsx:616-639 | a type has a configuration panel exactly when adding it fills in a default configuration |
| ResourceConfiguration.RulesOf | frontend/src/components/ResourceConfiguration.tsx:292 | a falsy rule list reads as empty; an array reads as its items |
| ResourceConfiguration.Encode | frontend/src/components/ResourceConfiguration.tsx:399 | one stored value per rule, in order |
| ResourceConfiguration.SetRules | frontend/src/components/ResourceConfiguration.tsx:399 | after writing the rules they read back as written, and every other configuration field is unchanged |
| ResourceConfiguration.AddRule | frontend/src/components/ResourceConfiguration.tsx:413-421 | the add button appends an inbound TCP rule on port 80 from anywhere after the existing rules |
| ResourceConfiguration.NewRuleValid | frontend/src/components/ResourceConfiguration.tsx:413-421 | the added rule passes the form's rule check |
| ResourceConfiguration.DeleteRule | frontend/src/components/ResourceConfiguration.tsx:397-399 | deleting rule k shifts the later rules down by one and keeps the earlier ones |
| ResourceConfiguration.DeleteUndoesAdd | frontend/src/components/ResourceConfiguration.tsx:397-421 | deleting the rule just added restores the list |
| ResourceConfiguration.ChoosePort | frontend/src/components/ResourceConfiguration.tsx:350-359 | a chosen port is stored; "custom" ends with the port cleared once the timer runs; no other field changes |
| ResourceConfiguration.CustomChoiceHidesCustomField | frontend/src/components/ResourceConfiguration.tsx:350-380 | after choosing "Custom Port" the custom field is hidden and the port empty, so a TCP rule then fails the rule check |
| ResourceConfiguration.ChoosePortKeepingMode | frontend/src/components/ResourceConfiguration.tsx:350-380 | the corrected selector is in custom mode exactly after choosing "custom" and stores the port as the original does |
| ResourceConfiguration.TypeCustomPort | frontend/src/components/ResourceConfiguration.tsx:369-380 | typing in the custom field stores the text and keeps the field shown |
| ResourceConfiguration.CustomChoiceAcceptsTypedPort | frontend/src/components/ResourceConfiguration.tsx:350-380 | with the mode kept, choosing "Custom Port" shows the field and the typed port becomes the rule's port |
| DeploymentPage.StatusOf | frontend/src/pages/DeploymentStatus.tsx:274-282 | a string status is switched on as it is; a missing or non-string one matches no case |
| DeploymentPage.StepNumber | frontend/src/pages/DeploymentStatus.tsx:320-333 | the active step is at most 2; it is 2 exactly when completed and 1 exactly when in progress or failed |
| DeploymentPage.StepsCompleted | frontend/src/pages/DeploymentStatus.tsx:274-283 | three marks; "Initiated" is marked exactly when the status is not pending and "Completed" exactly when it is completed |
| DeploymentPage.CompletedStepsFormPrefix | frontend/src/pages/DeploymentStatus.tsx:274-283 | marked steps always form a prefix, and every step before the active one is marked |
| DeploymentPage.ChipColourOf | frontend/src/pages/DeploymentStatus.tsx:61-82 | completed is green, failed red, pending and in progress blue, and every other status grey, each exactly |
| DeploymentPage.ChipLabel | frontend/src/pages/DeploymentStatus.tsx:88 | for a string status, the chip keeps the status's length and shows no lower-case letter; without an underscore it is the upper-cased status |
| DeploymentPage.ChipOf | frontend/src/pages/DeploymentStatus.tsx:88 | the chip throws exactly when the snapshot's status is missing or not a string; otherwise it is that status's label, of the same length |
| DeploymentPage.StatuslessWebhookBreaksChip | backend/src/main.py:183-191 | after an accepted webhook without a status, the status route answers 200 with a null status, and the page's chip for that reply throws |
| DeploymentPage.ChipLabelSpacesFirstUnderscore | frontend/src/pages/DeploymentStatus.tsx:88 | only the first underscore becomes a space, and both sides are upper-cased, so in_progress reads "IN PROGRESS" and later underscores stay |
| DeploymentPage.KeyCount | frontend/src/pages/DeploymentStatus.tsx:289 | an object counts its fields, and null, booleans and numbers count no keys |
| DeploymentPage.OutputEntries | frontend/src/pages/DeploymentStatus.tsx:96-112 | one entry per output key, a string output shown as it is |
| DeploymentPage.EmptyOutputsHidden | frontend/src/pages/DeploymentStatus.tsx:289 | absent, null, empty-object or empty-string outputs show no outputs section |
| DeploymentPage.LoadingUntilFirstSnapshot | frontend/src/pages/DeploymentStatus.tsx:132 | every snapshot the hook stores says it is not loading, so the page shows loading exactly while no snapshot is held |
| DeploymentPage.LoadingIffNoSnapshot | frontend/src/pages/DeploymentStatus.tsx:132 | after any run of the hook's events the page is loading exactly while no snapshot is held |
| StackStatusPage.RefetchInterval | frontend/src/pages/StackDeploymentStatus.tsx:185-191 | polling stops exactly once the stack is completed or failed; otherwise it is every 5000 ms |
| StackStatusPage.EffectWithinPolling | frontend/src/pages/StackDeploymentStatus.tsx:185-204 | the extra timer refetches only while the query still polls; before any data the query polls and the timer does not |
| StackStatusPage.EffectRefetches | frontend/src/pages/StackDeploymentStatus.tsx:195-203 | the extra timer refetches exactly for a pending or running stack; EffectWithinPolling relates it to the query's interval |
| StackStatusPage.ResourceMap | frontend/src/pages/StackDeploymentStatus.tsx:81-84 | the map's keys are exactly the listed ids, and each maps to a listed resource with that id |
| StackStatusPage.LastOneWins | frontend/src/pages/StackDeploymentStatus.tsx:81-84 | an id maps to the last resource listed with it |
| StackStatusPage.DepChipLabel | frontend/src/pages/StackDeploymentStatus.tsx:129 | a known, named dependency is shown by name; an unknown id, or a known one with an empty name, is shown as the id |
| StackStatusPage.DepChipColour | frontend/src/pages/StackDeploymentStatus.tsx:130-133 | a dependency chip is green exactly when that dependency is known and completed, red exactly when known and failed, plain otherwise |
| Strings.SpaceFirstUnderscoreSplits | frontend/src/pages/StackDeploymentStatus.tsx:64 | a status with an underscore reads as the part before it, a space and the rest, later underscores kept |
| StackStatusPage.InProgressChipLabel | frontend/src/pages/StackDeploymentStatus.tsx:50-64 | the running status reads "in progress" |
| StackStatusPage.StackChipOf | frontend/src/pages/StackDeploymentStatus.tsx:64 | the stack chip throws exactly for a status that is not a string, null included; a string shows its first-underscore label, of the same length |
| StackStatusPage.StatusChipLabel | frontend/src/pages/StackDeploymentStatus.tsx:64 | the label of a string status: `Strings.SpaceFirstUnderscore` applied to it |
| StackStatusPage.StackChipColour | frontend/src/pages/StackDeploymentStatus.tsx:38-59 | completed green, failed red, in progress amber, and every other status plain, each exactly |
| StackStatusPage.DotColour | frontend/src/pages/StackDeploymentStatus.tsx:104-108 | completed green, failed red, in progress blue, and every other status grey, each exactly |
| StackStatusPage.ResourceChipStatus | frontend/src/pages/StackDeploymentStatus.tsx:120 | a resource without a status is shown as pending |
| StackStatusPage.LexCompare | frontend/src/pages/StackDeploymentStatus.tsx:93 | the name comparison answers -1, 0 or 1, and 0 exactly for equal names |
| StackStatusPage.LexCompareAntisymmetric | frontend/src/pages/StackDeploymentStatus.tsx:93 | swapping the names negates the comparison |
| StackStatusPage.Compare | frontend/src/pages/StackDeploymentStatus.tsx:87-94 | a resource goes after one it depends on, before one that depends on it, and otherwise the names decide |
| StackStatusPage.CompareNotTransitive | frontend/src/pages/StackDeploymentStatus.tsx:87-94 | three resources where the comparator puts x before y and y before z but x after z, so it is no consistent order |
| StackStatusPage.Insert | frontend/src/pages/StackDeploymentStatus.tsx:87-94 | inserting adds exactly the one resource to the list |
| StackStatusPage.SortResources | frontend/src/pages/StackDeploymentStatus.tsx:87-94 | the timeline order: an insertion sort of a copy of the list with the comparator; what it keeps is stated by SortIsPermutation and DependencyFirstForPairs |
| StackStatusPage.Deps | frontend/src/pages/StackDeploymentStatus.tsx:89-91 | `dependencies \|\| []`: a resource without a list depends on nothing |
| StackStatusPage.SortIsPermutation | frontend/src/pages/StackDeploymentStatus.tsx:87-94 | the timeline shows every resource exactly as often as the list holds it |
| StackStatusPage.DependencyFirstForPairs | frontend/src/pages/StackDeploymentStatus.tsx:87-94 | of two resources where one depends on the other, the dependency is drawn first, whichever order they arrive in |
| Dashboard.OfType | frontend/src/pages/Dashboard.tsx:64-67 | the deployments of one type: exactly those in the list with that type, never more than the list |
| Dashboard.OfTypeAppend | frontend/src/pages/Dashboard.tsx:64-67 | filtering a joined list is joining the filtered parts, in order |
| Dashboard.OfTypeKeepsMatching | frontend/src/pages/Dashboard.tsx:64-67 | a list of one type passes that type's filter unchanged |
| Dashboard.Filtered | frontend/src/pages/Dashboard.tsx:64-67 | the "all" filter shows the whole list; any other filter shows exactly that type's deployments |
| Dashboard.TwoCountsBounded | frontend/src/pages/Dashboard.tsx:70-71 | the counts of two different types never add up to more than the list |
| Dashboard.TileCountsBounded | frontend/src/pages/Dashboard.tsx:70-71 | the EC2 and S3 tiles never add up to more than the total |
| Dashboard.StatusColour | frontend/src/pages/Dashboard.tsx:25-30 | the four known statuses get their colours, anything else the default one |
| Dashboard.ChildText | frontend/src/pages/Dashboard.tsx:197 | a value rendered as a React child: a string as it is, a number as decimal text that reads back, null and booleans as nothing, an array as its items side by side; an object makes the render throw |
| Dashboard.DisplayName | frontend/src/pages/Dashboard.tsx:197 | a deployment is shown by its name, else a truthy name among its parameters as React renders it, else its id |
| Dashboard.DisplayNameNonEmpty | frontend/src/pages/Dashboard.tsx:197 | with an id, the shown name is blank only for a `true` or array parameters name, and the render throws only for an object or array one |
| Dashboard.ScalarNamesShow | frontend/src/pages/Dashboard.tsx:197 | a non-empty string parameters name is shown as it is, and `true` shows a blank |
| Dashboard.Fetch | frontend/src/pages/Dashboard.tsx:38-53 | a load replaces the list and clears the error; a failure keeps the list and shows the server's detail or "Failed to load deployments"; loading ends either way |
| Dashboard.RefreshClearsError | frontend/src/pages/Dashboard.tsx:38-53 | a successful refresh after a failure clears the error and shows the new list |
| GithubDispatch.ErrorTextDeterminesRejection | backend/src/github_api.py:147-148 | the rejection message determines both the status code and GitHub's reply text |
| GithubDispatch.ErrorText | backend/src/github_api.py:35-148 | `str(e)` of each modelled exception: the token error, the rejection with code and reply, the passed-through request and store messages, and Python's wording for a missing attribute and an unhashable type |
| GithubDispatch.TypeName | backend/src/terraform.py:39-67 | the type name that the exceptions from `.get` on a non-dict, an unhashable size and `.lower()` on a non-string print: "dict" exactly for an object and "str" exactly for a string |
| GithubDispatch.Config | backend/src/github_api.py:55-95 | an unknown type gets an empty configuration; a known one gets exactly its own fields, each taken from the request when present and its default otherwise |
| GithubDispatch.ConfigIgnoresOtherParams | backend/src/github_api.py:55-95 | two requests that agree on a type's fields get the same configuration, whatever else they carry |
| GithubDispatch.SecurityGroupDefaultRule | backend/src/github_api.py:90-95 | a security group requested without rules gets a single HTTP rule open to 0.0.0.0/0 |
| GithubDispatch.BucketNameNullWhenAbsent | backend/src/github_api.py:64-68 | a bucket requested without a name is configured with a null name and versioning "false" |
| GithubDispatch.LoadBalancerGetsNoConfig | backend/src/github_api.py:86-89 | the front end's load_balancer type is not the "alb" the dispatch knows, so it gets an empty configuration |
| GithubDispatch.Inputs | backend/src/github_api.py:43-98 | the workflow inputs are the type, name, environment, region and configuration, plus subnet_id exactly when the request has one |
| GithubDispatch.WorkflowBody | backend/src/github_api.py:101-104 | the dispatch runs the workflow on the main branch with the built inputs |
| GithubDispatch.PendingReply | backend/src/github_api.py:126-146 | a dispatched deployment is reported pending under its new id |
| GithubDispatch.PendingRecord | backend/src/github_api.py:131-140 | the saved record carries the new id, the pending status, the name, the type, and the inputs overlaid with the request parameters |
| GithubDispatch.Trigger | backend/src/github_api.py:35-148 | without a token nothing is sent and the token error is raised; otherwise the payload on "main" is sent, and the deployment is saved and reported pending exactly when GitHub answers 204 and the save succeeds; any other answer raises an error naming the code and the reply |
| GithubDispatch.SavedParametersPreferRequest | backend/src/github_api.py:131-140 | the saved parameters hold every input and every request parameter, the request winning on a shared name |
| GithubDispatch.ReturnedIdIsSaved | backend/src/github_api.py:126-146 | the id returned to the caller is the id of the saved record |
| Terraform.InstanceType | backend/src/terraform.py:44-52 | a missing size counts as small; a listed size maps through the table and any other value to t2.micro; a list or dict size raises "unhashable type"; the result is always one of the three types |
| Terraform.SizeTableMatchesForm | backend/src/terraform.py:45-50 | the backend maps every size to the same instance type as the request form does |
| Terraform.Nested | backend/src/terraform.py:39-40 | missing nested parameters read as an empty dictionary; anything but a dictionary raises "has no attribute 'get'" |
| Terraform.Prepare | backend/src/terraform.py:39-72 | name, environment and region come from the request or their defaults; the request's nested parameters override the computed ones; EC2 fails only on an unhashable size, S3 only on a non-string name, other types only on bad nested parameters |
| Terraform.Ec2AlwaysHasSubnet | backend/src/terraform.py:58-64 | an EC2 dispatch always carries a subnet, the default one when none is requested |
| Terraform.Ec2InstanceType | backend/src/terraform.py:44-72 | the EC2 parameters always carry an instance type: the requested one when the request names one, else the type the size maps to |
| Terraform.SizeReachesWorkflowConfig | backend/src/terraform.py:44-83 | the workflow configuration of an EC2 request carries the instance type its size maps to, unless the request names one itself |
| Terraform.BucketNameFromResourceName | backend/src/terraform.py:65-69 | a bucket's name is the lower-cased resource name, a dash and a random suffix |
| Terraform.Attempt | backend/src/terraform.py:33-90 | a preparation error is raised as is; otherwise the outcome is the dispatch's |
| Terraform.ErrorRecord | backend/src/terraform.py:100-108 | the recorded failure carries the error id, the status "error", the request parameters as given and the exception text |
| Terraform.Respond | backend/src/terraform.py:85-117 | success reports the dispatch's id as pending with no error record; an exception becomes an "error" result with a fresh deploy-error id and "Deployment failed: " plus the message, recorded with the request parameters when the save succeeds |
| Terraform.Execute | backend/src/terraform.py:33-117 | the entry point never raises, and it reports pending exactly when preparation and dispatch both succeed |
| Terraform.PendingAndErrorIdsDiffer | backend/src/terraform.py:95 | an id handed out for a dispatched deployment never equals one handed out for a failure |
| Terraform.MissingTokenReported | backend/src/terraform.py:92-117 | a missing token is returned as an error result carrying the token message, not raised |
| BackendApi.ResourceReply | backend/src/main.py:104-108 | the reply carries the entry point's deployment id as the request id, with its status and message |
| BackendApi.CreateResource | backend/src/main.py:85-108 | roles other than admin and developer get 403; a permitted request always gets 200 with the entry point's id, status and message, pending exactly when the dispatch went through |
| BackendApi.MayProvision | backend/src/main.py:91 | only the admin and developer roles may provision, on both provisioning routes (the same check at line 144) |
| BackendApi.ResourceRoutePreparesUnlessBadName | backend/src/main.py:96-103 | through this route the preparation fails only for a bucket whose requested name is not a string |
| BackendApi.CreateDeployment | backend/src/main.py:137-170 | roles other than admin and developer get 403; a permitted request gets 200 exactly when the dispatch succeeds, with its id as pending, and any exception becomes a 500 carrying its message |
| BackendApi.RoutesReportMissingTokenDifferently | backend/src/main.py:85-170 | with no token one creation route answers 500, the other 200 with status "error" |
| BackendApi.DeploymentStatus | backend/src/main.py:118-135 | an unknown id gets 404 "Deployment not found"; a stored one gets exactly its id, status and both times |
| BackendApi.StatusFoundIffStored | backend/src/main.py:118-135 | in a table where every row is filed under its own id, the lookup fails exactly for unknown ids and reports the asked id |
| BackendApi.SecretValue | backend/src/main.py:176 | an unset secret reads as None, and only then |
| BackendApi.UnsetSecretAcceptsAnyPayload | backend/src/main.py:176-178 | with no secret configured, any payload without a secret passes the check as written, and none passes the intended one |
| BackendApi.SecretAcceptedMeansConfigured | backend/src/main.py:176-178 | the intended check accepts exactly the payloads carrying the configured, non-empty secret |
| BackendApi.UpdateData | backend/src/main.py:183-191 | every webhook writes the same seven columns, a column the payload omits written as null and missing outputs as an empty object |
| BackendApi.Upsert | backend/src/main.py:193-203 | an unknown id gets a new row with its id and creation time; a known one has the seven columns overwritten and keeps the rest; no other row changes |
| BackendApi.Webhook | backend/src/main.py:172-205 | a rejected secret gets 403 and changes nothing; a string deployment id gets {"status": "ok"} and the upsert; anything but 200 leaves the table unchanged |
| BackendApi.UpsertKeepsWellFormed | backend/src/main.py:193-203 | an upsert keeps every row filed under its own id |
| BackendApi.WebhookKeepsWellFormed | backend/src/main.py:193-203 | a webhook keeps every row filed under its own id |
| BackendApi.UpsertHeldRow | backend/src/main.py:193-203 | an upsert whose webhook columns already hold the update's values leaves the table as it was |
| BackendApi.UpsertIdempotent | backend/src/main.py:193-203 | writing the same update twice leaves the table as writing it once |
| BackendApi.WebhookIdempotent | backend/src/main.py:172-205 | delivering the same webhook twice leaves the table as delivering it once |
| BackendApi.UpdateKeepsCreation | backend/src/main.py:201-203 | an update never moves a deployment's id or creation time |
| BackendApi.OmittedNameCleared | backend/src/main.py:183-203 | an accepted webhook that leaves the name out overwrites the stored name with null and stores the pushed status |
| BackendApi.WebhookStatusVisible | backend/src/main.py:118-205 | after an accepted webhook the status route finds the deployment and reports the status just pushed |

## Left out

- Rendering: JSX and MUI layout (`GridWrapper.tsx`, `GridItem.tsx`, `App.tsx` routing) are not modelled. Only the values a page derives are.
- `api/index.ts`: the axios 401 interceptor and its redirect are a side effect on the browser location, with no logic of their own.
- `backend/src/auth.py` and `frontend/src/context/AuthContext.tsx`: thin wrappers over JWT, bcrypt and local storage. The caller's role is a parameter of the routes.
- `backend/src/supabase.py`, axios, httpx and the GitHub API: each is an abstract outcome. A response record, a status code or a failure is passed in; nothing is sent.
- Timers and async interleaving: the ordering of `setInterval`/`setTimeout`, in-flight fetches racing each other, effect scheduling, and teardown (closing the channel, clearing intervals) are not modelled. Ticks and fetch completions are explicit sequential events.
- The hook's `refetch`: it is an event that issues both pulls. Idempotence of repeated refetches and silence after teardown are timing properties and are not stated.
- The hook's internal `isLoading`: the snapshot's `isLoading: false` is modelled, but not the local loading state kept beside it.
- Randomness and clocks: `generateId`, `uuid4`, `datetime.now`, `Date.now` and `toLocaleString`. Generated ids and timestamps are inputs.
- `ResourceTypeSelection.tsx`: a single field setter, with nothing to prove.
- `securityGroupPresets.ts`: static data that is imported but unused. The presets the security-group form actually uses are modelled.
- `frontend/src/components/wizard/EC2ConfigForm.tsx`: static option tables plus one checkbox setter (`dependencies.connectToRds`), with nothing to prove.
- `ResourceRequestForm.tsx:1-343`: a commented-out first copy of the form.
- Yup and Formik internals. `getConfigSchema` is never applied, so the schema predicates state the declared rules and do not claim they are enforced.
- The stack status page's `StatusChip` icon and its CSS `textTransform: capitalize`: the label text is modelled by `StackStatusPage.StatusChipLabel` through `Strings.SpaceFirstUnderscore`, the styling is not.
- A `protocol` field that is not a string makes the review page throw on `toUpperCase`. The model does not throw: it upper-cases the text the value renders as, or "undefined" when the field is missing.
- Truthy values that are not arrays, where the pages expect a list of subnets or rules, are not modelled. Neither are rule entries that are not objects.
- The JS object identity that `indexOf` relies on is modelled as value equality.
- `localeCompare` is modelled as code-point order. The engine's sort algorithm is modelled as an insertion sort; the comparator is not transitive, so another engine may order differently.
- A resource with no `name` makes `localeCompare` throw. The model requires names to be strings.
- Case mapping (`toLowerCase`, `toUpperCase`, Python `lower()`) covers ASCII letters only.
- Non-integer numbers. Json numbers and the wizard's number fields are integers, but a Formik number field can hold a fraction such as 1.5. The page would show it as "1.5" through `toString` (frontend/src/components/EnhancedResourceWizard.tsx:185), and Python's `type()` would name it "float", where `GithubDispatch.TypeName` says "int". Fractions are not modelled.
- The order of `Object.entries` and of Python dictionaries is not modelled: objects are maps.
- `json.dumps` text: `config_json` is carried as the object it serialises.
- A webhook payload whose `deployment_id` is not a string is modelled as a 500 with the store unchanged. Its body is the server's generic "Internal Server Error", carried as a detail; the framework's plain-text body format is not modelled. What the database does with such a key is outside the model.
- The database schema, types and constraints: a row is a map from column to value, and a column a row lacks is read as null.
- The `get_deployments`, health, `me` and token routes of `main.py`: they pass data through, with no logic of their own.

## Findings

| source | as written | input that shows it | evidently intended | confidence | as-written member | corrected member |
|---|---|---|---|---|---|---|
| frontend/src/hooks/useDeploymentStatus.ts:159-165 | the channel's `onerror` starts a polling interval whenever polling is enabled and none is live, without the completion check that `onclose` has | a completed deployment with no live interval, then a channel error: a new interval starts and status and logs are pulled again | a finished deployment never restarts polling | not executed | DeploymentSync.AsWrittenErrorRestartsPollingAfterCompletion | DeploymentSync.GuardedNoTimerAfterCompletion |
| frontend/src/hooks/useDeploymentStatus.ts:81-84 | a failed status pull stores its message in a separate `error` state that the hook never returns, while the page reads `status?.error` | a status pull rejected with any message: the snapshot's `error` stays `null`, so the page shows no error | the page shows the pull's error | not executed | DeploymentSync.FailedPullNeverReachesPage | DeploymentSync.FailedPullReachesPageWhenReturned |
| frontend/src/components/wizard/RDSConfigForm.tsx:82-92 | switching the engine sets the version to 8.0 for mysql and aurora-mysql and to 14.3 for postgres and aurora-postgresql; for any other engine it keeps the previous version | engine postgres with version 14.3, then switch to mariadb: version 14.3 stays, and the MySQL version list does not offer it | after any engine change the version is one the form offers | not executed | RdsForm.MariadbKeepsPostgresVersion | RdsForm.OfferedVersionAfterAnyChanges |
| frontend/src/components/ResourceConfiguration.tsx:350-380 | choosing "custom" stores "custom" as the port, then clears it to "", while the custom port field is shown only when the port equals "custom" | choose "custom" in the port list: the stored port becomes "", so the field for typing a port never shows | choosing "custom" opens a field in which a port can be typed | not executed | ResourceConfiguration.CustomChoiceHidesCustomField | ResourceConfiguration.CustomChoiceAcceptsTypedPort |
| backend/src/main.py:176-178 | the webhook compares `data.get("secret")` with `WEBHOOK_SECRET` using plain equality | `WEBHOOK_SECRET` unset and a payload without `secret`: `None == None`, so the update is accepted | with no secret configured, the webhook accepts nothing | not executed | BackendApi.UnsetSecretAcceptsAnyPayload | BackendApi.SecretAcceptedMeansConfigured |
