# Spotinst Terraform provider: field expansion, flattening and resource dispatch

This project models the logic of the spotinst Terraform provider that turns Terraform configuration
into the vendor SDK's structs and back. It also proves properties of that model. Six areas are
covered:

- **AWS elastigroup fields** (`ElastigroupAws`, `ElastigroupAwsGroup`, `TargetGroupArn`). The
  expanders cover availability zones, subnets, elastic IPs, tags, signals, revert-to-spot and multai
  target sets. `extractTargetGroupFromArn` is modelled with a matcher written for its one regular
  expression. The group's `Setup` callbacks for product, capacity and health checks are modelled on
  a `Group` object. So is the three-field load-balancer logic that shares one `LoadBalancers` slice.
  Its update callback, `onBalancersUpdate`, is driven by three package-level flags; they are modelled
  as the fields of a `BalancerUpdater` object.
- **Ocean AKS dispatch** (`OceanAks`). `OnCreate`, `OnRead` and `OnUpdate` walk a registry of field
  descriptors and run each field's optional callback on one shared cluster wrapper. The walk stops at
  the first error. The callbacks are opaque state transformers. Go's map order is an arbitrary
  arrangement of the registry's keys, given as a parameter.
- **Azure stateful-node network** (`StatefulNodeAzureNetwork`). Expand turns the nested `network`
  block into the SDK's `Network`, with the source's "keep the first held element, then append"
  merging of sub-lists. Flatten goes the other way, writing optional keys only when they are set.
  The three field callbacks are modelled on the launch specification.
- **Route53 and auto-scale integrations** (`ElastigroupAwsRoute53`, `ElastigroupAwsAutoScale`). Each
  field is set only from a non-empty string, a positive number or `true`.
- **Azure elastigroup identity and capacity** (`ElastigroupAzure`). These are the per-field read,
  create and update callbacks on an `AzureGroup` object.
- **Beanstalk elastigroup** (`ElastigroupAwsBeanstalk`):
  - the maintenance-mode decision over (operation, status);
  - the retry classification of create errors;
  - the not-found handling of read and import;
  - the gating of the remote update.

Shared modules:

- `Common`: Go pointers as `Option` and `(value, error)` as `Result`.
- `Terraform`: configuration values, the `GetOk`/`Get` accessors, `ResourceData` and errors.
- `Strings`: the `strings` functions used: `Split` and `Contains`, and `ToUpper` and `ToLower`
  restricted to ASCII letters (see "## Left out").

Conventions:

- A Go type assertion without `ok` makes the program panic on the wrong shape. The model turns it
  into a precondition, written as a shape predicate (`ConfigShaped`, `NetworkShaped`, ...).
- An assertion with `ok` is modelled as a branch.
- A nested pointer the Go code dereferences without a nil test (the node's
  `Compute.LaunchSpecification`, the group's `Integration`, the AWS group's `Compute` and
  `Capacity`, the Azure group's `Capacity` and `Compute` in the create and update callbacks) is
  modelled as a value that is always present: a non-null object parameter or a precondition.
- Field names, balancer type constants and error texts are written out as constants. They are
  assumed to be the upstream values of the packages' `consts.go` files and format strings.

## Model

| member | source | states |
|---|---|---|
| ElastigroupAws.ExpandAvailabilityZones | spotinst/elastigroup_aws/fields_spotinst_elastigroup_aws.go:987-1008 | one zone per string element, in order, each parsed from that string; non-strings are skipped |
| ElastigroupAws.ZoneShapes | spotinst/elastigroup_aws/fields_spotinst_elastigroup_aws.go:993-1004 | `a` names only a zone; `a:b` adds subnet `b`; `a:b:c` adds placement group `c` and no subnet; empty parts are left unset |
| ElastigroupAws.ZoneWithExtraParts | spotinst/elastigroup_aws/fields_spotinst_elastigroup_aws.go:993-1004 | an entry with more than two separators sets only the zone name |
| ElastigroupAws.ExpandElasticIps | spotinst/elastigroup_aws/fields_spotinst_elastigroup_aws.go:1010-1019 | length bound only: no more IPs than elements; members and order by `ElasticIpsMembers` and `ElasticIpsAppend` |
| ElastigroupAws.ElasticIpsMembers | spotinst/elastigroup_aws/fields_spotinst_elastigroup_aws.go:1010-1019 | the elastic IPs are exactly the string elements, "" included |
| ElastigroupAws.ElasticIpsAppend | spotinst/elastigroup_aws/fields_spotinst_elastigroup_aws.go:1010-1019 | expanding a concatenation expands each part in order, so order is preserved |
| ElastigroupAws.ExpandSubnetIds | spotinst/elastigroup_aws/fields_spotinst_elastigroup_aws.go:1233-1243 | length bound only: no more ids than elements; members and order by `SubnetIdsMembers` and `SubnetIdsAppend` |
| ElastigroupAws.SubnetIdsMembers | spotinst/elastigroup_aws/fields_spotinst_elastigroup_aws.go:1233-1243 | the subnet ids are exactly the non-empty string elements |
| ElastigroupAws.SubnetIdsAppend | spotinst/elastigroup_aws/fields_spotinst_elastigroup_aws.go:1233-1243 | expanding a concatenation expands each part in order |
| ElastigroupAws.SubnetIdsWithoutEmptyStrings | spotinst/elastigroup_aws/fields_spotinst_elastigroup_aws.go:1233-1243 | without empty strings, the subnet filter and the elastic-IP filter agree |
| ElastigroupAws.ExpandTags | spotinst/elastigroup_aws/fields_spotinst_elastigroup_aws.go:1021-1043 | success yields one tag per map element; the only errors are "key missing" and "value missing" |
| ElastigroupAws.TagsSucceedIffComplete | spotinst/elastigroup_aws/fields_spotinst_elastigroup_aws.go:1021-1043 | tags expand exactly when every map element has both a key and a value |
| ElastigroupAws.TagsErrorOfFirstIncomplete | spotinst/elastigroup_aws/fields_spotinst_elastigroup_aws.go:1024-1035 | the first incomplete map decides: "key missing" exactly when it lacks the key, "value missing" exactly when it has the key but not the value, success exactly when there is none |
| ElastigroupAws.TagsFromMaps | spotinst/elastigroup_aws/fields_spotinst_elastigroup_aws.go:1021-1043 | each tag carries the key and value strings of its map, in order |
| ElastigroupAws.ExpandSignals | spotinst/elastigroup_aws/fields_spotinst_elastigroup_aws.go:1213-1231 | one signal per element, in order; the name is upper-cased and set only when non-empty; the timeout is set only when positive |
| ElastigroupAws.FlattenSignals | spotinst/elastigroup_aws/fields_spotinst_elastigroup_aws.go:883-897 | the intended read: one map per signal of the strategy, in order |
| ElastigroupAws.SignalsRoundTrip | spotinst/elastigroup_aws/fields_spotinst_elastigroup_aws.go:1213-1231 | expanding the flattened expanded signals gives the same signals |
| ElastigroupAws.ReadSignalsAsWritten | spotinst/elastigroup_aws/fields_spotinst_elastigroup_aws.go:883-903 | the read callback as written stores an empty list whatever the group holds |
| ElastigroupAws.ReadSignalsDropsSignals | spotinst/elastigroup_aws/fields_spotinst_elastigroup_aws.go:885-898 | for a group with one signal, the as-written read stores none where the intended read stores one |
| ElastigroupAws.ExpandRevertToSpot | spotinst/elastigroup_aws/fields_spotinst_elastigroup_aws.go:1264-1289 | `perform_at` is set from any string; time windows are set exactly when a non-empty list is given, and are then the subnet filter of that list: its non-empty strings, in order, duplicates kept |
| ElastigroupAws.RevertToSpotKeepsWindows | spotinst/elastigroup_aws/fields_spotinst_elastigroup_aws.go:1275-1283 | configured time windows that are all non-empty come back as exactly that list, in order and with duplicates |
| ElastigroupAws.SubnetIdsOfNonEmptyStrings | spotinst/elastigroup_aws/fields_spotinst_elastigroup_aws.go:1233-1243 | a list of non-empty strings passes the non-empty filter unchanged |
| ElastigroupAws.ExpandMultaiTargetSets | spotinst/elastigroup_aws/fields_spotinst_elastigroup_aws.go:1245-1262 | one balancer per element, in order, typed as a multai target set, each id set only when non-empty |
| ElastigroupAws.FlattenMultaiTargetSets | spotinst/elastigroup_aws/fields_spotinst_elastigroup_aws.go:1291-1306 | exactly the balancers whose type equals the multai constant are flattened |
| ElastigroupAws.FlattenMultaiAppend | spotinst/elastigroup_aws/fields_spotinst_elastigroup_aws.go:1291-1303 | flattening a concatenation flattens each part, so the kept balancers stay in their order |
| ElastigroupAws.FlattenMultaiSingle | spotinst/elastigroup_aws/fields_spotinst_elastigroup_aws.go:1293-1300 | one balancer gives one map exactly when its type equals the multai constant, otherwise none |
| ElastigroupAws.MultaiRoundTrip | spotinst/elastigroup_aws/fields_spotinst_elastigroup_aws.go:1245-1306 | flatten after expand returns the configured id pairs |
| ElastigroupAws.TypeNameIsUpperCase | spotinst/elastigroup_aws/fields_spotinst_elastigroup_aws.go:1257 | the balancer type constants are unchanged by upper-casing |
| TargetGroupArn.ExtractTargetGroupFromArn | spotinst/elastigroup_aws/fields_spotinst_elastigroup_aws.go:1316-1328 | a name is returned only when non-empty; every failure is the one "cannot determine" error |
| TargetGroupArn.ExtractedNameFollowsMarker | spotinst/elastigroup_aws/fields_spotinst_elastigroup_aws.go:982 | an extracted name is the captured group of a match of the ARN pattern: the text after `:<12 digits>:targetgroup/`, up to a later slash |
| TargetGroupArn.CanonicalArnYieldsName | spotinst/elastigroup_aws/fields_spotinst_elastigroup_aws.go:1316-1328 | the canonical ARN `arn:aws:elasticloadbalancing:<region>:<account>:targetgroup/<name>/<id>` yields `<name>` |
| ElastigroupAws.ConstructAll | spotinst/elastigroup_aws/fields_spotinst_elastigroup_aws.go:1047-1063 | one balancer per identifier in order, or the error of the first identifier whose constructor fails |
| ElastigroupAws.ExpandBalancersContent | spotinst/elastigroup_aws/fields_spotinst_elastigroup_aws.go:1047-1063 | nil identifiers give nil; otherwise the non-empty identifiers are constructed, and the first error aborts |
| ElastigroupAws.TargetGroupBalancer | spotinst/elastigroup_aws/fields_spotinst_elastigroup_aws.go:578-590 | a target group is built exactly when a name can be extracted from its ARN, and carries that ARN and name |
| ElastigroupAws.ConfigBalancers | spotinst/elastigroup_aws/fields_spotinst_elastigroup_aws.go:1099-1140 | every balancer configured for a kind has that kind's type; an unset field gives none; only target groups can fail |
| ElastigroupAws.ExtractBalancers | spotinst/elastigroup_aws/fields_spotinst_elastigroup_aws.go:1065-1151 | the configured balancers of the kind, then the existing ones of that kind in their order; other types never appear; errors only when the configured ones fail |
| ElastigroupAws.OfType | spotinst/elastigroup_aws/fields_spotinst_elastigroup_aws.go:1076-1097 | length bound only: no more balancers than given; members and order by `OfTypeMembers` and `OfTypeAppend` |
| ElastigroupAws.OfTypeMembers | spotinst/elastigroup_aws/fields_spotinst_elastigroup_aws.go:1076-1097 | the partition keeps exactly the balancers whose type is the kind's constant |
| ElastigroupAws.OfTypeAppend | spotinst/elastigroup_aws/fields_spotinst_elastigroup_aws.go:1076-1097 | partitioning a concatenation partitions each part, so order is kept |
| ElastigroupAws.OfOtherType | spotinst/elastigroup_aws/fields_spotinst_elastigroup_aws.go:1079-1096 | balancers of one kind contain none of another kind |
| ElastigroupAws.ClassicNames | spotinst/elastigroup_aws/fields_spotinst_elastigroup_aws.go:499-516 | length bound only: no more names than balancers; members by `ClassicNamesMembers`, inverse by `ClassicNamesRoundTrip` |
| ElastigroupAws.ClassicNamesMembers | spotinst/elastigroup_aws/fields_spotinst_elastigroup_aws.go:499-516 | a name is reported exactly when it is the name of some balancer whose upper-cased type is the classic constant |
| ElastigroupAws.ClassicNamesRoundTrip | spotinst/elastigroup_aws/fields_spotinst_elastigroup_aws.go:499-516 | the classic balancers built from some names are read back as exactly those names |
| ElastigroupAws.TargetGroupArnsOf | spotinst/elastigroup_aws/fields_spotinst_elastigroup_aws.go:557-574 | length bound only: no more ARNs than balancers; members by `TargetGroupArnsMembers`, inverse by `TargetGroupArnsRoundTrip` |
| ElastigroupAws.TargetGroupArnsMembers | spotinst/elastigroup_aws/fields_spotinst_elastigroup_aws.go:557-574 | an ARN is reported exactly when it is the ARN of some balancer whose type is exactly the target-group constant |
| ElastigroupAws.TargetGroupArnsRoundTrip | spotinst/elastigroup_aws/fields_spotinst_elastigroup_aws.go:557-574 | the target groups built from some ARNs are read back as exactly those ARNs |
| ElastigroupAws.ClassicConfigReadsBack | spotinst/elastigroup_aws/fields_spotinst_elastigroup_aws.go:499-537 | the configured classic balancers are read back as the configured non-empty names |
| ElastigroupAws.TargetGroupConfigReadsBack | spotinst/elastigroup_aws/fields_spotinst_elastigroup_aws.go:557-604 | configured target groups are read back as the configured non-empty ARNs, once every ARN names a group |
| ElastigroupAws.LowerCaseClassicReadButNotKept | spotinst/elastigroup_aws/fields_spotinst_elastigroup_aws.go:509 | a balancer typed `classic` in lower case is read as classic but not kept by the update's exact-match partition |
| ElastigroupAwsGroup.Group.ReadElasticLoadBalancers | spotinst/elastigroup_aws/fields_spotinst_elastigroup_aws.go:499-516 | stores the classic balancers' names as a list and changes nothing else |
| ElastigroupAwsGroup.Group.ReadTargetGroupArns | spotinst/elastigroup_aws/fields_spotinst_elastigroup_aws.go:557-574 | stores the target groups' ARNs as a list and changes nothing else |
| ElastigroupAwsGroup.Group.ReadMultaiTargetSets | spotinst/elastigroup_aws/fields_spotinst_elastigroup_aws.go:634-648 | stores the flattened multai target sets and changes nothing else |
| ElastigroupAwsGroup.Group.CreateBalancers | spotinst/elastigroup_aws/fields_spotinst_elastigroup_aws.go:518-537 | a create callback appends the configured balancers of its kind to the existing slice (when there are any), or returns the construction error and leaves the slice as it was |
| ElastigroupAwsGroup.Group.ReadProduct | spotinst/elastigroup_aws/fields_spotinst_elastigroup_aws.go:91-100 | stores the product; nil reads back as "" |
| ElastigroupAwsGroup.Group.CreateProduct | spotinst/elastigroup_aws/fields_spotinst_elastigroup_aws.go:102-105 | always copies the configured product |
| ElastigroupAwsGroup.Group.UpdateProduct | spotinst/elastigroup_aws/fields_spotinst_elastigroup_aws.go:107-111 | always returns the update-not-allowed error for product |
| ElastigroupAwsGroup.Group.UpdateCapacityUnit | spotinst/elastigroup_aws/fields_spotinst_elastigroup_aws.go:248-252 | always returns the update-not-allowed error for capacity_unit |
| ElastigroupAwsGroup.Group.SetMaxSize | spotinst/elastigroup_aws/fields_spotinst_elastigroup_aws.go:134-147 | the maximum is written exactly when the configured int is at least 0; otherwise it is unchanged |
| ElastigroupAwsGroup.Group.SetMinSize | spotinst/elastigroup_aws/fields_spotinst_elastigroup_aws.go:170-183 | the minimum is written exactly when the configured int is at least 0 |
| ElastigroupAwsGroup.Group.SetDesiredCapacity | spotinst/elastigroup_aws/fields_spotinst_elastigroup_aws.go:205-218 | the target is written exactly when the configured int is at least 0 |
| ElastigroupAwsGroup.Group.ReadCapacity | spotinst/elastigroup_aws/fields_spotinst_elastigroup_aws.go:123-132 | stores max, min and desired, each 0 when nil |
| ElastigroupAwsGroup.Group.ReadCapacityUnit | spotinst/elastigroup_aws/fields_spotinst_elastigroup_aws.go:230-239 | stores the unit, "" when nil |
| ElastigroupAwsGroup.Group.CreateCapacityUnit | spotinst/elastigroup_aws/fields_spotinst_elastigroup_aws.go:241-246 | the unit is written only from a non-empty string |
| ElastigroupAwsGroup.Group.CreateHealthCheckGracePeriod | spotinst/elastigroup_aws/fields_spotinst_elastigroup_aws.go:275-280 | written only from a positive int; otherwise unchanged |
| ElastigroupAwsGroup.Group.UpdateHealthCheckGracePeriod | spotinst/elastigroup_aws/fields_spotinst_elastigroup_aws.go:282-290 | becomes nil unless the configured int is positive |
| ElastigroupAwsGroup.Group.CreateHealthCheckType | spotinst/elastigroup_aws/fields_spotinst_elastigroup_aws.go:313-318 | written only from a non-empty string |
| ElastigroupAwsGroup.Group.UpdateHealthCheckType | spotinst/elastigroup_aws/fields_spotinst_elastigroup_aws.go:320-328 | becomes nil unless a non-empty type is configured |
| ElastigroupAwsGroup.Group.CreateUnhealthyDuration | spotinst/elastigroup_aws/fields_spotinst_elastigroup_aws.go:351-356 | written only from a positive int |
| ElastigroupAwsGroup.Group.UpdateUnhealthyDuration | spotinst/elastigroup_aws/fields_spotinst_elastigroup_aws.go:358-366 | becomes nil unless the configured int is positive |
| ElastigroupAwsGroup.Group.ReadHealthCheck | spotinst/elastigroup_aws/fields_spotinst_elastigroup_aws.go:263-349 | stores the grace period, type and unhealthy duration, with 0 or "" for nil |
| ElastigroupAwsGroup.Group.ApplyKind | spotinst/elastigroup_aws/fields_spotinst_elastigroup_aws.go:1162-1201 | one kind's step: the balancers found are appended when there are any, and `nullify` reports there were none; an error leaves the slice as it was |
| ElastigroupAwsGroup.BalancerUpdater.OnBalancersUpdate | spotinst/elastigroup_aws/fields_spotinst_elastigroup_aws.go:1153-1211 | the new flags, slice and error are those of the step-by-step update from the flags and slice before the call |
| ElastigroupAwsGroup.KindStep | spotinst/elastigroup_aws/fields_spotinst_elastigroup_aws.go:1162-1201 | a kind already handled passes the slice through and asks for no clearing; otherwise the step fails exactly when the kind's configured balancers fail, and on success appends the extracted balancers and asks for clearing exactly when none were found |
| ElastigroupAwsGroup.BalancersUpdate | spotinst/elastigroup_aws/fields_spotinst_elastigroup_aws.go:1153-1211 | a handled kind stays handled; the call ends without error exactly when all three flags end set; only the target-group step can fail, and then the classic kind is marked handled and the slice is the one after the classic step |
| ElastigroupAwsGroup.UpdateSetsAllFlags | spotinst/elastigroup_aws/fields_spotinst_elastigroup_aws.go:1153-1203 | a call returns no error exactly when it leaves all three flags set |
| ElastigroupAwsGroup.LaterUpdatesChangeNothing | spotinst/elastigroup_aws/fields_spotinst_elastigroup_aws.go:1153-1211 | once all flags are set, a call changes neither the slice nor the flags and returns no error |
| ElastigroupAwsGroup.FailedKindStaysPending | spotinst/elastigroup_aws/fields_spotinst_elastigroup_aws.go:1177-1189 | a failing target-group step returns its error and leaves its own flag (and the multai flag) clear |
| ElastigroupAwsGroup.ClearedOnlyWhenAllKindsEmpty | spotinst/elastigroup_aws/fields_spotinst_elastigroup_aws.go:1205-1209 | the slice is cleared exactly when all three kinds ran in the same call and each found nothing |
| ElastigroupAwsGroup.FirstUpdateOrdersKinds | spotinst/elastigroup_aws/fields_spotinst_elastigroup_aws.go:1157-1211 | on a group with no balancers, the first call yields the classic, then target-group, then multai configured balancers, or nil when there are none |
| ElastigroupAwsGroup.FreshUpdateAppliesClassicBalancers | spotinst/elastigroup_aws/fields_spotinst_elastigroup_aws.go:1162-1175 | with fresh flags, the configured classic balancers come first in the slice |
| ElastigroupAwsGroup.ExistingBalancerDuplicated | spotinst/elastigroup_aws/fields_spotinst_elastigroup_aws.go:1100-1111 | a classic balancer already in the slice comes back twice after an update with nothing configured |
| ElastigroupAwsGroup.LaterGroupKeepsItsBalancers | spotinst/elastigroup_aws/fields_spotinst_elastigroup_aws.go:1153-1155 | after one successful update in the process, any later group's update keeps that group's slice whatever its configuration |
| ElastigroupAwsGroup.UpdateGroupBalancers | spotinst/elastigroup_aws/fields_spotinst_elastigroup_aws.go:1157-1211 | the update with flags that start fresh on every call |
| OceanAks.AKSClusterWrapper.constructor | spotinst/commons/common_ocean_aks.go:110-120 | the wrapper starts with the skeleton cluster: template, launch specification and an empty login |
| OceanAks.AKSClusterWrapper.GetCluster | spotinst/commons/common_ocean_aks.go:122-124 | returns the wrapped cluster |
| OceanAks.AKSClusterWrapper.SetCluster | spotinst/commons/common_ocean_aks.go:126-128 | replaces the wrapped cluster |
| OceanAks.OceanAKSResource.constructor | spotinst/commons/common_ocean_aks.go:23-30 | the resource holds the given registry |
| OceanAks.StartCluster | spotinst/commons/common_ocean_aks.go:41-45 | create starts from the imported cluster when there is one, else from the skeleton |
| OceanAks.OceanAKSResource.OnCreate | spotinst/commons/common_ocean_aks.go:32-57 | for a nil or empty registry: an error and no callback; otherwise the walk over the given order, with a nil cluster after an error and the wrapper's cluster after success |
| OceanAks.OceanAKSResource.OnRead | spotinst/commons/common_ocean_aks.go:59-82 | for a nil or empty registry: an error and the state untouched; otherwise every read callback is walked over the shared wrapper and the resource data, each seeing what the earlier ones wrote to either, and the first error is returned |
| OceanAks.OceanAKSResource.OnUpdate | spotinst/commons/common_ocean_aks.go:84-108 | for a nil or empty registry: an error; otherwise the changed fields' update callbacks are walked, and an error returns `(false, nil, err)` |
| OceanAks.RunFrom | spotinst/commons/common_ocean_aks.go:47-56 | the fields logged before stay first in the log; every field the walk adds is one of the remaining fields and has a callback; an error is always preceded by a logged invocation |
| OceanAks.RunFields | spotinst/commons/common_ocean_aks.go:47-56 | every invoked field is in the order and has a callback; an error means some field was invoked |
| OceanAks.CompleteRunInvokesAll | spotinst/commons/common_ocean_aks.go:47-56 | a walk without error invokes exactly the remaining fields that have a callback, in order |
| OceanAks.FailedRunStopsAtError | spotinst/commons/common_ocean_aks.go:47-56 | a walk fails exactly when some callback fails; it stops at the first failure and invokes nothing after it |
| OceanAks.CreateInvokesEveryCallbackOnce | spotinst/commons/common_ocean_aks.go:47-56 | without error, create invokes every field with a create callback exactly once, and no other field |
| OceanAks.ReadInvokesEveryCallbackOnce | spotinst/commons/common_ocean_aks.go:71-80 | without error, read invokes every field with a read callback exactly once |
| OceanAks.UpdateInvokesChangedFields | spotinst/commons/common_ocean_aks.go:93-107 | update invokes exactly the fields with an update callback and a change, each once |
| OceanAks.UpdateReportsAnyChange | spotinst/commons/common_ocean_aks.go:93-107 | update reports a change exactly when some field has an update callback and a change, in any order |
| OceanAks.CreateStopsAtFirstError | spotinst/commons/common_ocean_aks.go:52-54 | a failing create stops at the first failing field, invoking only the fields with a callback before it |
| StatefulNodeAzureNetwork.FlattenNetwork | spotinst/azure_v3/stateful_node_azure_network/fields_spotinst_stateful_node_azure_network.go:187-196 | a one-element list; its interfaces key is present exactly when the interfaces are set |
| StatefulNodeAzureNetwork.FlattenInterface | spotinst/azure_v3/stateful_node_azure_network/fields_spotinst_stateful_node_azure_network.go:198-227 | every scalar key, plus each sub-list key exactly when that sub-list is set |
| StatefulNodeAzureNetwork.FlattenEach | spotinst/azure_v3/stateful_node_azure_network/fields_spotinst_stateful_node_azure_network.go:229-275 | one map per element, in order |
| StatefulNodeAzureNetwork.Merged | spotinst/azure_v3/stateful_node_azure_network/fields_spotinst_stateful_node_azure_network.go:438-544 | nil exactly when nothing is configured or held; otherwise the first held element, then one element per configured map; at most one more element than entries |
| StatefulNodeAzureNetwork.ExpandMerged | spotinst/azure_v3/stateful_node_azure_network/fields_spotinst_stateful_node_azure_network.go:438-472 | the appending loop computes the merge |
| StatefulNodeAzureNetwork.ExpandAdditionalIPConfig | spotinst/azure_v3/stateful_node_azure_network/fields_spotinst_stateful_node_azure_network.go:438-472 | the merge of the held configurations with the configured ones |
| StatefulNodeAzureNetwork.ExpandPublicIPs | spotinst/azure_v3/stateful_node_azure_network/fields_spotinst_stateful_node_azure_network.go:474-508 | the merge of the held public IPs with the configured ones |
| StatefulNodeAzureNetwork.ExpandApplicationSecurityGroups | spotinst/azure_v3/stateful_node_azure_network/fields_spotinst_stateful_node_azure_network.go:510-544 | the merge of the held application security groups with the configured ones |
| StatefulNodeAzureNetwork.ExpandPrivateIPAddresses | spotinst/azure_v3/stateful_node_azure_network/fields_spotinst_stateful_node_azure_network.go:425-436 | the non-empty strings of the list, in order |
| StatefulNodeAzureNetwork.ExpandNetworkSecurityGroup | spotinst/azure_v3/stateful_node_azure_network/fields_spotinst_stateful_node_azure_network.go:546-562 | nil for an empty list; the passed group for a nil element; otherwise name and resource group change only to non-empty configured strings |
| StatefulNodeAzureNetwork.InterfaceOf | spotinst/azure_v3/stateful_node_azure_network/fields_spotinst_stateful_node_azure_network.go:330-418 | a set subnet name is non-empty; the private addresses are set exactly when their key is present; each other sub-list is set only when its key is present |
| StatefulNodeAzureNetwork.ExpandNetworkInterface | spotinst/azure_v3/stateful_node_azure_network/fields_spotinst_stateful_node_azure_network.go:330-418 | a fresh interface: the subnet from a non-empty string only, and each sub-list only when its key is present |
| StatefulNodeAzureNetwork.InterfacesOf | spotinst/azure_v3/stateful_node_azure_network/fields_spotinst_stateful_node_azure_network.go:317-423 | length bound only: no more interfaces than elements; members by `InterfacesOfMembers`, positions by `InterfacesOfMaps` |
| StatefulNodeAzureNetwork.InterfacesOfMembers | spotinst/azure_v3/stateful_node_azure_network/fields_spotinst_stateful_node_azure_network.go:317-423 | an interface is expanded exactly when some map element of the block describes it |
| StatefulNodeAzureNetwork.InterfacesOfMaps | spotinst/azure_v3/stateful_node_azure_network/fields_spotinst_stateful_node_azure_network.go:317-423 | when every element is a map, there is one interface per element, at the same position |
| StatefulNodeAzureNetwork.InterfacesExpanded | spotinst/azure_v3/stateful_node_azure_network/fields_spotinst_stateful_node_azure_network.go:317-423 | an empty block keeps the held interfaces; otherwise a fresh list of the configured ones |
| StatefulNodeAzureNetwork.ExpandNetworkInterfaces | spotinst/azure_v3/stateful_node_azure_network/fields_spotinst_stateful_node_azure_network.go:317-423 | the loop computes that expansion |
| StatefulNodeAzureNetwork.NetworkExpanded | spotinst/azure_v3/stateful_node_azure_network/fields_spotinst_stateful_node_azure_network.go:277-315 | nil exactly for an empty list with no network; an empty list returns the network untouched; names change only to non-empty strings; the interfaces are kept when the block is absent |
| StatefulNodeAzureNetwork.ExpandStatefulNodeAzureNetwork | spotinst/azure_v3/stateful_node_azure_network/fields_spotinst_stateful_node_azure_network.go:277-315 | the setters compute that expansion |
| StatefulNodeAzureNetwork.SecurityGroupRoundTrip | spotinst/azure_v3/stateful_node_azure_network/fields_spotinst_stateful_node_azure_network.go:229-562 | a security group with non-empty set fields survives flatten then expand |
| StatefulNodeAzureNetwork.PublicIPsRoundTrip | spotinst/azure_v3/stateful_node_azure_network/fields_spotinst_stateful_node_azure_network.go:251-508 | public IPs survive flatten then expand; an empty list comes back nil |
| StatefulNodeAzureNetwork.AdditionalIPConfigsRoundTrip | spotinst/azure_v3/stateful_node_azure_network/fields_spotinst_stateful_node_azure_network.go:238-472 | additional IP configurations survive flatten then expand; an empty list comes back nil |
| StatefulNodeAzureNetwork.ApplicationSecurityGroupsRoundTrip | spotinst/azure_v3/stateful_node_azure_network/fields_spotinst_stateful_node_azure_network.go:264-544 | application security groups survive flatten then expand; an empty list comes back nil |
| StatefulNodeAzureNetwork.PrivateIPAddressesRoundTrip | spotinst/azure_v3/stateful_node_azure_network/fields_spotinst_stateful_node_azure_network.go:425-436 | non-empty private addresses survive flatten then expand |
| StatefulNodeAzureNetwork.SetAssertionRejectsDeclaredList | spotinst/azure_v3/stateful_node_azure_network/fields_spotinst_stateful_node_azure_network.go:318 | a sub-block given as the list its schema declares fails the source's set conversion |
| StatefulNodeAzureNetwork.PrivateIPAssertionRejectsDeclaredString | spotinst/azure_v3/stateful_node_azure_network/fields_spotinst_stateful_node_azure_network.go:78-81 | `private_ip_addresses`, declared a string, fails the list assertion of its expander (l.426), and its flattened value is a list (l.209) |
| StatefulNodeAzureNetwork.ItemsAgreesWithSetAssertion | spotinst/azure_v3/stateful_node_azure_network/fields_spotinst_stateful_node_azure_network.go:318 | wherever the set conversion succeeds, the model's reading gives the same elements |
| StatefulNodeAzureNetwork.ReadNetwork | spotinst/azure_v3/stateful_node_azure_network/fields_spotinst_stateful_node_azure_network.go:138-154 | stores the flattened network when there is one; otherwise the state is unchanged |
| StatefulNodeAzureNetwork.CreateNetwork | spotinst/azure_v3/stateful_node_azure_network/fields_spotinst_stateful_node_azure_network.go:155-167 | sets the expanded network; an unset field leaves it alone |
| StatefulNodeAzureNetwork.UpdateNetwork | spotinst/azure_v3/stateful_node_azure_network/fields_spotinst_stateful_node_azure_network.go:168-183 | sets the expanded network; an unset field clears it |
| ElastigroupAwsRoute53.RecordSetOf | spotinst/elastigroup_aws_integrations/fields_spotinst_elastigroup_aws_integrations_route53.go:162-190 | the name is set from any string, "" included; each flag is set only when true |
| ElastigroupAwsRoute53.DomainOf | spotinst/elastigroup_aws_integrations/fields_spotinst_elastigroup_aws_integrations_route53.go:124-160 | hosted zone, account id and record-set type are set only from non-empty strings; record sets are set when their key is present |
| ElastigroupAwsRoute53.ExpandRoute53Integration | spotinst/elastigroup_aws_integrations/fields_spotinst_elastigroup_aws_integrations_route53.go:105-122 | always an integration; domains are set exactly when the key is present, one per map element, in order |
| ElastigroupAwsRoute53.DomainsSkipNonMaps | spotinst/elastigroup_aws_integrations/fields_spotinst_elastigroup_aws_integrations_route53.go:128-156 | a non-map element adds no domain; a map adds exactly one, at the end |
| ElastigroupAwsRoute53.FalseFlagsAreUnset | spotinst/elastigroup_aws_integrations/fields_spotinst_elastigroup_aws_integrations_route53.go:176-183 | flags configured as false are left unset |
| ElastigroupAwsRoute53.ReadRoute53 | spotinst/elastigroup_aws_integrations/fields_spotinst_elastigroup_aws_integrations_route53.go:68-70 | the read callback changes nothing |
| ElastigroupAwsRoute53.CreateRoute53 | spotinst/elastigroup_aws_integrations/fields_spotinst_elastigroup_aws_integrations_route53.go:72-83 | sets the expanded integration; an unset field leaves it unchanged |
| ElastigroupAwsRoute53.UpdateRoute53 | spotinst/elastigroup_aws_integrations/fields_spotinst_elastigroup_aws_integrations_route53.go:85-99 | sets the expanded integration; an unset field writes nil |
| ElastigroupAwsAutoScale.ExpandAutoScaleHeadroom | spotinst/elastigroup_aws_integrations/fields_spotinst_elastigroup_aws_integrations.go:23-45 | nil exactly for an empty list; nothing set for a nil element; each field set only from a positive int |
| ElastigroupAwsAutoScale.ExpandAutoScaleDown | spotinst/elastigroup_aws_integrations/fields_spotinst_elastigroup_aws_integrations.go:47-69 | nil exactly for an empty list; evaluation periods only when positive; the percentage setter runs only when the flag is set, and then with nil unless the value is positive |
| ElastigroupAwsAutoScale.NonPositivePercentageIsNull | spotinst/elastigroup_aws_integrations/fields_spotinst_elastigroup_aws_integrations.go:58-63 | a zero or negative percentage reaches the request only as an explicit null |
| ElastigroupAzure.AzureGroup.SetName | spotinst/azure_v3/elastigroup_azure/fields_spotinst_elastigroup_azure.go:32-43 | the configured name is always copied |
| ElastigroupAzure.AzureGroup.ReadName | spotinst/azure_v3/elastigroup_azure/fields_spotinst_elastigroup_azure.go:20-31 | stores the name; nil reads back as "" |
| ElastigroupAzure.AzureGroup.SetRegion | spotinst/azure_v3/elastigroup_azure/fields_spotinst_elastigroup_azure.go:66-81 | the region is written only when `GetOk` reports it set; otherwise it is unchanged |
| ElastigroupAzure.AzureGroup.ReadRegion | spotinst/azure_v3/elastigroup_azure/fields_spotinst_elastigroup_azure.go:54-65 | stores the region |
| ElastigroupAzure.AzureGroup.ReadResourceGroupName | spotinst/azure_v3/elastigroup_azure/fields_spotinst_elastigroup_azure.go:92-103 | stores the resource group name |
| ElastigroupAzure.AzureGroup.CreateResourceGroupName | spotinst/azure_v3/elastigroup_azure/fields_spotinst_elastigroup_azure.go:104-109 | copies the configured resource group name |
| ElastigroupAzure.AzureGroup.UpdateResourceGroupName | spotinst/azure_v3/elastigroup_azure/fields_spotinst_elastigroup_azure.go:110-115 | always returns update-not-allowed and does not touch the group |
| ElastigroupAzure.AzureGroup.ReadOS | spotinst/azure_v3/elastigroup_azure/fields_spotinst_elastigroup_azure.go:164-175 | stores the OS; a nil compute or OS reads as "" |
| ElastigroupAzure.AzureGroup.CreateOS | spotinst/azure_v3/elastigroup_azure/fields_spotinst_elastigroup_azure.go:176-181 | copies the configured OS into the compute |
| ElastigroupAzure.AzureGroup.UpdateOS | spotinst/azure_v3/elastigroup_azure/fields_spotinst_elastigroup_azure.go:182-186 | always returns update-not-allowed and does not touch the group |
| ElastigroupAzure.AzureGroup.SetMinSize | spotinst/azure_v3/elastigroup_azure/fields_spotinst_elastigroup_azure.go:138-153 | the minimum is written exactly when the configured int is at least 0 |
| ElastigroupAzure.AzureGroup.SetMaxSize | spotinst/azure_v3/elastigroup_azure/fields_spotinst_elastigroup_azure.go:210-225 | the maximum is written exactly when the configured int is at least 0 |
| ElastigroupAzure.AzureGroup.SetDesiredCapacity | spotinst/azure_v3/elastigroup_azure/fields_spotinst_elastigroup_azure.go:251-266 | the target is written exactly when the configured int is at least 0 |
| ElastigroupAzure.AzureGroup.ReadMinSize | spotinst/azure_v3/elastigroup_azure/fields_spotinst_elastigroup_azure.go:126-137 | stores 0 when the capacity or the minimum is nil |
| ElastigroupAzure.AzureGroup.ReadMaxSize | spotinst/azure_v3/elastigroup_azure/fields_spotinst_elastigroup_azure.go:198-209 | stores 0 when the capacity or the maximum is nil |
| ElastigroupAzure.Reported | spotinst/azure_v3/elastigroup_azure/fields_spotinst_elastigroup_azure.go:236-245 | a capacity value reads as 0 when the capacity or the sub-field is nil |
| ElastigroupAzure.DesiredWriteBack | spotinst/azure_v3/elastigroup_azure/fields_spotinst_elastigroup_azure.go:246-248 | the guarded write-back: a nil capacity stays nil; a present one keeps its minimum and maximum; a negative reported target leaves it unchanged |
| ElastigroupAzure.AzureGroup.ReadDesiredCapacityAsWritten | spotinst/azure_v3/elastigroup_azure/fields_spotinst_elastigroup_azure.go:236-250 | the read as written: stores the target, then writes it back, panicking exactly when the capacity is nil |
| ElastigroupAzure.NilCapacityReachesWriteBack | spotinst/azure_v3/elastigroup_azure/fields_spotinst_elastigroup_azure.go:246-248 | with no capacity, the value stored (0) passes the write-back's guard |
| ElastigroupAzure.AzureGroup.ReadDesiredCapacity | spotinst/azure_v3/elastigroup_azure/fields_spotinst_elastigroup_azure.go:236-250 | the read with the write-back guarded: stores the target and writes it back into a present capacity |
| ElastigroupAzure.ReadKeepsTargetAndState | spotinst/azure_v3/elastigroup_azure/fields_spotinst_elastigroup_azure.go:246-248 | after the read, a present capacity's target is set and equals the stored value; a nil target becomes 0 |
| ElastigroupAzure.WriteBackIdempotent | spotinst/azure_v3/elastigroup_azure/fields_spotinst_elastigroup_azure.go:246-248 | writing back twice equals writing back once |
| ElastigroupAwsBeanstalk.MaintenanceAttempt | spotinst/resource_spotinst_elastigroup_aws_beanstalk.go:84-121 | START: AWAIT_USER_UPDATE stops, ACTIVE issues one start call, others retry. END: ACTIVE stops, AWAIT_USER_UPDATE issues one finish call, others retry. STATUS, unknown operations and a failed lookup succeed without a call |
| ElastigroupAwsBeanstalk.Issue | spotinst/resource_spotinst_elastigroup_aws_beanstalk.go:91-94 | a start or finish call that fails ends the retrying; one that succeeds succeeds |
| ElastigroupAwsBeanstalk.CallsMatchOperation | spotinst/resource_spotinst_elastigroup_aws_beanstalk.go:86-115 | a start call happens only for START on ACTIVE, a finish call only for END on AWAIT_USER_UPDATE |
| ElastigroupAwsBeanstalk.FailedLookupSucceeds | spotinst/resource_spotinst_elastigroup_aws_beanstalk.go:85-121 | a failed status lookup reports no error |
| ElastigroupAwsBeanstalk.ToggleResult | spotinst/resource_spotinst_elastigroup_aws_beanstalk.go:123-127 | no error exactly when the last attempt succeeded; otherwise its error, wrapped |
| ElastigroupAwsBeanstalk.FirstSuch | spotinst/resource_spotinst_elastigroup_aws_beanstalk.go:205-210 | the index of the first element that satisfies the test, or none when no element does |
| ElastigroupAwsBeanstalk.Matching | spotinst/resource_spotinst_elastigroup_aws_beanstalk.go:205-210 | an error list's element that satisfies the test, found exactly when one exists |
| ElastigroupAwsBeanstalk.CreateAttempt | spotinst/resource_spotinst_elastigroup_aws_beanstalk.go:171-181 | retried exactly when some listed error has code InvalidParameterValue and an "Invalid IAM Instance Profile" message; any other error stops the retrying as it is |
| ElastigroupAwsBeanstalk.IamProfileAmongOthersRetries | spotinst/resource_spotinst_elastigroup_aws_beanstalk.go:173-177 | an IAM error anywhere among others still retries |
| ElastigroupAwsBeanstalk.OtherCodeDoesNotRetry | spotinst/resource_spotinst_elastigroup_aws_beanstalk.go:171-181 | a single error with another code is not retried |
| ElastigroupAwsBeanstalk.ReadBeanstalkGroup | spotinst/resource_spotinst_elastigroup_aws_beanstalk.go:193-228 | not found or a nil group: the id is cleared and no error; any other error is reported; a group found runs the field reads |
| ElastigroupAwsBeanstalk.ImportInputOf | spotinst/resource_spotinst_elastigroup_aws_beanstalk.go:49-58 | the environment id when set, else the name when set, else nil; only non-empty values are sent |
| ElastigroupAwsBeanstalk.ImportPrefersEnvironmentId | spotinst/resource_spotinst_elastigroup_aws_beanstalk.go:49-58 | with both an id and a name configured, only the id is sent |
| ElastigroupAwsBeanstalk.ImportBeanstalkGroup | spotinst/resource_spotinst_elastigroup_aws_beanstalk.go:62-78 | a not-found error clears the id and is still returned; other errors are returned wrapped; success returns the group |
| ElastigroupAwsBeanstalk.UpdateFlow | spotinst/resource_spotinst_elastigroup_aws_beanstalk.go:230-258 | maintenance is toggled whenever the earlier steps succeed; the remote update is sent only when a change was reported and the toggle succeeded; the state is read back exactly when nothing failed |
| ElastigroupAwsBeanstalk.UnchangedUpdateOnlyToggles | spotinst/resource_spotinst_elastigroup_aws_beanstalk.go:235-254 | with nothing changed, maintenance is toggled but no remote update is sent |

## Left out

- The `consts.go` files are not part of this model. The field names, the balancer type constants
  and `GROUP_DOESNT_EXIST` are written out as constants assumed to be the upstream values.
- Schema declarations, `schema.Set` hashing and `hashKV` are framework code. A set is given by its
  elements in `List()` order.
- The regular expression engine: only the one target-group pattern is matched, by a matcher
  written for it.
- Logging, `commons.ToJson`, `context`, and the wrappers' error formatting through `fmt.Errorf`
  patterns. Errors are kept as structured values.
- `resource.RetryContext`'s one-minute budget is timing. One attempt of each retried closure is
  modelled, together with the result the final attempt reports. The number of attempts is not
  modelled.
- The SDK calls (status lookup, start/finish maintenance, create, read, import, remote update) are
  parameters: their answers are inputs.
- The beanstalk resource's own `OnRead`, `OnUpdate` and `MaintenanceState` dispatch are inputs too.
- The beanstalk create handler beyond the retry classification, and the delete handler.
- The field callbacks themselves are opaque in the Ocean AKS dispatch. The dispatch is modelled on
  any callbacks: create and update callbacks change the shared cluster, read callbacks may change
  the shared cluster and the resource data.
- Go map iteration order is a parameter: any order of the registry's keys.
- The max-scale-down percentage's float64 is opaque. Only its positivity is used.
- The balancer flags are package-level variables shared by concurrent resource operations. They are
  modelled as one object driven sequentially, so races are not modelled.
- The expanders' error returns: no modelled expander returns an error (their Go versions always
  return a nil error), so the results carry none.
- `network_interfaces`, `additional_ip_configurations`, `public_ips` and
  `application_security_groups` are declared as lists but read with a set assertion. The model's
  expanders read either shape and `SetAssertionRejectsDeclaredList` records the mismatch.
  `network_security_group` is declared and read as a list.
- StatefulNodeAzureNetwork.InterfaceShaped: requires `private_ip_addresses` to be a list of strings,
  the shape its expander asserts and its flatten writes, although the schema declares a string;
  the panic on a configured string is recorded by `PrivateIPAssertionRejectsDeclaredString`.
- ElastigroupAws.SignalsRoundTrip: holds for the model's case mapping, which is ASCII-only:
  `Strings.ToUpper` and `Strings.ToLower` change only the letters `a`-`z` and `A`-`Z`, whereas Go's
  `strings.ToUpper`/`ToLower` map all of Unicode. For a name with non-ASCII letters (the Kelvin
  sign, which Go lower-cases to `k`) Go's round trip can differ.
- ElastigroupAws.ToUpperToLower, ElastigroupAws.SignalRoundTrip, ElastigroupAws.ExpandSignals and
  ElastigroupAws.FlattenSignals: state their case mapping for ASCII letters only, for the same
  reason.
- ElastigroupAws.ClassicNameIn, ElastigroupAws.ClassicNames and ElastigroupAws.ClassicNamesRoundTrip:
  compare the ASCII-only upper-cased type with `CLASSIC`, for the same reason. Go's
  `strings.ToUpper` also maps `claſſic` (with U+017F, long s) and `classıc` (with U+0131, dotless i)
  to `CLASSIC`, so Go reads such balancers as classic and the model does not.
- `expandAWSGroupRoute53Integration` indexes the first element of the list without a length test.
  `GetOk` never passes an empty list, and the model requires a non-empty one.
- ElastigroupAws.OfType: states only its length bound in its own contract; which balancers it keeps
  is stated by `OfTypeMembers` and `OfTypeAppend`.
- ElastigroupAws.ExpandElasticIps and ElastigroupAws.ExpandSubnetIds: their own contracts state only the
  length bound; their members and order are stated by the `...Members` and `...Append` lemmas.
- ElastigroupAws.ClassicNames and ElastigroupAws.TargetGroupArnsOf: their own contracts state only the
  length bound; their members are stated by `ClassicNamesMembers` and `TargetGroupArnsMembers`, and
  their inverses by the `...RoundTrip` lemmas.
- StatefulNodeAzureNetwork.InterfacesOf: its own contract states only the length bound; its members
  are stated by `InterfacesOfMembers` and its positions by `InterfacesOfMaps`.
- Other fields of the AWS elastigroup `Setup` (name, description, region, subnets, zones, tags,
  signals, ...) wire the modelled expanders into setters and are not modelled as callbacks.

## Findings

| source | as written | input that shows it | evidently intended | confidence | as-written member | corrected member |
|---|---|---|---|---|---|---|
| spotinst/elastigroup_aws/fields_spotinst_elastigroup_aws.go:885-898 | the signals read callback appends to a `signalsToAdd` declared with `:=` inside the `if`, which shadows the outer slice, so the outer empty slice is stored | a group whose strategy has one signal | one map per signal is stored | not executed | ElastigroupAws.ReadSignalsDropsSignals | ElastigroupAws.SignalsRoundTrip |
| spotinst/elastigroup_aws/fields_spotinst_elastigroup_aws.go:1153-1155 | the three balancer flags are package variables that are set and never reset | two groups updated in one provider process: the second group's balancer update changes nothing | each resource update handles every balancer kind once | not executed | ElastigroupAwsGroup.LaterGroupKeepsItsBalancers | ElastigroupAwsGroup.UpdateGroupBalancers |
| spotinst/azure_v3/elastigroup_azure/fields_spotinst_elastigroup_azure.go:246-248 | the desired-capacity read writes the stored value back into `Capacity` without the nil test it made just before | a group with nil capacity: 0 is stored and passes the guard, so `SetTarget` runs on nil | the write-back is guarded by the capacity being present | not executed | ElastigroupAzure.NilCapacityReachesWriteBack | ElastigroupAzure.AzureGroup.ReadDesiredCapacity |
| spotinst/azure_v3/stateful_node_azure_network/fields_spotinst_stateful_node_azure_network.go:78-81 | `private_ip_addresses` is declared `TypeString`, yet `expandPrivateIPAddresses` asserts `[]interface{}` (l.426) and the flatten writes a string slice (l.209) | an interface configured with `private_ip_addresses = "10.0.0.4"` | the field is a list of strings on both sides | not executed | StatefulNodeAzureNetwork.PrivateIPAssertionRejectsDeclaredString | StatefulNodeAzureNetwork.PrivateIPAddressesRoundTrip |
| spotinst/azure_v3/stateful_node_azure_network/fields_spotinst_stateful_node_azure_network.go:318 | nested blocks declared `TypeList` are read with `.(*schema.Set).List()` | a `network_interfaces` value given as the list its schema declares | the elements are read as the list they are declared as | not executed | StatefulNodeAzureNetwork.SetAssertionRejectsDeclaredList | StatefulNodeAzureNetwork.ItemsAgreesWithSetAssertion |
