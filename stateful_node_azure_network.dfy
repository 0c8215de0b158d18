/**
 * The `network` block of an Azure stateful node: the network, its interfaces and each interface's
 * sub-lists, expanded from the configuration and flattened back into it, and the three callbacks
 * that read it into the configuration or write it into the node's launch specification.
 *
 * Expand works as the source does: the scalar fields of the passed network or security group are
 * overwritten only by non-empty strings, and each sub-list keeps the first element it already had
 * before one new element per configured map. Flatten writes every scalar, with "" or false for an
 * unset one, and writes a sub-list's key only when the sub-list is set.
 */
module StatefulNodeAzureNetwork {
  import opened Common
  import opened Terraform
  import ElastigroupAws

  const NetworkField := "network"
  const VirtualNetworkName := "virtual_network_name"
  const ResourceGroupName := "resource_group_name"
  const NetworkInterfaces := "network_interfaces"
  const SubnetName := "subnet_name"
  const AssignPublicIP := "assign_public_ip"
  const IsPrimary := "is_primary"
  const PublicIPSku := "public_ip_sku"
  const NetworkSecurityGroupField := "network_security_group"
  const EnableIPForwarding := "enable_ip_forwarding"
  const PrivateIPAddresses := "private_ip_addresses"
  const AdditionalIPConfigurations := "additional_ip_configurations"
  const PublicIPs := "public_ips"
  const ApplicationSecurityGroups := "application_security_groups"
  const Name := "name"
  const PrivateIPAddressVersion := "private_ip_address_version"

  datatype NetworkSecurityGroup = NetworkSecurityGroup(name: Option<string>, resourceGroupName: Option<string>)
  datatype AdditionalIPConfiguration = AdditionalIPConfiguration(name: Option<string>, privateIPAddressVersion: Option<string>)
  datatype PublicIP = PublicIP(name: Option<string>, resourceGroupName: Option<string>)
  datatype ApplicationSecurityGroup = ApplicationSecurityGroup(name: Option<string>, resourceGroupName: Option<string>)

  datatype NetworkInterface = NetworkInterface(
    subnetName: Option<string>,
    isPrimary: Option<bool>,
    assignPublicIP: Option<bool>,
    publicIPSku: Option<string>,
    networkSecurityGroup: Option<NetworkSecurityGroup>,
    enableIPForwarding: Option<bool>,
    privateIPAddresses: Option<seq<string>>,
    additionalIPConfigurations: Option<seq<AdditionalIPConfiguration>>,
    publicIPs: Option<seq<PublicIP>>,
    applicationSecurityGroups: Option<seq<ApplicationSecurityGroup>>)

  datatype Network = Network(
    virtualNetworkName: Option<string>,
    resourceGroupName: Option<string>,
    networkInterfaces: Option<seq<NetworkInterface>>)

  const EmptyNetwork := Network(None, None, None)
  const EmptySecurityGroup := NetworkSecurityGroup(None, None)

  // ---------------------------------------------------------------------------------------------
  // Flatten

  /** One map per element of `xs`, in order. */
  function FlattenEach<T>(xs: seq<T>, f: T -> map<string, Value>): (r: seq<Value>)
    ensures |r| == |xs|
    ensures forall i :: 0 <= i < |xs| ==> r[i] == Map(f(xs[i]))
  {
    if xs == [] then [] else FlattenEach(xs[..|xs| - 1], f) + [Map(f(xs[|xs| - 1]))]
  }

  function FlattenSecurityGroup(g: NetworkSecurityGroup): map<string, Value> {
    map[Name := Str(StringValue(g.name)), ResourceGroupName := Str(StringValue(g.resourceGroupName))]
  }

  function FlattenAdditionalIPConfiguration(c: AdditionalIPConfiguration): map<string, Value> {
    map[Name := Str(StringValue(c.name)), PrivateIPAddressVersion := Str(StringValue(c.privateIPAddressVersion))]
  }

  function FlattenPublicIP(p: PublicIP): map<string, Value> {
    map[Name := Str(StringValue(p.name)), ResourceGroupName := Str(StringValue(p.resourceGroupName))]
  }

  function FlattenApplicationSecurityGroup(g: ApplicationSecurityGroup): map<string, Value> {
    map[Name := Str(StringValue(g.name)), ResourceGroupName := Str(StringValue(g.resourceGroupName))]
  }

  function KeyIf(b: bool, key: string): set<string> {
    if b then {key} else {}
  }

  /** The scalars of one interface, each written whether set or not. */
  function FlattenScalars(ni: NetworkInterface): (m: map<string, Value>)
    ensures m.Keys == {SubnetName, IsPrimary, AssignPublicIP, PublicIPSku, EnableIPForwarding}
  {
    map[
      SubnetName := Str(StringValue(ni.subnetName)),
      IsPrimary := Bool(BoolValue(ni.isPrimary)),
      AssignPublicIP := Bool(BoolValue(ni.assignPublicIP)),
      PublicIPSku := Str(StringValue(ni.publicIPSku)),
      EnableIPForwarding := Bool(BoolValue(ni.enableIPForwarding))]
  }

  function WithPrivateIPAddresses(ni: NetworkInterface, m: map<string, Value>): (r: map<string, Value>)
    ensures r.Keys == m.Keys + KeyIf(ni.privateIPAddresses.Some?, PrivateIPAddresses)
  {
    if ni.privateIPAddresses.Some? then m[PrivateIPAddresses := List(StringList(ni.privateIPAddresses.value))] else m
  }

  function WithSecurityGroup(ni: NetworkInterface, m: map<string, Value>): (r: map<string, Value>)
    ensures r.Keys == m.Keys + KeyIf(ni.networkSecurityGroup.Some?, NetworkSecurityGroupField)
  {
    if ni.networkSecurityGroup.Some?
    then m[NetworkSecurityGroupField := List([Map(FlattenSecurityGroup(ni.networkSecurityGroup.value))])]
    else m
  }

  function WithAdditionalIPConfigurations(ni: NetworkInterface, m: map<string, Value>): (r: map<string, Value>)
    ensures r.Keys == m.Keys + KeyIf(ni.additionalIPConfigurations.Some?, AdditionalIPConfigurations)
  {
    if ni.additionalIPConfigurations.Some?
    then m[AdditionalIPConfigurations := List(FlattenEach(ni.additionalIPConfigurations.value, FlattenAdditionalIPConfiguration))]
    else m
  }

  function WithPublicIPs(ni: NetworkInterface, m: map<string, Value>): (r: map<string, Value>)
    ensures r.Keys == m.Keys + KeyIf(ni.publicIPs.Some?, PublicIPs)
  {
    if ni.publicIPs.Some? then m[PublicIPs := List(FlattenEach(ni.publicIPs.value, FlattenPublicIP))] else m
  }

  function WithApplicationSecurityGroups(ni: NetworkInterface, m: map<string, Value>): (r: map<string, Value>)
    ensures r.Keys == m.Keys + KeyIf(ni.applicationSecurityGroups.Some?, ApplicationSecurityGroups)
  {
    if ni.applicationSecurityGroups.Some?
    then m[ApplicationSecurityGroups := List(FlattenEach(ni.applicationSecurityGroups.value, FlattenApplicationSecurityGroup))]
    else m
  }

  /** One interface: every scalar, and each sub-list's key only when that sub-list is set. */
  function FlattenInterface(ni: NetworkInterface): (m: map<string, Value>)
    ensures m.Keys ==
      {SubnetName, IsPrimary, AssignPublicIP, PublicIPSku, EnableIPForwarding} +
      KeyIf(ni.privateIPAddresses.Some?, PrivateIPAddresses) +
      KeyIf(ni.networkSecurityGroup.Some?, NetworkSecurityGroupField) +
      KeyIf(ni.additionalIPConfigurations.Some?, AdditionalIPConfigurations) +
      KeyIf(ni.publicIPs.Some?, PublicIPs) +
      KeyIf(ni.applicationSecurityGroups.Some?, ApplicationSecurityGroups)
  {
    WithApplicationSecurityGroups(ni, WithPublicIPs(ni, WithAdditionalIPConfigurations(ni,
      WithSecurityGroup(ni, WithPrivateIPAddresses(ni, FlattenScalars(ni))))))
  }

  /** The network as a one-element list; the interfaces' key is written only when they are set. */
  function FlattenNetwork(n: Network): (r: seq<Value>)
    ensures |r| == 1 && r[0].Map?
    ensures r[0].entries.Keys == {VirtualNetworkName, ResourceGroupName} + (if n.networkInterfaces.Some? then {NetworkInterfaces} else {})
    ensures n.networkInterfaces.Some? ==> r[0].entries[NetworkInterfaces] == List(FlattenEach(n.networkInterfaces.value, FlattenInterface))
  {
    var m := map[VirtualNetworkName := Str(StringValue(n.virtualNetworkName)), ResourceGroupName := Str(StringValue(n.resourceGroupName))];
    if n.networkInterfaces.Some?
    then [Map(m[NetworkInterfaces := List(FlattenEach(n.networkInterfaces.value, FlattenInterface))])]
    else [Map(m)]
  }

  // ---------------------------------------------------------------------------------------------
  // Expand

  /** `m[key].(string)` when it is a non-empty string, else the prior value. */
  function Override(prior: Option<string>, m: map<string, Value>, key: string): (r: Option<string>)
    ensures r != prior ==> r.Some? && r.value != "" && key in m && m[key] == Str(r.value)
    ensures key in m && m[key].Str? && m[key].s != "" ==> r == Some(m[key].s)
  {
    if ElastigroupAws.NonEmpty(StrAt(m, key)).Some? then StrAt(m, key) else prior
  }

  /**
   * The elements of a nested block. The source reads `network_interfaces`,
   * `additional_ip_configurations`, `public_ips` and `application_security_groups` with
   * `.(*schema.Set).List()` while their schema declares lists; this reading accepts both (see
   * `SetAssertionRejectsDeclaredList`).
   */
  function Items(v: Value): seq<Value>
    requires v.List? || v.Set?
  {
    if v.List? then v.items else v.elems
  }

  /** The source's `.(*schema.Set).List()`: `None` where the conversion panics. */
  function AssertSetItems(v: Value): Option<seq<Value>> {
    if v.Set? then Some(v.elems) else None
  }

  /** A nested block given as the list its schema declares makes the source's conversion panic. */
  lemma SetAssertionRejectsDeclaredList(xs: seq<Value>)
    ensures AssertSetItems(List(xs)) == None
    ensures Items(List(xs)) == xs
  {
  }

  /** Reading both shapes changes nothing where the source's conversion succeeds. */
  lemma ItemsAgreesWithSetAssertion(v: Value)
    requires AssertSetItems(v).Some?
    ensures Items(v) == AssertSetItems(v).value
  {
  }

  /** The first element a sub-list already has, if any. */
  function Head<T>(existing: Option<seq<T>>): (r: seq<T>)
    ensures |r| <= 1
    ensures |r| == 1 <==> existing.Some? && |existing.value| > 0
    ensures |r| == 1 ==> r[0] == existing.value[0]
  {
    if existing.Some? && |existing.value| > 0 then [existing.value[0]] else []
  }

  /**
   * The merge `expandAdditionalIPConfig`, `expandPublicIPS` and `expandApplicationSecurityGroups`
   * share: nil when nothing is configured or held, else the first held element followed by one new
   * element per configured map.
   */
  function Merged<T>(items: seq<Value>, existing: Option<seq<T>>, make: map<string, Value> -> T): (r: Option<seq<T>>)
    ensures r.None? <==> |items| == 0 && existing.None?
    ensures r.Some? ==> |r.value| <= 1 + |items|
    ensures existing.Some? && |existing.value| > 0 ==> r.Some? && |r.value| > 0 && r.value[0] == existing.value[0]
    ensures r.Some? ==> |Head(existing)| <= |r.value| && r.value[|Head(existing)|..] == MapsOf(items, make)
  {
    if |items| == 0 && existing.None? then None
    else
      var h := Head(existing);
      var m := MapsOf(items, make);
      assert |m| <= |items|;
      var r := h + m;
      assert r[|h|..] == m;
      assert |h| == 1 ==> r[0] == h[0];
      Some(r)
  }

  function AdditionalIPConfigOf(m: map<string, Value>): AdditionalIPConfiguration {
    AdditionalIPConfiguration(Override(None, m, Name), Override(None, m, PrivateIPAddressVersion))
  }

  function PublicIPOf(m: map<string, Value>): PublicIP {
    PublicIP(Override(None, m, Name), Override(None, m, ResourceGroupName))
  }

  function ApplicationSecurityGroupOf(m: map<string, Value>): ApplicationSecurityGroup {
    ApplicationSecurityGroup(Override(None, m, Name), Override(None, m, ResourceGroupName))
  }

  /** The loop the three merging expanders share. */
  method ExpandMerged<T>(data: Value, existing: Option<seq<T>>, make: map<string, Value> -> T) returns (r: Option<seq<T>>)
    requires data.List? || data.Set?
    ensures r == Merged(Items(data), existing, make)
  {
    var list := Items(data);
    if |list| == 0 && existing.None? {
      return None;
    }
    var merged: seq<T> := [];
    if existing.Some? && |existing.value| > 0 {
      merged := [existing.value[0]];
    }
    var added: seq<T> := [];
    var i := 0;
    while i < |list|
      invariant 0 <= i <= |list|
      invariant added == MapsOf(list[..i], make)
    {
      assert list[..i + 1] == list[..i] + [list[i]];
      MapsOfSnoc(list[..i], list[i], make);
      if list[i].Map? {
        added := added + [make(list[i].entries)];
      }
      i := i + 1;
    }
    assert list[..|list|] == list;
    merged := merged + added;
    assert Merged(list, existing, make) == Some(Head(existing) + MapsOf(list, make));
    r := Some(merged);
  }

  method ExpandAdditionalIPConfig(data: Value, existing: Option<seq<AdditionalIPConfiguration>>)
    returns (r: Option<seq<AdditionalIPConfiguration>>)
    requires data.List? || data.Set?
    ensures r == Merged(Items(data), existing, AdditionalIPConfigOf)
  {
    r := ExpandMerged(data, existing, AdditionalIPConfigOf);
  }

  method ExpandPublicIPs(data: Value, existing: Option<seq<PublicIP>>) returns (r: Option<seq<PublicIP>>)
    requires data.List? || data.Set?
    ensures r == Merged(Items(data), existing, PublicIPOf)
  {
    r := ExpandMerged(data, existing, PublicIPOf);
  }

  method ExpandApplicationSecurityGroups(data: Value, existing: Option<seq<ApplicationSecurityGroup>>)
    returns (r: Option<seq<ApplicationSecurityGroup>>)
    requires data.List? || data.Set?
    ensures r == Merged(Items(data), existing, ApplicationSecurityGroupOf)
  {
    r := ExpandMerged(data, existing, ApplicationSecurityGroupOf);
  }

  /** The source's `data.([]interface{})`: `None` where the assertion panics. */
  function AssertListItems(v: Value): Option<seq<Value>> {
    if v.List? then Some(v.items) else None
  }

  /**
   * `private_ip_addresses` is declared a string, but `expandPrivateIPAddresses` asserts a list, so a
   * configured string makes it panic, and the flattened value is a list, not the declared string.
   * The model reads the field as the list both sides evidently mean (`InterfaceShaped`).
   */
  lemma PrivateIPAssertionRejectsDeclaredString(addr: string, ni: NetworkInterface)
    requires ni.privateIPAddresses.Some?
    ensures AssertListItems(Str(addr)) == None
    ensures PrivateIPAddresses in FlattenInterface(ni) && FlattenInterface(ni)[PrivateIPAddresses].List?
  {
  }

  /** `expandPrivateIPAddresses`: the non-empty strings of the list, in order. */
  method ExpandPrivateIPAddresses(data: Value) returns (r: seq<string>)
    requires data.List?
    ensures r == ElastigroupAws.ExpandSubnetIds(data.items)
  {
    var list := data.items;
    r := [];
    var i := |list|;
    // The specification peels elements off the front; walking from the back keeps that shape.
    while i > 0
      invariant 0 <= i <= |list|
      invariant r == ElastigroupAws.ExpandSubnetIds(list[i..])
    {
      i := i - 1;
      assert list[i..][1..] == list[i + 1..];
      if list[i].Str? && list[i].s != "" {
        r := [list[i].s] + r;
      }
    }
  }

  /** The shape the source's conversions demand of a `network_security_group` value. */
  predicate SecurityGroupShaped(v: Value) {
    v.List? && (|v.items| > 0 && !v.items[0].Nil? ==> v.items[0].Map?)
  }

  /**
   * `expandNetworkSecurityGroup`: nil for an empty list; the passed group when the first element is
   * nil; otherwise that group with its fields overwritten by the non-empty strings configured.
   */
  function ExpandNetworkSecurityGroup(data: Value, g: NetworkSecurityGroup): (r: Option<NetworkSecurityGroup>)
    requires SecurityGroupShaped(data)
    ensures r.None? <==> |data.items| == 0
    ensures |data.items| > 0 && data.items[0].Nil? ==> r == Some(g)
    ensures r.Some? && r.value.name != g.name ==>
      r.value.name.Some? && r.value.name.value != "" && Name in data.items[0].entries && data.items[0].entries[Name] == Str(r.value.name.value)
    ensures r.Some? && r.value.resourceGroupName != g.resourceGroupName ==>
      r.value.resourceGroupName.Some? && r.value.resourceGroupName.value != "" &&
      ResourceGroupName in data.items[0].entries && data.items[0].entries[ResourceGroupName] == Str(r.value.resourceGroupName.value)
  {
    if |data.items| == 0 then None
    else if data.items[0].Nil? then Some(g)
    else
      var m := data.items[0].entries;
      Some(NetworkSecurityGroup(Override(g.name, m, Name), Override(g.resourceGroupName, m, ResourceGroupName)))
  }

  /** The shape the source's conversions demand of one interface map. */
  predicate InterfaceShaped(ni: map<string, Value>) {
    (NetworkSecurityGroupField in ni ==> SecurityGroupShaped(ni[NetworkSecurityGroupField])) &&
    (PrivateIPAddresses in ni ==> ni[PrivateIPAddresses].List?) &&
    (AdditionalIPConfigurations in ni ==> ni[AdditionalIPConfigurations].List? || ni[AdditionalIPConfigurations].Set?) &&
    (PublicIPs in ni ==> ni[PublicIPs].List? || ni[PublicIPs].Set?) &&
    (ApplicationSecurityGroups in ni ==> ni[ApplicationSecurityGroups].List? || ni[ApplicationSecurityGroups].Set?)
  }

  /**
   * One interface of `expandNetworkInterfaces`, built from an empty one: the subnet only from a
   * non-empty string, the flags and the SKU from any value of their type, and each sub-list only
   * when its key is present. The interface is fresh, so no sub-list has a first element to keep.
   */
  function InterfaceOf(ni: map<string, Value>): (r: NetworkInterface)
    requires InterfaceShaped(ni)
    ensures r.subnetName.Some? ==> r.subnetName.value != ""
    ensures r.privateIPAddresses.Some? <==> PrivateIPAddresses in ni
    ensures r.additionalIPConfigurations.Some? ==> AdditionalIPConfigurations in ni
    ensures r.publicIPs.Some? ==> PublicIPs in ni
    ensures r.applicationSecurityGroups.Some? ==> ApplicationSecurityGroups in ni
  {
    NetworkInterface(
      Override(None, ni, SubnetName),
      BoolAt(ni, IsPrimary),
      BoolAt(ni, AssignPublicIP),
      StrAt(ni, PublicIPSku),
      if NetworkSecurityGroupField in ni then ExpandNetworkSecurityGroup(ni[NetworkSecurityGroupField], EmptySecurityGroup) else None,
      BoolAt(ni, EnableIPForwarding),
      if PrivateIPAddresses in ni then Some(ElastigroupAws.ExpandSubnetIds(ni[PrivateIPAddresses].items)) else None,
      if AdditionalIPConfigurations in ni then Merged(Items(ni[AdditionalIPConfigurations]), None, AdditionalIPConfigOf) else None,
      if PublicIPs in ni then Merged(Items(ni[PublicIPs]), None, PublicIPOf) else None,
      if ApplicationSecurityGroups in ni then Merged(Items(ni[ApplicationSecurityGroups]), None, ApplicationSecurityGroupOf) else None)
  }

  /** The body of `expandNetworkInterfaces`' loop, setter by setter. */
  method ExpandNetworkInterface(ni: map<string, Value>) returns (r: NetworkInterface)
    requires InterfaceShaped(ni)
    ensures r == InterfaceOf(ni)
  {
    var subnetName := Override(None, ni, SubnetName);
    var isPrimary, assignPublicIP, publicIPSku, enableIPForwarding := None, None, None, None;
    if IsPrimary in ni && ni[IsPrimary].Bool? {
      isPrimary := Some(ni[IsPrimary].b);
    }
    assert isPrimary == BoolAt(ni, IsPrimary);
    if AssignPublicIP in ni && ni[AssignPublicIP].Bool? {
      assignPublicIP := Some(ni[AssignPublicIP].b);
    }
    assert assignPublicIP == BoolAt(ni, AssignPublicIP);
    if PublicIPSku in ni && ni[PublicIPSku].Str? {
      publicIPSku := Some(ni[PublicIPSku].s);
    }
    assert publicIPSku == StrAt(ni, PublicIPSku);
    var securityGroup := None;
    if NetworkSecurityGroupField in ni {
      var g := ExpandNetworkSecurityGroup(ni[NetworkSecurityGroupField], EmptySecurityGroup);
      if g.Some? {
        securityGroup := g;
      }
    }
    assert securityGroup == InterfaceOf(ni).networkSecurityGroup;
    if EnableIPForwarding in ni && ni[EnableIPForwarding].Bool? {
      enableIPForwarding := Some(ni[EnableIPForwarding].b);
    }
    assert enableIPForwarding == BoolAt(ni, EnableIPForwarding);
    var privateIPs := None;
    if PrivateIPAddresses in ni {
      var ips := ExpandPrivateIPAddresses(ni[PrivateIPAddresses]);
      privateIPs := Some(ips);
    }
    assert privateIPs == InterfaceOf(ni).privateIPAddresses;
    var configs := None;
    if AdditionalIPConfigurations in ni {
      configs := ExpandAdditionalIPConfig(ni[AdditionalIPConfigurations], configs);
    }
    assert configs == InterfaceOf(ni).additionalIPConfigurations;
    var publicIPs := None;
    if PublicIPs in ni {
      publicIPs := ExpandPublicIPs(ni[PublicIPs], publicIPs);
    }
    assert publicIPs == InterfaceOf(ni).publicIPs;
    var groups := None;
    if ApplicationSecurityGroups in ni {
      // The source tests the additional IP configurations here; either field of a fresh interface is nil.
      var held := if configs.Some? then groups else None;
      groups := ExpandApplicationSecurityGroups(ni[ApplicationSecurityGroups], held);
    }
    assert groups == InterfaceOf(ni).applicationSecurityGroups;
    r := NetworkInterface(subnetName, isPrimary, assignPublicIP, publicIPSku, securityGroup,
      enableIPForwarding, privateIPs, configs, publicIPs, groups);
  }

  /** Every map element of `items` is an interface of the shape the source demands. */
  predicate InterfacesShaped(items: seq<Value>) {
    forall i :: 0 <= i < |items| && items[i].Map? ==> InterfaceShaped(items[i].entries)
  }

  /** One interface per map element, in order. */
  function InterfacesOf(items: seq<Value>): (r: seq<NetworkInterface>)
    requires InterfacesShaped(items)
    ensures |r| <= |items|
  {
    if items == [] then []
    else
      var last := items[|items| - 1];
      InterfacesOf(items[..|items| - 1]) + (if last.Map? then [InterfaceOf(last.entries)] else [])
  }

  /** When every element is a map, there is one interface per element, at the same position. */
  lemma {:induction false} InterfacesOfMaps(items: seq<Value>)
    requires InterfacesShaped(items)
    requires forall i :: 0 <= i < |items| ==> items[i].Map?
    ensures |InterfacesOf(items)| == |items|
    ensures forall i :: 0 <= i < |items| ==> InterfacesOf(items)[i] == InterfaceOf(items[i].entries)
  {
    if items != [] {
      var init := items[..|items| - 1];
      assert forall i :: 0 <= i < |init| ==> init[i] == items[i];
      InterfacesOfMaps(init);
    }
  }

  /** An interface is expanded exactly when some map element of the block describes it. */
  lemma {:induction false} InterfacesOfMembers(items: seq<Value>)
    requires InterfacesShaped(items)
    ensures forall x :: x in InterfacesOf(items) <==>
      exists i :: 0 <= i < |items| && items[i].Map? && x == InterfaceOf(items[i].entries)
  {
    if items != [] {
      var n := |items| - 1;
      var init := items[..n];
      assert forall i :: 0 <= i < |init| ==> init[i] == items[i];
      InterfacesOfMembers(init);
      forall x | x in InterfacesOf(items)
        ensures exists i :: 0 <= i < |items| && items[i].Map? && x == InterfaceOf(items[i].entries)
      {
        if x !in InterfacesOf(init) {
          assert items[n].Map? && x == InterfaceOf(items[n].entries);
        }
      }
      forall x, i | 0 <= i < |items| && items[i].Map? && x == InterfaceOf(items[i].entries)
        ensures x in InterfacesOf(items)
      {
        if i < n {
          assert init[i] == items[i];
        }
      }
    }
  }

  /** `expandNetworkInterfaces`: the held interfaces for an empty block, else a fresh list of the configured ones. */
  function InterfacesExpanded(items: seq<Value>, held: Option<seq<NetworkInterface>>): (r: Option<seq<NetworkInterface>>)
    requires InterfacesShaped(items)
    ensures |items| == 0 ==> r == held
    ensures |items| > 0 ==> r == Some(InterfacesOf(items))
  {
    if |items| > 0 then Some(InterfacesOf(items)) else held
  }

  method ExpandNetworkInterfaces(data: Value, held: Option<seq<NetworkInterface>>) returns (r: Option<seq<NetworkInterface>>)
    requires data.List? || data.Set?
    requires InterfacesShaped(Items(data))
    ensures r == InterfacesExpanded(Items(data), held)
  {
    var list := Items(data);
    r := held;
    if |list| > 0 {
      var interfaces: seq<NetworkInterface> := [];
      var i := 0;
      while i < |list|
        invariant 0 <= i <= |list|
        invariant InterfacesShaped(list[..i])
        invariant interfaces == InterfacesOf(list[..i])
      {
        assert list[..i + 1][..i] == list[..i];
        assert InterfacesShaped(list[..i + 1]) by {
          forall j | 0 <= j < i + 1 ensures list[..i + 1][j] == list[j] {
          }
        }
        if list[i].Map? {
          var ni := ExpandNetworkInterface(list[i].entries);
          interfaces := interfaces + [ni];
        }
        i := i + 1;
      }
      assert list[..|list|] == list;
      r := Some(interfaces);
    }
  }

  /** The shape the source's conversions demand of the `network` value. */
  predicate NetworkShaped(v: Value) {
    v.List? &&
    (|v.items| > 0 ==>
      v.items[0].Map? &&
      var m := v.items[0].entries;
      NetworkInterfaces in m ==>
        (m[NetworkInterfaces].List? || m[NetworkInterfaces].Set?) && InterfacesShaped(Items(m[NetworkInterfaces])))
  }

  /**
   * `expandStatefulNodeAzureNetwork` on `network`: nil exactly when the list is empty and no network
   * is given; the given network untouched for an empty list; otherwise its names overwritten only by
   * non-empty strings and its interfaces replaced when the block is present.
   */
  function NetworkExpanded(data: Value, network: Option<Network>): (r: Option<Network>)
    requires NetworkShaped(data)
    requires |data.items| > 0 ==> network.Some?
    ensures r.None? <==> |data.items| == 0 && network.None?
    ensures |data.items| == 0 ==> r == network
    ensures r.Some? && network.Some? && r.value.virtualNetworkName != network.value.virtualNetworkName ==>
      r.value.virtualNetworkName.Some? && r.value.virtualNetworkName.value != "" &&
      VirtualNetworkName in data.items[0].entries && data.items[0].entries[VirtualNetworkName] == Str(r.value.virtualNetworkName.value)
    ensures r.Some? && network.Some? && r.value.resourceGroupName != network.value.resourceGroupName ==>
      r.value.resourceGroupName.Some? && r.value.resourceGroupName.value != "" &&
      ResourceGroupName in data.items[0].entries && data.items[0].entries[ResourceGroupName] == Str(r.value.resourceGroupName.value)
    ensures |data.items| > 0 && NetworkInterfaces !in data.items[0].entries ==>
      r.value.networkInterfaces == network.value.networkInterfaces
  {
    if |data.items| == 0 then network
    else
      var m := data.items[0].entries;
      var n := network.value;
      Some(Network(
        Override(n.virtualNetworkName, m, VirtualNetworkName),
        Override(n.resourceGroupName, m, ResourceGroupName),
        if NetworkInterfaces in m then InterfacesExpanded(Items(m[NetworkInterfaces]), n.networkInterfaces)
        else n.networkInterfaces))
  }

  method ExpandStatefulNodeAzureNetwork(data: Value, network: Option<Network>) returns (r: Option<Network>)
    requires NetworkShaped(data)
    requires |data.items| > 0 ==> network.Some?
    ensures r == NetworkExpanded(data, network)
  {
    var list := data.items;
    if |list| == 0 && network.None? {
      return None;
    }
    r := network;
    if |list| > 0 {
      var m := list[0].entries;
      var n := network.value;
      n := n.(virtualNetworkName := Override(n.virtualNetworkName, m, VirtualNetworkName));
      n := n.(resourceGroupName := Override(n.resourceGroupName, m, ResourceGroupName));
      if NetworkInterfaces in m {
        var interfaces := ExpandNetworkInterfaces(m[NetworkInterfaces], n.networkInterfaces);
        n := n.(networkInterfaces := interfaces);
      }
      r := Some(n);
    }
  }

  // ---------------------------------------------------------------------------------------------
  // Round trips

  /** Flattening elements and expanding the maps back gives the elements, when `make` undoes `f` on each. */
  lemma {:induction false} MapsOfFlattenEach<T>(xs: seq<T>, f: T -> map<string, Value>, make: map<string, Value> -> T)
    requires forall x :: x in xs ==> make(f(x)) == x
    ensures MapsOf(FlattenEach(xs, f), make) == xs
  {
    if xs != [] {
      var init, last := xs[..|xs| - 1], xs[|xs| - 1];
      assert xs == init + [last];
      assert last in xs;
      assert forall x :: x in init ==> x in xs;
      MapsOfFlattenEach(init, f, make);
      MapsOfSnoc(FlattenEach(init, f), Map(f(last)), make);
    }
  }

  /** Set fields are non-empty: exactly the values flatten and expand carry unchanged. */
  predicate Canonical(o: Option<string>) {
    o.Some? ==> o.value != ""
  }

  lemma OverrideStringValue(m: map<string, Value>, key: string, o: Option<string>)
    requires Canonical(o) && key in m && m[key] == Str(StringValue(o))
    ensures Override(None, m, key) == o
  {
  }

  /** A security group survives flatten then expand when its set fields are non-empty. */
  lemma SecurityGroupRoundTrip(g: NetworkSecurityGroup)
    requires Canonical(g.name) && Canonical(g.resourceGroupName)
    ensures ExpandNetworkSecurityGroup(List([Map(FlattenSecurityGroup(g))]), EmptySecurityGroup) == Some(g)
  {
    var m := FlattenSecurityGroup(g);
    OverrideStringValue(m, Name, g.name);
    OverrideStringValue(m, ResourceGroupName, g.resourceGroupName);
  }

  /** Public IPs survive flatten then expand, except that an empty list comes back nil. */
  lemma PublicIPsRoundTrip(ps: seq<PublicIP>)
    requires forall p :: p in ps ==> Canonical(p.name) && Canonical(p.resourceGroupName)
    ensures Merged(FlattenEach(ps, FlattenPublicIP), None, PublicIPOf) == if ps == [] then None else Some(ps)
  {
    forall p | p in ps ensures PublicIPOf(FlattenPublicIP(p)) == p {
      OverrideStringValue(FlattenPublicIP(p), Name, p.name);
      OverrideStringValue(FlattenPublicIP(p), ResourceGroupName, p.resourceGroupName);
    }
    MapsOfFlattenEach(ps, FlattenPublicIP, PublicIPOf);
    assert [] + ps == ps;
  }

  /** Additional IP configurations survive flatten then expand, except that an empty list comes back nil. */
  lemma AdditionalIPConfigsRoundTrip(cs: seq<AdditionalIPConfiguration>)
    requires forall c :: c in cs ==> Canonical(c.name) && Canonical(c.privateIPAddressVersion)
    ensures Merged(FlattenEach(cs, FlattenAdditionalIPConfiguration), None, AdditionalIPConfigOf) == if cs == [] then None else Some(cs)
  {
    forall c | c in cs ensures AdditionalIPConfigOf(FlattenAdditionalIPConfiguration(c)) == c {
      OverrideStringValue(FlattenAdditionalIPConfiguration(c), Name, c.name);
      OverrideStringValue(FlattenAdditionalIPConfiguration(c), PrivateIPAddressVersion, c.privateIPAddressVersion);
    }
    MapsOfFlattenEach(cs, FlattenAdditionalIPConfiguration, AdditionalIPConfigOf);
    assert [] + cs == cs;
  }

  /** Application security groups survive flatten then expand, except that an empty list comes back nil. */
  lemma ApplicationSecurityGroupsRoundTrip(gs: seq<ApplicationSecurityGroup>)
    requires forall g :: g in gs ==> Canonical(g.name) && Canonical(g.resourceGroupName)
    ensures Merged(FlattenEach(gs, FlattenApplicationSecurityGroup), None, ApplicationSecurityGroupOf) == if gs == [] then None else Some(gs)
  {
    forall g | g in gs ensures ApplicationSecurityGroupOf(FlattenApplicationSecurityGroup(g)) == g {
      OverrideStringValue(FlattenApplicationSecurityGroup(g), Name, g.name);
      OverrideStringValue(FlattenApplicationSecurityGroup(g), ResourceGroupName, g.resourceGroupName);
    }
    MapsOfFlattenEach(gs, FlattenApplicationSecurityGroup, ApplicationSecurityGroupOf);
    assert [] + gs == gs;
  }

  /** Private addresses survive flatten then expand when none of them is empty. */
  lemma PrivateIPAddressesRoundTrip(xs: seq<string>)
    requires forall x :: x in xs ==> x != ""
    ensures ElastigroupAws.ExpandSubnetIds(StringList(xs)) == xs
  {
    ElastigroupAws.SubnetIdsOfNonEmptyStrings(xs);
  }

  // ---------------------------------------------------------------------------------------------
  // Callbacks

  /** The node's `Compute.LaunchSpecification`, whose network the create and update callbacks set. */
  class LaunchSpecification {
    var network: Option<Network>

    constructor (network: Option<Network>)
      ensures this.network == network
    {
      this.network := network;
    }
  }

  /** The value the `network` field holds, shaped as the source's conversions demand (or unset). */
  predicate NetworkConfigShaped(d: Snapshot) {
    GetOk(d, NetworkField).Some? ==> NetworkShaped(d[NetworkField])
  }

  /** The read callback; `spec` is null when the node, its compute or its launch specification is. */
  method ReadNetwork(spec: LaunchSpecification?, rd: ResourceData)
    modifies rd`values
    ensures spec != null && spec.network.Some? ==>
      rd.values == old(rd.values)[NetworkField := List(FlattenNetwork(spec.network.value))]
    ensures spec == null || spec.network.None? ==> rd.values == old(rd.values)
  {
    if spec != null && spec.network.Some? {
      var result := FlattenNetwork(spec.network.value);
      rd.values := rd.values[NetworkField := List(result)];
    }
  }

  /** The create callback: sets the network from the configuration, and leaves it alone when the field is unset. */
  method CreateNetwork(spec: LaunchSpecification, d: Snapshot)
    requires NetworkConfigShaped(d)
    modifies spec
    ensures GetOk(d, NetworkField).None? ==> spec.network == old(spec.network)
    ensures GetOk(d, NetworkField).Some? ==> spec.network == NetworkExpanded(d[NetworkField], Some(EmptyNetwork))
  {
    var v := GetOk(d, NetworkField);
    if v.Some? {
      var value := ExpandStatefulNodeAzureNetwork(v.value, Some(EmptyNetwork));
      spec.network := value;
    }
  }

  /** The update callback: like create, but an unset field clears the network. */
  method UpdateNetwork(spec: LaunchSpecification, d: Snapshot)
    requires NetworkConfigShaped(d)
    modifies spec
    ensures GetOk(d, NetworkField).None? ==> spec.network.None?
    ensures GetOk(d, NetworkField).Some? ==> spec.network == NetworkExpanded(d[NetworkField], Some(EmptyNetwork))
  {
    var value: Option<Network> := None;
    var v := GetOk(d, NetworkField);
    if v.Some? {
      value := ExpandStatefulNodeAzureNetwork(v.value, Some(EmptyNetwork));
    }
    spec.network := value;
  }
}
