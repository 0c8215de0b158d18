/**
 * The Route53 integration of an AWS Elastigroup: its domains and their record sets, expanded from
 * the `integration_route53` block, and the field's callbacks, which set the group's integration.
 */
module ElastigroupAwsRoute53 {
  import opened Common
  import opened Terraform

  const IntegrationRoute53 := "integration_route53"
  const Domains := "domains"
  const HostedZoneId := "hosted_zone_id"
  const SpotinstAcctID := "spotinst_acct_id"
  const RecordSetType := "record_set_type"
  const RecordSets := "record_sets"
  const UsePublicIP := "use_public_ip"
  const UsePublicDNS := "use_public_dns"
  const Name := "name"

  datatype RecordSet = RecordSet(name: Option<string>, usePublicIP: Option<bool>, usePublicDNS: Option<bool>)

  datatype Domain = Domain(
    hostedZoneId: Option<string>,
    spotinstAccountId: Option<string>,
    recordSetType: Option<string>,
    recordSets: Option<seq<RecordSet>>)

  datatype Route53Integration = Route53Integration(domains: Option<seq<Domain>>)

  /** `o` is set exactly when `m[key]` is a non-empty string, and then to that string. */
  predicate SetFromNonEmpty(o: Option<string>, m: map<string, Value>, key: string) {
    (o.Some? <==> key in m && m[key].Str? && m[key].s != "") &&
    (o.Some? ==> m[key] == Str(o.value))
  }

  /** `o` is set exactly when `m[key]` is `true`, and then to `true`. */
  predicate SetIfTrue(o: Option<bool>, m: map<string, Value>, key: string) {
    (o.Some? <==> key in m && m[key] == Bool(true)) &&
    (o.Some? ==> o.value)
  }

  function NonEmptyAt(m: map<string, Value>, key: string): (r: Option<string>)
    ensures SetFromNonEmpty(r, m, key)
  {
    if key in m && m[key].Str? && m[key].s != "" then Some(m[key].s) else None
  }

  function TrueAt(m: map<string, Value>, key: string): (r: Option<bool>)
    ensures SetIfTrue(r, m, key)
  {
    if key in m && m[key] == Bool(true) then Some(true) else None
  }

  /** One record set: the name from any string, the empty one included; each flag only when true. */
  function RecordSetOf(m: map<string, Value>): (r: RecordSet)
    ensures r.name.Some? <==> Name in m && m[Name].Str?
    ensures r.name.Some? ==> m[Name] == Str(r.name.value)
    ensures SetIfTrue(r.usePublicIP, m, UsePublicIP)
    ensures SetIfTrue(r.usePublicDNS, m, UsePublicDNS)
  {
    RecordSet(StrAt(m, Name), TrueAt(m, UsePublicIP), TrueAt(m, UsePublicDNS))
  }

  /** The elements of a `*schema.Set`; only ever applied where `RecordSetsShaped` has checked it is one. */
  function SetItems(v: Value): seq<Value> {
    if v.Set? then v.elems else []
  }

  /**
   * One domain: hosted zone, account id and record-set type from non-empty strings only; the record
   * sets, one per map element, whenever their key is present.
   */
  function DomainOf(m: map<string, Value>): (r: Domain)
    ensures SetFromNonEmpty(r.hostedZoneId, m, HostedZoneId)
    ensures SetFromNonEmpty(r.spotinstAccountId, m, SpotinstAcctID)
    ensures SetFromNonEmpty(r.recordSetType, m, RecordSetType)
    ensures r.recordSets.Some? <==> RecordSets in m
    ensures r.recordSets.Some? ==> r.recordSets.value == MapsOf(SetItems(m[RecordSets]), RecordSetOf)
  {
    Domain(
      NonEmptyAt(m, HostedZoneId),
      NonEmptyAt(m, SpotinstAcctID),
      NonEmptyAt(m, RecordSetType),
      if RecordSets in m then Some(MapsOf(SetItems(m[RecordSets]), RecordSetOf)) else None)
  }

  /** Every domain map's record sets, when present, are the `*schema.Set` the source's conversion demands. */
  predicate RecordSetsShaped(items: seq<Value>) {
    forall m: map<string, Value> :: m in MapEntries(items) && RecordSets in m ==> m[RecordSets].Set?
  }

  /** The shape the source's conversions demand of the `integration_route53` value. */
  predicate IntegrationShaped(data: Value) {
    data.List? && |data.items| > 0 &&
    (!data.items[0].Nil? ==>
      data.items[0].Map? &&
      var m := data.items[0].entries;
      Domains in m ==> m[Domains].Set? && RecordSetsShaped(m[Domains].elems))
  }

  /**
   * `expandAWSGroupRoute53Integration`: always an integration; its domains, one per map element of
   * the domains set in order, are set exactly when the domains key is present.
   */
  function ExpandRoute53Integration(data: Value): (r: Route53Integration)
    requires IntegrationShaped(data)
    ensures r.domains.Some? <==> data.items[0].Map? && Domains in data.items[0].entries
    ensures r.domains.Some? ==>
      var entries := MapEntries(data.items[0].entries[Domains].elems);
      |r.domains.value| == |entries| &&
      forall i :: 0 <= i < |entries| ==> r.domains.value[i] == DomainOf(entries[i])
  {
    if data.items[0].Nil? then Route53Integration(None)
    else
      var m := data.items[0].entries;
      if Domains in m then
        MapsOfElements(m[Domains].elems, DomainOf);
        Route53Integration(Some(MapsOf(m[Domains].elems, DomainOf)))
      else Route53Integration(None)
  }

  /** A record set configured with both flags false comes back with neither flag set. */
  lemma FalseFlagsAreUnset(name: string)
    ensures RecordSetOf(map[Name := Str(name), UsePublicIP := Bool(false), UsePublicDNS := Bool(false)]) ==
      RecordSet(Some(name), None, None)
  {
  }

  /** A domain given as anything but a map adds no domain; a map adds exactly one, at the end. */
  lemma DomainsSkipNonMaps(items: seq<Value>, v: Value)
    ensures !v.Map? ==> MapsOf(items + [v], DomainOf) == MapsOf(items, DomainOf)
    ensures v.Map? ==> MapsOf(items + [v], DomainOf) == MapsOf(items, DomainOf) + [DomainOf(v.entries)]
  {
    MapsOfSnoc(items, v, DomainOf);
  }

  // ---------------------------------------------------------------------------------------------
  // Callbacks

  /** The group's `Integration`, whose Route53 part the callbacks set. */
  class Integration {
    var route53: Option<Route53Integration>

    constructor (route53: Option<Route53Integration>)
      ensures this.route53 == route53
    {
      this.route53 := route53;
    }
  }

  /** The value the field holds, when set, shaped as the source's conversions demand. */
  predicate ConfigShaped(d: Snapshot) {
    GetOk(d, IntegrationRoute53).Some? ==> IntegrationShaped(d[IntegrationRoute53])
  }

  /** The read callback returns without touching the configuration. */
  method ReadRoute53(integration: Integration, rd: ResourceData)
    ensures rd.values == old(rd.values) && integration.route53 == old(integration.route53)
  {
  }

  /** The create callback: sets the integration from the configuration, and leaves it alone when the field is unset. */
  method CreateRoute53(integration: Integration, d: Snapshot)
    requires ConfigShaped(d)
    modifies integration
    ensures GetOk(d, IntegrationRoute53).None? ==> integration.route53 == old(integration.route53)
    ensures GetOk(d, IntegrationRoute53).Some? ==> integration.route53 == Some(ExpandRoute53Integration(d[IntegrationRoute53]))
  {
    var v := GetOk(d, IntegrationRoute53);
    if v.Some? {
      var expanded := ExpandRoute53Integration(v.value);
      integration.route53 := Some(expanded);
    }
  }

  /** The update callback: like create, but an unset field writes a nil integration. */
  method UpdateRoute53(integration: Integration, d: Snapshot)
    requires ConfigShaped(d)
    modifies integration
    ensures GetOk(d, IntegrationRoute53).None? ==> integration.route53.None?
    ensures GetOk(d, IntegrationRoute53).Some? ==> integration.route53 == Some(ExpandRoute53Integration(d[IntegrationRoute53]))
  {
    var value: Option<Route53Integration> := None;
    var v := GetOk(d, IntegrationRoute53);
    if v.Some? {
      var expanded := ExpandRoute53Integration(v.value);
      value := Some(expanded);
    }
    integration.route53 := value;
  }
}
