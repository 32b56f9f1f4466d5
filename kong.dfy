/** The Kong TCPIngress adapter: the annotation selector is its only filter, targets come from the
    object's own status, hostnames from the annotation and then the rules, an unparsable TTL aborts,
    and the endpoints get a provenance label and, for dual-stack objects, a dual-stack label. */
module Kong {
  import opened Types
  import opened Strings
  import opened Synthesis
  import opened Pipeline
  import opened Properties

  const KongTCPIngress := Adapter(
    selectorFilter := true, controllerFilter := false, statusFilter := false,
    targetSource := EmbeddedStatus, hostnameSource := AnnotationsThenRules,
    fqdnTemplate := false, providerAnnotations := true, ttlFatal := true,
    resourceLabel := Some("tcpingress"), dualstackLabel := true, sortTargets := true)

  /** NewKongTCPIngressSource: only the annotation filter must parse. */
  function NewKongTCPIngressSource(o: SourceOptions): (r: Result<Config>)
    ensures r.Ok? <==> o.annotationFilter.Ok?
    ensures r.Err? ==> r.error == o.annotationFilter.error
    ensures r.Ok? ==> r.value.selector == o.annotationFilter.value && r.value.fqdnTemplate.None?
  {
    var selector :- o.annotationFilter;
    Ok(Config(o.namespace, selector, None, false, false, NamespacedName("", "")))
  }

  /** The selector is the only filter: neither the controller annotation nor the status matters. */
  lemma KongFilter(cfg: Config, h: Helpers, snap: Snapshot, r: Resource)
    ensures Admitted(KongTCPIngress, cfg, r) <==> cfg.selector(r.annotations)
    ensures !cfg.selector(r.annotations) ==> ResourceEndpoints(KongTCPIngress, cfg, h, snap, r) == Ok([])
  {
  }

  /** Targets are the object's own load-balancer status, IP before hostname per entry; the target annotation is not read. */
  lemma KongTargets(cfg: Config, snap: Snapshot, r: Resource)
    ensures ResolvedTargets(KongTCPIngress, cfg, snap, r) == Ok(LoadBalancerTargets(r.loadBalancer))
  {
  }

  /** The rule filter keeps the non-empty hosts, in rule order. */
  lemma {:induction false} NonEmptyKeeps(hosts: seq<string>, more: seq<string>)
    ensures NonEmpty(hosts + more) == NonEmpty(hosts) + NonEmpty(more)
    ensures forall x :: x in NonEmpty(hosts) <==> x in hosts && x != ""
    decreases |hosts|
  {
    if hosts == [] {
      assert hosts + more == more;
    } else {
      assert (hosts + more)[1..] == hosts[1..] + more;
      assert (hosts + more)[0] == hosts[0];
      NonEmptyKeeps(hosts[1..], more);
      assert hosts == [hosts[0]] + hosts[1..];
    }
  }

  /** Hostname order: the annotation's hostnames, then every non-empty rule host; an
      unparsable TTL aborts instead. */
  lemma KongHostnameOrder(cfg: Config, h: Helpers, snap: Snapshot, r: Resource, targets: seq<string>)
    ensures var ttl := h.ttlFromAnnotations(r.annotations);
      var provider := h.providerSpecificFromAnnotations(r.annotations);
      var md := Metadata(ttl.seconds, provider.properties, provider.setIdentifier);
      && (ttl.error.Some? ==> NativeEndpoints(KongTCPIngress, cfg, h, snap, r, targets) == Err(InvalidTTL(ttl.error.value)))
      && (ttl.error.None? ==> NativeEndpoints(KongTCPIngress, cfg, h, snap, r, targets) == Ok(
            ForHostnames(HostnamesFromAnnotations(r.annotations), targets, md, h.isIP)
            + ForHostnames(NonEmpty(r.ruleHosts), targets, md, h.isIP)))
  {
    var ttl := h.ttlFromAnnotations(r.annotations);
    var provider := h.providerSpecificFromAnnotations(r.annotations);
    var md := Metadata(ttl.seconds, provider.properties, provider.setIdentifier);
    ForHostnamesAppend(HostnamesFromAnnotations(r.annotations), NonEmpty(r.ruleHosts), targets, md, h.isIP);
  }

  /** An unparsable TTL on an object the selector admits aborts the pass once reached. */
  lemma KongTtlAbortsPass(cfg: Config, h: Helpers, snap: Snapshot, rs: seq<Resource>, k: nat)
    requires k < |rs| && forall i | 0 <= i < k :: ResourceEndpoints(KongTCPIngress, cfg, h, snap, rs[i]).Ok?
    requires cfg.selector(rs[k].annotations) && h.ttlFromAnnotations(rs[k].annotations).error.Some?
    ensures Pass(KongTCPIngress, cfg, h, snap, rs) == Err(InvalidTTL(h.ttlFromAnnotations(rs[k].annotations).error.value))
  {
    KongHostnameOrder(cfg, h, snap, rs[k], LoadBalancerTargets(rs[k].loadBalancer));
    CollectFirstError(KongTCPIngress, cfg, h, snap, rs, k);
  }

  /** Every endpoint of an object carries `resource = tcpingress/<ns>/<name>`, and the dual-stack
      label `"true"` exactly when the dual-stack annotation has the dual-stack value; no other label. */
  lemma KongLabels(cfg: Config, h: Helpers, snap: Snapshot, r: Resource)
    requires ResourceEndpoints(KongTCPIngress, cfg, h, snap, r).Ok?
    ensures forall e | e in ResourceEndpoints(KongTCPIngress, cfg, h, snap, r).value ::
      && ResourceLabelKey in e.labels && e.labels[ResourceLabelKey] == "tcpingress/" + r.namespace + "/" + r.name
      && (DualstackLabelKey in e.labels <==>
            ALBDualstackAnnotationKey in r.annotations && r.annotations[ALBDualstackAnnotationKey] == ALBDualstackAnnotationValue)
      && (DualstackLabelKey in e.labels ==> e.labels[DualstackLabelKey] == "true")
      && e.labels.Keys <= {ResourceLabelKey, DualstackLabelKey}
  {
    ResourceEndpointsLabels(KongTCPIngress, cfg, h, snap, r);
    assert ResourceLabelValue("tcpingress", r) == "tcpingress/" + r.namespace + "/" + r.name;
  }

  /** After a pass every endpoint's targets are sorted and it carries the labels of the object it came from. */
  lemma KongPass(cfg: Config, h: Helpers, snap: Snapshot, rs: seq<Resource>, e: Endpoint)
    requires Pass(KongTCPIngress, cfg, h, snap, rs).Ok? && e in Pass(KongTCPIngress, cfg, h, snap, rs).value
    ensures Sorted(e.targets)
    ensures exists i | 0 <= i < |rs| :: e.labels == ExpectedLabels(KongTCPIngress, rs[i])
  {
    PassMembers(KongTCPIngress, cfg, h, snap, rs, e);
  }
}
