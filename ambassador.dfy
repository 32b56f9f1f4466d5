/** The Ambassador Host adapter: a Host is translated only if it names its load-balancer Service
    in the `external-dns.ambassador-service` annotation; a bad reference, a missing Service or an
    unparsable TTL aborts the pass; the endpoints carry no provider-specific data and no labels. */
module Ambassador {
  import opened Types
  import opened Strings
  import opened Synthesis
  import opened References
  import opened Pipeline
  import opened Properties

  const AmbassadorHost := Adapter(
    selectorFilter := false, controllerFilter := false, statusFilter := false,
    targetSource := ServiceFromAnnotation(AmbHostAnnotation), hostnameSource := SpecHostname,
    fqdnTemplate := false, providerAnnotations := false, ttlFatal := true,
    resourceLabel := None, dualstackLabel := false, sortTargets := true)

  /** A Host without the annotation is skipped; one with it is always translated. */
  lemma AmbassadorFilter(cfg: Config, h: Helpers, snap: Snapshot, r: Resource)
    ensures Admitted(AmbassadorHost, cfg, r) <==> AmbHostAnnotation in r.annotations
    ensures AmbHostAnnotation !in r.annotations ==> ResourceEndpoints(AmbassadorHost, cfg, h, snap, r) == Ok([])
  {
  }

  /** A reference holding two or more `/` aborts, naming the annotation value. */
  lemma AmbassadorBadReference(cfg: Config, h: Helpers, snap: Snapshot, r: Resource)
    requires AmbHostAnnotation in r.annotations && Count(r.annotations[AmbHostAnnotation], '/') >= 2
    ensures ResourceEndpoints(AmbassadorHost, cfg, h, snap, r) == Err(InvalidAmbassadorService(r.annotations[AmbHostAnnotation]))
  {
    AmbServiceErr(r.annotations[AmbHostAnnotation]);
  }

  /** A reference to a Service the cluster does not have aborts. */
  lemma AmbassadorMissingService(cfg: Config, h: Helpers, snap: Snapshot, r: Resource, service: NamespacedName)
    requires AmbHostAnnotation in r.annotations
    requires ParseAmbLoadBalancerService(r.annotations[AmbHostAnnotation]) == Ok(service)
    requires service !in snap.services
    ensures ResourceEndpoints(AmbassadorHost, cfg, h, snap, r) == Err(ServiceNotFound(service.namespace, service.name))
  {
  }

  /** With the Service found, an unparsable TTL aborts even when the Host has no hostname;
      otherwise the Host's hostname, when set, gets the Service's targets with the annotation's
      TTL and no provider-specific data or set identifier. */
  lemma AmbassadorEndpoints(cfg: Config, h: Helpers, snap: Snapshot, r: Resource, service: NamespacedName)
    requires AmbHostAnnotation in r.annotations
    requires ParseAmbLoadBalancerService(r.annotations[AmbHostAnnotation]) == Ok(service)
    requires service in snap.services
    ensures var ttl := h.ttlFromAnnotations(r.annotations);
      && (ttl.error.Some? ==> ResourceEndpoints(AmbassadorHost, cfg, h, snap, r) == Err(InvalidTTL(ttl.error.value)))
      && (ttl.error.None? ==> ResourceEndpoints(AmbassadorHost, cfg, h, snap, r) == Ok(
            if r.hostname.Some? && r.hostname.value != "" then
              EndpointsForHostname(r.hostname.value, LoadBalancerTargets(snap.services[service].loadBalancer), Metadata(ttl.seconds, [], ""), h.isIP)
            else []))
  {
    var ttl := h.ttlFromAnnotations(r.annotations);
    var targets := LoadBalancerTargets(snap.services[service].loadBalancer);
    if r.hostname.Some? && r.hostname.value != "" {
      assert ForHostnames([r.hostname.value], targets, Metadata(ttl.seconds, [], ""), h.isIP)
        == EndpointsForHostname(r.hostname.value, targets, Metadata(ttl.seconds, [], ""), h.isIP);
    }
  }

  /** Every endpoint of a Host is named after its hostname and carries no labels, no
      provider-specific properties and an empty set identifier. */
  lemma AmbassadorEndpointShape(cfg: Config, h: Helpers, snap: Snapshot, r: Resource)
    requires ResourceEndpoints(AmbassadorHost, cfg, h, snap, r).Ok?
    ensures forall e | e in ResourceEndpoints(AmbassadorHost, cfg, h, snap, r).value ::
      && r.hostname == Some(e.dnsName) && e.dnsName != ""
      && e.labels == map[] && e.providerSpecific == [] && e.setIdentifier == ""
  {
    ResourceEndpointsLabels(AmbassadorHost, cfg, h, snap, r);
    if Admitted(AmbassadorHost, cfg, r) && MetadataFor(AmbassadorHost, h, r.annotations).Ok? {
      ResourceEndpointsMetadata(AmbassadorHost, cfg, h, snap, r);
      var targets := ResolvedTargets(AmbassadorHost, cfg, snap, r).value;
      ForHostnamesMembers(SpecName(r), targets, MetadataFor(AmbassadorHost, h, r.annotations).value, h.isIP);
    }
  }

  /** A bad reference on any Host aborts the whole pass once reached: an error and no endpoints. */
  lemma AmbassadorBadReferenceAbortsPass(cfg: Config, h: Helpers, snap: Snapshot, rs: seq<Resource>, k: nat)
    requires k < |rs| && forall i | 0 <= i < k :: ResourceEndpoints(AmbassadorHost, cfg, h, snap, rs[i]).Ok?
    requires AmbHostAnnotation in rs[k].annotations && Count(rs[k].annotations[AmbHostAnnotation], '/') >= 2
    ensures Pass(AmbassadorHost, cfg, h, snap, rs) == Err(InvalidAmbassadorService(rs[k].annotations[AmbHostAnnotation]))
  {
    AmbassadorBadReference(cfg, h, snap, rs[k]);
    CollectFirstError(AmbassadorHost, cfg, h, snap, rs, k);
  }

  /** After a pass every endpoint's targets are sorted, and no endpoint has a label. */
  lemma AmbassadorPass(cfg: Config, h: Helpers, snap: Snapshot, rs: seq<Resource>, e: Endpoint)
    requires Pass(AmbassadorHost, cfg, h, snap, rs).Ok? && e in Pass(AmbassadorHost, cfg, h, snap, rs).value
    ensures Sorted(e.targets) && e.labels == map[]
  {
    PassMembers(AmbassadorHost, cfg, h, snap, rs, e);
    var i :| 0 <= i < |rs| && e.labels == ExpectedLabels(AmbassadorHost, rs[i]);
  }
}
