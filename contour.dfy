/** The two Contour adapters: IngressRoute (targets from a shared load-balancer Service) and
    HTTPProxy (targets from the proxy's own status). Both filter on the annotation selector, the
    controller annotation and a "valid" status, take the virtual host's fqdn and the hostname
    annotation, consult the FQDN template, label every endpoint with its origin and sort targets. */
module Contour {
  import opened Types
  import opened Strings
  import opened Synthesis
  import opened References
  import opened Pipeline
  import opened Properties

  const IngressRoute := Adapter(
    selectorFilter := true, controllerFilter := true, statusFilter := true,
    targetSource := OverrideThenService, hostnameSource := FqdnThenAnnotations,
    fqdnTemplate := true, providerAnnotations := true, ttlFatal := false,
    resourceLabel := Some("ingressroute"), dualstackLabel := false, sortTargets := true)

  const HTTPProxy := IngressRoute.(targetSource := OverrideThenStatus, resourceLabel := Some("HTTPProxy"))

  /** What the two Contour adapters have in common; the lemmas below hold for both. */
  predicate IsContour(a: Adapter) {
    && a.selectorFilter && a.controllerFilter && a.statusFilter
    && (a.targetSource.OverrideThenService? || a.targetSource.OverrideThenStatus?)
    && a.hostnameSource.FqdnThenAnnotations? && a.fqdnTemplate && a.providerAnnotations && !a.ttlFatal
    && a.resourceLabel.Some? && !a.dualstackLabel && a.sortTargets
  }

  lemma BothAreContour()
    ensures IsContour(IngressRoute) && IsContour(HTTPProxy)
    ensures IngressRoute.resourceLabel == Some("ingressroute") && HTTPProxy.resourceLabel == Some("HTTPProxy")
  {
  }

  /** The metadata of a Contour object: the TTL helper's value is used even when it reports an error. */
  function SoftMetadata(h: Helpers, annotations: Annotations): Metadata {
    var provider := h.providerSpecificFromAnnotations(annotations);
    Metadata(h.ttlFromAnnotations(annotations).seconds, provider.properties, provider.setIdentifier)
  }

  // ----- construction -----

  /** NewContourIngressRouteSource: the template, then the load-balancer Service reference,
      then the annotation filter must parse. */
  function NewContourIngressRouteSource(o: SourceOptions): (r: Result<Config>)
    ensures r.Ok? <==>
      o.fqdnTemplate.Ok? && o.annotationFilter.Ok? && ParseContourLoadBalancerService(o.contourLoadBalancerService).Ok?
    ensures o.fqdnTemplate.Err? ==> r == Err(o.fqdnTemplate.error)
    ensures o.fqdnTemplate.Ok? && ParseContourLoadBalancerService(o.contourLoadBalancerService).Err? ==>
      r == Err(InvalidContourService(o.contourLoadBalancerService))
    ensures o.fqdnTemplate.Ok? && ParseContourLoadBalancerService(o.contourLoadBalancerService).Ok? && o.annotationFilter.Err? ==>
      r == Err(o.annotationFilter.error)
    ensures r.Ok? ==>
      && r.value.lbService == ParseContourLoadBalancerService(o.contourLoadBalancerService).value
      && r.value.fqdnTemplate == o.fqdnTemplate.value
      && r.value.selector == o.annotationFilter.value
      && r.value.combineFQDNAnnotation == o.combineFQDNAndAnnotation
      && r.value.ignoreHostnameAnnotation == o.ignoreHostnameAnnotation
  {
    var template :- o.fqdnTemplate;
    var service :- ParseContourLoadBalancerService(o.contourLoadBalancerService);
    var selector :- o.annotationFilter;
    Ok(Config(o.namespace, selector, template, o.combineFQDNAndAnnotation, o.ignoreHostnameAnnotation, service))
  }

  /** NewContourHTTPProxySource: the template, then the annotation filter must parse. */
  function NewContourHTTPProxySource(o: SourceOptions): (r: Result<Config>)
    ensures r.Ok? <==> o.fqdnTemplate.Ok? && o.annotationFilter.Ok?
    ensures o.fqdnTemplate.Err? ==> r == Err(o.fqdnTemplate.error)
    ensures o.fqdnTemplate.Ok? && o.annotationFilter.Err? ==> r == Err(o.annotationFilter.error)
    ensures r.Ok? ==>
      && r.value.fqdnTemplate == o.fqdnTemplate.value
      && r.value.selector == o.annotationFilter.value
      && r.value.combineFQDNAnnotation == o.combineFQDNAndAnnotation
      && r.value.ignoreHostnameAnnotation == o.ignoreHostnameAnnotation
  {
    var template :- o.fqdnTemplate;
    var selector :- o.annotationFilter;
    Ok(Config(o.namespace, selector, template, o.combineFQDNAndAnnotation, o.ignoreHostnameAnnotation, NamespacedName("", "")))
  }

  // ----- filters -----

  /** An object is translated only if it passes the selector, is not owned by another
      controller and has status "valid"; otherwise it contributes nothing. */
  lemma ContourFilters(a: Adapter, cfg: Config, h: Helpers, snap: Snapshot, r: Resource)
    requires IsContour(a)
    ensures Admitted(a, cfg, r) <==>
      && cfg.selector(r.annotations)
      && (ControllerAnnotationKey in r.annotations ==> r.annotations[ControllerAnnotationKey] == ControllerAnnotationValue)
      && r.currentStatus == ValidStatus
    ensures !Admitted(a, cfg, r) ==> ResourceEndpoints(a, cfg, h, snap, r) == Ok([])
  {
  }

  // ----- targets -----

  /** IngressRoute targets: a non-empty target annotation is used as given and the Service is not
      consulted; otherwise the load-balancer Service's targets, or none when it is missing. Never an error. */
  lemma IngressRouteTargets(cfg: Config, snap: Snapshot, other: Snapshot, r: Resource)
    ensures var override := TargetsFromTargetAnnotation(r.annotations);
      && (override != [] ==>
            && ResolvedTargets(IngressRoute, cfg, snap, r) == Ok(SplitTrimmed(r.annotations[TargetAnnotationKey]))
            && ResolvedTargets(IngressRoute, cfg, snap, r) == ResolvedTargets(IngressRoute, cfg, other, r))
      && (override == [] && cfg.lbService in snap.services ==>
            ResolvedTargets(IngressRoute, cfg, snap, r) == Ok(LoadBalancerTargets(snap.services[cfg.lbService].loadBalancer)))
      && (override == [] && cfg.lbService !in snap.services ==> ResolvedTargets(IngressRoute, cfg, snap, r) == Ok([]))
  {
  }

  /** HTTPProxy targets: a non-empty target annotation, else the proxy's own load-balancer status. */
  lemma HTTPProxyTargets(cfg: Config, snap: Snapshot, r: Resource)
    ensures var override := TargetsFromTargetAnnotation(r.annotations);
      && (override != [] ==> ResolvedTargets(HTTPProxy, cfg, snap, r) == Ok(SplitTrimmed(r.annotations[TargetAnnotationKey])))
      && (override == [] ==> ResolvedTargets(HTTPProxy, cfg, snap, r) == Ok(LoadBalancerTargets(r.loadBalancer)))
  {
  }

  /** An ingress entry with both fields gives its IP, then its hostname. */
  lemma LoadBalancerEntryOrder(lbs: seq<LoadBalancerIngress>, ip: string, hostname: string)
    requires ip != "" && hostname != ""
    ensures LoadBalancerTargets(lbs + [LoadBalancerIngress(ip, hostname)]) == LoadBalancerTargets(lbs) + [ip, hostname]
  {
    assert (lbs + [LoadBalancerIngress(ip, hostname)])[..|lbs|] == lbs;
  }

  // ----- hostnames -----

  /** The native endpoints: those of the fqdn (when set), then those of the hostname annotation,
      which the ignore flag drops; all with the TTL value even if its annotation does not parse. */
  lemma ContourHostnameOrder(a: Adapter, cfg: Config, h: Helpers, snap: Snapshot, r: Resource, targets: seq<string>)
    requires IsContour(a)
    ensures NativeEndpoints(a, cfg, h, snap, r, targets) == Ok(
      ForHostnames(SpecName(r), targets, SoftMetadata(h, r.annotations), h.isIP)
      + (if cfg.ignoreHostnameAnnotation then []
         else ForHostnames(HostnamesFromAnnotations(r.annotations), targets, SoftMetadata(h, r.annotations), h.isIP)))
  {
    var md := SoftMetadata(h, r.annotations);
    var annotated := if cfg.ignoreHostnameAnnotation then [] else HostnamesFromAnnotations(r.annotations);
    ForHostnamesAppend(SpecName(r), annotated, targets, md, h.isIP);
  }

  /** A hostname annotation `h1, h2, ...` yields, with targets of one kind, one endpoint per
      hostname in that order, each holding every target. */
  lemma AnnotatedHostnamesInOrder(a: Adapter, cfg: Config, h: Helpers, snap: Snapshot, r: Resource,
                                  hs: seq<string>, targets: seq<string>, ip: bool)
    requires IsContour(a)
    requires SpecName(r) == [] && !cfg.ignoreHostnameAnnotation
    requires HostnameAnnotationKey in r.annotations && r.annotations[HostnameAnnotationKey] == JoinSpaced(hs)
    requires |hs| >= 1 && forall x | x in hs :: ' ' !in x && ',' !in x
    requires targets != [] && forall t | t in targets :: h.isIP(t) == ip
    ensures NativeEndpoints(a, cfg, h, snap, r, targets).Ok?
    ensures var eps := NativeEndpoints(a, cfg, h, snap, r, targets).value;
      && |eps| == |hs|
      && forall i | 0 <= i < |hs| ::
        eps[i] == NewEndpoint(hs[i], targets, if ip then A else CNAME, SoftMetadata(h, r.annotations))
  {
    SplitListOfList(hs);
    assert [] + hs == hs;
    ForHostnamesUniform(hs, targets, SoftMetadata(h, r.annotations), h.isIP, ip);
  }

  // ----- the FQDN template -----

  /** The template is consulted only when one is configured and either combining is on or no
      endpoint came from the object; it then replaces the native endpoints, or follows them when
      combining; a render failure is an error. */
  lemma TemplateGate(a: Adapter, cfg: Config, h: Helpers, r: Resource, targets: seq<string>, native: seq<Endpoint>)
    requires IsContour(a)
    ensures cfg.fqdnTemplate.None? || (!cfg.combineFQDNAnnotation && native != []) ==>
      WithTemplate(a, cfg, h, r, targets, native) == Ok(native)
    ensures cfg.fqdnTemplate.Some? && (cfg.combineFQDNAnnotation || native == []) && cfg.fqdnTemplate.value(r).None? ==>
      WithTemplate(a, cfg, h, r, targets, native) == Err(TemplateFailed(r.namespace, r.name))
    ensures cfg.fqdnTemplate.Some? && cfg.fqdnTemplate.value(r).Some? ==>
      var tmpl := ForHostnames(SplitTrimmed(cfg.fqdnTemplate.value(r).value), targets, SoftMetadata(h, r.annotations), h.isIP);
      && (cfg.combineFQDNAnnotation ==> WithTemplate(a, cfg, h, r, targets, native) == Ok(native + tmpl))
      && (!cfg.combineFQDNAnnotation && native == [] ==> WithTemplate(a, cfg, h, r, targets, native) == Ok(tmpl))
  {
  }

  /** The gate is on endpoints, not hostnames: an object whose fqdn is set but which has no
      targets still falls back to the template. */
  lemma TemplateGateIsOnEndpoints(a: Adapter, cfg: Config, h: Helpers, snap: Snapshot, r: Resource)
    requires IsContour(a)
    requires cfg.fqdnTemplate.Some?
    ensures TemplateApplies(a, cfg, NativeEndpoints(a, cfg, h, snap, r, []).value)
  {
    ForHostnamesNoTargets(Hostnames(a, cfg, r), SoftMetadata(h, r.annotations), h.isIP);
  }

  /** A rendered `h1, h2., ...` is split into its hostnames, in order, spaces removed and one
      trailing dot trimmed from each. */
  lemma TemplateHostnames(a: Adapter, cfg: Config, h: Helpers, r: Resource, targets: seq<string>, hs: seq<string>)
    requires IsContour(a)
    requires cfg.fqdnTemplate.Some? && cfg.fqdnTemplate.value(r) == Some(JoinSpaced(hs))
    requires |hs| >= 1 && forall x | x in hs :: ' ' !in x && ',' !in x
    ensures TemplateEndpoints(a, cfg, h, r, targets) == Ok(ForHostnames(TrimDots(hs), targets, SoftMetadata(h, r.annotations), h.isIP))
  {
    SplitTrimmedOfDotted(hs);
  }

  /** A template that fails to render for an admitted object aborts the pass when reached, whenever
      the template is consulted: combining is on, or the object yields no native endpoint because
      it names no hostname or has no target. The result is the error and no endpoints. */
  lemma TemplateFailureAbortsPass(a: Adapter, cfg: Config, h: Helpers, snap: Snapshot, rs: seq<Resource>, k: nat)
    requires IsContour(a)
    requires k < |rs| && forall i | 0 <= i < k :: ResourceEndpoints(a, cfg, h, snap, rs[i]).Ok?
    requires Admitted(a, cfg, rs[k])
    requires cfg.fqdnTemplate.Some? && cfg.fqdnTemplate.value(rs[k]).None?
    requires cfg.combineFQDNAnnotation || ResolvedTargets(a, cfg, snap, rs[k]) == Ok([]) || Hostnames(a, cfg, rs[k]) == []
    ensures Pass(a, cfg, h, snap, rs) == Err(TemplateFailed(rs[k].namespace, rs[k].name))
  {
    var r := rs[k];
    var targets := ResolvedTargets(a, cfg, snap, r).value;
    if targets == [] {
      ForHostnamesNoTargets(Hostnames(a, cfg, r), SoftMetadata(h, r.annotations), h.isIP);
    }
    assert NativeEndpoints(a, cfg, h, snap, r, targets) == Ok(ForHostnames(Hostnames(a, cfg, r), targets, SoftMetadata(h, r.annotations), h.isIP));
    assert ResourceEndpoints(a, cfg, h, snap, r) == Err(TemplateFailed(r.namespace, r.name));
    CollectFirstError(a, cfg, h, snap, rs, k);
  }

  // ----- what an object contributes -----

  /** No targets, no endpoints: when a configured template renders, neither the object's hostnames
      nor the template's produce any (a render failure aborts instead, see TemplateFailureAbortsPass). */
  lemma ContourNoTargets(a: Adapter, cfg: Config, h: Helpers, snap: Snapshot, r: Resource)
    requires IsContour(a)
    requires Admitted(a, cfg, r) && ResolvedTargets(a, cfg, snap, r) == Ok([])
    requires cfg.fqdnTemplate.Some? ==> cfg.fqdnTemplate.value(r).Some?
    ensures ResourceEndpoints(a, cfg, h, snap, r) == Ok([])
  {
    var md := SoftMetadata(h, r.annotations);
    ForHostnamesNoTargets(Hostnames(a, cfg, r), md, h.isIP);
    if cfg.fqdnTemplate.Some? && cfg.fqdnTemplate.value(r).Some? {
      ForHostnamesNoTargets(SplitTrimmed(cfg.fqdnTemplate.value(r).value), md, h.isIP);
    }
  }

  /** The endpoints an object contributes: every one carries the TTL, provider-specific properties
      and set identifier of its annotations, and exactly the label `resource = <kind>/<ns>/<name>`. */
  lemma ContourEndpoints(a: Adapter, cfg: Config, h: Helpers, snap: Snapshot, r: Resource)
    requires IsContour(a)
    requires ResourceEndpoints(a, cfg, h, snap, r).Ok?
    ensures forall e | e in ResourceEndpoints(a, cfg, h, snap, r).value ::
      && e.labels == map[ResourceLabelKey := ResourceLabelValue(a.resourceLabel.value, r)]
      && e.recordTTL == h.ttlFromAnnotations(r.annotations).seconds
      && e.providerSpecific == h.providerSpecificFromAnnotations(r.annotations).properties
      && e.setIdentifier == h.providerSpecificFromAnnotations(r.annotations).setIdentifier
  {
    ResourceEndpointsLabels(a, cfg, h, snap, r);
    ResourceEndpointsMetadata(a, cfg, h, snap, r);
    assert ExpectedLabels(a, r) == map[ResourceLabelKey := ResourceLabelValue(a.resourceLabel.value, r)];
  }

  /** A whole Contour pass: every endpoint's targets sorted, and every endpoint labelled with
      the object it came from. */
  lemma ContourPass(a: Adapter, cfg: Config, h: Helpers, snap: Snapshot, rs: seq<Resource>, e: Endpoint)
    requires IsContour(a)
    requires Pass(a, cfg, h, snap, rs).Ok? && e in Pass(a, cfg, h, snap, rs).value
    ensures Sorted(e.targets)
    ensures exists i | 0 <= i < |rs| :: e.labels == map[ResourceLabelKey := ResourceLabelValue(a.resourceLabel.value, rs[i])]
  {
    PassMembers(a, cfg, h, snap, rs, e);
    var i :| 0 <= i < |rs| && e.labels == ExpectedLabels(a, rs[i]);
    assert ExpectedLabels(a, rs[i]) == map[ResourceLabelKey := ResourceLabelValue(a.resourceLabel.value, rs[i])];
  }
}
