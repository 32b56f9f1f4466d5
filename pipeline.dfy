/** The pass every adapter runs, written once: filter each routing object, resolve its targets,
    collect its hostnames, consult the FQDN template, label, append, and finally sort the targets.
    An `Adapter` record says how one kind differs; the specification functions define the pass
    and the methods below carry it out imperatively and are proved equal to them. */
module Pipeline {
  import opened Types
  import opened Strings
  import opened Synthesis
  import opened References

  /** Where the targets of an object come from. */
  datatype TargetSource =
    | OverrideThenService       // target annotation, else the configured load-balancer Service (missing: none)
    | OverrideThenStatus        // target annotation, else the object's own load-balancer status
    | ServiceFromAnnotation(key: string) // the Service the annotation `key` names; a bad name or a missing Service aborts
    | EmbeddedStatus            // the object's own load-balancer status
    | SameNameService           // the Service named like the object in the watched namespace; missing aborts

  /** Where the hostnames of an object come from, in the order they are emitted. */
  datatype HostnameSource =
    | FqdnThenAnnotations       // the virtual host's fqdn if set, then the hostname annotation (unless ignored)
    | SpecHostname              // the spec's hostname if set
    | AnnotationsThenRules      // the hostname annotation, then every non-empty rule host
    | VirtualHostDomains        // every domain of every virtual host of every listener

  /** How one kind of routing object is translated. */
  datatype Adapter = Adapter(
    selectorFilter: bool,       // skip objects whose annotations fail the annotation selector
    controllerFilter: bool,     // skip objects owned by another controller
    statusFilter: bool,         // skip objects whose status is not "valid"
    targetSource: TargetSource,
    hostnameSource: HostnameSource,
    fqdnTemplate: bool,         // consult the configured FQDN template
    providerAnnotations: bool,  // take provider-specific properties and set identifier from annotations
    ttlFatal: bool,             // a TTL annotation that does not parse aborts the pass
    resourceLabel: Option<string>, // the prefix of the provenance label, if one is set
    dualstackLabel: bool,       // label the endpoints of dual-stack objects
    sortTargets: bool)          // sort every endpoint's targets at the end of the pass

  /** FQDN template: renders an object, or fails (None). */
  type Renderer = Resource -> Option<string>

  /** The configuration an adapter is built with; `lbService` is the parsed Contour
      load-balancer Service and `namespace` the watched namespace. */
  datatype Config = Config(
    namespace: string,
    selector: Annotations -> bool,
    fqdnTemplate: Option<Renderer>,
    combineFQDNAnnotation: bool,
    ignoreHostnameAnnotation: bool,
    lbService: NamespacedName)

  /** What a source is constructed from: the outcomes of parsing the FQDN template and the
      annotation filter, and the raw options. */
  datatype SourceOptions = SourceOptions(
    namespace: string,
    fqdnTemplate: Result<Option<Renderer>>,
    annotationFilter: Result<Annotations -> bool>,
    contourLoadBalancerService: string,
    combineFQDNAndAnnotation: bool,
    ignoreHostnameAnnotation: bool)

  // ----- specification -----

  /** The object passes every filter the adapter applies. */
  predicate Admitted(a: Adapter, cfg: Config, r: Resource) {
    && (a.selectorFilter ==> cfg.selector(r.annotations))
    && (a.controllerFilter ==>
          ControllerAnnotationKey in r.annotations ==> r.annotations[ControllerAnnotationKey] == ControllerAnnotationValue)
    && (a.statusFilter ==> r.currentStatus == ValidStatus)
    && (a.targetSource.ServiceFromAnnotation? ==> a.targetSource.key in r.annotations)
  }

  /** The targets every hostname of the object points at. */
  function ResolvedTargets(a: Adapter, cfg: Config, snap: Snapshot, r: Resource): Result<seq<string>>
    requires a.targetSource.ServiceFromAnnotation? ==> a.targetSource.key in r.annotations
  {
    match a.targetSource
    case OverrideThenService =>
      var targets := TargetsFromTargetAnnotation(r.annotations);
      if targets != [] then Ok(targets)
      else if cfg.lbService in snap.services then Ok(LoadBalancerTargets(snap.services[cfg.lbService].loadBalancer))
      else Ok([])
    case OverrideThenStatus =>
      var targets := TargetsFromTargetAnnotation(r.annotations);
      if targets != [] then Ok(targets) else Ok(LoadBalancerTargets(r.loadBalancer))
    case ServiceFromAnnotation(key) =>
      var service :- ParseAmbLoadBalancerService(r.annotations[key]);
      if service !in snap.services then Err(ServiceNotFound(service.namespace, service.name))
      else Ok(LoadBalancerTargets(snap.services[service].loadBalancer))
    case EmbeddedStatus =>
      Ok(LoadBalancerTargets(r.loadBalancer))
    case SameNameService =>
      var service := NamespacedName(cfg.namespace, r.name);
      if service !in snap.services then Err(ServiceNotFound(service.namespace, service.name))
      else if snap.services[service].serviceType == ServiceTypeLoadBalancer then
        Ok(LoadBalancerTargets(snap.services[service].loadBalancer))
      else Ok([])
  }

  /** TTL, provider-specific properties and set identifier for a group of hostnames. */
  function MetadataFor(a: Adapter, h: Helpers, annotations: Annotations): Result<Metadata> {
    var ttl := h.ttlFromAnnotations(annotations);
    if a.ttlFatal && ttl.error.Some? then Err(InvalidTTL(ttl.error.value))
    else if a.providerAnnotations then
      var provider := h.providerSpecificFromAnnotations(annotations);
      Ok(Metadata(ttl.seconds, provider.properties, provider.setIdentifier))
    else Ok(Metadata(ttl.seconds, [], ""))
  }

  /** The hostname in the object's spec, when it has a non-empty one. */
  function SpecName(r: Resource): seq<string> {
    if r.hostname.Some? && r.hostname.value != "" then [r.hostname.value] else []
  }

  /** The non-empty rule hosts, in rule order. */
  function NonEmpty(hosts: seq<string>): (r: seq<string>)
    ensures forall h | h in r :: h != "" && h in hosts
    decreases |hosts|
  {
    if hosts == [] then [] else (if hosts[0] != "" then [hosts[0]] else []) + NonEmpty(hosts[1..])
  }

  /** The hostnames of an object whose hostnames do not come from virtual hosts, in emission order. */
  function Hostnames(a: Adapter, cfg: Config, r: Resource): seq<string> {
    match a.hostnameSource
    case FqdnThenAnnotations =>
      SpecName(r) + (if cfg.ignoreHostnameAnnotation then [] else HostnamesFromAnnotations(r.annotations))
    case SpecHostname => SpecName(r)
    case AnnotationsThenRules => HostnamesFromAnnotations(r.annotations) + NonEmpty(r.ruleHosts)
    case VirtualHostDomains => []
  }

  /** The annotations of a virtual host: those of every referenced VirtualService, merged in
      source order so that a later source overwrites an earlier one; other kinds are ignored. */
  function MergedAnnotations(snap: Snapshot, sources: seq<MetadataSource>): Result<Annotations>
    decreases |sources|
  {
    if sources == [] then Ok(map[])
    else
      var merged :- MergedAnnotations(snap, sources[..|sources| - 1]);
      var src := sources[|sources| - 1];
      if src.kind != VirtualServiceKind then Ok(merged)
      else
        var key := NamespacedName(src.namespace, src.name);
        if key !in snap.virtualServices then Err(VirtualServiceNotFound(src.namespace, src.name))
        else Ok(merged + snap.virtualServices[key].annotations)
  }

  /** The endpoints of one virtual host: each domain, trailing dot trimmed, with the metadata
      of the merged annotations. */
  function VirtualHostEndpoints(a: Adapter, h: Helpers, snap: Snapshot, vhost: VirtualHost, targets: seq<string>): Result<seq<Endpoint>> {
    var annotations :- MergedAnnotations(snap, vhost.sources);
    var md :- MetadataFor(a, h, annotations);
    Ok(ForHostnames(TrimDots(vhost.domains), targets, md, h.isIP))
  }

  function ListenerEndpoints(a: Adapter, h: Helpers, snap: Snapshot, vhosts: seq<VirtualHost>, targets: seq<string>): Result<seq<Endpoint>>
    decreases |vhosts|
  {
    if vhosts == [] then Ok([])
    else
      var prev :- ListenerEndpoints(a, h, snap, vhosts[..|vhosts| - 1], targets);
      var eps :- VirtualHostEndpoints(a, h, snap, vhosts[|vhosts| - 1], targets);
      Ok(prev + eps)
  }

  function ProxyEndpoints(a: Adapter, h: Helpers, snap: Snapshot, listeners: seq<Listener>, targets: seq<string>): Result<seq<Endpoint>>
    decreases |listeners|
  {
    if listeners == [] then Ok([])
    else
      var prev :- ProxyEndpoints(a, h, snap, listeners[..|listeners| - 1], targets);
      var eps :- ListenerEndpoints(a, h, snap, listeners[|listeners| - 1].virtualHosts, targets);
      Ok(prev + eps)
  }

  /** The endpoints an object names itself, before the template is consulted. */
  function NativeEndpoints(a: Adapter, cfg: Config, h: Helpers, snap: Snapshot, r: Resource, targets: seq<string>): Result<seq<Endpoint>> {
    if a.hostnameSource.VirtualHostDomains? then ProxyEndpoints(a, h, snap, r.listeners, targets)
    else
      var md :- MetadataFor(a, h, r.annotations);
      Ok(ForHostnames(Hostnames(a, cfg, r), targets, md, h.isIP))
  }

  /** The template is consulted when it exists and either combining is on or the object named no endpoint. */
  predicate TemplateApplies(a: Adapter, cfg: Config, native: seq<Endpoint>) {
    a.fqdnTemplate && cfg.fqdnTemplate.Some? && (cfg.combineFQDNAnnotation || native == [])
  }

  /** The endpoints of the rendered template: its comma-separated hostnames, spaces removed and
      one trailing dot trimmed, with the object's targets and metadata. */
  function TemplateEndpoints(a: Adapter, cfg: Config, h: Helpers, r: Resource, targets: seq<string>): Result<seq<Endpoint>>
    requires cfg.fqdnTemplate.Some?
  {
    match cfg.fqdnTemplate.value(r)
    case None => Err(TemplateFailed(r.namespace, r.name))
    case Some(text) =>
      var md :- MetadataFor(a, h, r.annotations);
      Ok(ForHostnames(SplitTrimmed(text), targets, md, h.isIP))
  }

  /** The native endpoints with the template's appended (combining) or in their place. */
  function WithTemplate(a: Adapter, cfg: Config, h: Helpers, r: Resource, targets: seq<string>, native: seq<Endpoint>): Result<seq<Endpoint>> {
    if !TemplateApplies(a, cfg, native) then Ok(native)
    else
      var tmpl :- TemplateEndpoints(a, cfg, h, r, targets);
      if cfg.combineFQDNAnnotation then Ok(native + tmpl) else Ok(tmpl)
  }

  function ResourceLabelValue(prefix: string, r: Resource): string {
    prefix + "/" + r.namespace + "/" + r.name
  }

  predicate DualstackRequested(a: Adapter, r: Resource) {
    a.dualstackLabel && ALBDualstackAnnotationKey in r.annotations
      && r.annotations[ALBDualstackAnnotationKey] == ALBDualstackAnnotationValue
  }

  /** The provenance label, then the dual-stack label, as the adapter sets them. */
  function Labelled(a: Adapter, r: Resource, eps: seq<Endpoint>): seq<Endpoint> {
    var withResource := if a.resourceLabel.Some? then WithLabel(eps, ResourceLabelKey, ResourceLabelValue(a.resourceLabel.value, r)) else eps;
    if DualstackRequested(a, r) then WithLabel(withResource, DualstackLabelKey, "true") else withResource
  }

  /** What one object contributes to the pass, or the error that aborts it. */
  function ResourceEndpoints(a: Adapter, cfg: Config, h: Helpers, snap: Snapshot, r: Resource): Result<seq<Endpoint>> {
    if !Admitted(a, cfg, r) then Ok([])
    else
      var targets :- ResolvedTargets(a, cfg, snap, r);
      var native :- NativeEndpoints(a, cfg, h, snap, r, targets);
      var eps :- WithTemplate(a, cfg, h, r, targets, native);
      if eps == [] then Ok([]) else Ok(Labelled(a, r, eps))
  }

  /** Each object's contribution, in enumeration order. */
  function Contributions(a: Adapter, cfg: Config, h: Helpers, snap: Snapshot, resources: seq<Resource>): (steps: seq<Result<seq<Endpoint>>>)
    ensures |steps| == |resources|
  {
    seq(|resources|, i requires 0 <= i < |resources| => ResourceEndpoints(a, cfg, h, snap, resources[i]))
  }

  /** Contributions appended one after another; the first error aborts. */
  function Concat(steps: seq<Result<seq<Endpoint>>>): Result<seq<Endpoint>>
    decreases |steps|
  {
    if steps == [] then Ok([])
    else
      var prev :- Concat(steps[..|steps| - 1]);
      var eps :- steps[|steps| - 1];
      Ok(prev + eps)
  }

  /** The endpoints of all listed objects, or the first error. */
  function Collect(a: Adapter, cfg: Config, h: Helpers, snap: Snapshot, resources: seq<Resource>): Result<seq<Endpoint>> {
    Concat(Contributions(a, cfg, h, snap, resources))
  }

  /** A whole pass: the collected endpoints, with their targets sorted when the adapter sorts. */
  function Pass(a: Adapter, cfg: Config, h: Helpers, snap: Snapshot, resources: seq<Resource>): Result<seq<Endpoint>> {
    var all :- Collect(a, cfg, h, snap, resources);
    if a.sortTargets then Ok(SortTargets(all)) else Ok(all)
  }

  // ----- a failed step fails the whole fold -----

  lemma {:induction false} ConcatStopsAtFailure(steps: seq<Result<seq<Endpoint>>>, k: nat)
    requires k <= |steps|
    requires Concat(steps[..k]).Err?
    ensures Concat(steps) == Concat(steps[..k])
    decreases |steps| - k
  {
    if k < |steps| {
      var init := steps[..|steps| - 1];
      assert init[..k] == steps[..k];
      ConcatStopsAtFailure(init, k);
    } else {
      assert steps[..k] == steps;
    }
  }

  lemma {:induction false} MergedStopsAtFailure(snap: Snapshot, sources: seq<MetadataSource>, k: nat)
    requires k <= |sources|
    requires MergedAnnotations(snap, sources[..k]).Err?
    ensures MergedAnnotations(snap, sources) == MergedAnnotations(snap, sources[..k])
    decreases |sources| - k
  {
    if k < |sources| {
      var init := sources[..|sources| - 1];
      assert init[..k] == sources[..k];
      MergedStopsAtFailure(snap, init, k);
    } else {
      assert sources[..k] == sources;
    }
  }

  lemma {:induction false} ListenerStopsAtFailure(a: Adapter, h: Helpers, snap: Snapshot, vhosts: seq<VirtualHost>, targets: seq<string>, k: nat)
    requires k <= |vhosts|
    requires ListenerEndpoints(a, h, snap, vhosts[..k], targets).Err?
    ensures ListenerEndpoints(a, h, snap, vhosts, targets) == ListenerEndpoints(a, h, snap, vhosts[..k], targets)
    decreases |vhosts| - k
  {
    if k < |vhosts| {
      var init := vhosts[..|vhosts| - 1];
      assert init[..k] == vhosts[..k];
      ListenerStopsAtFailure(a, h, snap, init, targets, k);
    } else {
      assert vhosts[..k] == vhosts;
    }
  }

  lemma {:induction false} ProxyStopsAtFailure(a: Adapter, h: Helpers, snap: Snapshot, listeners: seq<Listener>, targets: seq<string>, k: nat)
    requires k <= |listeners|
    requires ProxyEndpoints(a, h, snap, listeners[..k], targets).Err?
    ensures ProxyEndpoints(a, h, snap, listeners, targets) == ProxyEndpoints(a, h, snap, listeners[..k], targets)
    decreases |listeners| - k
  {
    if k < |listeners| {
      var init := listeners[..|listeners| - 1];
      assert init[..k] == listeners[..k];
      ProxyStopsAtFailure(a, h, snap, init, targets, k);
    } else {
      assert listeners[..k] == listeners;
    }
  }

  // ----- the imperative pass -----

  /** `Endpoints`: loop over the listed objects, append what each contributes, return the
      first error, then sort every endpoint's targets. */
  method Endpoints(a: Adapter, cfg: Config, h: Helpers, snap: Snapshot, resources: seq<Resource>)
    returns (result: Result<seq<Endpoint>>)
    ensures result == Pass(a, cfg, h, snap, resources)
  {
    var endpoints: seq<Endpoint> := [];
    ghost var steps := Contributions(a, cfg, h, snap, resources);
    for i := 0 to |resources|
      invariant Concat(steps[..i]) == Ok(endpoints)
    {
      assert steps[..i + 1][..i] == steps[..i];
      var eps := EndpointsFromResource(a, cfg, h, snap, resources[i]);
      assert steps[i] == eps;
      if eps.Err? {
        ConcatStopsAtFailure(steps, i + 1);
        return Err(eps.error);
      }
      endpoints := endpoints + eps.value;
    }
    assert steps[..|resources|] == steps;
    if a.sortTargets {
      endpoints := SortEndpointTargets(endpoints);
    }
    return Ok(endpoints);
  }

  /** One iteration of the pass: filters, targets, hostnames, template, labels. */
  method EndpointsFromResource(a: Adapter, cfg: Config, h: Helpers, snap: Snapshot, r: Resource)
    returns (result: Result<seq<Endpoint>>)
    ensures result == ResourceEndpoints(a, cfg, h, snap, r)
  {
    if !Admitted(a, cfg, r) {
      return Ok([]);
    }
    var targets := ResolveTargets(a, cfg, snap, r);
    if targets.Err? {
      return Err(targets.error);
    }
    var native := EndpointsFromSpec(a, cfg, h, snap, r, targets.value);
    if native.Err? {
      return Err(native.error);
    }
    var eps := native.value;
    if TemplateApplies(a, cfg, eps) {
      var tmpl := EndpointsFromTemplate(a, cfg, h, r, targets.value);
      if tmpl.Err? {
        return Err(tmpl.error);
      }
      if cfg.combineFQDNAnnotation {
        eps := eps + tmpl.value;
      } else {
        eps := tmpl.value;
      }
    }
    if eps == [] {
      return Ok([]);
    }
    eps := ApplyLabels(a, r, eps);
    return Ok(eps);
  }

  /** targetsFromContourLoadBalancer, the inline status loops, targetsFromAmbassadorLoadBalancer and proxyTargets. */
  method ResolveTargets(a: Adapter, cfg: Config, snap: Snapshot, r: Resource) returns (result: Result<seq<string>>)
    requires a.targetSource.ServiceFromAnnotation? ==> a.targetSource.key in r.annotations
    ensures result == ResolvedTargets(a, cfg, snap, r)
  {
    var targets: seq<string> := [];
    match a.targetSource {
    case OverrideThenService =>
      targets := TargetsFromTargetAnnotation(r.annotations);
      if targets == [] && cfg.lbService in snap.services {
        targets := TargetsFromLoadBalancer(snap.services[cfg.lbService].loadBalancer);
      }
    case OverrideThenStatus =>
      targets := TargetsFromTargetAnnotation(r.annotations);
      if targets == [] {
        targets := TargetsFromLoadBalancer(r.loadBalancer);
      }
    case ServiceFromAnnotation(key) =>
      var service := ParseAmbLoadBalancerService(r.annotations[key]);
      if service.Err? {
        return Err(service.error);
      }
      if service.value !in snap.services {
        return Err(ServiceNotFound(service.value.namespace, service.value.name));
      }
      targets := TargetsFromLoadBalancer(snap.services[service.value].loadBalancer);
    case EmbeddedStatus =>
      targets := TargetsFromLoadBalancer(r.loadBalancer);
    case SameNameService =>
      var name := NamespacedName(cfg.namespace, r.name);
      if name !in snap.services {
        return Err(ServiceNotFound(name.namespace, name.name));
      }
      if snap.services[name].serviceType == ServiceTypeLoadBalancer {
        targets := TargetsFromLoadBalancer(snap.services[name].loadBalancer);
      }
    }
    return Ok(targets);
  }

  /** endpointsFromIngressRoute, endpointsFromHTTPProxy, endpointsFromHost, endpointsFromTCPIngress and endpointsFromProxy. */
  method EndpointsFromSpec(a: Adapter, cfg: Config, h: Helpers, snap: Snapshot, r: Resource, targets: seq<string>)
    returns (result: Result<seq<Endpoint>>)
    ensures result == NativeEndpoints(a, cfg, h, snap, r, targets)
  {
    if a.hostnameSource.VirtualHostDomains? {
      result := EndpointsFromProxy(a, h, snap, r.listeners, targets);
      return;
    }
    var md := MetadataFor(a, h, r.annotations);
    if md.Err? {
      return Err(md.error);
    }
    var eps := EndpointsFromHostnames(Hostnames(a, cfg, r), targets, md.value, h.isIP);
    return Ok(eps);
  }

  /** endpointsFromTemplate: render, split the text into hostnames, emit their endpoints. */
  method EndpointsFromTemplate(a: Adapter, cfg: Config, h: Helpers, r: Resource, targets: seq<string>)
    returns (result: Result<seq<Endpoint>>)
    requires cfg.fqdnTemplate.Some?
    ensures result == TemplateEndpoints(a, cfg, h, r, targets)
  {
    var text := cfg.fqdnTemplate.value(r);
    if text.None? {
      return Err(TemplateFailed(r.namespace, r.name));
    }
    var md := MetadataFor(a, h, r.annotations);
    if md.Err? {
      return Err(md.error);
    }
    var eps := EndpointsFromHostnames(SplitTrimmed(text.value), targets, md.value, h.isIP);
    return Ok(eps);
  }

  /** setResourceLabel and setDualstackLabel. */
  method ApplyLabels(a: Adapter, r: Resource, eps: seq<Endpoint>) returns (labelled: seq<Endpoint>)
    ensures labelled == Labelled(a, r, eps)
  {
    labelled := eps;
    if a.resourceLabel.Some? {
      labelled := SetLabel(labelled, ResourceLabelKey, ResourceLabelValue(a.resourceLabel.value, r));
    }
    if DualstackRequested(a, r) {
      labelled := SetLabel(labelled, DualstackLabelKey, "true");
    }
  }

  /** endpointsFromProxy: listeners, then their virtual hosts, then their domains. */
  method EndpointsFromProxy(a: Adapter, h: Helpers, snap: Snapshot, listeners: seq<Listener>, targets: seq<string>)
    returns (result: Result<seq<Endpoint>>)
    ensures result == ProxyEndpoints(a, h, snap, listeners, targets)
  {
    var endpoints: seq<Endpoint> := [];
    for i := 0 to |listeners|
      invariant ProxyEndpoints(a, h, snap, listeners[..i], targets) == Ok(endpoints)
    {
      assert listeners[..i + 1][..i] == listeners[..i];
      var eps := EndpointsFromListener(a, h, snap, listeners[i].virtualHosts, targets);
      if eps.Err? {
        ProxyStopsAtFailure(a, h, snap, listeners, targets, i + 1);
        return Err(eps.error);
      }
      endpoints := endpoints + eps.value;
    }
    assert listeners[..|listeners|] == listeners;
    return Ok(endpoints);
  }

  /** The virtual-host loop of endpointsFromProxy, for one listener. */
  method EndpointsFromListener(a: Adapter, h: Helpers, snap: Snapshot, vhosts: seq<VirtualHost>, targets: seq<string>)
    returns (result: Result<seq<Endpoint>>)
    ensures result == ListenerEndpoints(a, h, snap, vhosts, targets)
  {
    var endpoints: seq<Endpoint> := [];
    for j := 0 to |vhosts|
      invariant ListenerEndpoints(a, h, snap, vhosts[..j], targets) == Ok(endpoints)
    {
      assert vhosts[..j + 1][..j] == vhosts[..j];
      var eps := EndpointsFromVirtualHost(a, h, snap, vhosts[j], targets);
      if eps.Err? {
        ListenerStopsAtFailure(a, h, snap, vhosts, targets, j + 1);
        return Err(eps.error);
      }
      endpoints := endpoints + eps.value;
    }
    assert vhosts[..|vhosts|] == vhosts;
    return Ok(endpoints);
  }

  /** The body of the virtual-host loop of endpointsFromProxy. */
  method EndpointsFromVirtualHost(a: Adapter, h: Helpers, snap: Snapshot, vhost: VirtualHost, targets: seq<string>)
    returns (result: Result<seq<Endpoint>>)
    ensures result == VirtualHostEndpoints(a, h, snap, vhost, targets)
  {
    var annotations := AnnotationsFromVirtualHost(snap, vhost.sources);
    if annotations.Err? {
      return Err(annotations.error);
    }
    var md := MetadataFor(a, h, annotations.value);
    if md.Err? {
      return Err(md.error);
    }
    var eps := EndpointsFromHostnames(TrimDots(vhost.domains), targets, md.value, h.isIP);
    return Ok(eps);
  }

  /** annotationsFromVirtualHost: copy the annotations of every referenced VirtualService into one map. */
  method AnnotationsFromVirtualHost(snap: Snapshot, sources: seq<MetadataSource>) returns (result: Result<Annotations>)
    ensures result == MergedAnnotations(snap, sources)
  {
    var annotations: Annotations := map[];
    for i := 0 to |sources|
      invariant MergedAnnotations(snap, sources[..i]) == Ok(annotations)
    {
      assert sources[..i + 1][..i] == sources[..i];
      var src := sources[i];
      if src.kind == VirtualServiceKind {
        var key := NamespacedName(src.namespace, src.name);
        if key !in snap.virtualServices {
          MergedStopsAtFailure(snap, sources, i + 1);
          return Err(VirtualServiceNotFound(src.namespace, src.name));
        }
        annotations := CopyAnnotations(annotations, snap.virtualServices[key].annotations);
      }
    }
    assert sources[..|sources|] == sources;
    return Ok(annotations);
  }

  /** `for key, value := range from { into[key] = value }`, in whatever order the keys come. */
  method CopyAnnotations(into: Annotations, from: Annotations) returns (merged: Annotations)
    ensures merged == into + from
  {
    merged := into;
    var pending := from.Keys;
    while pending != {}
      invariant pending <= from.Keys
      invariant merged.Keys == into.Keys + (from.Keys - pending)
      invariant forall k | k in merged :: merged[k] == if k in from && k !in pending then from[k] else into[k]
      decreases |pending|
    {
      var k :| k in pending;
      merged := merged[k := from[k]];
      pending := pending - {k};
    }
  }
}
