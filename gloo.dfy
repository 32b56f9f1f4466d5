/** The Gloo Proxy adapter: every Proxy is translated, with the targets of the same-named Service;
    each virtual host's domains share the metadata of the annotations merged from the
    VirtualServices it was built from; no endpoint is labelled and targets are not sorted. */
module Gloo {
  import opened Types
  import opened Strings
  import opened Synthesis
  import opened Pipeline
  import opened Properties

  const GlooProxy := Adapter(
    selectorFilter := false, controllerFilter := false, statusFilter := false,
    targetSource := SameNameService, hostnameSource := VirtualHostDomains,
    fqdnTemplate := false, providerAnnotations := true, ttlFatal := true,
    resourceLabel := None, dualstackLabel := false, sortTargets := false)

  // ----- targets -----

  /** The Proxy's Service, named like the Proxy in the source's namespace, must exist; a
      LoadBalancer Service gives its ingress targets and any other type gives none. */
  lemma GlooTargets(cfg: Config, snap: Snapshot, r: Resource)
    ensures var service := NamespacedName(cfg.namespace, r.name);
      ResolvedTargets(GlooProxy, cfg, snap, r) ==
        if service !in snap.services then Err(ServiceNotFound(cfg.namespace, r.name))
        else if snap.services[service].serviceType != ServiceTypeLoadBalancer then Ok([])
        else Ok(LoadBalancerTargets(snap.services[service].loadBalancer))
  {
  }

  /** A Proxy with a non-LoadBalancer Service yields no endpoint once its virtual hosts merge and
      their TTLs parse; a missing VirtualService or a bad TTL still aborts with that error. */
  lemma GlooUnsupportedService(cfg: Config, h: Helpers, snap: Snapshot, r: Resource)
    requires NamespacedName(cfg.namespace, r.name) in snap.services
    requires snap.services[NamespacedName(cfg.namespace, r.name)].serviceType != ServiceTypeLoadBalancer
    ensures ProxyEndpoints(GlooProxy, h, snap, r.listeners, []).Err? ==>
      ResourceEndpoints(GlooProxy, cfg, h, snap, r) == Err(ProxyEndpoints(GlooProxy, h, snap, r.listeners, []).error)
    ensures ProxyEndpoints(GlooProxy, h, snap, r.listeners, []).Ok? ==> ResourceEndpoints(GlooProxy, cfg, h, snap, r) == Ok([])
  {
    if ProxyEndpoints(GlooProxy, h, snap, r.listeners, []).Ok? {
      ProxyNoTargets(GlooProxy, h, snap, r.listeners);
    }
  }

  /** A Proxy whose Service is missing aborts the whole pass once reached. */
  lemma GlooMissingServiceAbortsPass(cfg: Config, h: Helpers, snap: Snapshot, rs: seq<Resource>, k: nat)
    requires k < |rs| && forall i | 0 <= i < k :: ResourceEndpoints(GlooProxy, cfg, h, snap, rs[i]).Ok?
    requires NamespacedName(cfg.namespace, rs[k].name) !in snap.services
    ensures Pass(GlooProxy, cfg, h, snap, rs) == Err(ServiceNotFound(cfg.namespace, rs[k].name))
  {
    CollectFirstError(GlooProxy, cfg, h, snap, rs, k);
  }

  // ----- merged annotations -----

  /** The sources that are VirtualServices, in order. */
  function VirtualServiceSources(sources: seq<MetadataSource>): (r: seq<MetadataSource>)
    ensures forall s | s in r :: s in sources && s.kind == VirtualServiceKind
    decreases |sources|
  {
    if sources == [] then []
    else
      var last := sources[|sources| - 1];
      VirtualServiceSources(sources[..|sources| - 1]) + (if last.kind == VirtualServiceKind then [last] else [])
  }

  /** Sources of any other kind are ignored: merging all sources is merging the VirtualServices alone. */
  lemma {:induction false} MergedIgnoresOtherKinds(snap: Snapshot, sources: seq<MetadataSource>)
    ensures MergedAnnotations(snap, sources) == MergedAnnotations(snap, VirtualServiceSources(sources))
    decreases |sources|
  {
    if sources != [] {
      var init := sources[..|sources| - 1];
      var last := sources[|sources| - 1];
      MergedIgnoresOtherKinds(snap, init);
      var vs := VirtualServiceSources(init);
      if last.kind == VirtualServiceKind {
        assert (vs + [last])[..|vs + [last]| - 1] == vs;
      } else {
        assert vs + [] == vs;
      }
    }
  }

  /** The merge fails exactly when some referenced VirtualService is missing. */
  lemma {:induction false} MergedOk(snap: Snapshot, sources: seq<MetadataSource>)
    ensures MergedAnnotations(snap, sources).Ok? <==>
      forall i | 0 <= i < |sources| ::
        sources[i].kind == VirtualServiceKind ==> NamespacedName(sources[i].namespace, sources[i].name) in snap.virtualServices
    decreases |sources|
  {
    if sources != [] {
      var init := sources[..|sources| - 1];
      MergedOk(snap, init);
      assert forall i | 0 <= i < |init| :: init[i] == sources[i];
    }
  }

  /** The first missing VirtualService is the error the merge returns. */
  lemma MergedFirstMissing(snap: Snapshot, sources: seq<MetadataSource>, k: nat)
    requires k < |sources|
    requires forall i | 0 <= i < k ::
      sources[i].kind == VirtualServiceKind ==> NamespacedName(sources[i].namespace, sources[i].name) in snap.virtualServices
    requires sources[k].kind == VirtualServiceKind
    requires NamespacedName(sources[k].namespace, sources[k].name) !in snap.virtualServices
    ensures MergedAnnotations(snap, sources) == Err(VirtualServiceNotFound(sources[k].namespace, sources[k].name))
  {
    var prefix := sources[..k];
    MergedOk(snap, prefix);
    assert sources[..k + 1][..k] == prefix;
    MergedStopsAtFailure(snap, sources, k + 1);
  }

  /** Merging two runs of sources: the first failure wins, and otherwise later annotations
      overwrite earlier ones under the same key. */
  lemma {:induction false} MergedAppend(snap: Snapshot, xs: seq<MetadataSource>, ys: seq<MetadataSource>)
    ensures MergedAnnotations(snap, xs).Err? ==> MergedAnnotations(snap, xs + ys) == MergedAnnotations(snap, xs)
    ensures MergedAnnotations(snap, xs).Ok? && MergedAnnotations(snap, ys).Err? ==>
      MergedAnnotations(snap, xs + ys) == MergedAnnotations(snap, ys)
    ensures MergedAnnotations(snap, xs).Ok? && MergedAnnotations(snap, ys).Ok? ==>
      MergedAnnotations(snap, xs + ys) == Ok(MergedAnnotations(snap, xs).value + MergedAnnotations(snap, ys).value)
    decreases |ys|
  {
    if ys == [] {
      assert xs + ys == xs;
      if MergedAnnotations(snap, xs).Ok? {
        var m := MergedAnnotations(snap, xs).value;
        assert m + map[] == m;
      }
    } else {
      var ys' := ys[..|ys| - 1];
      assert (xs + ys)[..|xs + ys| - 1] == xs + ys';
      assert (xs + ys)[|xs + ys| - 1] == ys[|ys| - 1];
      MergedAppend(snap, xs, ys');
      if MergedAnnotations(snap, xs).Ok? && MergedAnnotations(snap, ys').Ok? {
        var m := MergedAnnotations(snap, xs).value;
        var n := MergedAnnotations(snap, ys').value;
        var last := ys[|ys| - 1];
        if last.kind == VirtualServiceKind {
          var key := NamespacedName(last.namespace, last.name);
          if key in snap.virtualServices {
            var v := snap.virtualServices[key].annotations;
            assert (m + n) + v == m + (n + v);
          }
        }
      }
    }
  }

  /** Of two merged runs, a key set by the later run takes its value there, and any other key keeps the earlier value. */
  lemma MergedLaterWins(snap: Snapshot, xs: seq<MetadataSource>, ys: seq<MetadataSource>, key: string)
    requires MergedAnnotations(snap, xs).Ok? && MergedAnnotations(snap, ys).Ok?
    ensures var all := MergedAnnotations(snap, xs + ys);
      && all.Ok?
      && (key in all.value <==> key in MergedAnnotations(snap, xs).value || key in MergedAnnotations(snap, ys).value)
      && (key in MergedAnnotations(snap, ys).value ==> all.value[key] == MergedAnnotations(snap, ys).value[key])
      && (key !in MergedAnnotations(snap, ys).value && key in MergedAnnotations(snap, xs).value ==>
            all.value[key] == MergedAnnotations(snap, xs).value[key])
  {
    MergedAppend(snap, xs, ys);
  }

  /** Every merged annotation comes from a VirtualService the sources reference. */
  lemma {:induction false} MergedOrigin(snap: Snapshot, sources: seq<MetadataSource>, key: string)
    requires MergedAnnotations(snap, sources).Ok? && key in MergedAnnotations(snap, sources).value
    ensures exists i | 0 <= i < |sources| ::
      && sources[i].kind == VirtualServiceKind
      && NamespacedName(sources[i].namespace, sources[i].name) in snap.virtualServices
      && key in snap.virtualServices[NamespacedName(sources[i].namespace, sources[i].name)].annotations
    decreases |sources|
  {
    var init := sources[..|sources| - 1];
    var last := sources[|sources| - 1];
    if last.kind == VirtualServiceKind &&
       key in snap.virtualServices[NamespacedName(last.namespace, last.name)].annotations {
    } else {
      MergedOrigin(snap, init, key);
      var i :| 0 <= i < |init| && init[i].kind == VirtualServiceKind
        && NamespacedName(init[i].namespace, init[i].name) in snap.virtualServices
        && key in snap.virtualServices[NamespacedName(init[i].namespace, init[i].name)].annotations;
      assert init[i] == sources[i];
    }
  }

  // ----- virtual hosts, listeners, proxies -----

  /** A virtual host fails when its merge fails or when the merged TTL does not parse; otherwise
      each domain, trailing dot trimmed, gets the targets with the merged metadata. */
  lemma GlooVirtualHost(h: Helpers, snap: Snapshot, vhost: VirtualHost, targets: seq<string>)
    ensures MergedAnnotations(snap, vhost.sources).Err? ==>
      VirtualHostEndpoints(GlooProxy, h, snap, vhost, targets) == Err(MergedAnnotations(snap, vhost.sources).error)
    ensures MergedAnnotations(snap, vhost.sources).Ok? ==>
      var annotations := MergedAnnotations(snap, vhost.sources).value;
      var ttl := h.ttlFromAnnotations(annotations);
      var provider := h.providerSpecificFromAnnotations(annotations);
      var md := Metadata(ttl.seconds, provider.properties, provider.setIdentifier);
      && (ttl.error.Some? ==> VirtualHostEndpoints(GlooProxy, h, snap, vhost, targets) == Err(InvalidTTL(ttl.error.value)))
      && (ttl.error.None? ==>
            && VirtualHostEndpoints(GlooProxy, h, snap, vhost, targets) == Ok(ForHostnames(TrimDots(vhost.domains), targets, md, h.isIP))
            && Carries(VirtualHostEndpoints(GlooProxy, h, snap, vhost, targets).value, md)
            && forall e | e in VirtualHostEndpoints(GlooProxy, h, snap, vhost, targets).value ::
                 exists d | d in vhost.domains :: e.dnsName == TrimDot(d))
  {
    if MergedAnnotations(snap, vhost.sources).Ok? {
      var annotations := MergedAnnotations(snap, vhost.sources).value;
      var ttl := h.ttlFromAnnotations(annotations);
      var provider := h.providerSpecificFromAnnotations(annotations);
      var md := Metadata(ttl.seconds, provider.properties, provider.setIdentifier);
      if ttl.error.None? {
        var names := TrimDots(vhost.domains);
        ForHostnamesCarries(names, targets, md, h.isIP);
        ForHostnamesMembers(names, targets, md, h.isIP);
        forall e | e in ForHostnames(names, targets, md, h.isIP)
          ensures exists d | d in vhost.domains :: e.dnsName == TrimDot(d)
        {
          var i :| 0 <= i < |names| && names[i] == e.dnsName;
          assert vhost.domains[i] in vhost.domains;
        }
      }
    }
  }

  /** Each virtual host's result, in order. */
  function HostSteps(a: Adapter, h: Helpers, snap: Snapshot, vhosts: seq<VirtualHost>, targets: seq<string>): (steps: seq<Result<seq<Endpoint>>>)
    ensures |steps| == |vhosts|
  {
    seq(|vhosts|, i requires 0 <= i < |vhosts| => VirtualHostEndpoints(a, h, snap, vhosts[i], targets))
  }

  /** Each listener's result, in order. */
  function ListenerSteps(a: Adapter, h: Helpers, snap: Snapshot, listeners: seq<Listener>, targets: seq<string>): (steps: seq<Result<seq<Endpoint>>>)
    ensures |steps| == |listeners|
  {
    seq(|listeners|, i requires 0 <= i < |listeners| => ListenerEndpoints(a, h, snap, listeners[i].virtualHosts, targets))
  }

  /** A listener's endpoints are its virtual hosts' endpoints appended in order, the first failure aborting. */
  lemma {:induction false} ListenerIsConcat(a: Adapter, h: Helpers, snap: Snapshot, vhosts: seq<VirtualHost>, targets: seq<string>)
    ensures ListenerEndpoints(a, h, snap, vhosts, targets) == Concat(HostSteps(a, h, snap, vhosts, targets))
    decreases |vhosts|
  {
    if vhosts != [] {
      var init := vhosts[..|vhosts| - 1];
      ListenerIsConcat(a, h, snap, init, targets);
      var steps := HostSteps(a, h, snap, vhosts, targets);
      assert steps[..|steps| - 1] == HostSteps(a, h, snap, init, targets);
    }
  }

  /** A Proxy's endpoints are its listeners' endpoints appended in order, the first failure aborting. */
  lemma {:induction false} ProxyIsConcat(a: Adapter, h: Helpers, snap: Snapshot, listeners: seq<Listener>, targets: seq<string>)
    ensures ProxyEndpoints(a, h, snap, listeners, targets) == Concat(ListenerSteps(a, h, snap, listeners, targets))
    decreases |listeners|
  {
    if listeners != [] {
      var init := listeners[..|listeners| - 1];
      ProxyIsConcat(a, h, snap, init, targets);
      var steps := ListenerSteps(a, h, snap, listeners, targets);
      assert steps[..|steps| - 1] == ListenerSteps(a, h, snap, init, targets);
    }
  }

  /** Virtual hosts are translated in order: the endpoints of `xs + ys` are those of `xs`, then
      those of `ys`, and the first failure wins. */
  lemma ListenerAppend(a: Adapter, h: Helpers, snap: Snapshot, xs: seq<VirtualHost>, ys: seq<VirtualHost>, targets: seq<string>)
    ensures ListenerEndpoints(a, h, snap, xs, targets).Err? ==>
      ListenerEndpoints(a, h, snap, xs + ys, targets) == ListenerEndpoints(a, h, snap, xs, targets)
    ensures ListenerEndpoints(a, h, snap, xs, targets).Ok? && ListenerEndpoints(a, h, snap, ys, targets).Err? ==>
      ListenerEndpoints(a, h, snap, xs + ys, targets) == ListenerEndpoints(a, h, snap, ys, targets)
    ensures ListenerEndpoints(a, h, snap, xs, targets).Ok? && ListenerEndpoints(a, h, snap, ys, targets).Ok? ==>
      ListenerEndpoints(a, h, snap, xs + ys, targets) ==
        Ok(ListenerEndpoints(a, h, snap, xs, targets).value + ListenerEndpoints(a, h, snap, ys, targets).value)
  {
    ListenerIsConcat(a, h, snap, xs, targets);
    ListenerIsConcat(a, h, snap, ys, targets);
    ListenerIsConcat(a, h, snap, xs + ys, targets);
    var s1 := HostSteps(a, h, snap, xs, targets);
    var s2 := HostSteps(a, h, snap, ys, targets);
    var both := HostSteps(a, h, snap, xs + ys, targets);
    forall i | 0 <= i < |both|
      ensures both[i] == (s1 + s2)[i]
    {
      if i < |xs| {
        assert (xs + ys)[i] == xs[i];
      } else {
        assert (xs + ys)[i] == ys[i - |xs|];
      }
    }
    assert both == s1 + s2;
    ConcatAppend(s1, s2);
  }

  /** Listeners are translated in order, like the virtual hosts inside each. */
  lemma ProxyAppend(a: Adapter, h: Helpers, snap: Snapshot, xs: seq<Listener>, ys: seq<Listener>, targets: seq<string>)
    ensures ProxyEndpoints(a, h, snap, xs, targets).Err? ==>
      ProxyEndpoints(a, h, snap, xs + ys, targets) == ProxyEndpoints(a, h, snap, xs, targets)
    ensures ProxyEndpoints(a, h, snap, xs, targets).Ok? && ProxyEndpoints(a, h, snap, ys, targets).Err? ==>
      ProxyEndpoints(a, h, snap, xs + ys, targets) == ProxyEndpoints(a, h, snap, ys, targets)
    ensures ProxyEndpoints(a, h, snap, xs, targets).Ok? && ProxyEndpoints(a, h, snap, ys, targets).Ok? ==>
      ProxyEndpoints(a, h, snap, xs + ys, targets) ==
        Ok(ProxyEndpoints(a, h, snap, xs, targets).value + ProxyEndpoints(a, h, snap, ys, targets).value)
  {
    ProxyIsConcat(a, h, snap, xs, targets);
    ProxyIsConcat(a, h, snap, ys, targets);
    ProxyIsConcat(a, h, snap, xs + ys, targets);
    var s1 := ListenerSteps(a, h, snap, xs, targets);
    var s2 := ListenerSteps(a, h, snap, ys, targets);
    var both := ListenerSteps(a, h, snap, xs + ys, targets);
    forall i | 0 <= i < |both|
      ensures both[i] == (s1 + s2)[i]
    {
      if i < |xs| {
        assert (xs + ys)[i] == xs[i];
      } else {
        assert (xs + ys)[i] == ys[i - |xs|];
      }
    }
    assert both == s1 + s2;
    ConcatAppend(s1, s2);
  }

  /** A listener that succeeds with no targets yields no endpoint. */
  lemma {:induction false} ListenerNoTargets(a: Adapter, h: Helpers, snap: Snapshot, vhosts: seq<VirtualHost>)
    requires ListenerEndpoints(a, h, snap, vhosts, []).Ok?
    ensures ListenerEndpoints(a, h, snap, vhosts, []).value == []
    decreases |vhosts|
  {
    if vhosts != [] {
      var vh := vhosts[|vhosts| - 1];
      ListenerNoTargets(a, h, snap, vhosts[..|vhosts| - 1]);
      var annotations := MergedAnnotations(snap, vh.sources).value;
      ForHostnamesNoTargets(TrimDots(vh.domains), MetadataFor(a, h, annotations).value, h.isIP);
    }
  }

  /** A Proxy that succeeds with no targets yields no endpoint. */
  lemma {:induction false} ProxyNoTargets(a: Adapter, h: Helpers, snap: Snapshot, listeners: seq<Listener>)
    requires ProxyEndpoints(a, h, snap, listeners, []).Ok?
    ensures ProxyEndpoints(a, h, snap, listeners, []).value == []
    decreases |listeners|
  {
    if listeners != [] {
      ProxyNoTargets(a, h, snap, listeners[..|listeners| - 1]);
      ListenerNoTargets(a, h, snap, listeners[|listeners| - 1].virtualHosts);
    }
  }

  /** A listener succeeds exactly when each of its virtual hosts does. */
  lemma {:induction false} ListenerOk(h: Helpers, snap: Snapshot, vhosts: seq<VirtualHost>, targets: seq<string>)
    ensures ListenerEndpoints(GlooProxy, h, snap, vhosts, targets).Ok? <==>
      forall i | 0 <= i < |vhosts| :: VirtualHostEndpoints(GlooProxy, h, snap, vhosts[i], targets).Ok?
    decreases |vhosts|
  {
    if vhosts != [] {
      var init := vhosts[..|vhosts| - 1];
      ListenerOk(h, snap, init, targets);
      assert forall i | 0 <= i < |init| :: init[i] == vhosts[i];
    }
  }

  /** A Proxy whose Service is found contributes its virtual hosts' endpoints, unlabelled; an
      error in any virtual host aborts. */
  lemma GlooResourceEndpoints(cfg: Config, h: Helpers, snap: Snapshot, r: Resource)
    requires ResolvedTargets(GlooProxy, cfg, snap, r).Ok?
    ensures ResourceEndpoints(GlooProxy, cfg, h, snap, r) ==
      ProxyEndpoints(GlooProxy, h, snap, r.listeners, ResolvedTargets(GlooProxy, cfg, snap, r).value)
  {
  }

  /** A pass does not sort targets and leaves every endpoint unlabelled. */
  lemma GlooPass(cfg: Config, h: Helpers, snap: Snapshot, rs: seq<Resource>)
    ensures Pass(GlooProxy, cfg, h, snap, rs) == Collect(GlooProxy, cfg, h, snap, rs)
    ensures Pass(GlooProxy, cfg, h, snap, rs).Ok? ==>
      forall e | e in Pass(GlooProxy, cfg, h, snap, rs).value :: e.labels == map[] && e.targets != []
  {
    if Collect(GlooProxy, cfg, h, snap, rs).Ok? {
      forall e | e in Collect(GlooProxy, cfg, h, snap, rs).value
        ensures e.labels == map[] && e.targets != []
      {
        CollectMembers(GlooProxy, cfg, h, snap, rs, e);
        var i :| 0 <= i < |rs| && ResourceEndpoints(GlooProxy, cfg, h, snap, rs[i]).Ok?
          && e in ResourceEndpoints(GlooProxy, cfg, h, snap, rs[i]).value;
        ResourceEndpointsLabels(GlooProxy, cfg, h, snap, rs[i]);
      }
    }
  }
}
