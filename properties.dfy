/** Properties of the pass that hold for every adapter: batch order, abort on the first error,
    skipped objects contribute nothing, the exact labels an object's endpoints carry, and the
    final sort. */
module Properties {
  import opened Types
  import opened Strings
  import opened Synthesis
  import opened Pipeline

  // ----- batch order and errors -----

  /** Appending contributions: an error in the first part is the result; otherwise the first
      error of the second part; otherwise both parts' endpoints, first part first. */
  lemma {:induction false} ConcatAppend(s1: seq<Result<seq<Endpoint>>>, s2: seq<Result<seq<Endpoint>>>)
    ensures Concat(s1).Err? ==> Concat(s1 + s2) == Concat(s1)
    ensures Concat(s1).Ok? && Concat(s2).Err? ==> Concat(s1 + s2) == Concat(s2)
    ensures Concat(s1).Ok? && Concat(s2).Ok? ==> Concat(s1 + s2) == Ok(Concat(s1).value + Concat(s2).value)
    decreases |s2|
  {
    if s2 == [] {
      assert s1 + s2 == s1;
      if Concat(s1).Ok? {
        assert Concat(s1).value + [] == Concat(s1).value;
      }
    } else {
      var init := s2[..|s2| - 1];
      assert (s1 + s2)[..|s1 + s2| - 1] == s1 + init;
      assert (s1 + s2)[|s1 + s2| - 1] == s2[|s2| - 1];
      ConcatAppend(s1, init);
      if Concat(s1).Ok? && Concat(init).Ok? && s2[|s2| - 1].Ok? {
        assert (Concat(s1).value + Concat(init).value) + s2[|s2| - 1].value
          == Concat(s1).value + (Concat(init).value + s2[|s2| - 1].value);
      }
    }
  }

  lemma {:induction false} ConcatOk(steps: seq<Result<seq<Endpoint>>>)
    ensures Concat(steps).Ok? <==> forall i | 0 <= i < |steps| :: steps[i].Ok?
    decreases |steps|
  {
    if steps != [] {
      var init := steps[..|steps| - 1];
      ConcatOk(init);
      assert forall i | 0 <= i < |init| :: init[i] == steps[i];
    }
  }

  lemma {:induction false} ConcatMembers(steps: seq<Result<seq<Endpoint>>>, e: Endpoint)
    requires Concat(steps).Ok? && e in Concat(steps).value
    ensures exists i | 0 <= i < |steps| :: steps[i].Ok? && e in steps[i].value
    decreases |steps|
  {
    var init := steps[..|steps| - 1];
    if e in Concat(init).value {
      ConcatMembers(init, e);
      var i :| 0 <= i < |init| && init[i].Ok? && e in init[i].value;
      assert init[i] == steps[i];
    }
  }

  /** The pass over two batches is the pass over the first, then the pass over the second;
      an error in the first batch is the result, whatever the second holds. */
  lemma CollectAppend(a: Adapter, cfg: Config, h: Helpers, snap: Snapshot, rs1: seq<Resource>, rs2: seq<Resource>)
    ensures Collect(a, cfg, h, snap, rs1).Err? ==> Collect(a, cfg, h, snap, rs1 + rs2) == Collect(a, cfg, h, snap, rs1)
    ensures Collect(a, cfg, h, snap, rs1).Ok? && Collect(a, cfg, h, snap, rs2).Err? ==>
      Collect(a, cfg, h, snap, rs1 + rs2) == Collect(a, cfg, h, snap, rs2)
    ensures Collect(a, cfg, h, snap, rs1).Ok? && Collect(a, cfg, h, snap, rs2).Ok? ==>
      Collect(a, cfg, h, snap, rs1 + rs2) == Ok(Collect(a, cfg, h, snap, rs1).value + Collect(a, cfg, h, snap, rs2).value)
  {
    assert Contributions(a, cfg, h, snap, rs1 + rs2) == Contributions(a, cfg, h, snap, rs1) + Contributions(a, cfg, h, snap, rs2);
    ConcatAppend(Contributions(a, cfg, h, snap, rs1), Contributions(a, cfg, h, snap, rs2));
  }

  /** A pass succeeds exactly when every object's contribution does. */
  lemma CollectOk(a: Adapter, cfg: Config, h: Helpers, snap: Snapshot, rs: seq<Resource>)
    ensures Collect(a, cfg, h, snap, rs).Ok? <==> forall i | 0 <= i < |rs| :: ResourceEndpoints(a, cfg, h, snap, rs[i]).Ok?
  {
    var steps := Contributions(a, cfg, h, snap, rs);
    ConcatOk(steps);
    assert forall i | 0 <= i < |rs| :: steps[i] == ResourceEndpoints(a, cfg, h, snap, rs[i]);
  }

  /** The first object whose contribution fails decides the result: the pass returns that error
      and no endpoints. */
  lemma CollectFirstError(a: Adapter, cfg: Config, h: Helpers, snap: Snapshot, rs: seq<Resource>, k: nat)
    requires k < |rs|
    requires forall i | 0 <= i < k :: ResourceEndpoints(a, cfg, h, snap, rs[i]).Ok?
    requires ResourceEndpoints(a, cfg, h, snap, rs[k]).Err?
    ensures Collect(a, cfg, h, snap, rs) == Err(ResourceEndpoints(a, cfg, h, snap, rs[k]).error)
    ensures Pass(a, cfg, h, snap, rs) == Err(ResourceEndpoints(a, cfg, h, snap, rs[k]).error)
  {
    var steps := Contributions(a, cfg, h, snap, rs);
    var prefix := steps[..k];
    ConcatOk(prefix);
    assert steps[..k + 1][..k] == prefix;
    ConcatStopsAtFailure(steps, k + 1);
  }

  /** Every endpoint of the pass comes from one of the objects. */
  lemma CollectMembers(a: Adapter, cfg: Config, h: Helpers, snap: Snapshot, rs: seq<Resource>, e: Endpoint)
    requires Collect(a, cfg, h, snap, rs).Ok? && e in Collect(a, cfg, h, snap, rs).value
    ensures exists i | 0 <= i < |rs| ::
      ResourceEndpoints(a, cfg, h, snap, rs[i]).Ok? && e in ResourceEndpoints(a, cfg, h, snap, rs[i]).value
  {
    ConcatMembers(Contributions(a, cfg, h, snap, rs), e);
  }

  /** The objects that pass the filters. */
  function AdmittedOnly(a: Adapter, cfg: Config, rs: seq<Resource>): (r: seq<Resource>)
    ensures forall x | x in r :: x in rs && Admitted(a, cfg, x)
    decreases |rs|
  {
    if rs == [] then []
    else AdmittedOnly(a, cfg, rs[..|rs| - 1]) + (if Admitted(a, cfg, rs[|rs| - 1]) then [rs[|rs| - 1]] else [])
  }

  /** One more object: its contribution is appended, or its error (or an earlier one) is the result. */
  lemma CollectSnoc(a: Adapter, cfg: Config, h: Helpers, snap: Snapshot, rs: seq<Resource>, x: Resource)
    ensures Collect(a, cfg, h, snap, rs + [x]) ==
      var prev := Collect(a, cfg, h, snap, rs);
      var step := ResourceEndpoints(a, cfg, h, snap, x);
      if prev.Err? then prev else if step.Err? then step else Ok(prev.value + step.value)
  {
    var steps := Contributions(a, cfg, h, snap, rs + [x]);
    assert steps[..|rs|] == Contributions(a, cfg, h, snap, rs);
    assert steps[|rs|] == ResourceEndpoints(a, cfg, h, snap, x);
  }

  /** Objects that fail a filter are skipped: the pass is the pass over the admitted objects alone. */
  lemma {:induction false} CollectSkipsFiltered(a: Adapter, cfg: Config, h: Helpers, snap: Snapshot, rs: seq<Resource>)
    ensures Collect(a, cfg, h, snap, rs) == Collect(a, cfg, h, snap, AdmittedOnly(a, cfg, rs))
    decreases |rs|
  {
    if rs != [] {
      var init := rs[..|rs| - 1];
      var x := rs[|rs| - 1];
      assert init + [x] == rs;
      CollectSkipsFiltered(a, cfg, h, snap, init);
      CollectSnoc(a, cfg, h, snap, init, x);
      if Admitted(a, cfg, x) {
        CollectSnoc(a, cfg, h, snap, AdmittedOnly(a, cfg, init), x);
      } else {
        assert ResourceEndpoints(a, cfg, h, snap, x) == Ok([]);
        assert AdmittedOnly(a, cfg, rs) == AdmittedOnly(a, cfg, init);
        if Collect(a, cfg, h, snap, init).Ok? {
          assert Collect(a, cfg, h, snap, init).value + [] == Collect(a, cfg, h, snap, init).value;
        }
      }
    }
  }

  // ----- endpoints before labelling -----

  /** Endpoints straight out of synthesis: at least one target, no labels yet. */
  predicate Unlabelled(eps: seq<Endpoint>) {
    forall e | e in eps :: e.labels == map[] && e.targets != []
  }

  lemma {:induction false} ListenerUnlabelled(a: Adapter, h: Helpers, snap: Snapshot, vhosts: seq<VirtualHost>, targets: seq<string>)
    requires ListenerEndpoints(a, h, snap, vhosts, targets).Ok?
    ensures Unlabelled(ListenerEndpoints(a, h, snap, vhosts, targets).value)
    decreases |vhosts|
  {
    if vhosts != [] {
      var vh := vhosts[|vhosts| - 1];
      ListenerUnlabelled(a, h, snap, vhosts[..|vhosts| - 1], targets);
      var ann := MergedAnnotations(snap, vh.sources).value;
      ForHostnamesMembers(TrimDots(vh.domains), targets, MetadataFor(a, h, ann).value, h.isIP);
    }
  }

  lemma {:induction false} ProxyUnlabelled(a: Adapter, h: Helpers, snap: Snapshot, listeners: seq<Listener>, targets: seq<string>)
    requires ProxyEndpoints(a, h, snap, listeners, targets).Ok?
    ensures Unlabelled(ProxyEndpoints(a, h, snap, listeners, targets).value)
    decreases |listeners|
  {
    if listeners != [] {
      ProxyUnlabelled(a, h, snap, listeners[..|listeners| - 1], targets);
      ListenerUnlabelled(a, h, snap, listeners[|listeners| - 1].virtualHosts, targets);
    }
  }

  lemma NativeUnlabelled(a: Adapter, cfg: Config, h: Helpers, snap: Snapshot, r: Resource, targets: seq<string>)
    requires NativeEndpoints(a, cfg, h, snap, r, targets).Ok?
    ensures Unlabelled(NativeEndpoints(a, cfg, h, snap, r, targets).value)
  {
    if a.hostnameSource.VirtualHostDomains? {
      ProxyUnlabelled(a, h, snap, r.listeners, targets);
    } else {
      ForHostnamesMembers(Hostnames(a, cfg, r), targets, MetadataFor(a, h, r.annotations).value, h.isIP);
    }
  }

  lemma WithTemplateUnlabelled(a: Adapter, cfg: Config, h: Helpers, r: Resource, targets: seq<string>, native: seq<Endpoint>)
    requires Unlabelled(native)
    requires WithTemplate(a, cfg, h, r, targets, native).Ok?
    ensures Unlabelled(WithTemplate(a, cfg, h, r, targets, native).value)
  {
    if TemplateApplies(a, cfg, native) {
      var text := cfg.fqdnTemplate.value(r).value;
      ForHostnamesMembers(SplitTrimmed(text), targets, MetadataFor(a, h, r.annotations).value, h.isIP);
    }
  }

  // ----- labels -----

  /** The labels every endpoint of an object ends up with: the provenance label when the
      adapter sets one, and the dual-stack label when the object asks for it. */
  function ExpectedLabels(a: Adapter, r: Resource): map<string, string> {
    (if a.resourceLabel.Some? then map[ResourceLabelKey := ResourceLabelValue(a.resourceLabel.value, r)] else map[])
      + (if DualstackRequested(a, r) then map[DualstackLabelKey := "true"] else map[])
  }

  /** Labelling changes only the labels, and turns unlabelled endpoints into endpoints carrying exactly the expected labels. */
  lemma LabelledSpec(a: Adapter, r: Resource, eps: seq<Endpoint>)
    requires Unlabelled(eps)
    ensures |Labelled(a, r, eps)| == |eps|
    ensures forall i | 0 <= i < |eps| ::
      Labelled(a, r, eps)[i] == eps[i].(labels := ExpectedLabels(a, r))
  {
    var l := Labelled(a, r, eps);
    forall i | 0 <= i < |eps|
      ensures l[i] == eps[i].(labels := ExpectedLabels(a, r))
    {
      assert eps[i] in eps;
      assert eps[i].labels == map[];
      var res := if a.resourceLabel.Some? then map[ResourceLabelKey := ResourceLabelValue(a.resourceLabel.value, r)] else map[];
      var dual := if DualstackRequested(a, r) then map[DualstackLabelKey := "true"] else map[];
      assert l[i].labels == res + dual;
    }
  }

  /** Every endpoint an object contributes carries exactly the expected labels and targets. */
  lemma ResourceEndpointsLabels(a: Adapter, cfg: Config, h: Helpers, snap: Snapshot, r: Resource)
    requires ResourceEndpoints(a, cfg, h, snap, r).Ok?
    ensures forall e | e in ResourceEndpoints(a, cfg, h, snap, r).value ::
      e.labels == ExpectedLabels(a, r) && e.targets != []
  {
    if Admitted(a, cfg, r) {
      var targets := ResolvedTargets(a, cfg, snap, r).value;
      var native := NativeEndpoints(a, cfg, h, snap, r, targets).value;
      NativeUnlabelled(a, cfg, h, snap, r, targets);
      WithTemplateUnlabelled(a, cfg, h, r, targets, native);
      var eps := WithTemplate(a, cfg, h, r, targets, native).value;
      if eps != [] {
        LabelledSpec(a, r, eps);
        forall e | e in Labelled(a, r, eps) ensures e.labels == ExpectedLabels(a, r) && e.targets != [] {
          var i :| 0 <= i < |eps| && Labelled(a, r, eps)[i] == e;
          assert eps[i] in eps;
        }
      }
    }
  }

  /** Over a whole pass: each endpoint carries the labels expected of the object it came from. */
  lemma PassLabels(a: Adapter, cfg: Config, h: Helpers, snap: Snapshot, rs: seq<Resource>, e: Endpoint)
    requires Collect(a, cfg, h, snap, rs).Ok? && e in Collect(a, cfg, h, snap, rs).value
    ensures exists i | 0 <= i < |rs| :: e.labels == ExpectedLabels(a, rs[i])
  {
    CollectMembers(a, cfg, h, snap, rs, e);
    var i :| 0 <= i < |rs| && ResourceEndpoints(a, cfg, h, snap, rs[i]).Ok? && e in ResourceEndpoints(a, cfg, h, snap, rs[i]).value;
    ResourceEndpointsLabels(a, cfg, h, snap, rs[i]);
  }

  /** Labelling changes nothing but the labels. */
  lemma LabelledKeeps(a: Adapter, r: Resource, eps: seq<Endpoint>)
    ensures |Labelled(a, r, eps)| == |eps|
    ensures forall i | 0 <= i < |eps| :: Labelled(a, r, eps)[i].(labels := eps[i].labels) == eps[i]
  {
  }

  // ----- shared metadata -----

  /** Every endpoint carries the given TTL, provider-specific properties and set identifier. */
  predicate Carries(eps: seq<Endpoint>, md: Metadata) {
    forall e | e in eps :: e.recordTTL == md.ttl && e.providerSpecific == md.providerSpecific && e.setIdentifier == md.setIdentifier
  }

  lemma ForHostnamesCarries(hostnames: seq<string>, targets: seq<string>, md: Metadata, isIP: string -> bool)
    ensures Carries(ForHostnames(hostnames, targets, md, isIP), md)
  {
    ForHostnamesMembers(hostnames, targets, md, isIP);
  }

  lemma LabelledCarries(a: Adapter, r: Resource, eps: seq<Endpoint>, md: Metadata)
    requires Carries(eps, md)
    ensures Carries(Labelled(a, r, eps), md)
  {
    LabelledKeeps(a, r, eps);
    forall e | e in Labelled(a, r, eps)
      ensures e.recordTTL == md.ttl && e.providerSpecific == md.providerSpecific && e.setIdentifier == md.setIdentifier
    {
      var i :| 0 <= i < |eps| && Labelled(a, r, eps)[i] == e;
      assert eps[i] in eps;
    }
  }

  /** Outside Gloo, all endpoints of an object, native and templated alike, share the metadata
      of the object's annotations. */
  lemma ResourceEndpointsMetadata(a: Adapter, cfg: Config, h: Helpers, snap: Snapshot, r: Resource)
    requires !a.hostnameSource.VirtualHostDomains?
    requires MetadataFor(a, h, r.annotations).Ok?
    requires ResourceEndpoints(a, cfg, h, snap, r).Ok?
    ensures Carries(ResourceEndpoints(a, cfg, h, snap, r).value, MetadataFor(a, h, r.annotations).value)
  {
    var md := MetadataFor(a, h, r.annotations).value;
    if Admitted(a, cfg, r) {
      var targets := ResolvedTargets(a, cfg, snap, r).value;
      var native := ForHostnames(Hostnames(a, cfg, r), targets, md, h.isIP);
      ForHostnamesCarries(Hostnames(a, cfg, r), targets, md, h.isIP);
      var eps := WithTemplate(a, cfg, h, r, targets, native).value;
      if TemplateApplies(a, cfg, native) {
        var tmpl := ForHostnames(SplitTrimmed(cfg.fqdnTemplate.value(r).value), targets, md, h.isIP);
        ForHostnamesCarries(SplitTrimmed(cfg.fqdnTemplate.value(r).value), targets, md, h.isIP);
        assert forall e | e in native + tmpl :: e in native || e in tmpl;
      }
      assert Carries(eps, md);
      if eps != [] {
        LabelledCarries(a, r, eps, md);
      }
    }
  }

  // ----- sorting -----

  /** A pass that sorts returns the collected endpoints in the same order, each with its targets
      sorted and otherwise unchanged; a pass that does not sort returns them as collected. */
  lemma PassSorting(a: Adapter, cfg: Config, h: Helpers, snap: Snapshot, rs: seq<Resource>)
    ensures Pass(a, cfg, h, snap, rs).Ok? <==> Collect(a, cfg, h, snap, rs).Ok?
    ensures Collect(a, cfg, h, snap, rs).Err? ==> Pass(a, cfg, h, snap, rs) == Collect(a, cfg, h, snap, rs)
    ensures !a.sortTargets ==> Pass(a, cfg, h, snap, rs) == Collect(a, cfg, h, snap, rs)
    ensures a.sortTargets && Collect(a, cfg, h, snap, rs).Ok? ==>
      var all := Collect(a, cfg, h, snap, rs).value;
      var out := Pass(a, cfg, h, snap, rs).value;
      && |out| == |all|
      && forall i | 0 <= i < |all| ::
        && Sorted(out[i].targets)
        && multiset(out[i].targets) == multiset(all[i].targets)
        && out[i].(targets := all[i].targets) == all[i]
  {
  }

  /** The sort is canonical: any sorted rearrangement of an endpoint's targets (such as the one
      Go's unstable sort produces) is the one the model computes. */
  lemma SortIsCanonical(targets: seq<string>, other: seq<string>)
    requires Sorted(other) && multiset(other) == multiset(targets)
    ensures Sort(targets) == other
  {
    SortedPermutationsAreEqual(Sort(targets), other);
  }

  /** Each endpoint of a pass carries the labels expected of the object it came from, and,
      when the adapter sorts, sorted targets. */
  lemma PassMembers(a: Adapter, cfg: Config, h: Helpers, snap: Snapshot, rs: seq<Resource>, e: Endpoint)
    requires Pass(a, cfg, h, snap, rs).Ok? && e in Pass(a, cfg, h, snap, rs).value
    ensures a.sortTargets ==> Sorted(e.targets)
    ensures exists i | 0 <= i < |rs| :: e.labels == ExpectedLabels(a, rs[i])
  {
    PassSorting(a, cfg, h, snap, rs);
    var all := Collect(a, cfg, h, snap, rs).value;
    var out := Pass(a, cfg, h, snap, rs).value;
    var j :| 0 <= j < |out| && out[j] == e;
    assert all[j] in all;
    PassLabels(a, cfg, h, snap, rs, all[j]);
    assert e.labels == all[j].labels;
  }
}
