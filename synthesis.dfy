/** Endpoint synthesis shared by every adapter: target lists from load-balancer status,
    the endpoints of one hostname, the annotation helpers, labels and the target sort. */
module Synthesis {
  import opened Types
  import opened Strings

  // ----- targets -----

  /** The targets of one load-balancer ingress entry: its IP, then its hostname, each only if set. */
  function IngressTargets(lb: LoadBalancerIngress): seq<string> {
    (if lb.ip != "" then [lb.ip] else []) + (if lb.hostname != "" then [lb.hostname] else [])
  }

  /** The targets of a `status.loadBalancer.ingress` list, entry by entry. */
  function LoadBalancerTargets(lbs: seq<LoadBalancerIngress>): seq<string>
    decreases |lbs|
  {
    if lbs == [] then [] else LoadBalancerTargets(lbs[..|lbs| - 1]) + IngressTargets(lbs[|lbs| - 1])
  }

  /** The loop `for _, lb := range ...Ingress { append IP; append Hostname }` of every adapter. */
  method TargetsFromLoadBalancer(lbs: seq<LoadBalancerIngress>) returns (targets: seq<string>)
    ensures targets == LoadBalancerTargets(lbs)
    ensures forall t | t in targets :: t != ""
  {
    targets := [];
    for i := 0 to |lbs|
      invariant targets == LoadBalancerTargets(lbs[..i])
      invariant forall t | t in targets :: t != ""
    {
      assert lbs[..i + 1][..i] == lbs[..i];
      if lbs[i].ip != "" {
        targets := targets + [lbs[i].ip];
      }
      if lbs[i].hostname != "" {
        targets := targets + [lbs[i].hostname];
      }
    }
    assert lbs[..|lbs|] == lbs;
  }

  /** The target list of a concatenation is the concatenation of the target lists. */
  lemma {:induction false} LoadBalancerTargetsAppend(a: seq<LoadBalancerIngress>, b: seq<LoadBalancerIngress>)
    ensures LoadBalancerTargets(a + b) == LoadBalancerTargets(a) + LoadBalancerTargets(b)
    decreases |b|
  {
    if b == [] {
      assert a + b == a;
    } else {
      var b' := b[..|b| - 1];
      assert (a + b)[..|a + b| - 1] == a + b';
      LoadBalancerTargetsAppend(a, b');
    }
  }

  /** A target is listed exactly when it is the non-empty IP or hostname of some entry. */
  lemma {:induction false} LoadBalancerTargetsMembers(lbs: seq<LoadBalancerIngress>, t: string)
    ensures t in LoadBalancerTargets(lbs) <==>
      t != "" && exists i | 0 <= i < |lbs| :: lbs[i].ip == t || lbs[i].hostname == t
    decreases |lbs|
  {
    if lbs != [] {
      var init := lbs[..|lbs| - 1];
      LoadBalancerTargetsMembers(init, t);
      if t in LoadBalancerTargets(lbs) && t !in LoadBalancerTargets(init) {
        assert lbs[|lbs| - 1].ip == t || lbs[|lbs| - 1].hostname == t;
      }
      if t != "" && exists i | 0 <= i < |lbs| :: lbs[i].ip == t || lbs[i].hostname == t {
        var i :| 0 <= i < |lbs| && (lbs[i].ip == t || lbs[i].hostname == t);
        if i < |lbs| - 1 {
          assert init[i] == lbs[i];
        }
      }
      forall i | 0 <= i < |init| ensures init[i] == lbs[i] { }
    }
  }

  // ----- annotation helpers -----

  /** getHostnamesFromAnnotations: the hostname annotation as a list, or none. */
  function HostnamesFromAnnotations(annotations: Annotations): seq<string> {
    if HostnameAnnotationKey in annotations then SplitList(annotations[HostnameAnnotationKey]) else []
  }

  /** getTargetsFromTargetAnnotation: the target annotation as a list, none when absent or empty. */
  function TargetsFromTargetAnnotation(annotations: Annotations): (targets: seq<string>)
    ensures targets == [] <==> TargetAnnotationKey !in annotations || annotations[TargetAnnotationKey] == ""
  {
    if TargetAnnotationKey in annotations && annotations[TargetAnnotationKey] != "" then
      SplitTrimmed(annotations[TargetAnnotationKey])
    else []
  }

  // ----- endpoints of one hostname -----

  /** The targets of one kind (IP or not), in their original order. */
  function OfKind(targets: seq<string>, isIP: string -> bool, ip: bool): (r: seq<string>)
    ensures forall t | t in r :: t in targets && isIP(t) == ip
    decreases |targets|
  {
    if targets == [] then []
    else (if isIP(targets[0]) == ip then [targets[0]] else []) + OfKind(targets[1..], isIP, ip)
  }

  lemma {:induction false} OfKindPartition(targets: seq<string>, isIP: string -> bool)
    ensures multiset(OfKind(targets, isIP, true)) + multiset(OfKind(targets, isIP, false)) == multiset(targets)
    decreases |targets|
  {
    if targets != [] {
      OfKindPartition(targets[1..], isIP);
      assert targets == [targets[0]] + targets[1..];
    }
  }

  lemma {:induction false} OfKindUniform(targets: seq<string>, isIP: string -> bool, ip: bool)
    requires forall t | t in targets :: isIP(t) == ip
    ensures OfKind(targets, isIP, ip) == targets && OfKind(targets, isIP, !ip) == []
    decreases |targets|
  {
    if targets != [] {
      assert targets[0] in targets;
      assert forall t | t in targets[1..] :: t in targets;
      OfKindUniform(targets[1..], isIP, ip);
      assert [targets[0]] + targets[1..] == targets;
    }
  }

  function NewEndpoint(hostname: string, targets: seq<string>, recordType: RecordType, md: Metadata): Endpoint {
    Endpoint(hostname, targets, recordType, md.ttl, md.setIdentifier, md.providerSpecific, map[])
  }

  /** Every target of every endpoint, endpoint by endpoint. */
  function AllTargets(eps: seq<Endpoint>): seq<string>
    decreases |eps|
  {
    if eps == [] then [] else eps[0].targets + AllTargets(eps[1..])
  }

  lemma {:induction false} AllTargetsAppend(a: seq<Endpoint>, b: seq<Endpoint>)
    ensures AllTargets(a + b) == AllTargets(a) + AllTargets(b)
    decreases |a|
  {
    if a != [] {
      assert (a + b)[0] == a[0];
      assert (a + b)[1..] == a[1..] + b;
      AllTargetsAppend(a[1..], b);
    } else {
      assert a + b == b;
    }
  }

  /** One endpoint of the given type holding the targets, or none when there are none. */
  function Group(hostname: string, targets: seq<string>, recordType: RecordType, md: Metadata): seq<Endpoint> {
    if targets == [] then [] else [NewEndpoint(hostname, targets, recordType, md)]
  }

  /** endpointsForHostname: one A endpoint holding the IP targets, then one CNAME endpoint
      holding the other targets, each only when it has targets; labels start empty. */
  function EndpointsForHostname(hostname: string, targets: seq<string>, md: Metadata, isIP: string -> bool): seq<Endpoint> {
    Group(hostname, OfKind(targets, isIP, true), A, md) + Group(hostname, OfKind(targets, isIP, false), CNAME, md)
  }

  /** What a hostname yields: at most two non-empty endpoints named after it with the shared
      metadata, A exactly for IP targets, and between them every target exactly once. */
  lemma EndpointsForHostnameSpec(hostname: string, targets: seq<string>, md: Metadata, isIP: string -> bool)
    ensures var eps := EndpointsForHostname(hostname, targets, md, isIP);
      && (targets == [] ==> eps == [])
      && |eps| <= 2
      && (forall e | e in eps ::
          && e.dnsName == hostname && e.targets != [] && e.labels == map[]
          && e.recordTTL == md.ttl && e.setIdentifier == md.setIdentifier && e.providerSpecific == md.providerSpecific)
      && (forall e, t | e in eps && t in e.targets :: isIP(t) == (e.recordType == A))
  {
    var ga := Group(hostname, OfKind(targets, isIP, true), A, md);
    var gc := Group(hostname, OfKind(targets, isIP, false), CNAME, md);
    assert forall e | e in ga + gc :: e in ga || e in gc;
  }

  /** Between them the endpoints of a hostname hold every target exactly as often as given. */
  lemma EndpointsForHostnameTargets(hostname: string, targets: seq<string>, md: Metadata, isIP: string -> bool)
    ensures multiset(AllTargets(EndpointsForHostname(hostname, targets, md, isIP))) == multiset(targets)
  {
    var ips := OfKind(targets, isIP, true);
    var others := OfKind(targets, isIP, false);
    OfKindPartition(targets, isIP);
    AllTargetsAppend(Group(hostname, ips, A, md), Group(hostname, others, CNAME, md));
    assert AllTargets(Group(hostname, ips, A, md)) == ips;
    assert AllTargets(Group(hostname, others, CNAME, md)) == others;
  }

  /** With targets of one kind, a hostname yields exactly one endpoint carrying all of them. */
  lemma EndpointsForHostnameUniform(hostname: string, targets: seq<string>, md: Metadata, isIP: string -> bool, ip: bool)
    requires targets != []
    requires forall t | t in targets :: isIP(t) == ip
    ensures EndpointsForHostname(hostname, targets, md, isIP)
      == [NewEndpoint(hostname, targets, if ip then A else CNAME, md)]
  {
    OfKindUniform(targets, isIP, ip);
  }

  /** The endpoints of a list of hostnames, hostname by hostname. */
  function ForHostnames(hostnames: seq<string>, targets: seq<string>, md: Metadata, isIP: string -> bool): seq<Endpoint>
    decreases |hostnames|
  {
    if hostnames == [] then []
    else
      var last := hostnames[|hostnames| - 1];
      ForHostnames(hostnames[..|hostnames| - 1], targets, md, isIP) + EndpointsForHostname(last, targets, md, isIP)
  }

  /** The loop `for _, hostname := range hostnameList { endpoints = append(endpoints, endpointsForHostname(...)...) }`. */
  method EndpointsFromHostnames(hostnames: seq<string>, targets: seq<string>, md: Metadata, isIP: string -> bool)
    returns (eps: seq<Endpoint>)
    ensures eps == ForHostnames(hostnames, targets, md, isIP)
    ensures forall e | e in eps :: e.dnsName in hostnames && e.targets != [] && e.labels == map[]
  {
    eps := [];
    for i := 0 to |hostnames|
      invariant eps == ForHostnames(hostnames[..i], targets, md, isIP)
      invariant forall e | e in eps :: e.dnsName in hostnames[..i] && e.targets != [] && e.labels == map[]
    {
      assert hostnames[..i + 1][..i] == hostnames[..i];
      EndpointsForHostnameSpec(hostnames[i], targets, md, isIP);
      eps := eps + EndpointsForHostname(hostnames[i], targets, md, isIP);
    }
    assert hostnames[..|hostnames|] == hostnames;
  }

  /** Hostname order is kept: the endpoints of `a + b` are those of `a`, then those of `b`. */
  lemma {:induction false} ForHostnamesAppend(a: seq<string>, b: seq<string>, targets: seq<string>, md: Metadata, isIP: string -> bool)
    ensures ForHostnames(a + b, targets, md, isIP) == ForHostnames(a, targets, md, isIP) + ForHostnames(b, targets, md, isIP)
    decreases |b|
  {
    if b == [] {
      assert a + b == a;
    } else {
      var b' := b[..|b| - 1];
      assert (a + b)[..|a + b| - 1] == a + b';
      ForHostnamesAppend(a, b', targets, md, isIP);
    }
  }

  /** No targets, no endpoints, whatever the hostnames. */
  lemma {:induction false} ForHostnamesNoTargets(hostnames: seq<string>, md: Metadata, isIP: string -> bool)
    ensures ForHostnames(hostnames, [], md, isIP) == []
    decreases |hostnames|
  {
    if hostnames != [] {
      ForHostnamesNoTargets(hostnames[..|hostnames| - 1], md, isIP);
    }
  }

  /** Every endpoint is named after one of the hostnames and carries the shared metadata. */
  lemma {:induction false} ForHostnamesMembers(hostnames: seq<string>, targets: seq<string>, md: Metadata, isIP: string -> bool)
    ensures forall e | e in ForHostnames(hostnames, targets, md, isIP) ::
      && e.dnsName in hostnames && e.labels == map[] && e.targets != []
      && e.recordTTL == md.ttl && e.setIdentifier == md.setIdentifier && e.providerSpecific == md.providerSpecific
    decreases |hostnames|
  {
    if hostnames != [] {
      var init := hostnames[..|hostnames| - 1];
      ForHostnamesMembers(init, targets, md, isIP);
      EndpointsForHostnameSpec(hostnames[|hostnames| - 1], targets, md, isIP);
      assert forall h | h in init :: h in hostnames;
    }
  }

  /** With targets of one kind, the endpoints are one per hostname, in hostname order,
      each carrying the whole target list (not one endpoint per target). */
  lemma {:induction false} ForHostnamesUniform(hostnames: seq<string>, targets: seq<string>, md: Metadata, isIP: string -> bool, ip: bool)
    requires targets != []
    requires forall t | t in targets :: isIP(t) == ip
    ensures |ForHostnames(hostnames, targets, md, isIP)| == |hostnames|
    ensures forall i | 0 <= i < |hostnames| ::
      ForHostnames(hostnames, targets, md, isIP)[i] == NewEndpoint(hostnames[i], targets, if ip then A else CNAME, md)
    decreases |hostnames|
  {
    if hostnames != [] {
      var init := hostnames[..|hostnames| - 1];
      ForHostnamesUniform(init, targets, md, isIP, ip);
      EndpointsForHostnameUniform(hostnames[|hostnames| - 1], targets, md, isIP, ip);
    }
  }

  // ----- labels -----

  /** Every endpoint with `labels[key] := value`. */
  function WithLabel(eps: seq<Endpoint>, key: string, value: string): seq<Endpoint> {
    seq(|eps|, i requires 0 <= i < |eps| => eps[i].(labels := eps[i].labels[key := value]))
  }

  /** The loop `for _, ep := range endpoints { ep.Labels[key] = value }`. */
  method SetLabel(eps: seq<Endpoint>, key: string, value: string) returns (labelled: seq<Endpoint>)
    ensures labelled == WithLabel(eps, key, value)
    ensures |labelled| == |eps|
    ensures forall i | 0 <= i < |eps| ::
      && key in labelled[i].labels && labelled[i].labels[key] == value
      && (forall k | k in eps[i].labels && k != key :: k in labelled[i].labels && labelled[i].labels[k] == eps[i].labels[k])
      && labelled[i].(labels := eps[i].labels) == eps[i]
  {
    labelled := eps;
    for i := 0 to |eps|
      invariant |labelled| == |eps|
      invariant forall j | 0 <= j < i :: labelled[j] == eps[j].(labels := eps[j].labels[key := value])
      invariant forall j | i <= j < |eps| :: labelled[j] == eps[j]
    {
      labelled := labelled[i := labelled[i].(labels := labelled[i].labels[key := value])];
    }
  }

  // ----- sorting -----

  /** Every endpoint with its targets sorted. */
  function SortTargets(eps: seq<Endpoint>): seq<Endpoint> {
    seq(|eps|, i requires 0 <= i < |eps| => eps[i].(targets := Sort(eps[i].targets)))
  }

  /** The loop `for _, ep := range endpoints { sort.Sort(ep.Targets) }`. */
  method SortEndpointTargets(eps: seq<Endpoint>) returns (sorted: seq<Endpoint>)
    ensures sorted == SortTargets(eps)
    ensures |sorted| == |eps|
    ensures forall i | 0 <= i < |eps| ::
      && Sorted(sorted[i].targets)
      && multiset(sorted[i].targets) == multiset(eps[i].targets)
      && sorted[i].(targets := eps[i].targets) == eps[i]
  {
    sorted := eps;
    for i := 0 to |eps|
      invariant |sorted| == |eps|
      invariant forall j | 0 <= j < i :: sorted[j] == eps[j].(targets := Sort(eps[j].targets))
      invariant forall j | i <= j < |eps| :: sorted[j] == eps[j]
    {
      sorted := sorted[i := sorted[i].(targets := Sort(sorted[i].targets))];
    }
  }

  /** Sorting acts on each endpoint separately, so it keeps the batch order. */
  lemma SortTargetsAppend(a: seq<Endpoint>, b: seq<Endpoint>)
    ensures SortTargets(a + b) == SortTargets(a) + SortTargets(b)
  {
  }
}
