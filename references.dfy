/** The two parsers of load-balancer Service references: Contour's `namespace/name`
    configuration value and Ambassador's per-Host annotation, which also accepts the
    legacy `name.namespace` form and a bare name in the default namespace. */
module References {
  import opened Types
  import opened Strings

  /** parseContourLoadBalancerService: exactly two `/`-separated parts, else an error. */
  function ParseContourLoadBalancerService(service: string): (r: Result<NamespacedName>)
  {
    var parts := Split(service, '/');
    if |parts| != 2 then Err(InvalidContourService(service))
    else Ok(NamespacedName(parts[0], parts[1]))
  }

  /** The Contour reference parses to (ns, name) exactly when it is `ns/name` with no other `/`. */
  lemma ContourServiceOk(service: string, ns: string, name: string)
    ensures ParseContourLoadBalancerService(service) == Ok(NamespacedName(ns, name))
        <==> service == ns + "/" + name && '/' !in ns && '/' !in name
  {
    if service == ns + "/" + name && '/' !in ns && '/' !in name {
      SplitAtSeparator(ns, '/', name);
      SplitWithoutSeparator(name, '/');
    }
    if ParseContourLoadBalancerService(service) == Ok(NamespacedName(ns, name)) {
      SplitInTwo(service, '/');
    }
  }

  /** It fails, naming the offending string, exactly when the string does not hold one `/`. */
  lemma ContourServiceErr(service: string)
    ensures ParseContourLoadBalancerService(service).Err? <==> Count(service, '/') != 1
    ensures ParseContourLoadBalancerService(service).Err? ==>
      ParseContourLoadBalancerService(service).error == InvalidContourService(service)
  {
    SplitCount(service, '/');
  }

  /** parseAmbLoadBalancerService: `namespace/name`, else `name.namespace` split at the
      first dot, else a bare name in the default namespace; two or more `/` is an error. */
  function ParseAmbLoadBalancerService(service: string): (r: Result<NamespacedName>)
  {
    var parts := Split(service, '/');
    if |parts| == 1 then
      var dotted := SplitFirst(service, '.');
      if |dotted| == 2 then Ok(NamespacedName(dotted[1], dotted[0]))
      else Ok(NamespacedName(NamespaceDefault, service))
    else if |parts| == 2 then Ok(NamespacedName(parts[0], parts[1]))
    else Err(InvalidAmbassadorService(service))
  }

  /** `namespace/name`; the name may itself contain dots. */
  lemma AmbSlashForm(ns: string, name: string)
    requires '/' !in ns && '/' !in name
    ensures ParseAmbLoadBalancerService(ns + "/" + name) == Ok(NamespacedName(ns, name))
  {
    SplitAtSeparator(ns, '/', name);
    SplitWithoutSeparator(name, '/');
  }

  /** Legacy `name.namespace`: only the first dot separates, so the namespace keeps the rest. */
  lemma AmbDottedForm(name: string, ns: string)
    requires '/' !in name && '/' !in ns && '.' !in name
    ensures ParseAmbLoadBalancerService(name + "." + ns) == Ok(NamespacedName(ns, name))
  {
    var s := name + "." + ns;
    assert '/' !in s;
    SplitWithoutSeparator(s, '/');
    SplitFirstAt(name, '.', ns);
  }

  /** A bare name lives in the default namespace. */
  lemma AmbBareForm(service: string)
    requires '/' !in service && '.' !in service
    ensures ParseAmbLoadBalancerService(service) == Ok(NamespacedName(NamespaceDefault, service))
  {
    SplitWithoutSeparator(service, '/');
    SplitFirstSpec(service, '.');
  }

  /** The three accepted forms are the only ways to obtain a given (namespace, name). */
  lemma AmbServiceOk(service: string, ns: string, name: string)
    ensures ParseAmbLoadBalancerService(service) == Ok(NamespacedName(ns, name)) <==>
      || (service == ns + "/" + name && '/' !in ns && '/' !in name)
      || ('/' !in service && service == name + "." + ns && '.' !in name)
      || ('/' !in service && '.' !in service && ns == NamespaceDefault && name == service)
  {
    var parts := Split(service, '/');
    SplitCount(service, '/');
    if ParseAmbLoadBalancerService(service) == Ok(NamespacedName(ns, name)) {
      if |parts| == 2 {
        SplitInTwo(service, '/');
      } else {
        assert Count(service, '/') == 0;
        SplitFirstSpec(service, '.');
      }
    }
    if service == ns + "/" + name && '/' !in ns && '/' !in name {
      AmbSlashForm(ns, name);
    } else if '/' !in service && service == name + "." + ns && '.' !in name {
      AmbDottedForm(name, ns);
    } else if '/' !in service && '.' !in service && ns == NamespaceDefault && name == service {
      AmbBareForm(service);
    }
  }

  /** More than one `/` is the only failure, and it names the annotation value. */
  lemma AmbServiceErr(service: string)
    ensures ParseAmbLoadBalancerService(service).Err? <==> Count(service, '/') >= 2
    ensures ParseAmbLoadBalancerService(service).Err? ==>
      ParseAmbLoadBalancerService(service).error == InvalidAmbassadorService(service)
  {
    SplitCount(service, '/');
  }

  /** The reference forms described for the annotation, worked through. */
  lemma AmbExampleSlash()
    ensures ParseAmbLoadBalancerService("ns1/svc1") == Ok(NamespacedName("ns1", "svc1"))
  {
    AmbSlashForm("ns1", "svc1");
    assert "ns1" + "/" + "svc1" == "ns1/svc1";
  }

  lemma AmbExampleDotted()
    ensures ParseAmbLoadBalancerService("svc1.ns1") == Ok(NamespacedName("ns1", "svc1"))
    ensures ParseAmbLoadBalancerService("svc.foo.bar") == Ok(NamespacedName("foo.bar", "svc"))
  {
    AmbDottedForm("svc1", "ns1");
    assert "svc1" + "." + "ns1" == "svc1.ns1";
    AmbDottedForm("svc", "foo.bar");
    assert "svc" + "." + "foo.bar" == "svc.foo.bar";
  }

  lemma AmbExampleBare()
    ensures ParseAmbLoadBalancerService("svc1") == Ok(NamespacedName(NamespaceDefault, "svc1"))
  {
    AmbBareForm("svc1");
  }

  lemma AmbExampleTwoSlashes()
    ensures ParseAmbLoadBalancerService("a/b/c") == Err(InvalidAmbassadorService("a/b/c"))
  {
    AmbServiceErr("a/b/c");
    assert "a/b/c" == ['a'] + ['/'] + ['b'] + ['/'] + ['c'];
    assert multiset("a/b/c")['/'] == 2;
  }
}
