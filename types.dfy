/** Values shared by every adapter: annotations, load-balancer status, endpoints,
    the cluster snapshot the lookups read, and the errors a pass can end with. */
module Types {

  type Annotations = map<string, string>

  // Annotation and label vocabulary.
  const ControllerAnnotationKey := "external-dns.alpha.kubernetes.io/controller"
  const ControllerAnnotationValue := "dns-controller"
  const HostnameAnnotationKey := "external-dns.alpha.kubernetes.io/hostname"
  const TargetAnnotationKey := "external-dns.alpha.kubernetes.io/target"
  const ALBDualstackAnnotationKey := "alb.ingress.kubernetes.io/ip-address-type"
  const ALBDualstackAnnotationValue := "dualstack"
  const AmbHostAnnotation := "external-dns.ambassador-service"
  const ResourceLabelKey := "resource"
  const DualstackLabelKey := "dualstack"

  // Other fixed strings the adapters compare against.
  const NamespaceDefault := "default"
  const ValidStatus := "valid"
  const ServiceTypeLoadBalancer := "LoadBalancer"
  const VirtualServiceKind := "*v1.VirtualService"

  datatype Option<+T> = None | Some(value: T)

  /** The errors that end a pass (or, for the first three, a source's construction). */
  datatype Error =
    | InvalidTemplate
    | InvalidSelector
    | InvalidContourService(service: string)
    | InvalidAmbassadorService(service: string)
    | TemplateFailed(namespace: string, name: string)
    | ServiceNotFound(namespace: string, name: string)
    | VirtualServiceNotFound(namespace: string, name: string)
    | InvalidTTL(message: string)

  datatype Result<+T> = Ok(value: T) | Err(error: Error) {
    predicate IsFailure() { Err? }
    function PropagateFailure<U>(): Result<U> requires Err? { Err(error) }
    function Extract(): T requires Ok? { value }
  }

  /** One entry of a `status.loadBalancer.ingress` list; an empty string is an absent field. */
  datatype LoadBalancerIngress = LoadBalancerIngress(ip: string, hostname: string)

  datatype RecordType = A | CNAME

  datatype ProviderSpecificProperty = ProviderSpecificProperty(name: string, value: string)

  /** TTL, provider-specific properties and set identifier shared by the endpoints of one hostname group. */
  datatype Metadata = Metadata(ttl: int, providerSpecific: seq<ProviderSpecificProperty>, setIdentifier: string)

  datatype Endpoint = Endpoint(
    dnsName: string,
    targets: seq<string>,
    recordType: RecordType,
    recordTTL: int,
    setIdentifier: string,
    providerSpecific: seq<ProviderSpecificProperty>,
    labels: map<string, string>)

  datatype NamespacedName = NamespacedName(namespace: string, name: string)

  datatype Service = Service(serviceType: string, loadBalancer: seq<LoadBalancerIngress>)

  datatype VirtualService = VirtualService(annotations: Annotations)

  /** The point-in-time cluster state that Service and VirtualService lookups read. */
  datatype Snapshot = Snapshot(
    services: map<NamespacedName, Service>,
    virtualServices: map<NamespacedName, VirtualService>)

  datatype MetadataSource = MetadataSource(kind: string, name: string, namespace: string)

  datatype VirtualHost = VirtualHost(domains: seq<string>, sources: seq<MetadataSource>)

  datatype Listener = Listener(virtualHosts: seq<VirtualHost>)

  /** A routing object of any kind. Each adapter reads only the fields its kind has:
      `currentStatus` (Contour), `hostname` (Contour `spec.virtualHost.fqdn`, None when
      the virtual host is absent; Ambassador `spec.hostname`, None when the spec is absent),
      `ruleHosts` (Kong `spec.rules[].host`), `loadBalancer` (embedded status of HTTPProxy
      and TCPIngress) and `listeners` (Gloo `spec.listeners`). */
  datatype Resource = Resource(
    namespace: string,
    name: string,
    annotations: Annotations,
    currentStatus: string,
    hostname: Option<string>,
    ruleHosts: seq<string>,
    loadBalancer: seq<LoadBalancerIngress>,
    listeners: seq<Listener>)

  /** What the TTL helper returns: the value and, when the annotation does not parse, an error. */
  datatype TtlParse = TtlParse(seconds: int, error: Option<string>)

  datatype ProviderMetadata = ProviderMetadata(properties: seq<ProviderSpecificProperty>, setIdentifier: string)

  /** The shared helpers whose code lies outside the adapters. */
  datatype Helpers = Helpers(
    isIP: string -> bool,
    ttlFromAnnotations: Annotations -> TtlParse,
    providerSpecificFromAnnotations: Annotations -> ProviderMetadata)
}
