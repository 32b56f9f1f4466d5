# Route sources of external-dns, modelled in Dafny

external-dns turns routing objects in a Kubernetes cluster into DNS endpoints. This project
models five of its sources:

- Contour `IngressRoute` and `HTTPProxy`;
- Ambassador `Host`;
- Kong `TCPIngress`;
- Gloo `Proxy`.

Each source lists its objects and drops the ones it is not responsible for. It resolves the
load-balancer targets of every remaining object and collects that object's hostnames. Each
hostname becomes endpoints, split by record type: an A record for the IP targets and a CNAME
for the others. Optionally the source labels the endpoints with their provenance and sorts
their targets. The first error aborts the whole pass.

The five sources run the same loop and differ only in a handful of choices. The model therefore
writes the pass once, in module `Pipeline`, parameterised by an `Adapter` record that holds
these choices:

- which filters apply;
- where the targets come from;
- where the hostnames come from;
- whether a TTL error is fatal;
- whether provider-specific annotations are read;
- which labels are set;
- whether targets are sorted.

Each adapter module (`Contour`, `Ambassador`, `Kong`, `Gloo`) defines its adapter as a
constant and proves that kind's behaviour about that constant.

The pass exists in two forms:

- specification functions: `Pass`, `Collect`, `ResourceEndpoints`, `ResolvedTargets`,
  `NativeEndpoints`, `WithTemplate`, `Labelled`, `MergedAnnotations`, `ProxyEndpoints`, and
  others;
- imperative methods that follow the source's loops statement by statement: `Endpoints`,
  `EndpointsFromResource`, `ResolveTargets`, `EndpointsFromSpec`, `EndpointsFromTemplate`,
  `ApplyLabels`, `EndpointsFromProxy`, `EndpointsFromListener`, `EndpointsFromVirtualHost`,
  `AnnotationsFromVirtualHost`, `CopyAnnotations`, `TargetsFromLoadBalancer`,
  `EndpointsFromHostnames`, `SetLabel` and `SortEndpointTargets`.

The methods that loop carry loop invariants, and every method is proved equal to its
specification function. The properties are then proved about the functions.

The specification functions carry no contract of their own. What each one means is stated by
the lemmas about it, and those lemmas are the rows of the table below:

- `ParseContourLoadBalancerService` (`parseContourLoadBalancerService`):
  `References.ContourServiceOk` and `References.ContourServiceErr`.
- `ParseAmbLoadBalancerService` (`parseAmbLoadBalancerService`): `References.AmbServiceOk`,
  `References.AmbServiceErr`, `References.AmbSlashForm`, `References.AmbDottedForm` and
  `References.AmbBareForm`.
- `EndpointsForHostname`: `Synthesis.EndpointsForHostnameSpec`,
  `Synthesis.EndpointsForHostnameTargets` and `Synthesis.EndpointsForHostnameUniform`.
- `HostnamesFromAnnotations`: `Strings.SplitListOfList`, `Strings.RemoveSpacesSpec` and
  `Contour.AnnotatedHostnamesInOrder`.
- `LoadBalancerTargets`: `Synthesis.TargetsFromLoadBalancer`,
  `Synthesis.LoadBalancerTargetsAppend` and `Synthesis.LoadBalancerTargetsMembers`.
- `Pass`: `Properties.PassSorting`, `Properties.PassMembers` and `Properties.PassLabels`.
- `Collect`: `Properties.CollectOk`, `Properties.CollectFirstError`, `Properties.CollectSnoc`,
  `Properties.CollectAppend`, `Properties.CollectMembers` and `Properties.CollectSkipsFiltered`.
- `ResourceEndpoints`: `Properties.ResourceEndpointsLabels`,
  `Properties.ResourceEndpointsMetadata` and each adapter's filter and endpoint lemmas.
- `MergedAnnotations`: `Gloo.MergedOk`, `Gloo.MergedFirstMissing`, `Gloo.MergedAppend`,
  `Gloo.MergedLaterWins`, `Gloo.MergedOrigin` and `Gloo.MergedIgnoresOtherKinds`.
- `ProxyEndpoints`: `Gloo.ProxyIsConcat`, `Gloo.ProxyAppend` and `Gloo.ProxyNoTargets`.

The adapter constants are values, not members with a contract. Their choices are stated by the
adapter lemmas:

- `Contour.IngressRoute` and `Contour.HTTPProxy` (`source/ingressroute.go:119-175`,
  `source/httpproxy.go:86-142`): `Contour.BothAreContour`, `Contour.ContourFilters`,
  `Contour.IngressRouteTargets` and `Contour.HTTPProxyTargets`.
- `Ambassador.AmbassadorHost` (`source/ambassador_host.go:85-123`): `Ambassador.AmbassadorFilter`
  and `Ambassador.AmbassadorEndpoints`.
- `Kong.KongTCPIngress` (`source/kong_tcpingress.go:79-122`): `Kong.KongFilter`,
  `Kong.KongTargets` and `Kong.KongLabels`.
- `Gloo.GlooProxy` (`source/gloo.go:80-101`): `Gloo.GlooTargets` and
  `Gloo.GlooResourceEndpoints`.

Modules:

- `Types`: values, errors and annotation keys.
- `Strings`: splitting, trimming and sorting of strings.
- `References`: the two load-balancer Service reference parsers.
- `Synthesis`: targets, per-hostname endpoints, labelling and sorting.
- `Pipeline`: the generic pass.
- `Properties`: generic lemmas about the pass.
- One module per adapter.

Cluster state enters as a `Snapshot`: maps from namespaced names to Services and
VirtualServices. Helpers whose code lies outside these five files are function-valued parameters:

- the annotation selector;
- the hostname template;
- the TTL parser;
- provider-specific extraction;
- the IP test.

Three small helpers from elsewhere in the repository are given concrete definitions, matching
their call sites and the tests (where their code decides something those do not show, "## Left out"
says what the definition assumes):

- `endpointsForHostname` is `EndpointsForHostname`;
- `getHostnamesFromAnnotations` is `HostnamesFromAnnotations`;
- `getTargetsFromTargetAnnotation` is `TargetsFromTargetAnnotation`.

## Model

| member | source | states |
|---|---|---|
| Strings.Split | source/ingressroute.go:279 | `strings.Split` on one character: always at least one piece |
| Strings.SplitCount | source/ingressroute.go:279-280 | the number of pieces is the number of separators plus one, so the "exactly two parts" test means "exactly one `/`" |
| Strings.SplitJoin | source/ingressroute.go:279 | splitting pieces joined by a separator they do not contain gives the pieces back |
| Strings.JoinSplit | source/ingressroute.go:279 | joining the pieces of a split with the separator gives the original string |
| Strings.SplitFirst | source/ambassador_host.go:180 | `SplitN(s, ".", 2)`: one or two pieces |
| Strings.SplitFirstSpec | source/ambassador_host.go:180-182 | two pieces exactly when the string has a dot, split at the first dot; otherwise the whole string |
| Strings.SplitFirstAt | source/ambassador_host.go:178-180 | only the first dot separates, so the rest keeps its dots |
| Strings.RemoveSpacesSpec | source/ingressroute.go:205 | removing spaces leaves no space and keeps every other character's count; a space-free string is unchanged |
| Strings.TrimDot | source/ingressroute.go:207 | `TrimSuffix(s, ".")` removes one trailing dot exactly when the string ends in a dot |
| Strings.TrimDots | source/gloo.go:116-117 | trims every element, keeping length and order |
| Strings.SplitTrimmedShape | source/ingressroute.go:204-208 | the template text yields one hostname per comma-separated piece, without spaces or commas, each with one trailing dot trimmed |
| Strings.SplitTrimmedOfList | source/httpproxy.go:175-178 | dot-free hostnames joined with `,` or `, ` come back exactly, in order |
| Strings.SplitTrimmedOfDotted | source/httpproxy.go:175-178 | hostnames joined with `, ` come back with one trailing dot trimmed from each, in order |
| Strings.SplitListOfList | source/kong_tcpingress.go:151 | a hostname annotation listing hostnames joined with `,` or `, ` yields exactly those hostnames in order |
| Strings.Insert | source/ingressroute.go:171 | inserting into a sorted sequence keeps it sorted and adds exactly that element |
| Strings.Sort | source/ingressroute.go:170-172 | the result is sorted and a permutation of the input |
| Strings.SortedPermutationsAreEqual | source/ingressroute.go:171 | two sorted permutations of the same targets are equal, so any correct sort gives `Sort`'s result |
| Strings.SortOfSorted | source/httpproxy.go:137-139 | sorting already sorted targets changes nothing |
| References.ContourServiceOk | source/ingressroute.go:278-287 | parsing gives (ns, name) exactly when the reference is `ns/name` with no other `/` |
| References.ContourServiceErr | source/ingressroute.go:280-281 | the parse fails exactly when the reference does not have exactly one `/`, and the error names the reference |
| References.AmbSlashForm | source/ambassador_host.go:197-203 | `ns/name` gives namespace ns and name name, dots in the name allowed |
| References.AmbDottedForm | source/ambassador_host.go:176-187 | `name.ns` with no `/` splits at the first dot, the namespace keeping any further dots |
| References.AmbBareForm | source/ambassador_host.go:190-195 | a reference with neither `/` nor `.` is a Service in namespace `default` |
| References.AmbServiceOk | source/ambassador_host.go:172-204 | the parse succeeds exactly when the reference has at most one `/` |
| References.AmbServiceErr | source/ambassador_host.go:206-207 | two or more `/` is an error naming the reference |
| References.AmbExampleSlash | source/ambassador_host.go:197-203 | `ns1/svc1` parses to namespace ns1, name svc1 |
| References.AmbExampleDotted | source/ambassador_host.go:178-179 | `svc1.ns1` is Service svc1 in namespace ns1, and `svc.foo.bar` is Service svc in namespace foo.bar |
| References.AmbExampleBare | source/ambassador_host.go:190-195 | `svc1` is in namespace default |
| References.AmbExampleTwoSlashes | source/ambassador_host.go:206-207 | a reference with two `/` is rejected |
| Synthesis.TargetsFromLoadBalancer | source/ingressroute.go:225-232 | the loop yields exactly `LoadBalancerTargets`, and no target is empty |
| Synthesis.LoadBalancerTargetsAppend | source/kong_tcpingress.go:93-100 | ingress entries contribute their targets in entry order |
| Synthesis.LoadBalancerTargetsMembers | source/httpproxy.go:207-214 | a string is a target exactly when it is non-empty and is some entry's IP or hostname |
| Synthesis.TargetsFromTargetAnnotation | source/ingressroute.go:250-252 | the override is empty exactly when the target annotation is absent or empty |
| Synthesis.OfKind | source/ingressroute.go:263 | keeps only targets of the requested kind (IP or not) |
| Synthesis.OfKindPartition | source/ingressroute.go:263 | the IP targets and the other targets together are exactly the targets |
| Synthesis.OfKindUniform | source/ingressroute.go:263 | if all targets are of one kind, that kind keeps them all and the other gets none |
| Synthesis.AllTargetsAppend | source/ingressroute.go:263 | the targets of appended endpoint lists are appended |
| Synthesis.EndpointsForHostnameSpec | source/ingressroute.go:263 | one hostname yields at most two endpoints, none without targets; each is named after the hostname with the given metadata and empty labels; it is an A record exactly for IP targets |
| Synthesis.EndpointsForHostnameTargets | source/ingressroute.go:263 | between them the endpoints of a hostname carry every target exactly once |
| Synthesis.EndpointsForHostnameUniform | source/ambassador_host.go:135 | targets of one kind give a single endpoint carrying all of them |
| Synthesis.EndpointsFromHostnames | source/ingressroute.go:269-272 | the loop over hostnames yields exactly `ForHostnames`, each endpoint named after a listed hostname, with targets and no labels |
| Synthesis.ForHostnamesAppend | source/kong_tcpingress.go:151-162 | the endpoints of two hostname lists are appended in hostname order |
| Synthesis.ForHostnamesNoTargets | source/gloo.go:116-118 | without targets no hostname yields an endpoint |
| Synthesis.ForHostnamesMembers | source/ingressroute.go:270-272 | each endpoint is named after a listed hostname, has targets, no labels and the shared TTL, provider-specific properties and set identifier |
| Synthesis.ForHostnamesUniform | source/httpproxy.go:227-230 | targets of one kind give exactly one endpoint per hostname, in order, each with all targets |
| Synthesis.SetLabel | source/ingressroute.go:213-217 | the loop sets one label on every endpoint, keeps the other labels and changes nothing else |
| Synthesis.SortEndpointTargets | source/ingressroute.go:170-172 | every endpoint's targets become sorted and stay a permutation; nothing else changes |
| Synthesis.SortTargetsAppend | source/httpproxy.go:137-139 | sorting the targets of appended lists is appending the sorted lists |
| Pipeline.NonEmpty | source/kong_tcpingress.go:156-161 | keeps only rule hosts that are non-empty |
| Pipeline.ConcatStopsAtFailure | source/ingressroute.go:143-146 | once an object fails, later objects do not change the result |
| Pipeline.MergedStopsAtFailure | source/gloo.go:128-131 | once a VirtualService lookup fails, later sources do not change the result |
| Pipeline.ListenerStopsAtFailure | source/gloo.go:107-114 | once a virtual host fails, later virtual hosts do not change the result |
| Pipeline.ProxyStopsAtFailure | source/gloo.go:105-120 | once a listener fails, later listeners do not change the result |
| Pipeline.Endpoints | source/ingressroute.go:119-175 | the pass loop, which appends each object's endpoints and then sorts targets, returns exactly `Pass` |
| Pipeline.EndpointsFromResource | source/kong_tcpingress.go:86-115 | one object's step (filters, targets, endpoints, template, empty check, labels) is exactly `ResourceEndpoints` |
| Pipeline.ResolveTargets | source/ingressroute.go:250-257 | target resolution for every target source equals `ResolvedTargets` |
| Pipeline.EndpointsFromSpec | source/ingressroute.go:237-276 | the native endpoints equal `NativeEndpoints` |
| Pipeline.EndpointsFromTemplate | source/ingressroute.go:177-211 | the template branch equals `TemplateEndpoints` |
| Pipeline.ApplyLabels | source/kong_tcpingress.go:112-113 | the resource label, then the dual-stack label, equals `Labelled` |
| Pipeline.EndpointsFromProxy | source/gloo.go:103-122 | the listener loop equals `ProxyEndpoints` |
| Pipeline.EndpointsFromListener | source/gloo.go:105-120 | the virtual-host loop equals `ListenerEndpoints` |
| Pipeline.EndpointsFromVirtualHost | source/gloo.go:107-118 | one virtual host (annotations, TTL, domains) equals `VirtualHostEndpoints` |
| Pipeline.AnnotationsFromVirtualHost | source/gloo.go:124-138 | the source loop equals `MergedAnnotations` |
| Pipeline.CopyAnnotations | source/gloo.go:133-135 | copying every annotation yields `into + from`, so a later value overwrites |
| Properties.ConcatAppend | source/ingressroute.go:167 | appending contributions: the first failure wins, otherwise the results are appended |
| Properties.ConcatOk | source/ingressroute.go:144-146 | the fold succeeds exactly when every step does |
| Properties.ConcatMembers | source/ingressroute.go:167 | every collected endpoint comes from some successful step |
| Properties.CollectAppend | source/httpproxy.go:134 | the pass over `rs1 + rs2`: an error in `rs1` wins, then an error in `rs2`, otherwise the endpoints are appended |
| Properties.CollectOk | source/httpproxy.go:110-113 | the pass succeeds exactly when every object's step does |
| Properties.CollectFirstError | source/ambassador_host.go:100-108 | the first failing object's error is the pass's error, with or without sorting |
| Properties.CollectMembers | source/kong_tcpingress.go:114 | every collected endpoint comes from one object's contribution |
| Properties.AdmittedOnly | source/ingressroute.go:127-141 | keeps only the objects the filters admit |
| Properties.CollectSnoc | source/ingressroute.go:126-168 | one more object: an earlier error stays, then its error, otherwise its endpoints are appended |
| Properties.CollectSkipsFiltered | source/ingressroute.go:127-141 | filtered objects contribute nothing: the pass equals the pass over the admitted objects |
| Properties.ListenerUnlabelled | source/gloo.go:105-120 | virtual-host endpoints carry no labels and have targets |
| Properties.ProxyUnlabelled | source/gloo.go:103-122 | Proxy endpoints carry no labels and have targets |
| Properties.NativeUnlabelled | source/ingressroute.go:237-276 | native endpoints carry no labels and have targets |
| Properties.WithTemplateUnlabelled | source/ingressroute.go:148-159 | adding or substituting template endpoints keeps them unlabelled |
| Properties.LabelledSpec | source/kong_tcpingress.go:124-138 | labelling changes only the labels, which become exactly the resource label and, when requested, the dual-stack label |
| Properties.ResourceEndpointsLabels | source/ingressroute.go:160-166 | every endpoint an object contributes has targets and exactly the labels its adapter sets |
| Properties.PassLabels | source/httpproxy.go:133-134 | every collected endpoint carries the labels of some listed object |
| Properties.LabelledKeeps | source/ingressroute.go:213-217 | labelling keeps every endpoint's other fields and the order |
| Properties.ForHostnamesCarries | source/ingressroute.go:259-272 | all endpoints of a hostname list share the given metadata |
| Properties.LabelledCarries | source/kong_tcpingress.go:112-113 | labelling keeps the metadata |
| Properties.ResourceEndpointsMetadata | source/ingressroute.go:245-272 | outside Gloo an object's endpoints, native and templated, share the metadata of its annotations |
| Properties.PassSorting | source/ingressroute.go:170-172 | a sorting pass keeps length and order, sorts each endpoint's targets, permutes them, and changes nothing else; a non-sorting pass returns the collected endpoints |
| Properties.SortIsCanonical | source/ingressroute.go:171 | any sorted permutation of an endpoint's targets is what the pass returns |
| Properties.PassMembers | source/ambassador_host.go:115-120 | a pass endpoint has sorted targets when the adapter sorts, and the labels of some listed object |
| Contour.BothAreContour | source/httpproxy.go:184-188 | both Contour adapters share the Contour choices; their labels are `ingressroute` and `HTTPProxy` |
| Contour.NewContourIngressRouteSource | source/ingressroute.go:57-69 | the template, then the Service reference, then the annotation filter must parse, the first failure being the error |
| Contour.NewContourHTTPProxySource | source/httpproxy.go:52-60 | the template, then the annotation filter must parse |
| Contour.ContourFilters | source/ingressroute.go:127-141 | admitted exactly when the selector matches, the controller annotation is absent or `dns-controller`, and the status is `valid`; otherwise nothing |
| Contour.IngressRouteTargets | source/ingressroute.go:250-257 | a non-empty override is used and the Service is not consulted; otherwise the Service's targets, or none when it is missing |
| Contour.HTTPProxyTargets | source/httpproxy.go:204-215 | a non-empty override, else the proxy's own load-balancer status |
| Contour.LoadBalancerEntryOrder | source/ingressroute.go:225-232 | an entry with both fields gives its IP, then its hostname |
| Contour.ContourHostnameOrder | source/ingressroute.go:259-275 | native endpoints: the fqdn's, then the hostname annotation's unless ignored, with the object's metadata even when the TTL does not parse |
| Contour.AnnotatedHostnamesInOrder | source/httpproxy.go:225-231 | a hostname annotation `h1, h2, …` yields one endpoint per hostname, in order |
| Contour.TemplateGate | source/ingressroute.go:148-159 | template skipped without a template or when native endpoints exist and combining is off; render error fatal when consulted; otherwise appended when combining, substituted when not |
| Contour.TemplateGateIsOnEndpoints | source/httpproxy.go:115 | with no targets the gate opens even when the object names hostnames |
| Contour.TemplateHostnames | source/httpproxy.go:144-181 | a rendered `h1, h2., …` gives the endpoints of the hostnames with one trailing dot trimmed, in order |
| Contour.TemplateFailureAbortsPass | source/ingressroute.go:148-152 | a render failure aborts the pass with that object's error whenever the template is consulted: the fqdn and annotation are combined, or the object has no targets, or no native hostname |
| Contour.ContourNoTargets | source/ingressroute.go:160-163 | without targets, and with a template that renders when one is set, an admitted object contributes nothing |
| Contour.ContourEndpoints | source/ingressroute.go:166 | each contributed endpoint has targets, the `resource` label of its kind and object only, and the object's TTL, provider-specific properties and set identifier |
| Contour.ContourPass | source/ingressroute.go:166-172 | a pass endpoint has sorted targets and the resource label of some listed object |
| Ambassador.AmbassadorFilter | source/ambassador_host.go:93-98 | a Host is admitted exactly when it has the service annotation; otherwise it contributes nothing |
| Ambassador.AmbassadorBadReference | source/ambassador_host.go:100-103 | a reference with two or more `/` aborts, naming the reference |
| Ambassador.AmbassadorMissingService | source/ambassador_host.go:147-150 | a reference to a missing Service aborts with not-found |
| Ambassador.AmbassadorEndpoints | source/ambassador_host.go:126-139 | the TTL error is fatal even without a hostname; otherwise a non-empty hostname gets the Service's targets with the TTL and no provider-specific data, and an absent or empty hostname gets nothing |
| Ambassador.AmbassadorEndpointShape | source/ambassador_host.go:132-135 | every endpoint is named after the Host's hostname and has no labels, no provider-specific properties and an empty set identifier |
| Ambassador.AmbassadorBadReferenceAbortsPass | source/ambassador_host.go:100-103 | a bad reference aborts the whole pass once reached |
| Ambassador.AmbassadorPass | source/ambassador_host.go:118-120 | pass endpoints have sorted targets and no labels |
| Kong.NewKongTCPIngressSource | source/kong_tcpingress.go:45-49 | construction fails exactly when the annotation filter does not parse |
| Kong.KongFilter | source/kong_tcpingress.go:87-90 | the selector is the only filter; unselected objects contribute nothing |
| Kong.KongTargets | source/kong_tcpingress.go:92-100 | targets are the object's own load-balancer status; the target annotation is not read |
| Kong.NonEmptyKeeps | source/kong_tcpingress.go:156-161 | the rule filter keeps exactly the non-empty hosts, in rule order |
| Kong.KongHostnameOrder | source/kong_tcpingress.go:141-165 | a TTL that does not parse is fatal; otherwise the annotation's hostnames, then the non-empty rule hosts, with the object's metadata |
| Kong.KongTtlAbortsPass | source/kong_tcpingress.go:102-105 | a TTL error on a selected object aborts the pass once reached |
| Kong.KongLabels | source/kong_tcpingress.go:124-138 | every endpoint has `resource = tcpingress/<ns>/<name>`, and `dualstack = true` exactly when the ALB address-type annotation is `dualstack`; no other label |
| Kong.KongPass | source/kong_tcpingress.go:112-119 | pass endpoints have sorted targets and the labels of some listed object |
| Gloo.GlooTargets | source/gloo.go:140-160 | the same-named Service must exist; LoadBalancer gives its targets and any other type gives none |
| Gloo.GlooUnsupportedService | source/gloo.go:156-158 | a Proxy with a non-LoadBalancer Service contributes nothing once its virtual hosts merge and their TTLs parse; otherwise it fails with their first error |
| Gloo.GlooMissingServiceAbortsPass | source/gloo.go:88-91 | a missing Service aborts the pass once reached |
| Gloo.VirtualServiceSources | source/gloo.go:126-127 | keeps the VirtualService sources, in order |
| Gloo.MergedIgnoresOtherKinds | source/gloo.go:126-127 | sources of other kinds do not affect the merge |
| Gloo.MergedOk | source/gloo.go:128-131 | the merge succeeds exactly when every referenced VirtualService exists |
| Gloo.MergedFirstMissing | source/gloo.go:128-131 | the first missing VirtualService is the error |
| Gloo.MergedAppend | source/gloo.go:126-136 | merging two runs: the first failure wins, otherwise the later run's annotations overwrite |
| Gloo.MergedLaterWins | source/gloo.go:133-135 | a key set later takes the later value; other keys keep the earlier one; the key set is the union |
| Gloo.MergedOrigin | source/gloo.go:124-138 | every merged key comes from a referenced VirtualService that exists |
| Gloo.GlooVirtualHost | source/gloo.go:107-118 | merge error and TTL error are fatal; otherwise every trimmed domain gets the targets and the merged metadata |
| Gloo.HostSteps | source/gloo.go:106 | one result per virtual host, in order |
| Gloo.ListenerSteps | source/gloo.go:105 | one result per listener, in order |
| Gloo.ListenerIsConcat | source/gloo.go:106-119 | a listener's endpoints are its virtual hosts' endpoints appended in order, the first failure aborting |
| Gloo.ProxyIsConcat | source/gloo.go:105-120 | a Proxy's endpoints are its listeners' endpoints appended in order, the first failure aborting |
| Gloo.ListenerAppend | source/gloo.go:106-119 | virtual hosts keep their order and the first failure wins |
| Gloo.ProxyAppend | source/gloo.go:105-120 | listeners keep their order and the first failure wins |
| Gloo.ListenerNoTargets | source/gloo.go:116-118 | a listener that succeeds without targets yields nothing |
| Gloo.ProxyNoTargets | source/gloo.go:105-120 | a Proxy that succeeds without targets yields nothing |
| Gloo.ListenerOk | source/gloo.go:106-119 | a listener succeeds exactly when each virtual host does |
| Gloo.GlooResourceEndpoints | source/gloo.go:94-99 | a Proxy with its Service found contributes exactly its listeners' endpoints, unlabelled |
| Gloo.GlooPass | source/gloo.go:80-101 | the pass does not sort and leaves every endpoint unlabelled |

## Left out

- Informers, cache syncing, `AddEventHandler`, client construction and logging: I/O and
  concurrency. Listing objects is modelled as a given sequence, and lookups as a `Snapshot`.
  Only the Contour Service lookup reads an informer cache (`source/ingressroute.go:220`). The
  Ambassador Service lookup (`source/ambassador_host.go:147`) and the Gloo VirtualService and
  Service lookups (`source/gloo.go:128`, `source/gloo.go:141`) are live API calls, so two objects
  in one pass may see different cluster states. The model fixes one snapshot per pass.
- A `List` call that itself fails, and `Get` errors other than not-found: the model has only
  not-found. The Contour Service lookup treats any error as "no targets", as in the source.
- The label-selector grammar, template parsing and execution, TTL parsing and
  provider-specific extraction: their code is not among these files. Each is a parameter
  whose result the model uses as the source does.
- EndpointsForHostname: how `endpointsForHostname` treats a trailing `.` is not in these files.
  The model keeps native fqdns, hostname-annotation hostnames and Kong rule hosts exactly as
  given, so `foo.bar.` stays `foo.bar.`. Only template hostnames and Gloo domains have one trailing
  dot trimmed, as the source does at their call sites.
- The TTL parser's own cases (`"6"` gives 6 seconds, `"1"` gives 1, `"10s"` gives 10, as the
  IngressRoute tests pin them at `source/ingressroute_test.go:866-903`) are not imposed on the
  TTL parameter: the model holds for every parser.
- `endpoint.Endpoint` pointer aliasing: endpoints are values, and the label and sort loops
  rebuild the sequence instead of mutating shared objects. No endpoint is shared between
  objects, so nothing observable is lost.
- Error message texts and `errors.Wrap` prefixes (HTTPProxy): an error is modelled by its
  kind and the object or reference it names.
- `NewAmbassadorHostSource` and `NewGlooSource`: they validate nothing beyond creating clients
  and informers, so there is nothing to model.
- The type definitions under third_party/: the fields the adapters read are fields of
  `Resource`, `VirtualHost` and `Listener`.
- The second status check inside `endpointsFromIngressRoute` and `endpointsFromHTTPProxy` is
  modelled once, in the filter: after the filter it cannot fail.
- Contour target resolution happens once per object and is reused for the template branch. The
  source computes it twice from the same cache, which gives the same value.
- `sort.Sort` on targets is modelled by an insertion sort, with a proof that sorted
  permutations are unique, so the order any correct sort returns is fixed. Strings are
  compared by code point rather than by Go's UTF-8 bytes. On valid strings the two orders are
  the same, because UTF-8 encoding preserves code-point order.
