/**
  The TimeGate application (class `TimeGate` in timegate/application.py):
  the registry of handlers and their URL rules, the choice of a rule for a
  request, and the high-level handling of TimeGate and TimeMap requests on
  top of the freshness cache and the response builders.

  A handler is an object with up to two methods, `get_memento` and
  `get_all_mementos`; they are the functions of `HandlerModule`, and
  `hasattr` is `Some?`.  The request is an explicit value rather than a
  thread-local proxy, with the clock read once, into `now`.
 */
module TimeGateApp {
  import opened Types
  import opened Uri
  import opened FreshCache
  import opened Responses

  /** `handler.get_memento(uri_r, accept_datetime)` behind `parsed_request`. */
  type GetMemento = (string, int) -> Result<Memento>
  /** `handler.get_all_mementos(uri_r)` behind `parsed_request`. */
  type GetAllMementos = string -> Result<TimeMap>
  /** `utils.best(mementos, accept_datetime, resource_type)`. */
  type Best = (TimeMap, int, string) -> Memento

  /** The methods a loaded handler object has. */
  datatype HandlerModule = HandlerModule(getMemento: Option<GetMemento>, getAllMementos: Option<GetAllMementos>)

  /** A handler object, as `load_handler` hands it over for a configured
      instance: the same object for every configuration that names it, with
      the two flags `register_handler` writes onto it. */
  class HandlerObject {
    const methods: HandlerModule
    var useTimemaps: bool
    var resourceType: string

    constructor (methods: HandlerModule, useTimemaps: bool, resourceType: string)
      ensures this.methods == methods && this.useTimemaps == useTimemaps && this.resourceType == resourceType
    {
      this.methods := methods;
      this.useTimemaps := useTimemaps;
      this.resourceType := resourceType;
    }

    /** The object as a request reads it. */
    function Snapshot(): Handler
      reads this
    {
      Handler(methods, useTimemaps, resourceType)
    }
  }

  /** The configuration keys `register_handler` reads. */
  datatype HandlerConfig = HandlerConfig(loaded: HandlerObject, useTimemaps: bool, resourceType: string, baseUri: string)

  /** One handler's own section of `HANDLERS`: the keys it sets. */
  datatype PartialConfig = PartialConfig(
    loaded: Option<HandlerObject>, useTimemaps: Option<bool>, resourceType: Option<string>, baseUri: Option<string>)

  /** A handler with its flags, as it stands when a request reaches it. */
  datatype Handler = Handler(loaded: HandlerModule, useTimemaps: bool, resourceType: string)

  datatype RuleKind = TimegateRule | TimemapRule

  /** A werkzeug `Rule`: which route, its endpoint name, the converter of
      its `uri_r` part and the HTTP methods it accepts. */
  datatype Rule = Rule(kind: RuleKind, endpoint: string, converter: Converter, methods: seq<string>)

  /** The request as the handling code sees it. */
  datatype Request = Request(acceptDatetime: Option<int>, cacheControl: string, now: int)

  datatype Selection = Selection(memento: Memento, first: Option<Memento>, last: Option<Memento>)

  datatype TimemapResponse = LinkResponse(link: LinkTimemap) | JsonResponse(json: JsonTimemap)

  /** `CombinedMultiDict([config, self.config])`: a key of the handler's own
      section wins over the global configuration. */
  function Merge(p: PartialConfig, g: HandlerConfig): (c: HandlerConfig)
    ensures p.loaded.Some? ==> c.loaded == p.loaded.value
    ensures p.loaded.None? ==> c.loaded == g.loaded
    ensures c.useTimemaps == if p.useTimemaps.Some? then p.useTimemaps.value else g.useTimemaps
    ensures c.resourceType == if p.resourceType.Some? then p.resourceType.value else g.resourceType
    ensures c.baseUri == if p.baseUri.Some? then p.baseUri.value else g.baseUri
  {
    HandlerConfig(
      if p.loaded.Some? then p.loaded.value else g.loaded,
      if p.useTimemaps.Some? then p.useTimemaps.value else g.useTimemaps,
      if p.resourceType.Some? then p.resourceType.value else g.resourceType,
      if p.baseUri.Some? then p.baseUri.value else g.baseUri)
  }

  /** The handler has at least one of the two methods. */
  predicate Capable(m: HandlerModule) {
    m.getMemento.Some? || m.getAllMementos.Some?
  }

  /** The handler as `register_handler` leaves it: it serves TimeMaps only
      when it can fetch them and the configuration asks for it. */
  function Registered(config: HandlerConfig): (h: Handler)
    ensures h.useTimemaps <==> config.loaded.methods.getAllMementos.Some? && config.useTimemaps
    ensures h.useTimemaps ==> h.loaded.getAllMementos.Some?
    ensures h.loaded == config.loaded.methods && h.resourceType == config.resourceType
  {
    Handler(config.loaded.methods, config.loaded.methods.getAllMementos.Some? && config.useTimemaps, config.resourceType)
  }

  // ---------------------------------------------------------------------
  // Endpoint names

  /** A handler name or an endpoint name that survives the endpoint split. */
  predicate ValidPart(s: string) {
    s != "" && '.' !in s
  }

  predicate ValidName(name: Option<string>) {
    name.None? || ValidPart(name.value)
  }

  /** `endpoint_prefix + endpoint`, where the prefix is `name + '.'` for a
      name Python counts as true. */
  function EndpointFor(name: Option<string>, endpoint: string): string {
    (if name.Some? && name.value != "" then name.value + "." else "") + endpoint
  }

  function IndexOf(s: string, c: char): (i: nat)
    requires c in s
    ensures i < |s| && s[i] == c && c !in s[..i]
  {
    if s[0] == c then 0
    else
      assert c in s[1..] by { var k :| 0 <= k < |s| && s[k] == c; assert s[1..][k - 1] == c; }
      var j := IndexOf(s[1..], c);
      assert s[..j + 1] == [s[0]] + s[1..][..j];
      j + 1
  }

  /** `_RE_HANDLER`: "name.endpoint" gives the name and the endpoint, a
      bare "endpoint" gives no name, any other text does not match. */
  function SplitEndpoint(s: string): (r: Option<(Option<string>, string)>)
    ensures r.Some? ==> ValidName(r.value.0) && ValidPart(r.value.1) && EndpointFor(r.value.0, r.value.1) == s
  {
    if '.' !in s then
      if s == "" then None else Some((None, s))
    else
      var i := IndexOf(s, '.');
      var name, endpoint := s[..i], s[i + 1..];
      if name != "" && ValidPart(endpoint) then
        assert s == name + "." + endpoint;
        Some((Some(name), endpoint))
      else None
  }

  /** The split recovers the name and the endpoint the rule was built from. */
  lemma EndpointRoundTrip(name: Option<string>, endpoint: string)
    requires ValidName(name) && ValidPart(endpoint)
    ensures SplitEndpoint(EndpointFor(name, endpoint)) == Some((name, endpoint))
  {
    var s := EndpointFor(name, endpoint);
    if name.Some? {
      var n := name.value;
      assert s == n + "." + endpoint;
      assert s[|n|] == '.';
      assert '.' in s;
      var i := IndexOf(s, '.');
      assert s[..|n|] == n;
      assert s[..i] == n && s[i + 1..] == endpoint;
    } else {
      assert s == endpoint;
    }
  }

  /** A name Python counts as false gets no prefix, so its endpoints split
      to the default handler's key. */
  lemma EmptyNameSplitsAsDefault(endpoint: string)
    requires ValidPart(endpoint)
    ensures SplitEndpoint(EndpointFor(Some(""), endpoint)) == Some((None, endpoint))
  {
    assert EndpointFor(Some(""), endpoint) == endpoint;
  }

  /** The two rules `register_handler` adds for a handler. */
  function HandlerRules(name: Option<string>, baseUri: string): (rs: seq<Rule>)
    ensures |rs| == 2 && rs[0].kind == TimegateRule && rs[1].kind == TimemapRule
    ensures forall i :: 0 <= i < 2 ==> (rs[i].converter == Converter(baseUri, name.None?)
                                        && rs[i].methods == ["GET", "HEAD"])
    ensures rs[0].endpoint == EndpointFor(name, "timegate") && rs[1].endpoint == EndpointFor(name, "timemap")
  {
    [Rule(TimegateRule, EndpointFor(name, "timegate"), Converter(baseUri, name.None?), ["GET", "HEAD"]),
     Rule(TimemapRule, EndpointFor(name, "timemap"), Converter(baseUri, name.None?), ["GET", "HEAD"])]
  }

  /** A request routed by one of a handler's rules is dispatched back to
      that handler, to the endpoint of the same route. */
  lemma HandlerEndpointsSplit(name: Option<string>, baseUri: string)
    requires ValidName(name)
    ensures var rs := HandlerRules(name, baseUri);
      SplitEndpoint(rs[0].endpoint) == Some((name, "timegate"))
      && SplitEndpoint(rs[1].endpoint) == Some((name, "timemap"))
  {
    EndpointRoundTrip(name, "timegate");
    EndpointRoundTrip(name, "timemap");
  }

  // ---------------------------------------------------------------------
  // Choosing a rule

  predicate Candidate(r: Rule, kind: RuleKind, value: string) {
    r.kind == kind && r.converter.Matches(value)
  }

  /** The rule among `rules[i..]` that takes the request: the first
      matching one in registration order.  Every `URIConverter` keeps
      werkzeug's default weight (application.py:92 sets a misspelt
      attribute), so the rules sort equal and werkzeug tries them in the
      order they were added. */
  function ResolveFrom(rules: seq<Rule>, kind: RuleKind, value: string, i: nat): (r: Option<nat>)
    requires i <= |rules|
    decreases |rules| - i
    ensures r.None? <==> forall k :: i <= k < |rules| ==> !Candidate(rules[k], kind, value)
    ensures r.Some? ==> i <= r.value < |rules| && Candidate(rules[r.value], kind, value)
    ensures r.Some? ==> forall k :: i <= k < r.value ==> !Candidate(rules[k], kind, value)
  {
    if i == |rules| then None
    else if Candidate(rules[i], kind, value) then Some(i)
    else ResolveFrom(rules, kind, value, i + 1)
  }

  function Resolve(rules: seq<Rule>, kind: RuleKind, value: string): Option<nat> {
    ResolveFrom(rules, kind, value, 0)
  }

  /** The prefix-first policy that line 92's tags (400 for a prefix rule
      above 100 for the catch-all), the comment at application.py:133
      ('Default handler at the end in case the weights are same') and
      test_timegate.py:69-79 point to: a matching rule bound to a base URI
      before the catch-all, ranked by those tags (higher first), the
      earliest one among equals.
      This is not what werkzeug would do with those numbers, since it tries
      lower weights first. */
  function PrefixFirstFrom(rules: seq<Rule>, kind: RuleKind, value: string, i: nat): (r: Option<nat>)
    requires i <= |rules|
    decreases |rules| - i
    ensures r.None? <==> forall k :: i <= k < |rules| ==> !Candidate(rules[k], kind, value)
    ensures r.Some? ==> i <= r.value < |rules| && Candidate(rules[r.value], kind, value)
    ensures r.Some? ==> forall k :: i <= k < |rules| && Candidate(rules[k], kind, value) ==>
                          rules[k].converter.Weight() <= rules[r.value].converter.Weight()
    ensures r.Some? ==> forall k :: i <= k < r.value && Candidate(rules[k], kind, value) ==>
                          rules[k].converter.Weight() < rules[r.value].converter.Weight()
  {
    if i == |rules| then None
    else
      var rest := PrefixFirstFrom(rules, kind, value, i + 1);
      if Candidate(rules[i], kind, value)
         && (rest.None? || rules[rest.value].converter.Weight() <= rules[i].converter.Weight())
      then Some(i)
      else rest
  }

  function ResolvePrefixFirst(rules: seq<Rule>, kind: RuleKind, value: string): Option<nat> {
    PrefixFirstFrom(rules, kind, value, 0)
  }

  /** No catch-all rule comes before a rule bound to a base URI, as in
      every map `url_map` builds for a fresh application. */
  predicate CatchAllLast(rules: seq<Rule>) {
    forall i, j :: 0 <= i < j < |rules| && rules[i].converter.default ==> rules[j].converter.default
  }

  /** A handler bound to a base URI takes every identifier that starts with
      its base URI away from the catch-all handler registered after it. */
  lemma PrefixRuleWins(rules: seq<Rule>, kind: RuleKind, value: string, k: nat)
    requires CatchAllLast(rules)
    requires k < |rules| && Candidate(rules[k], kind, value) && !rules[k].converter.default
    ensures Resolve(rules, kind, value).Some?
    ensures !rules[Resolve(rules, kind, value).value].converter.default
  {
    var j := Resolve(rules, kind, value).value;
    assert j <= k;
  }

  /** Under the prefix-first policy a rule bound to a base URI wins
      wherever it stands. */
  lemma PrefixFirstWins(rules: seq<Rule>, kind: RuleKind, value: string, k: nat)
    requires k < |rules| && Candidate(rules[k], kind, value) && !rules[k].converter.default
    ensures ResolvePrefixFirst(rules, kind, value).Some?
    ensures !rules[ResolvePrefixFirst(rules, kind, value).value].converter.default
  {
    var j := ResolvePrefixFirst(rules, kind, value).value;
    assert rules[k].converter.Weight() == PREFIX_WEIGHT;
    assert rules[j].converter.Weight() >= PREFIX_WEIGHT;
  }

  /** When the catch-all rules come last the first matching rule is the
      one the prefix-first policy picks. */
  lemma PoliciesAgree(rules: seq<Rule>, kind: RuleKind, value: string)
    requires CatchAllLast(rules)
    ensures Resolve(rules, kind, value) == ResolvePrefixFirst(rules, kind, value)
  {
    var first, weighted := Resolve(rules, kind, value), ResolvePrefixFirst(rules, kind, value);
    if first.Some? {
      var i, j := first.value, weighted.value;
      assert i <= j;
    }
  }

  /** A catch-all rule registered before a prefix rule shadows it: an
      identifier under the prefix goes to the catch-all handler, though the
      prefix-first policy would send it to the prefix rule. */
  lemma CatchAllShadows()
    ensures var rules := HandlerRules(None, "http://a/") + HandlerRules(Some("n"), "http://a/b/");
      Resolve(rules, TimegateRule, "http://a/b/x") == Some(0)
      && ResolvePrefixFirst(rules, TimegateRule, "http://a/b/x") == Some(2)
  {
    var rules := HandlerRules(None, "http://a/") + HandlerRules(Some("n"), "http://a/b/");
    var v := "http://a/b/x";
    assert v[..|"http://a/b/"|] == "http://a/b/";
    assert Candidate(rules[0], TimegateRule, v) && Candidate(rules[2], TimegateRule, v);
    assert !Candidate(rules[1], TimegateRule, v) && !Candidate(rules[3], TimegateRule, v);
    PrefixFirstWins(rules, TimegateRule, v, 2);
  }

  /** With a catch-all rule every identifier finds a rule. */
  lemma CatchAllResolves(rules: seq<Rule>, kind: RuleKind, k: nat)
    requires k < |rules| && rules[k].kind == kind && rules[k].converter.default
    ensures forall value :: Resolve(rules, kind, value).Some?
  {
    forall value ensures Resolve(rules, kind, value).Some? {
      assert Candidate(rules[k], kind, value);
    }
  }

  const BASE1 := "http://www.example.com/base1/"
  const BASE2 := "http://www.example.com/base2/"

  /** The rules of a default handler on BASE1 after a handler named "base2"
      on BASE2. */
  function ExampleRules(): (rs: seq<Rule>)
    ensures |rs| == 4
    ensures rs[0].kind == TimegateRule && rs[0].converter == Converter(BASE2, false)
    ensures rs[1].kind == TimemapRule && rs[3].kind == TimemapRule
    ensures rs[2].kind == TimegateRule && rs[2].converter == Converter(BASE1, true)
  {
    HandlerRules(Some("base2"), BASE2) + HandlerRules(None, BASE1)
  }

  /** When only rule `k` is a candidate, rule `k` takes the request. */
  lemma OnlyCandidate(rules: seq<Rule>, kind: RuleKind, value: string, k: nat)
    requires k < |rules| && Candidate(rules[k], kind, value)
    requires forall j :: 0 <= j < |rules| && j != k ==> !Candidate(rules[j], kind, value)
    ensures Resolve(rules, kind, value) == Some(k)
  {
  }

  /** When rule `k` is the only candidate bound to a base URI and the
      catch-all rules come last, rule `k` takes the request. */
  lemma OnlyPrefixCandidate(rules: seq<Rule>, kind: RuleKind, value: string, k: nat)
    requires CatchAllLast(rules)
    requires k < |rules| && Candidate(rules[k], kind, value) && !rules[k].converter.default
    requires forall j :: 0 <= j < |rules| && j != k && Candidate(rules[j], kind, value) ==> rules[j].converter.default
    ensures Resolve(rules, kind, value) == Some(k)
  {
    PrefixRuleWins(rules, kind, value, k);
  }

  /** A bare identifier goes to the default handler, under BASE1. */
  lemma BareGoesToDefault()
    ensures Resolve(ExampleRules(), TimegateRule, "resourceA") == Some(2)
    ensures ExampleRules()[2].converter.ToPython("resourceA") == BASE1 + "resourceA"
  {
    assert Resolve(ExampleRules(), TimegateRule, "resourceA") == Some(2) by {
      assert !StartsWith("resourceA", BASE2);
      OnlyCandidate(ExampleRules(), TimegateRule, "resourceA", 2);
    }
    EncodeNoSpace("resourceA");
    assert !StartsWith("resourceA", BASE1);
  }

  /** An identifier under BASE1 goes to the default handler unchanged. */
  lemma Base1GoesToDefault()
    ensures Resolve(ExampleRules(), TimegateRule, BASE1 + "resourceA") == Some(2)
    ensures ExampleRules()[2].converter.ToPython(BASE1 + "resourceA") == BASE1 + "resourceA"
  {
    Base1Resolves();
    KeptUnderBase(BASE1, true, "resourceA");
  }

  lemma Base1Resolves()
    ensures Resolve(ExampleRules(), TimegateRule, BASE1 + "resourceA") == Some(2)
  {
    var v := BASE1 + "resourceA";
    assert v[27] == '1' && BASE2[27] == '2';
    OnlyCandidate(ExampleRules(), TimegateRule, v, 2);
  }

  /** An identifier under BASE2 goes to the handler named "base2", even
      though the default handler would take it too. */
  lemma Base2GoesToNamed()
    ensures Resolve(ExampleRules(), TimegateRule, BASE2 + "resourceA") == Some(0)
    ensures ExampleRules()[0].converter.ToPython(BASE2 + "resourceA") == BASE2 + "resourceA"
  {
    Base2Resolves();
    KeptUnderBase(BASE2, false, "resourceA");
  }

  lemma Base2Resolves()
    ensures Resolve(ExampleRules(), TimegateRule, BASE2 + "resourceA") == Some(0)
  {
    var v := BASE2 + "resourceA";
    assert v[..|BASE2|] == BASE2;
    assert Candidate(ExampleRules()[0], TimegateRule, v);
  }

  /** An identifier under a space-free base URI, with a space-free rest,
      comes out of the converter as it went in. */
  lemma KeptUnderBase(base: string, default: bool, rest: string)
    requires ' ' !in base && ' ' !in rest
    ensures Converter(base, default).ToPython(base + rest) == base + rest
  {
    var v := base + rest;
    assert v[..|base|] == base;
    EncodeNoSpace(v);
  }

  // ---------------------------------------------------------------------
  // Requests

  /** `Accept-Datetime` when the request has one, the current time otherwise. */
  function AcceptDatetime(req: Request): int {
    match req.acceptDatetime
    case Some(d) => d
    case None => req.now
  }

  /** The handler's `get_all_mementos`, or the AttributeError of calling it. */
  function FetchAll(h: Handler, uriR: string): Result<TimeMap> {
    match h.loaded.getAllMementos
    case Some(f) => f(uriR)
    case None => Err(MissingMethod)
  }

  /** The handler's `get_memento`, or the AttributeError of calling it. */
  function FetchOne(h: Handler, uriR: string, dt: int): Result<Memento> {
    match h.loaded.getMemento
    case Some(g) => g(uriR, dt)
    case None => Err(MissingMethod)
  }

  /** What `get_all_mementos` yields given what the cache answered. */
  function AllMementos(cached: Option<TimeMap>, h: Handler, uriR: string): Result<TimeMap> {
    if cached.Some? then Ok(cached.value) else FetchAll(h, uriR)
  }

  /** The Memento to redirect to, and the first and last ones when the whole
      TimeMap is at hand. */
  function Select(h: Handler, uriR: string, dt: int, mementos: Option<TimeMap>, best: Best): (r: Result<Selection>)
    ensures mementos.Some? && |mementos.value| > 0 ==>
              var ms := mementos.value;
              r == Ok(Selection(best(ms, dt, h.resourceType), Some(ms[0]), Some(ms[|ms| - 1])))
    ensures !(mementos.Some? && |mementos.value| > 0) ==>
              (r.Ok? <==> FetchOne(h, uriR, dt).Ok?)
              && (r.Ok? ==> r.value == Selection(FetchOne(h, uriR, dt).value, None, None))
              && (r.Err? ==> r.error == FetchOne(h, uriR, dt).error)
  {
    if mementos.Some? && |mementos.value| > 0 then
      var ms := mementos.value;
      Ok(Selection(best(ms, dt, h.resourceType), Some(ms[0]), Some(ms[|ms| - 1])))
    else
      match FetchOne(h, uriR, dt)
      case Ok(m) => Ok(Selection(m, None, None))
      case Err(e) => Err(e)
  }

  /** The outcome of `timegate`, given the TimeMap `get_all_mementos`
      produced when the handler serves TimeMaps (`None` when it does not). */
  function TimegateOutcome(h: Handler, uriR: string, dt: int, timemap: Option<Result<TimeMap>>,
                           best: Best, urlFor: UrlFor): (r: Result<Redirect>)
    ensures timemap.Some? && timemap.value.Err? ==> r == Err(timemap.value.error)
    ensures r.Ok? ==> r.value.status == 302
  {
    if timemap.Some? && timemap.value.Err? then Err(timemap.value.error)
    else
      var mementos := if timemap.Some? then Some(timemap.value.value) else None;
      match Select(h, uriR, dt, mementos, best)
      case Err(e) => Err(e)
      case Ok(s) => MementoRedirect(s.memento, uriR, s.first, s.last, h.useTimemaps, urlFor)
  }

  /** Multiple-request mode: with a non-empty TimeMap the redirect goes to
      the Memento `best` picks and names the list's ends as first and last. */
  lemma TimegateListMode(h: Handler, uriR: string, dt: int, ms: TimeMap, best: Best, urlFor: UrlFor)
    requires |ms| > 0
    ensures var m := best(ms, dt, h.resourceType);
      var first, last := Some(ms[0]), Some(ms[|ms| - 1]);
      var r := TimegateOutcome(h, uriR, dt, Some(Ok(ms)), best, urlFor);
      (r.Ok? <==> SingleMementoIsChosen(m, first, last))
      && (r.Ok? ==> HeaderValue(r.value.headers, "Location") == Some(m.uri)
                    && r.value.links == RedirectLinks(m, uriR, first, last, h.useTimemaps, urlFor))
  {
    var m := best(ms, dt, h.resourceType);
    RedirectHeadersHold(m, uriR, Some(ms[0]), Some(ms[|ms| - 1]), h.useTimemaps, urlFor);
  }

  /** `best` returns one of the Mementos of the non-empty list it is given. */
  ghost predicate PicksFromList(best: Best) {
    forall ms: TimeMap, dt: int, rt: string :: |ms| > 0 ==> best(ms, dt, rt) in ms
  }

  /** No two Mementos of the list share a URI. */
  predicate DistinctUris(ms: TimeMap) {
    forall i, j :: 0 <= i < j < |ms| ==> ms[i].uri != ms[j].uri
  }

  /** A TimeMap of one Memento always redirects to that Memento. */
  lemma OneMementoRedirects(h: Handler, uriR: string, dt: int, m: Memento, best: Best, urlFor: UrlFor)
    requires PicksFromList(best)
    ensures var r := TimegateOutcome(h, uriR, dt, Some(Ok([m])), best, urlFor);
      r.Ok? && HeaderValue(r.value.headers, "Location") == Some(m.uri)
  {
    assert best([m], dt, h.resourceType) in [m];
    TimegateListMode(h, uriR, dt, [m], best, urlFor);
  }

  /** In list mode the redirect goes to one of the list's URIs. */
  lemma ListModeStaysInList(h: Handler, uriR: string, dt: int, ms: TimeMap, best: Best, urlFor: UrlFor)
    requires PicksFromList(best) && |ms| > 0
    ensures var r := TimegateOutcome(h, uriR, dt, Some(Ok(ms)), best, urlFor);
      r.Ok? ==> exists i :: 0 <= i < |ms| && HeaderValue(r.value.headers, "Location") == Some(ms[i].uri)
  {
    var m := best(ms, dt, h.resourceType);
    assert m in ms;
    var i :| 0 <= i < |ms| && ms[i] == m;
    TimegateListMode(h, uriR, dt, ms, best, urlFor);
  }

  /** With pairwise distinct URIs the assertion of `memento_response` holds,
      so list mode always redirects. */
  lemma DistinctUrisRedirect(h: Handler, uriR: string, dt: int, ms: TimeMap, best: Best, urlFor: UrlFor)
    requires PicksFromList(best) && |ms| > 0 && DistinctUris(ms)
    ensures TimegateOutcome(h, uriR, dt, Some(Ok(ms)), best, urlFor).Ok?
  {
    var m := best(ms, dt, h.resourceType);
    assert m in ms;
    if |ms| > 1 {
      assert ms[0].uri != ms[|ms| - 1].uri;
    }
    TimegateListMode(h, uriR, dt, ms, best, urlFor);
  }

  /** A list whose first and last Mementos share a URI, with `best` picking
      a different one between them, fails the assertion of
      `memento_response`. */
  lemma RepeatedUriFails(h: Handler, uriR: string, dt: int, a: string, b: string, best: Best, urlFor: UrlFor)
    requires a != b
    requires best([Memento(a, 1), Memento(b, 2), Memento(a, 3)], dt, h.resourceType) == Memento(b, 2)
    ensures TimegateOutcome(h, uriR, dt, Some(Ok([Memento(a, 1), Memento(b, 2), Memento(a, 3)])), best, urlFor)
            == Err(AssertionFailed)
  {
    var ms := [Memento(a, 1), Memento(b, 2), Memento(a, 3)];
    TimegateListMode(h, uriR, dt, ms, best, urlFor);
  }

  /** Single-request mode: without a TimeMap, or with an empty one, the
      redirect goes to what `get_memento` returns, with no first or last, so
      the plain `memento` link is always there. */
  lemma TimegateSingleMode(h: Handler, uriR: string, dt: int, timemap: Option<Result<TimeMap>>,
                           best: Best, urlFor: UrlFor)
    requires timemap.None? || timemap == Some(Ok([]))
    ensures var r := TimegateOutcome(h, uriR, dt, timemap, best, urlFor);
      var one := FetchOne(h, uriR, dt);
      (r.Ok? <==> one.Ok?)
      && (r.Err? ==> r.error == one.error)
      && (r.Ok? ==> HeaderValue(r.value.headers, "Location") == Some(one.value.uri)
                    && r.value.links == [OriginalLink(uriR)] + AdvertisedTimemaps(uriR, h.useTimemaps, urlFor)
                                        + [MementoLink(one.value.uri, "memento", one.value.datetime)])
  {
    var one := FetchOne(h, uriR, dt);
    if one.Ok? {
      RedirectHeadersHold(one.value, uriR, None, None, h.useTimemaps, urlFor);
      SingleModeLinks(one.value);
    }
  }

  /** The outcome of `timemap` for a handler that serves TimeMaps. */
  function TimemapOutcome(timemap: Result<TimeMap>, format: Format, uriR: string,
                          urlFor: UrlFor, show: Link -> string): (r: Result<TimemapResponse>)
    ensures timemap.Err? ==> r == Err(timemap.error)
  {
    match timemap
    case Err(e) => Err(e)
    case Ok(ms) =>
      if format == JsonFormat then
        match TimemapJsonResponse(ms, uriR, urlFor)
        case Ok(j) => Ok(JsonResponse(j))
        case Err(e) => Err(e)
      else
        match TimemapLinkResponse(ms, uriR, urlFor, show)
        case Ok(l) => Ok(LinkResponse(l))
        case Err(e) => Err(e)
  }

  /** A TimeMap request answers in the format asked for, and fails on an
      empty TimeMap with the builders' assertion. */
  lemma TimemapFormats(ms: TimeMap, format: Format, uriR: string, urlFor: UrlFor, show: Link -> string)
    ensures var r := TimemapOutcome(Ok(ms), format, uriR, urlFor, show);
      (r.Ok? <==> |ms| >= 1)
      && (r.Err? ==> r.error == AssertionFailed)
      && (r.Ok? ==> (r.value.JsonResponse? <==> format == JsonFormat))
      && (r.Ok? && format == JsonFormat ==> |r.value.json.list| == |ms|)
      && (r.Ok? && format == LinkFormat ==> |r.value.link.links| == 4 + |ms|)
  {
  }

  /** The number of named (non-`None`) entries of a `HANDLERS` list. */
  function NamedCount(configured: seq<(Option<string>, PartialConfig)>): (n: nat)
    ensures n <= |configured|
  {
    if configured == [] then 0
    else NamedCount(configured[..|configured| - 1]) + (if configured[|configured| - 1].0.Some? then 1 else 0)
  }

  /** `HANDLERS.get(None, {})`: the default handler's own section. */
  function DefaultSection(configured: seq<(Option<string>, PartialConfig)>): PartialConfig {
    if configured == [] then PartialConfig(None, None, None, None)
    else if configured[0].0.None? then configured[0].1
    else DefaultSection(configured[1..])
  }

  /** One registration `url_map` makes: a handler name and its merged
      configuration. */
  type Registration = (Option<string>, HandlerConfig)

  /** The named handlers of `HANDLERS` in order, each with its own section
      merged over the global configuration. */
  function NamedRegistrations(configured: seq<(Option<string>, PartialConfig)>, global: HandlerConfig)
    : (regs: seq<Registration>)
    ensures |regs| == NamedCount(configured)
    ensures forall j :: 0 <= j < |regs| ==> regs[j].0.Some?
  {
    if configured == [] then []
    else
      var (name, section) := configured[|configured| - 1];
      NamedRegistrations(configured[..|configured| - 1], global)
        + (if name.Some? then [(name, Merge(section, global))] else [])
  }

  /** What `url_map` registers: the named handlers, then the default one. */
  function Registrations(configured: seq<(Option<string>, PartialConfig)>, global: HandlerConfig): seq<Registration> {
    NamedRegistrations(configured, global) + [(None, Merge(DefaultSection(configured), global))]
  }

  /** The registrations of a prefix of `HANDLERS` start those of the whole. */
  lemma {:induction false} NamedRegistrationsPrefix(configured: seq<(Option<string>, PartialConfig)>,
                                                     global: HandlerConfig, i: nat)
    requires i <= |configured|
    ensures NamedRegistrations(configured[..i], global) <= NamedRegistrations(configured, global)
    decreases |configured|
  {
    if i < |configured| {
      var init := configured[..|configured| - 1];
      assert configured[..i] == init[..i];
      NamedRegistrationsPrefix(init, global, i);
    } else {
      assert configured[..i] == configured;
    }
  }

  /** One more entry of `HANDLERS`: a named one adds its registration, at
      the place it has among all the named registrations. */
  lemma NamedStep(configured: seq<(Option<string>, PartialConfig)>, global: HandlerConfig, i: nat)
    requires i < |configured|
    ensures var done, (name, section) := NamedRegistrations(configured[..i], global), configured[i];
      NamedRegistrations(configured[..i + 1], global)
        == done + (if name.Some? then [(name, Merge(section, global))] else [])
      && (name.Some? ==> |done| < |NamedRegistrations(configured, global)|
                         && NamedRegistrations(configured, global)[|done|] == (name, Merge(section, global)))
  {
    assert configured[..i + 1][..i] == configured[..i];
    NamedRegistrationsPrefix(configured, global, i + 1);
  }

  /** The handler objects the registrations write flags onto. */
  function ObjectsOf(regs: seq<Registration>): set<HandlerObject> {
    set j | 0 <= j < |regs| :: regs[j].1.loaded
  }

  /** Every registered handler object has one of the two methods. */
  predicate AllCapable(regs: seq<Registration>) {
    forall j :: 0 <= j < |regs| ==> Capable(regs[j].1.loaded.methods)
  }

  /** Every converter passes its constructor's assertion. */
  predicate WellFormedRules(rules: seq<Rule>) {
    forall k :: 0 <= k < |rules| ==> rules[k].converter.WellFormed()
  }

  /** The rules a run of registrations adds: each handler's two, in order. */
  function RulesOf(regs: seq<Registration>): (rs: seq<Rule>)
    ensures |rs| == 2 * |regs|
  {
    if regs == [] then []
    else RulesOf(regs[..|regs| - 1]) + HandlerRules(regs[|regs| - 1].0, regs[|regs| - 1].1.baseUri)
  }

  /** Rules `2j` and `2j + 1` are the two rules of registration `j`. */
  lemma {:induction false} RulesOfEach(regs: seq<Registration>)
    ensures forall k :: 0 <= k < |RulesOf(regs)| ==>
              RulesOf(regs)[k] == HandlerRules(regs[k / 2].0, regs[k / 2].1.baseUri)[k % 2]
    decreases |regs|
  {
    if regs != [] {
      var init, last := regs[..|regs| - 1], regs[|regs| - 1];
      RulesOfEach(init);
      var rs := RulesOf(regs);
      forall k | 0 <= k < |rs| ensures rs[k] == HandlerRules(regs[k / 2].0, regs[k / 2].1.baseUri)[k % 2] {
        if k < 2 * |init| {
          assert rs[k] == RulesOf(init)[k];
          assert init[k / 2] == regs[k / 2];
        } else {
          assert k / 2 == |init|;
        }
      }
    }
  }

  /** No later registration in `regs` uses the name of registration `j`. */
  predicate LastOfName(regs: seq<Registration>, j: nat) {
    forall k :: j < k < |regs| ==> regs[k].0 != regs[j].0
  }

  /** No later registration in `regs` uses the object of registration `j`. */
  predicate LastOfObject(regs: seq<Registration>, j: nat) {
    forall k :: j < k < |regs| ==> regs[k].1.loaded != regs[j].1.loaded
  }

  /** The registry entries a run of registrations makes: every name it
      registers, bound to the object of its last registration. */
  function RegistryOf(regs: seq<Registration>): map<Option<string>, HandlerObject> {
    if regs == [] then map[]
    else RegistryOf(regs[..|regs| - 1])[regs[|regs| - 1].0 := regs[|regs| - 1].1.loaded]
  }

  /** The registry holds exactly the registered names. */
  lemma {:induction false} RegistryKeys(regs: seq<Registration>)
    ensures forall j :: 0 <= j < |regs| ==> regs[j].0 in RegistryOf(regs)
    ensures forall n :: n in RegistryOf(regs) ==> exists j :: 0 <= j < |regs| && regs[j].0 == n
    decreases |regs|
  {
    if regs != [] {
      var init, last := regs[..|regs| - 1], regs[|regs| - 1];
      RegistryKeys(init);
      forall j | 0 <= j < |init| ensures regs[j].0 in RegistryOf(regs) {
        assert init[j] == regs[j];
      }
      forall n | n in RegistryOf(regs) ensures exists j :: 0 <= j < |regs| && regs[j].0 == n {
        if n != last.0 {
          var j :| 0 <= j < |init| && init[j].0 == n;
          assert regs[j].0 == n;
        } else {
          assert regs[|regs| - 1].0 == n;
        }
      }
    }
  }

  /** Each registered name is bound to the object of its last
      registration. */
  lemma {:induction false} RegistryKeepsLast(regs: seq<Registration>)
    ensures forall j :: 0 <= j < |regs| && LastOfName(regs, j) ==>
              regs[j].0 in RegistryOf(regs) && RegistryOf(regs)[regs[j].0] == regs[j].1.loaded
    decreases |regs|
  {
    if regs != [] {
      var init, last := regs[..|regs| - 1], regs[|regs| - 1];
      RegistryKeepsLast(init);
      forall j | 0 <= j < |regs| && LastOfName(regs, j)
        ensures regs[j].0 in RegistryOf(regs) && RegistryOf(regs)[regs[j].0] == regs[j].1.loaded
      {
        if j < |init| {
          assert init[j] == regs[j];
          assert regs[|regs| - 1].0 != regs[j].0;
          assert LastOfName(init, j);
        }
      }
    }
  }

  /** When the named registrations come before the default one, as in
      `url_map`, the catch-all rules come last. */
  lemma BuiltRulesCatchAllLast(configured: seq<(Option<string>, PartialConfig)>, global: HandlerConfig)
    ensures CatchAllLast(RulesOf(Registrations(configured, global)))
  {
    var regs := Registrations(configured, global);
    var rs := RulesOf(regs);
    RulesOfEach(regs);
    forall i, j | 0 <= i < j < |rs| && rs[i].converter.default
      ensures rs[j].converter.default
    {
      assert regs[i / 2].0.None?;
      assert i / 2 == |regs| - 1;
      assert j / 2 == |regs| - 1;
    }
  }

  /** A handler name with no '.', which the endpoint split does not cut. */
  predicate Dotless(name: Option<string>) {
    name.None? || '.' !in name.value
  }

  /** The rule's endpoint splits to one of `keys`. */
  predicate DispatchesWithin(r: Rule, keys: set<Option<string>>) {
    SplitEndpoint(r.endpoint).Some? && SplitEndpoint(r.endpoint).value.0 in keys
  }

  /** Every rule from index `from` on dispatches within `keys`. */
  predicate AllDispatch(rules: seq<Rule>, from: nat, keys: set<Option<string>>) {
    forall k :: from <= k < |rules| ==> DispatchesWithin(rules[k], keys)
  }

  /** Registering a handler with a '.'-free name keeps every rule
      dispatchable, once the registry holds that name and the default. */
  lemma ExtendDispatch(rules: seq<Rule>, from: nat, keys: set<Option<string>>,
                       name: Option<string>, baseUri: string, keys2: set<Option<string>>)
    requires from <= |rules| && AllDispatch(rules, from, keys)
    requires keys <= keys2 && Dotless(name) && name in keys2 && None in keys2
    ensures AllDispatch(rules + HandlerRules(name, baseUri), from, keys2)
  {
    var rs := HandlerRules(name, baseUri);
    if name == Some("") {
      EmptyNameSplitsAsDefault("timegate");
      EmptyNameSplitsAsDefault("timemap");
    } else {
      HandlerEndpointsSplit(name, baseUri);
    }
    assert DispatchesWithin(rs[0], keys2) && DispatchesWithin(rs[1], keys2);
    var all := rules + rs;
    forall k | from <= k < |all| ensures DispatchesWithin(all[k], keys2) {
      if k < |rules| {
        assert all[k] == rules[k];
      } else {
        assert all[k] == rs[k - |rules|];
      }
    }
  }

  /** The rules of registrations under '.'-free names all dispatch to a
      name the registrations enter, or to the default handler. */
  lemma {:induction false} RegistrationsDispatch(regs: seq<Registration>)
    requires forall j :: 0 <= j < |regs| ==> Dotless(regs[j].0)
    ensures AllDispatch(RulesOf(regs), 0, RegistryOf(regs).Keys + {None})
    decreases |regs|
  {
    if regs != [] {
      var init, last := regs[..|regs| - 1], regs[|regs| - 1];
      assert forall j :: 0 <= j < |init| ==> init[j] == regs[j];
      RegistrationsDispatch(init);
      ExtendDispatch(RulesOf(init), 0, RegistryOf(init).Keys + {None},
                     last.0, last.1.baseUri, RegistryOf(regs).Keys + {None});
    }
  }

  /** The named registrations carry names of `HANDLERS`, so they are
      '.'-free when those are. */
  lemma {:induction false} NamedDotless(configured: seq<(Option<string>, PartialConfig)>, global: HandlerConfig)
    requires forall j :: 0 <= j < |configured| ==> Dotless(configured[j].0)
    ensures forall j :: 0 <= j < |NamedRegistrations(configured, global)| ==>
              Dotless(NamedRegistrations(configured, global)[j].0)
    decreases |configured|
  {
    if configured != [] {
      var init := configured[..|configured| - 1];
      assert forall j :: 0 <= j < |init| ==> init[j] == configured[j];
      NamedDotless(init, global);
    }
  }

  /** An application whose rules all dispatch keeps that property through
      `url_map`, when no handler name holds a '.'. */
  lemma BuiltRulesDispatch(base: seq<Rule>, baseHandlers: map<Option<string>, HandlerObject>,
                           configured: seq<(Option<string>, PartialConfig)>, global: HandlerConfig)
    requires AllDispatch(base, 0, baseHandlers.Keys)
    requires forall j :: 0 <= j < |configured| ==> Dotless(configured[j].0)
    ensures AllDispatch(base + RulesOf(Registrations(configured, global)), 0,
                        (baseHandlers + RegistryOf(Registrations(configured, global))).Keys)
  {
    var regs := Registrations(configured, global);
    NamedDotless(configured, global);
    assert forall j :: 0 <= j < |regs| ==> Dotless(regs[j].0) by {
      forall j | 0 <= j < |regs| ensures Dotless(regs[j].0) {
        if j < |regs| - 1 {
          assert regs[j] == NamedRegistrations(configured, global)[j];
        }
      }
    }
    RegistrationsDispatch(regs);
    assert None in RegistryOf(regs);
    var keys := (baseHandlers + RegistryOf(regs)).Keys;
    var rs := RulesOf(regs);
    var all := base + rs;
    forall k | 0 <= k < |all| ensures DispatchesWithin(all[k], keys) {
      if k < |base| {
        assert all[k] == base[k];
      } else {
        assert all[k] == rs[k - |base|];
      }
    }
  }

  /** The rules `url_map` leaves: every identifier finds a rule of each
      kind, and on a fresh application the first matching rule is the one
      the prefix-first policy picks. */
  lemma BuiltRulesResolve(base: seq<Rule>, configured: seq<(Option<string>, PartialConfig)>, global: HandlerConfig)
    ensures var rules := base + RulesOf(Registrations(configured, global));
      (forall value :: Resolve(rules, TimegateRule, value).Some? && Resolve(rules, TimemapRule, value).Some?)
      && (base == [] ==> CatchAllLast(rules)
                         && forall kind, value :: Resolve(rules, kind, value) == ResolvePrefixFirst(rules, kind, value))
  {
    var regs := Registrations(configured, global);
    var rules := base + RulesOf(regs);
    var d := regs[|regs| - 1];
    assert regs[..|regs| - 1] + [d] == regs;
    assert rules == base + RulesOf(regs[..|regs| - 1]) + HandlerRules(None, d.1.baseUri);
    CatchAllResolves(rules, TimegateRule, |rules| - 2);
    CatchAllResolves(rules, TimemapRule, |rules| - 1);
    if base == [] {
      BuiltRulesCatchAllLast(configured, global);
      assert rules == RulesOf(regs);
      forall kind, value ensures Resolve(rules, kind, value) == ResolvePrefixFirst(rules, kind, value) {
        PoliciesAgree(rules, kind, value);
      }
    }
  }

  class TimeGate {
    /** The registry of handler objects, by name; `None` is the default
        handler. */
    var handlers: map<Option<string>, HandlerObject>
    /** The URL rules, in registration order. */
    var rules: seq<Rule>
    /** The cache; `null` when the application has none. */
    const cache: Cache?

    ghost predicate Valid()
      reads this, cache
    {
      cache != null ==> cache.Valid()
    }

    /** `TimeGate.__init__`: no handlers and no rules yet. */
    constructor (cache: Cache?)
      requires cache != null ==> cache.Valid()
      ensures Valid()
      ensures this.cache == cache && handlers == map[] && rules == []
    {
      this.cache := cache;
      handlers := map[];
      rules := [];
    }

    /** `register_handler`: refuse a handler with neither method; otherwise
        write its flags onto the handler object, add its two rules and enter
        the object in the registry. */
    method RegisterHandler(name: Option<string>, config: HandlerConfig) returns (r: Outcome)
      modifies this, config.loaded
      ensures r.Fail? <==> !Capable(config.loaded.methods)
      ensures r.Fail? ==> r.error == NotImplemented && unchanged(this, config.loaded)
      ensures r.Pass? ==> rules == old(rules) + HandlerRules(name, config.baseUri)
                          && handlers == old(handlers)[name := config.loaded]
                          && config.loaded.Snapshot() == Registered(config)
    {
      var handler := config.loaded;
      var hasTimegate := handler.methods.getMemento.Some?;
      var hasTimemap := handler.methods.getAllMementos.Some?;
      if !(hasTimegate || hasTimemap) {
        return Fail(NotImplemented);
      }
      handler.useTimemaps := hasTimemap && config.useTimemaps;
      handler.resourceType := config.resourceType;
      rules := rules + HandlerRules(name, config.baseUri);
      handlers := handlers[name := handler];
      r := Pass;
    }

    /** `url_map`: register every named handler of `HANDLERS` in order, then
        the default handler, then build the map, whose converters check
        their own arguments.  It succeeds exactly when every handler object
        has a method and every converter is well formed; the rules and the
        registry are then those of the registrations, and every handler
        object keeps the flags of its last registration.  For a fresh
        application the catch-all rules come last, so the first matching
        rule is the one the prefix-first policy would pick.  When no handler
        name holds a '.', every rule dispatches to a registered handler. */
    method BuildUrlMap(configured: seq<(Option<string>, PartialConfig)>, global: HandlerConfig) returns (r: Outcome)
      modifies this, ObjectsOf(Registrations(configured, global))
      ensures var regs := Registrations(configured, global);
        r.Pass? <==> AllCapable(regs) && WellFormedRules(old(rules) + RulesOf(regs))
      ensures r.Fail? ==> (r.error == NotImplemented <==> !AllCapable(Registrations(configured, global)))
                          && (r.error == NotImplemented || r.error == AssertionFailed)
      ensures var regs := Registrations(configured, global);
        r.Pass? ==> rules == old(rules) + RulesOf(regs) && handlers == old(handlers) + RegistryOf(regs)
      ensures var regs := Registrations(configured, global);
        r.Pass? ==> forall j :: 0 <= j < |regs| && LastOfObject(regs, j) ==>
                      regs[j].1.loaded.Snapshot() == Registered(regs[j].1)
      ensures r.Pass? ==> forall value :: Resolve(rules, TimegateRule, value).Some?
                                          && Resolve(rules, TimemapRule, value).Some?
      ensures r.Pass? && old(rules) == [] ==>
                CatchAllLast(rules)
                && forall kind, value :: Resolve(rules, kind, value) == ResolvePrefixFirst(rules, kind, value)
      ensures r.Pass? && old(Routable()) && (forall j :: 0 <= j < |configured| ==> Dotless(configured[j].0)) ==>
                Routable()
    {
      ghost var regs := Registrations(configured, global);
      ghost var named := NamedRegistrations(configured, global);
      ghost var dotless := forall j :: 0 <= j < |configured| ==> Dotless(configured[j].0);
      assert regs[..|named|] == named;
      assert ObjectsOf(named) <= ObjectsOf(regs) by {
        forall o | o in ObjectsOf(named) ensures o in ObjectsOf(regs) {
          var j :| 0 <= j < |named| && named[j].1.loaded == o;
          assert regs[j] == named[j];
        }
      }
      r := RegisterNamed(configured, global);
      if r.Fail? {
        assert !AllCapable(regs) by {
          var j :| 0 <= j < |named| && !Capable(named[j].1.loaded.methods);
          assert regs[j] == named[j];
        }
        return;
      }
      var config := Merge(DefaultSection(configured), global);
      assert regs == named + [(None, config)];
      assert regs[|named|] == (None, config);
      assert config.loaded in ObjectsOf(regs);
      var o := RegisterNext(old(rules), old(handlers), named, None, config);
      if o.Fail? {
        assert !AllCapable(regs);
        return o;
      }
      if dotless && old(Routable()) {
        BuiltRulesDispatch(old(rules), old(handlers), configured, global);
      }
      BuiltRulesResolve(old(rules), configured, global);
      r := BindConverters();
    }

    /** The loop of `url_map`: register every named handler of `HANDLERS`
        in order, passing over the default handler's section. */
    method RegisterNamed(configured: seq<(Option<string>, PartialConfig)>, global: HandlerConfig) returns (r: Outcome)
      modifies this, ObjectsOf(NamedRegistrations(configured, global))
      ensures r.Pass? <==> AllCapable(NamedRegistrations(configured, global))
      ensures r.Fail? ==> r.error == NotImplemented
      ensures r.Pass? ==> Registers(old(rules), old(handlers), NamedRegistrations(configured, global))
    {
      ghost var named := NamedRegistrations(configured, global);
      ghost var done: seq<Registration> := [];
      var i := 0;
      while i < |configured|
        invariant 0 <= i <= |configured|
        invariant done == NamedRegistrations(configured[..i], global)
        invariant Registers(old(rules), old(handlers), done)
      {
        var (name, section) := configured[i];
        NamedStep(configured, global, i);
        if name.Some? {
          var config := Merge(section, global);
          assert config.loaded in ObjectsOf(named);
          var o := RegisterNext(old(rules), old(handlers), done, name, config);
          if o.Fail? {
            assert !AllCapable(named);
            return o;
          }
          done := done + [(name, config)];
        }
        i := i + 1;
      }
      assert configured[..i] == configured;
      r := Pass;
    }

    /** `register_handler` as one step of `url_map`: on success the
        registrations made so far grow by one. */
    method RegisterNext(ghost base: seq<Rule>, ghost baseHandlers: map<Option<string>, HandlerObject>,
                        ghost done: seq<Registration>, name: Option<string>, config: HandlerConfig)
      returns (r: Outcome)
      requires Registers(base, baseHandlers, done)
      modifies this, config.loaded
      ensures r.Fail? <==> !Capable(config.loaded.methods)
      ensures r.Fail? ==> r.error == NotImplemented
      ensures r.Pass? ==> Registers(base, baseHandlers, done + [(name, config)])
    {
      r := RegisterHandler(name, config);
      if r.Pass? {
        var all := done + [(name, config)];
        Registered1(done, (name, config), old(handlers), baseHandlers);
        assert all[..|done|] == done;
        forall j | 0 <= j < |all| && LastOfObject(all, j)
          ensures all[j].1.loaded.Snapshot() == Registered(all[j].1)
        {
          if j < |done| {
            assert all[j] == done[j];
            assert old(done[j].1.loaded.Snapshot()) == Registered(done[j].1);
          }
        }
      }
    }

    /** The state after the registrations `done`, made on top of the rules
        `base` and the registry `baseHandlers`: their rules and registry
        entries are added, and every object keeps the flags of its last
        registration. */
    ghost predicate Registers(base: seq<Rule>, baseHandlers: map<Option<string>, HandlerObject>,
                              done: seq<Registration>)
      reads this, ObjectsOf(done)
    {
      rules == base + RulesOf(done) && handlers == baseHandlers + RegistryOf(done) && AllCapable(done)
      && forall j :: 0 <= j < |done| && LastOfObject(done, j) ==>
           done[j].1.loaded.Snapshot() == Registered(done[j].1)
    }

    /** `Map(self.rules, converters={'uri': URIConverter})`: build every
        rule's converter, stopping at the first whose assertion fails. */
    method BindConverters() returns (r: Outcome)
      ensures r.Pass? <==> WellFormedRules(rules)
      ensures r.Fail? ==> r.error == AssertionFailed
    {
      var k := 0;
      while k < |rules|
        invariant 0 <= k <= |rules|
        invariant forall j :: 0 <= j < k ==> rules[j].converter.WellFormed()
      {
        var c := NewConverter(rules[k].converter.baseUri, rules[k].converter.default);
        if c.Err? {
          return Fail(c.error);
        }
        k := k + 1;
      }
      r := Pass;
    }

    /** Every rule's endpoint splits to the key of a registered handler. */
    predicate Routable()
      reads this
    {
      AllDispatch(rules, 0, handlers.Keys)
    }

    /** `dispatch_request`: the rule that takes the request, the handler its
        endpoint names, the method to call and its `uri_r` argument. */
    function Route(kind: RuleKind, value: string): (r: Result<(HandlerObject, string, string)>)
      reads this
      ensures r == Err(NotFound) <==> Resolve(rules, kind, value).None?
      ensures Routable() ==> (r.Ok? <==> Resolve(rules, kind, value).Some?)
      ensures r.Ok? ==>
                var rule := rules[Resolve(rules, kind, value).value];
                var split := SplitEndpoint(rule.endpoint);
                split.Some? && split.value.0 in handlers
                && r.value == (handlers[split.value.0], split.value.1, rule.converter.ToPython(value))
    {
      match Resolve(rules, kind, value)
      case None => Err(NotFound)
      case Some(k) =>
        match Dispatch(rules[k].endpoint)
        case Err(e) => Err(e)
        case Ok((h, endpoint)) => Ok((h, endpoint, rules[k].converter.ToPython(value)))
    }

    /** The handler an endpoint names, and the endpoint's own name. */
    function Dispatch(endpoint: string): (r: Result<(HandlerObject, string)>)
      reads this
      ensures r.Ok? ==> SplitEndpoint(endpoint).Some?
                        && SplitEndpoint(endpoint).value.0 in handlers
                        && r.value == (handlers[SplitEndpoint(endpoint).value.0], SplitEndpoint(endpoint).value.1)
      ensures r.Err? ==> r.error == InternalError
    {
      match SplitEndpoint(endpoint)
      case None => Err(InternalError)
      case Some((name, ep)) => if name in handlers then Ok((handlers[name], ep)) else Err(InternalError)
    }

    /** What the cache answers for `get_all_mementos`: the cached TimeMap
        when there is a cache and the request does not say `no-cache`,
        nothing otherwise. */
    function CachedTimemap(uriR: string, req: Request): (r: Option<TimeMap>)
      reads this, cache
      ensures cache != null && req.cacheControl != "no-cache" ==> r == cache.GetAll(uriR, req.now)
      ensures cache == null || req.cacheControl == "no-cache" ==> r.None?
    {
      if cache != null && req.cacheControl != "no-cache" then cache.GetAll(uriR, req.now) else None
    }

    /** The cache lookup as line 236 is written: werkzeug's parsed
        `cache_control` object never equals the string 'no-cache', so the
        cache answers whenever there is one. */
    function CachedTimemapAsWritten(uriR: string, req: Request): (r: Option<TimeMap>)
      reads this, cache
      ensures cache != null ==> r == cache.GetAll(uriR, req.now)
      ensures cache == null ==> r.None?
    {
      if cache != null then cache.GetAll(uriR, req.now) else None
    }

    /** A `no-cache` request is answered from a fresh cache entry as
        written, and fetched anew as intended. */
    lemma NoCacheIgnoredAsWritten(uriR: string, req: Request)
      requires cache != null && req.cacheControl == "no-cache" && cache.GetAll(uriR, req.now).Some?
      ensures CachedTimemapAsWritten(uriR, req).Some? && CachedTimemap(uriR, req).None?
    {
    }

    /** `get_all_mementos`: answer from the cache when it can; otherwise
        fetch from the handler, and store what was fetched. */
    method GetAllMementos(h: Handler, uriR: string, req: Request) returns (r: Result<TimeMap>, fetched: bool)
      requires Valid()
      modifies cache
      ensures Valid()
      ensures fetched <==> old(CachedTimemap(uriR, req)).None?
      ensures r == AllMementos(old(CachedTimemap(uriR, req)), h, uriR)
      ensures cache != null ==>
                cache.backend == if fetched && r.Ok? then old(cache.Stored(uriR, r.value, req.now))
                                 else old(cache.backend)
    {
      var mementos: Option<TimeMap> := None;
      if cache != null && req.cacheControl != "no-cache" {
        mementos := cache.GetAll(uriR, req.now);
      }
      if mementos.None? {
        fetched := true;
        r := FetchAll(h, uriR);
        if r.Ok? && cache != null {
          cache.Set(uriR, r.value, req.now);
        }
      } else {
        fetched := false;
        r := Ok(mementos.value);
      }
    }

    /** `timegate`: negotiate over the whole TimeMap when the handler serves
        TimeMaps and it is not empty, over one `get_memento` call otherwise;
        a TimeMap fetched from the handler goes into the cache. */
    method Timegate(h: Handler, uriR: string, req: Request, best: Best, urlFor: UrlFor) returns (r: Result<Redirect>)
      requires Valid()
      modifies cache
      ensures Valid()
      ensures r == TimegateOutcome(h, uriR, AcceptDatetime(req),
                                   if h.useTimemaps then Some(AllMementos(old(CachedTimemap(uriR, req)), h, uriR)) else None,
                                   best, urlFor)
      ensures !h.useTimemaps && cache != null ==> cache.backend == old(cache.backend)
      ensures h.useTimemaps && cache != null ==>
                cache.backend == if old(CachedTimemap(uriR, req)).None? && FetchAll(h, uriR).Ok?
                                 then old(cache.Stored(uriR, FetchAll(h, uriR).value, req.now))
                                 else old(cache.backend)
    {
      var acceptDatetime := AcceptDatetime(req);
      var mementos: Option<TimeMap> := None;
      if h.useTimemaps {
        var all, _ := GetAllMementos(h, uriR, req);
        if all.Err? {
          return Err(all.error);
        }
        mementos := Some(all.value);
      }
      var memento: Memento;
      var first: Option<Memento> := None;
      var last: Option<Memento> := None;
      if mementos.Some? && |mementos.value| > 0 {
        var ms := mementos.value;
        first := Some(ms[0]);
        last := Some(ms[|ms| - 1]);
        memento := best(ms, acceptDatetime, h.resourceType);
      } else {
        var one := FetchOne(h, uriR, acceptDatetime);
        if one.Err? {
          return Err(one.error);
        }
        memento := one.value;
      }
      r := MementoResponse(memento, uriR, first, last, h.useTimemaps, urlFor);
    }

    /** `timemap`: refuse with 403 unless the handler serves TimeMaps; a
        TimeMap fetched from the handler goes into the cache. */
    method Timemap(h: Handler, uriR: string, format: Format, req: Request, urlFor: UrlFor, show: Link -> string)
      returns (r: Result<TimemapResponse>)
      requires Valid()
      modifies cache
      ensures Valid()
      ensures !h.useTimemaps ==> r == Err(Forbidden) && (cache != null ==> cache.backend == old(cache.backend))
      ensures h.useTimemaps ==>
                r == TimemapOutcome(AllMementos(old(CachedTimemap(uriR, req)), h, uriR), format, uriR, urlFor, show)
      ensures h.useTimemaps && cache != null ==>
                cache.backend == if old(CachedTimemap(uriR, req)).None? && FetchAll(h, uriR).Ok?
                                 then old(cache.Stored(uriR, FetchAll(h, uriR).value, req.now))
                                 else old(cache.backend)
    {
      if !h.useTimemaps {
        return Err(Forbidden);
      }
      var mementos, _ := GetAllMementos(h, uriR, req);
      if mementos.Err? {
        return Err(mementos.error);
      }
      if format == JsonFormat {
        var j := TimemapJsonResponse(mementos.value, uriR, urlFor);
        r := if j.Ok? then Ok(JsonResponse(j.value)) else Err(j.error);
      } else {
        var l := TimemapLinkResponse(mementos.value, uriR, urlFor, show);
        r := if l.Ok? then Ok(LinkResponse(l.value)) else Err(l.error);
      }
    }
  }

  /** One registration more: the registry takes the new name's object, and
      the objects that keep their flags are the new one and those it does
      not share with. */
  lemma Registered1(done: seq<Registration>, x: Registration,
                    before: map<Option<string>, HandlerObject>, base: map<Option<string>, HandlerObject>)
    requires before == base + RegistryOf(done)
    ensures before[x.0 := x.1.loaded] == base + RegistryOf(done + [x])
    ensures forall j :: 0 <= j < |done| && LastOfObject(done + [x], j) ==>
              LastOfObject(done, j) && done[j].1.loaded != x.1.loaded
  {
    RegistryOfSnoc(done, x);
    UnionUpdate(base, RegistryOf(done), x.0, x.1.loaded);
    forall j | 0 <= j < |done| && LastOfObject(done + [x], j)
      ensures LastOfObject(done, j) && done[j].1.loaded != x.1.loaded
    {
      assert (done + [x])[|done|] == x;
      forall k | j < k < |done| ensures done[k].1.loaded != done[j].1.loaded {
        assert (done + [x])[k] == done[k];
      }
    }
  }

  lemma RegistryOfSnoc(done: seq<Registration>, x: Registration)
    ensures RegistryOf(done + [x]) == RegistryOf(done)[x.0 := x.1.loaded]
  {
    assert (done + [x])[..|done|] == done;
  }

  lemma UnionUpdate<K, V>(a: map<K, V>, b: map<K, V>, k: K, v: V)
    ensures (a + b)[k := v] == a + b[k := v]
  {
  }

  /** A single configured handler gives the two rules of the default
      handler. */
  method SingleHandlerScenario(m: HandlerModule, base: string) returns (rules: seq<Rule>)
    requires Capable(m)
    ensures rules == HandlerRules(None, base)
  {
    var h := new HandlerObject(m, false, "");
    var app := new TimeGate(null);
    var o := app.BuildUrlMap([], HandlerConfig(h, false, "vcs", base));
    assert Registrations([], HandlerConfig(h, false, "vcs", base))
           == [(None, HandlerConfig(h, false, "vcs", base))];
    assert o.Pass?;
    rules := app.rules;
  }

  /** A default handler on BASE1 and one named "base2" on BASE2, each with
      its own object, give the four rules of `ExampleRules`. */
  method MultiHandlerScenario(m1: HandlerModule, m2: HandlerModule) returns (rules: seq<Rule>)
    requires Capable(m1) && Capable(m2)
    ensures rules == ExampleRules()
  {
    var h1 := new HandlerObject(m1, false, "");
    var h2 := new HandlerObject(m2, false, "");
    var app := new TimeGate(null);
    var global := HandlerConfig(h1, false, "vcs", BASE1);
    var configured := [(Some("base2"), PartialConfig(Some(h2), None, None, Some(BASE2)))];
    assert configured[..0] == [] && configured[1..] == [];
    assert NamedRegistrations(configured, global) == [(Some("base2"), HandlerConfig(h2, false, "vcs", BASE2))];
    assert DefaultSection(configured) == PartialConfig(None, None, None, None);
    assert Registrations(configured, global)
           == [(Some("base2"), HandlerConfig(h2, false, "vcs", BASE2)), (None, global)];
    ghost var regs := Registrations(configured, global);
    assert regs[..1] == [regs[0]] && [regs[0]][..0] == [];
    assert RulesOf(regs) == ExampleRules();
    assert WellFormedRules(RulesOf(regs)) && AllCapable(regs);
    var o := app.BuildUrlMap(configured, global);
    assert o.Pass?;
    rules := app.rules;
  }

  /** The registrations of a section "x" that sets only its flags and base
      URI, over a global configuration naming the handler object `h`. */
  lemma SharedRegistrations(h: HandlerObject, configured: seq<(Option<string>, PartialConfig)>, global: HandlerConfig)
    requires global == HandlerConfig(h, false, "vcs", BASE1)
    requires configured == [(Some("x"), PartialConfig(None, Some(true), None, Some(BASE2)))]
    ensures Registrations(configured, global) == [(Some("x"), HandlerConfig(h, true, "vcs", BASE2)), (None, global)]
  {
    assert configured[..0] == [] && configured[1..] == [];
    assert NamedRegistrations(configured, global) == [(Some("x"), HandlerConfig(h, true, "vcs", BASE2))];
    assert DefaultSection(configured) == PartialConfig(None, None, None, None);
  }

  /** Both registrations of the shared object succeed, and the name "x" is
      bound to that object. */
  lemma SharedRegistrationsPass(h: HandlerObject, regs: seq<Registration>)
    requires h.methods.getAllMementos.Some?
    requires regs == [(Some("x"), HandlerConfig(h, true, "vcs", BASE2)), (None, HandlerConfig(h, false, "vcs", BASE1))]
    ensures AllCapable(regs) && WellFormedRules(RulesOf(regs)) && LastOfObject(regs, 1)
    ensures Some("x") in RegistryOf(regs) && RegistryOf(regs)[Some("x")] == h
  {
    assert regs[..1] == [regs[0]] && [regs[0]][..0] == [];
    assert RulesOf(regs) == HandlerRules(Some("x"), BASE2) + HandlerRules(None, BASE1);
    RegistryKeepsLast(regs);
    assert LastOfName(regs, 0);
  }

  /** A named section without its own handler object shares the global
      one, so the default registration, which comes last, leaves its flags
      on it: the named handler's TimeMap requests are refused with 403 even
      though its section asks for TimeMaps. */
  method SharedHandlerScenario(m: HandlerModule, urlFor: UrlFor, show: Link -> string) returns (r: Result<TimemapResponse>)
    requires m.getAllMementos.Some?
    ensures r == Err(Forbidden)
  {
    var h := new HandlerObject(m, false, "");
    var app := new TimeGate(null);
    var global := HandlerConfig(h, false, "vcs", BASE1);
    var configured := [(Some("x"), PartialConfig(None, Some(true), None, Some(BASE2)))];
    SharedRegistrations(h, configured, global);
    ghost var regs := Registrations(configured, global);
    SharedRegistrationsPass(h, regs);
    var o := app.BuildUrlMap(configured, global);
    assert o.Pass?;
    assert h.Snapshot() == Registered(regs[1].1);
    assert Some("x") in app.handlers && app.handlers[Some("x")] == h;
    r := app.Timemap(app.handlers[Some("x")].Snapshot(), BASE2 + "a", LinkFormat,
                     Request(None, "", 0), urlFor, show);
  }
}
