# TimeGate: a Dafny model

TimeGate is a Memento server (RFC 7089). It answers two kinds of request about
an original resource (URI-R). For a TimeGate request it redirects (302) to the
archived version (Memento, URI-M) that best fits the requested
`Accept-Datetime`. For a TimeMap request it lists every Memento, as a
link-format body or as a JSON document. The Mementos come from pluggable
handlers. A handler can serve the whole list (`get_all_mementos`), a single
Memento (`get_memento`), or both. Whole lists can be kept in a freshness cache.

This project models the core of that server and proves properties of the model.

- `types.dfy` (`Types`) holds the shared values and the error outcomes. Python
  exceptions and failed `assert`s become `Err` values.
- `uri.dfy` (`Uri`) models the URI converter of the routing rules. It adds or
  strips a handler's base URI and maps `' '` to `'%20'` and back, with
  `str.replace`'s left-to-right, non-overlapping semantics. It also has the
  numbers line 92 tags the converters with (100 for the catch-all, 400 for
  a prefix converter; see "## Findings") and round-trip lemmas.
- `cache.dfy` (`FreshCache`) models the cache as a class. Its backend map is
  updated in place by `Set`. Freshness is `date <= timestamp + tolerance`, in
  whole seconds, and the size limit is clamped at 0.
- `responses.dfy` (`Responses`) models the response builders:
  - the 302 redirect with its `Link` relations, built by successive appends in
    a method that is proved equal to a specification function;
  - the link-format TimeMap, including its `',\n'`-joined body;
  - the JSON TimeMap.
- `timegate.dfy` (`TimeGateApp`) models the application:
  - handler objects, which `load_handler` hands over as they are configured,
    so that two registrations can share one object and the later one leaves
    its `use_timemaps` and `resource_type` flags on it;
  - handler registration, which changes two fields of the `TimeGate` class:
    the rule list and the handler registry;
  - building the URL map from the `HANDLERS` configuration: the named
    handlers in order, then the default one, then the converters, whose
    constructor asserts `base_uri or default`;
  - choosing a rule (the first matching rule in registration order) and
    splitting its endpoint back into a handler name;
  - the cache-then-fetch-then-store of `get_all_mementos`;
  - the `timegate` and `timemap` request handlers.

Foreign code is passed in as function values:

- the handler's own methods, with `hasattr` modelled as `Some?`;
- `best`, `url_for` and `str(Link)`;
- the size of a cache entry.

The request is a value that carries `Accept-Datetime`, `Cache-Control` and the
current time `now`.

The model follows the code where the code differs from the protocol's prose.
`memento_response` emits its `first memento` and `last memento` links with the
chosen Memento's URI (URI-M) and the first and last datetimes (application.py
lines 372-373 and 378-380). It does not emit the first and last Mementos'
own URIs. `MementoRelations` and `RelationsPointAtChosen` state this as
written.

A TimeMap whose first and last Mementos share a URI while `best` picks
another Memento fails the assertion of `memento_response` (line 367);
`RepeatedUriFails` shows this and `DistinctUrisRedirect` shows that it
cannot happen when the Mementos have distinct URIs, as RFC 7089 gives every
Memento its own URI-M.

## Model

| member | source | states |
|---|---|---|
| Uri.Converter.Weight | timegate/application.py:92 | the tag is 100 exactly for the catch-all converter and 400 exactly for a prefix converter |
| Uri.NewConverter | timegate/application.py:82-85 | building a converter succeeds iff it has a base URI or is the default; otherwise it fails with the assertion error |
| Uri.Converter.ToPython | timegate/application.py:94-99 | the result always starts with the base URI; an identifier that already carries it after encoding comes back only encoded; any other gets the base URI prepended |
| Uri.Converter.ToUrl | timegate/application.py:101-106 | after decoding, one leading base URI is stripped when present; otherwise the decoded value is returned |
| Uri.EncodeAppend | timegate/application.py:96 | replacing spaces distributes over concatenation |
| Uri.EncodeNoSpace | timegate/application.py:96 | a value with no space is left unchanged by the encoding |
| Uri.EncodeRemovesSpaces | timegate/application.py:96 | no space survives the encoding |
| Uri.DecodeEncode | timegate/application.py:96-103 | decoding undoes encoding for a value with no `%20` in it |
| Uri.EncodeDecode | timegate/application.py:96-103 | encoding undoes decoding for a value with no space in it |
| Uri.EncodedPrefix | timegate/application.py:96-97 | if the encoded value starts with a `%`-free prefix, the value itself starts with it |
| Uri.PrefixEncoded | timegate/application.py:96-97 | if a value starts with a space-free prefix, so does its encoding |
| Uri.ToPythonPrefixed | timegate/application.py:94-99 | an identifier that starts with the (space-free) base URI is only encoded |
| Uri.ToPythonBare | timegate/application.py:94-99 | an identifier that does not start with the (`%`-free) base URI gets it prepended to its encoding |
| Uri.DefaultConverterOnlyRecodes | timegate/application.py:94-106 | with no base URI, to_python only encodes and to_url only decodes |
| Uri.ToUrlToPython | timegate/application.py:94-106 | for a bare identifier without `%20`, and a base URI without space or `%`, to_url(to_python(v)) == v |
| Uri.ToPythonToUrl | timegate/application.py:94-106 | for a space-free identifier that carries the base URI exactly once, to_python(to_url(x)) == x |
| Uri.BareAndPrefixedAgree | tests/test_timegate.py:69-79 | the bare form of an identifier and the form prefixed by the base URI convert to the same URI-R |
| FreshCache.Cache.constructor | timegate/cache.py:29-42 | the tolerance is the refresh time; a non-positive size limit becomes 0; size checking is on iff the limit is positive |
| FreshCache.Cache.GetUntil | timegate/cache.py:44-62 | returns the stored TimeMap iff an entry exists for the URI-R and date <= timestamp + tolerance; nothing otherwise |
| FreshCache.Cache.GetAll | timegate/cache.py:64-72 | the same answer as get_until at the current time |
| FreshCache.Cache.CheckSize | timegate/cache.py:88-100 | with limit 0 every entry passes; otherwise an entry passes iff its size is at most the limit |
| FreshCache.Cache.Stored | timegate/cache.py:74-86 | (now, timemap) is written under the URI-R iff the size check passes; otherwise the store is unchanged; every other key keeps its entry |
| FreshCache.Cache.Set | timegate/cache.py:74-86 | the backend becomes the stored map; an admitted write is answered by get_until at the same time when tolerance >= 0 |
| FreshCache.FreshnessMonotone | timegate/cache.py:61 | an entry that answers for a date answers, with the same TimeMap, for every earlier date |
| FreshCache.StoredIsFresh | timegate/cache.py:83-86 | an admitted write holds the given TimeMap and is fresh at the time it was made |
| FreshCache.StoredGoesStale | timegate/cache.py:61 | an admitted write stays fresh for a date iff date <= now + tolerance |
| Responses.RedirectLinks | timegate/application.py:348-380 | the redirect's first link is `original` for the URI-R |
| Responses.MementoRelations | timegate/application.py:359-380 | the Memento relations of the redirect, one to three links, all pointing at URI-M: `first last memento` when first and last share a URI; otherwise `first memento`, plain `memento` and `last memento` under the conditions of lines 371-380 |
| Responses.MementoRedirect | timegate/application.py:328-392 | what `memento_response` returns: a 302 redirect whose first link is `original` exactly when line 367's assertion holds, the assertion error otherwise |
| Responses.MementoResponse | timegate/application.py:328-392 | the links built by successive appends, and the headers, equal the redirect specification |
| Responses.RedirectHeadersHold | timegate/application.py:365-392 | the response exists iff the single-Memento assertion holds; then the status is 302, `Location` is URI-M, `Vary` is accept-datetime and the first link is `original` |
| Responses.TimemapLinksIffServed | timegate/application.py:348-357 | exactly two `timemap` links when the handler serves TimeMaps, none otherwise |
| Responses.NoTimemapAmongMementos | timegate/application.py:359-380 | the Memento relations never include a `timemap` link |
| Responses.CollapsedGivesOneLink | timegate/application.py:365-369 | when first and last share a URI, the only Memento relation is one `first last memento` link, with no plain `memento` link |
| Responses.PlainMementoIff | timegate/application.py:370-380 | otherwise a plain `memento` link appears iff URI-M differs from both the first and the last URI; `first memento` appears iff there is a first, and `last memento` iff there is a last |
| Responses.SingleModeLinks | timegate/application.py:359-380 | with no first and no last, the Memento relations are exactly one plain `memento` link to URI-M |
| Responses.RelationsPointAtChosen | timegate/application.py:368-380 | every Memento relation points at URI-M; `first memento` and `last memento` carry the first and last datetimes |
| Responses.PlainMementoLinks | timegate/application.py:433-435 | one `memento` link per entry, in list order |
| Responses.TimemapMementoLinks | timegate/application.py:425-439 | link i goes to entry i, labelled by its position: `first last memento` for one entry; `first memento`, `memento`s, `last memento` otherwise |
| Responses.TimemapLabels | timegate/application.py:428-439 | with two or more entries: one `first memento` at the head, one `last memento` at the end, and n-2 `memento` links |
| Responses.AllPlain | timegate/application.py:433-435 | the middle links are all plain `memento` links, none first or last |
| Responses.TimemapSingleLabel | timegate/application.py:425-427 | a one-entry TimeMap gives exactly one `first last memento` link |
| Responses.Strings | timegate/application.py:444 | one string per link, the i-th being the i-th link's text |
| Responses.TimemapHeadLinks | timegate/application.py:405-422 | the four links ahead of the Mementos: `original` to the URI-R, `timegate` to the TimeGate URL, `self` to the link-format TimeMap URL and `timemap` to the JSON TimeMap URL, with their media types |
| Responses.TimemapLinkResponse | timegate/application.py:395-453 | fails with the assertion error iff the list is empty; otherwise status 200, link-format, the 4 head links followed by one positioned link per entry, and the body is the joined links |
| Responses.LinkBodyPieces | timegate/application.py:444 | when no link text holds a newline, splitting the body on newlines gives one piece per link plus one |
| Responses.TimemapBodyPieces | timegate/application.py:442-444 | a TimeMap of n entries splits into n + 5 pieces on newlines (8 for 3 entries) |
| Responses.JsonEntries | timegate/application.py:476-479 | one entry per Memento, in order, with its URI and datetime |
| Responses.TimemapJsonResponse | timegate/application.py:456-510 | fails with the assertion error iff the list is empty; otherwise the list keeps length and order, first and last are its ends, and the URIs are the original, TimeGate and both TimeMap URLs |
| TimeGateApp.Merge | timegate/application.py:130-136 | every key of the merged configuration comes from the handler's own section when it sets it, from the global configuration otherwise |
| TimeGateApp.Registered | timegate/application.py:171-174 | the handler serves TimeMaps iff it has get_all_mementos and USE_TIMEMAPS is set; it keeps the configured resource type |
| TimeGateApp.SplitEndpoint | timegate/application.py:52 | a split endpoint has a '.'-free handler name (or none) and a non-empty '.'-free endpoint, which rejoin to the input |
| TimeGateApp.EndpointRoundTrip | timegate/application.py:176-201 | an endpoint built from a valid name and endpoint splits back into that name and endpoint |
| TimeGateApp.EmptyNameSplitsAsDefault | timegate/application.py:176-200 | an empty handler name gets no prefix, so its endpoints split to the default handler's key |
| TimeGateApp.HandlerRules | timegate/application.py:176-188 | exactly two rules, a TimeGate one and a TimeMap one, with the handler's converter (catch-all iff the name is None), GET and HEAD, and the prefixed endpoints |
| TimeGateApp.HandlerEndpointsSplit | timegate/application.py:181-200 | the endpoints of a handler's two rules split back to that handler's name and to `timegate` / `timemap` |
| TimeGateApp.ResolveFrom | timegate/application.py:133-137 | no rule is chosen iff none matches; otherwise the chosen rule matches and no earlier rule does: the first match in registration order, as every converter keeps the same weight |
| TimeGateApp.PrefixFirstFrom | timegate/application.py:92 | the prefix-first policy that line 92's tags (400 for a prefix rule above 100 for the catch-all), the comment at application.py:133 ('Default handler at the end in case the weights are same') and test_timegate.py:69-79 point to: a matching rule bound to a base URI before the catch-all (ranked by line 92's tags, higher first), the earliest among equals |
| TimeGateApp.PrefixRuleWins | timegate/application.py:133-137 | when no catch-all rule comes before a prefix rule, a matching prefix rule takes the request away from the catch-all |
| TimeGateApp.PrefixFirstWins | timegate/application.py:92 | under the prefix-first policy a matching prefix rule wins wherever it stands |
| TimeGateApp.PoliciesAgree | timegate/application.py:133-136 | when the catch-all rules come last, the first match is the rule the prefix-first policy picks |
| TimeGateApp.CatchAllShadows | timegate/application.py:92 | a catch-all registered before a prefix rule takes an identifier under that prefix, which the prefix-first policy would give to the prefix rule |
| TimeGateApp.CatchAllResolves | timegate/application.py:133-136 | with the default handler's catch-all rule present, every identifier finds a rule |
| TimeGateApp.OnlyCandidate | timegate/application.py:198 | a rule that is the only match takes the request |
| TimeGateApp.OnlyPrefixCandidate | timegate/application.py:133-137 | with the catch-all rules last, the only matching prefix rule takes the request |
| TimeGateApp.ExampleRules | tests/test_timegate.py:54-64 | a handler named base2 on base2, then the default on base1, give four rules; the TimeGate rules are at 0 (prefix) and 2 (catch-all) |
| TimeGateApp.BareGoesToDefault | tests/test_timegate.py:69-79 | a bare identifier is taken by the default handler and comes out under base1 |
| TimeGateApp.Base1GoesToDefault | tests/test_timegate.py:69-79 | an identifier under base1 is taken by the default handler and comes out unchanged |
| TimeGateApp.Base2GoesToNamed | tests/test_timegate.py:69-79 | an identifier under base2 is taken by the base2 handler, not the catch-all, and comes out unchanged |
| TimeGateApp.Base1Resolves | tests/test_timegate.py:69-79 | the rule chosen for an identifier under base1 is the default handler's TimeGate rule |
| TimeGateApp.Base2Resolves | tests/test_timegate.py:69-79 | the rule chosen for an identifier under base2 is the base2 handler's TimeGate rule |
| TimeGateApp.KeptUnderBase | timegate/application.py:94-99 | an identifier already under a space-free base URI passes the converter unchanged |
| TimeGateApp.HandlerObject.constructor | timegate/application.py:60-63 | a handler object as `load_handler` returns a configured instance: its methods and the two flags registration later writes |
| TimeGateApp.AcceptDatetime | timegate/application.py:254-259 | the requested datetime: `Accept-Datetime` when the request has one, the current time otherwise |
| TimeGateApp.FetchOne | timegate/application.py:216-226 | the TimeGate's `get_memento` wrapper: the handler's `get_memento` answer, or the missing-method error when it has none |
| TimeGateApp.AllMementos | timegate/application.py:236-243 | the TimeMap `get_all_mementos` yields: the cached one on a hit, the handler's fetch on a miss |
| TimeGateApp.Select | timegate/application.py:262-275 | with a non-empty TimeMap: the Memento best picks, first = mementos[0], last = mementos[-1]; otherwise the single get_memento result with no first or last, or its error |
| TimeGateApp.TimegateOutcome | timegate/application.py:262-283 | the outcome of `timegate` given the TimeMap fetched: a fetch error surfaces as is; otherwise the selection is passed to `memento_response`, whose redirect has status 302 |
| TimeGateApp.TimegateListMode | timegate/application.py:267-283 | with a non-empty TimeMap the redirect exists iff the single-Memento assertion holds; it goes to best's choice, with the list's ends as first and last |
| TimeGateApp.OneMementoRedirects | timegate/application.py:267-283 | when best returns an element of its list, a one-Memento TimeMap always redirects to that Memento |
| TimeGateApp.ListModeStaysInList | timegate/application.py:267-283 | when best returns an element of its list, the redirect's `Location` is the URI of one of the TimeMap's Mementos |
| TimeGateApp.DistinctUrisRedirect | timegate/application.py:365-367 | when best returns an element of its list and the URIs are pairwise distinct, the assertion holds and list mode always redirects |
| TimeGateApp.RepeatedUriFails | timegate/application.py:365-367 | a TimeMap whose first and last share a URI, with best picking a different Memento, ends in the assertion error |
| TimeGateApp.TimegateSingleMode | timegate/application.py:262-283 | with no TimeMap or an empty one, the redirect exists iff get_memento succeeds; it goes there, with the plain `memento` link always present |
| TimeGateApp.TimemapOutcome | timegate/application.py:299-304 | the outcome of `timemap` for a handler that serves TimeMaps: a fetch error surfaces as is; otherwise the JSON builder when JSON was asked for, the link builder otherwise |
| TimeGateApp.TimemapFormats | timegate/application.py:299-304 | a TimeMap answer exists iff the list is non-empty; it is JSON iff JSON was asked for; the JSON list has n entries and the link list 4 + n |
| TimeGateApp.NamedRegistrations | timegate/application.py:127-132 | one registration per named entry of `HANDLERS`, in order, each with a name |
| TimeGateApp.DefaultSection | timegate/application.py:134-135 | `HANDLERS.get(None, {})`: the default handler's own section, empty when there is none |
| TimeGateApp.Registrations | timegate/application.py:127-136 | what `url_map` registers: the named handlers in order, each with its section merged over the global configuration, then the default handler |
| TimeGateApp.RulesOfEach | timegate/application.py:181-188 | rules 2j and 2j + 1 are the two rules of the j-th registration |
| TimeGateApp.RegistryKeys | timegate/application.py:190 | the registry holds exactly the names that were registered |
| TimeGateApp.RegistryKeepsLast | timegate/application.py:190 | each name is bound to the handler object of its last registration |
| TimeGateApp.BuiltRulesCatchAllLast | timegate/application.py:127-136 | registering the named handlers before the default puts the catch-all rules last |
| TimeGateApp.ExtendDispatch | timegate/application.py:176-200 | registering a handler whose name has no '.' keeps every rule's endpoint splitting to a registered handler |
| TimeGateApp.RegistrationsDispatch | timegate/application.py:176-200 | the rules of registrations under '.'-free names all split to a registered name or the default |
| TimeGateApp.BuiltRulesDispatch | timegate/application.py:124-137 | an application whose rules all dispatch keeps that through `url_map` when no handler name holds a '.' |
| TimeGateApp.BuiltRulesResolve | timegate/application.py:124-137 | after `url_map` every identifier finds a rule of each kind; on a fresh application the first match is the rule the prefix-first policy picks |
| TimeGateApp.TimeGate.constructor | timegate/application.py:112-122 | a new application has no handlers and no rules |
| TimeGateApp.TimeGate.RegisterHandler | timegate/application.py:156-190 | fails with NotImplemented, changing nothing, iff the handler has neither method; otherwise writes the registered flags onto the handler object, appends exactly the handler's two rules and enters the object under its name |
| TimeGateApp.TimeGate.BuildUrlMap | timegate/application.py:124-137 | succeeds iff every registered handler has a method and every converter passes its assertion; the rules and registry are then those of the registrations; each handler object keeps the flags of its last registration; every identifier finds a rule; with '.'-free names every rule dispatches |
| TimeGateApp.TimeGate.RegisterNamed | timegate/application.py:127-132 | registers the named handlers in order; fails with NotImplemented iff one of them has neither method |
| TimeGateApp.TimeGate.RegisterNext | timegate/application.py:130-136 | one more successful registration extends the rules, the registry and the objects' flags by that registration |
| TimeGateApp.TimeGate.BindConverters | timegate/application.py:82-84 | building the map's converters succeeds iff every converter has a base URI or is the default; otherwise the assertion error |
| TimeGateApp.TimeGate.Dispatch | timegate/application.py:199-200 | an endpoint dispatches iff it splits and its handler name is registered; the error otherwise is an internal error |
| TimeGateApp.TimeGate.Route | timegate/application.py:192-205 | not found iff no rule matches; when every rule dispatches, routing succeeds iff a rule matches; then it gives the first matching rule's handler, endpoint and converted URI-R |
| TimeGateApp.TimeGate.CachedTimemap | timegate/application.py:236-238 | with a cache and no `no-cache`, the cache's get_all answer; otherwise nothing |
| TimeGateApp.TimeGate.CachedTimemapAsWritten | timegate/application.py:237 | as line 237 runs, the cache answers with get_all whenever there is one |
| TimeGateApp.TimeGate.NoCacheIgnoredAsWritten | timegate/application.py:237 | a `no-cache` request with a fresh entry is answered from the cache as written, and not as intended |
| TimeGateApp.TimeGate.GetAllMementos | timegate/application.py:228-243 | a cache hit fetches nothing and writes nothing; a miss fetches, and stores what was fetched |
| TimeGateApp.TimeGate.Timegate | timegate/application.py:245-283 | the result is the TimeGate outcome over the TimeMap get_all_mementos gives when the handler serves TimeMaps; the cache then holds what a miss fetched; without TimeMaps the cache is untouched |
| TimeGateApp.TimeGate.Timemap | timegate/application.py:285-304 | 403 whenever the handler does not serve TimeMaps, with the cache untouched; otherwise the answer in the requested format over get_all_mementos, and the cache holds what a miss fetched |
| TimeGateApp.SingleHandlerScenario | tests/test_timegate.py:26-32 | one configured handler gives exactly the default handler's two rules |
| TimeGateApp.MultiHandlerScenario | tests/test_timegate.py:45-67 | a named handler and the default give the four rules of ExampleRules |
| TimeGateApp.SharedHandlerScenario | timegate/application.py:127-136 | a named section without its own handler object shares the global one, whose flags the default registration overwrites, so its TimeMap requests get 403 though it asks for TimeMaps |

## Left out

- WSGI and werkzeug plumbing is not modelled, because it is transport and thread-local ambient state. This covers `wsgi_app`, `__call__`, `application`, the `Local` request proxies and `Map.bind_to_environ`. `Route` models what `dispatch_request` decides.
- The converter's routing regular expressions are not modelled. A rule matches by a prefix test on the base URI, or always for the catch-all converter. Since every converter keeps werkzeug's default weight, the first matching rule in registration order is chosen. werkzeug's other ordering keys, and the `/timegate/` and `/timemap/<type>/` path parts, are not modelled.
- Plugin loading (`load_handler`) by entry point or import string is not modelled. A handler is the object a configuration names, as `load_handler` returns a configured instance (application.py:62-63); its methods are the optional functions it has. `SharedHandlerScenario`'s sharing happens only when `HANDLER_MODULE` is such an instance, as in the tests; when it is an import string, as an INI file gives it (config.py:50), `load_handler` builds a fresh instance for each registration (application.py:65-76) and no flags are shared.
- `best`, `parsed_request`, `get_memento` and `get_all_mementos` are uninterpreted function parameters, because their code is not part of this model. This includes retries and validation of the handler's answers.
- `Link` and `LinkHeader` serialisation, `http_date`, `parse_date` and `url_for` are function parameters or datetimes in seconds. A malformed `Accept-Datetime`, where `parse_date` fails, is not modelled.
- The `Date` and `Link` headers and `Content-Length` of the TimeMap responses are not modelled, because they are formatting of values the model keeps.
- JSON encoding (`json.dumps`) is not modelled. The JSON TimeMap is kept as a record.
- `utcnow`, `relativedelta` and `sys.getsizeof` are replaced by an integer `now`, integer seconds and an abstract size function.
- The clock is read once per request: the source reads `utcnow` separately for the default `Accept-Datetime` (application.py:259), in `get_all` (cache.py:71) and in `set` (cache.py:83), while the model gives all three the request's one `now`.
- Cache backends are a map. Which backend class is imported, and `_build_default_cache`, are not modelled. The backend's own expiry (the `default_timeout` of werkzeug's caches, set through `CACHE_OPTIONS`) is not modelled: an entry stays until it is overwritten.
- A `TimeGate` whose `cache` is `null` stands for the default cache backed by `NullCache`. `__init__` always sets `self.cache` (application.py:119-122), so the `if self.cache` tests of lines 237 and 241 always pass, but a `NullCache` answers nothing and stores nothing, which is what the `null` cache does in the model.
- The configuration loader (config.py) is not part of this model, because it is INI and attribute reflection. The configuration arrives as records.
- Logging and `__repr__` are not modelled.
- Concurrency is not modelled. Requests are handled one at a time against one cache.
- `Cache-Control` is the header's text. werkzeug's parsed `cache_control` object is not modelled; see "## Findings".
- `TimeGateApp.EndpointRoundTrip`: a handler name that contains `.` is excluded. Its endpoints do not split back, and dispatch then fails. `BuildUrlMap` promises dispatch only for dot-free names.

## Findings

| source | as written | input that shows it | evidently intended | confidence | as-written member | corrected member |
|---|---|---|---|---|---|---|
| timegate/application.py:92 | assigns the misspelt attribute `weigth`, so werkzeug never sees the weights and every converter keeps its default weight; the first matching rule in registration order wins | a default handler on `http://a/` registered before a handler `n` on `http://a/b/`, and the identifier `http://a/b/x`: the catch-all rule 0 takes it | the prefix-first policy that line 92's tags (400 for a prefix rule above 100 for the catch-all), the comment at application.py:133 ('Default handler at the end in case the weights are same') and test_timegate.py:69-79 point to, so rule 2 takes it; werkzeug tries lower weights first, so fixing the spelling alone would put the catch-all (100) ahead of every prefix rule (400) and invert routing: the prefix weight must also become lower than the catch-all's | not executed; harmless for the maps `url_map` builds, which register the default handler last | TimeGateApp.CatchAllShadows | TimeGateApp.PrefixFirstWins |
| timegate/application.py:237 | compares werkzeug's parsed `request.cache_control` object with the string `'no-cache'`, which it never equals, so the cache is always consulted | a request with `Cache-Control: no-cache` while the cache holds a fresh entry: it is answered from the cache | a `no-cache` request skips the cache and fetches anew | not executed; rests on werkzeug's request type, which is not part of this model | TimeGateApp.TimeGate.NoCacheIgnoredAsWritten | TimeGateApp.TimeGate.CachedTimemap |

Routing in the model takes the first matching rule, as written. `BuildUrlMap`
proves (through `PoliciesAgree`) that on a fresh application this is also the
rule the prefix-first policy picks, so the corrected choice and the written one
route every request alike. `GetAllMementos` uses the corrected cache lookup.
