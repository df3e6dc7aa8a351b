/**
  The responses of the TimeGate (timegate/application.py, the functions after
  the `TimeGate` class): the 302 redirect to the chosen Memento with its
  `Link` relations (section 2.2 of RFC 7089), and a TimeMap as a
  link-format body and as a JSON document (section 5 of RFC 7089).
  URL building (`url_for`), the text of a link (`str(Link)`) and HTTP date
  formatting are functions the builders are given; datetimes stay seconds.
 */
module Responses {
  import opened Types

  /** One link relation: target URI, `rel`, optional `type`, optional `datetime`. */
  datatype Link = Link(uri: string, rel: string, mediaType: Option<string>, datetime: Option<int>)

  /** The two TimeMap serialisations. */
  datatype Format = LinkFormat | JsonFormat

  /** The endpoints `url_for` builds external URLs for. */
  datatype UrlTarget = TimegateUrl | TimemapUrl(format: Format)

  /** `url_for(endpoint, {..., uri_r}, force_external=True)` */
  type UrlFor = (UrlTarget, string) -> string

  function MediaType(f: Format): string {
    match f
    case LinkFormat => "application/link-format"
    case JsonFormat => "application/json"
  }

  function OriginalLink(uriR: string): Link {
    Link(uriR, "original", None, None)
  }

  function TimemapLink(uriR: string, f: Format, urlFor: UrlFor): Link {
    Link(urlFor(TimemapUrl(f), uriR), "timemap", Some(MediaType(f)), None)
  }

  /** A link to a Memento under the given relation, with its datetime. */
  function MementoLink(uri: string, rel: string, datetime: int): Link {
    Link(uri, rel, None, Some(datetime))
  }

  /** The number of links whose relation is `rel`. */
  function CountRel(links: seq<Link>, rel: string): (n: nat)
    ensures n <= |links|
  {
    if links == [] then 0 else (if links[0].rel == rel then 1 else 0) + CountRel(links[1..], rel)
  }

  lemma {:induction false} CountRelAppend(a: seq<Link>, b: seq<Link>, rel: string)
    ensures CountRel(a + b, rel) == CountRel(a, rel) + CountRel(b, rel)
    decreases |a|
  {
    if a == [] {
      assert a + b == b;
    } else {
      assert (a + b)[1..] == a[1..] + b;
      CountRelAppend(a[1..], b, rel);
    }
  }

  // ---------------------------------------------------------------------
  // The redirect (memento_response)

  function UriOf(m: Option<Memento>): Option<string> {
    match m
    case None => None
    case Some(x) => Some(x.uri)
  }

  /** The TimeMap has a single distinct Memento: first and last share a URI. */
  predicate Collapsed(first: Option<Memento>, last: Option<Memento>) {
    first.Some? && last.Some? && first.value.uri == last.value.uri
  }

  /** `assert(uri_last == uri_m)` in the collapsed case. */
  predicate SingleMementoIsChosen(memento: Memento, first: Option<Memento>, last: Option<Memento>) {
    Collapsed(first, last) ==> last.value.uri == memento.uri
  }

  /** The links advertising the two TimeMaps, when the handler serves them. */
  function AdvertisedTimemaps(uriR: string, hasTimemap: bool, urlFor: UrlFor): seq<Link> {
    if hasTimemap then [TimemapLink(uriR, LinkFormat, urlFor), TimemapLink(uriR, JsonFormat, urlFor)] else []
  }

  /** The Memento relations of the redirect.  As written, the `first memento`
      and `last memento` links point at the chosen Memento's URI and carry
      the first and last datetimes. */
  function MementoRelations(memento: Memento, first: Option<Memento>, last: Option<Memento>): (r: seq<Link>)
    ensures 1 <= |r| <= 3
  {
    if Collapsed(first, last) then
      [MementoLink(memento.uri, "first last memento", memento.datetime)]
    else
      (if first.Some? then [MementoLink(memento.uri, "first memento", first.value.datetime)] else [])
      + (if UriOf(first) != Some(memento.uri) && UriOf(last) != Some(memento.uri)
         then [MementoLink(memento.uri, "memento", memento.datetime)] else [])
      + (if last.Some? then [MementoLink(memento.uri, "last memento", last.value.datetime)] else [])
  }

  /** All links of the redirect, in the order the response lists them. */
  function RedirectLinks(memento: Memento, uriR: string, first: Option<Memento>, last: Option<Memento>,
                         hasTimemap: bool, urlFor: UrlFor): (links: seq<Link>)
    ensures |links| >= 1 && links[0] == OriginalLink(uriR)
  {
    [OriginalLink(uriR)] + AdvertisedTimemaps(uriR, hasTimemap, urlFor) + MementoRelations(memento, first, last)
  }

  /** An HTTP redirect; `headers` leaves out `Date` (the clock) and `Link`,
      whose relations are `links`. */
  datatype Redirect = Redirect(status: int, headers: seq<(string, string)>, links: seq<Link>)

  function RedirectHeaders(uriM: string): seq<(string, string)> {
    [("Vary", "accept-datetime"), ("Content-Length", "0"),
     ("Content-Type", "text/plain; charset=UTF-8"), ("Connection", "close"),
     ("Location", uriM)]
  }

  /** The value of the first header called `name`. */
  function HeaderValue(headers: seq<(string, string)>, name: string): Option<string> {
    if headers == [] then None
    else if headers[0].0 == name then Some(headers[0].1)
    else HeaderValue(headers[1..], name)
  }

  /** What `memento_response` returns, or the assertion it fails. */
  function MementoRedirect(memento: Memento, uriR: string, first: Option<Memento>, last: Option<Memento>,
                           hasTimemap: bool, urlFor: UrlFor): (r: Result<Redirect>)
    ensures r.Ok? <==> SingleMementoIsChosen(memento, first, last)
    ensures r.Err? ==> r.error == AssertionFailed
    ensures r.Ok? ==> r.value.status == 302 && |r.value.links| >= 1 && r.value.links[0] == OriginalLink(uriR)
  {
    if SingleMementoIsChosen(memento, first, last) then
      Ok(Redirect(302, RedirectHeaders(memento.uri), RedirectLinks(memento, uriR, first, last, hasTimemap, urlFor)))
    else
      Err(AssertionFailed)
  }

  /** `memento_response`: gather the links one append at a time. */
  method MementoResponse(memento: Memento, uriR: string, first: Option<Memento>, last: Option<Memento>,
                         hasTimemap: bool, urlFor: UrlFor) returns (r: Result<Redirect>)
    ensures r == MementoRedirect(memento, uriR, first, last, hasTimemap, urlFor)
  {
    var links := [OriginalLink(uriR)];
    if hasTimemap {
      var formats := [LinkFormat, JsonFormat];
      for i := 0 to |formats|
        invariant links == [OriginalLink(uriR)] + AdvertisedTimemaps(uriR, true, urlFor)[..i]
      {
        links := links + [TimemapLink(uriR, formats[i], urlFor)];
      }
    }
    assert links == [OriginalLink(uriR)] + AdvertisedTimemaps(uriR, hasTimemap, urlFor);
    var uriM, dtM := memento.uri, memento.datetime;
    var uriFirst, uriLast := UriOf(first), UriOf(last);
    if first.Some? && last.Some? && uriFirst == uriLast {
      if uriLast != Some(uriM) {
        return Err(AssertionFailed);
      }
      links := links + [MementoLink(uriM, "first last memento", dtM)];
    } else {
      ghost var before := links;
      if first.Some? {
        links := links + [MementoLink(uriM, "first memento", first.value.datetime)];
      }
      if uriFirst != Some(uriM) && uriLast != Some(uriM) {
        links := links + [MementoLink(uriM, "memento", dtM)];
      }
      if last.Some? {
        links := links + [MementoLink(uriM, "last memento", last.value.datetime)];
      }
      assert links == before + MementoRelations(memento, first, last);
    }
    r := Ok(Redirect(302, RedirectHeaders(uriM), links));
  }

  /** The redirect points at the chosen Memento, with status 302 and
      `Vary: accept-datetime`; it fails only on the collapsed-list assertion. */
  lemma RedirectHeadersHold(memento: Memento, uriR: string, first: Option<Memento>, last: Option<Memento>,
                            hasTimemap: bool, urlFor: UrlFor)
    ensures var r := MementoRedirect(memento, uriR, first, last, hasTimemap, urlFor);
      (r.Ok? <==> SingleMementoIsChosen(memento, first, last))
      && (r.Ok? ==> r.value.status == 302
                    && HeaderValue(r.value.headers, "Location") == Some(memento.uri)
                    && HeaderValue(r.value.headers, "Vary") == Some("accept-datetime")
                    && r.value.links[0] == OriginalLink(uriR))
  {
    var h := RedirectHeaders(memento.uri);
    assert HeaderValue(h[4..], "Location") == Some(memento.uri);
    assert HeaderValue(h[3..], "Location") == HeaderValue(h[4..], "Location") by { assert h[3..][1..] == h[4..]; }
    assert HeaderValue(h[2..], "Location") == HeaderValue(h[3..], "Location") by { assert h[2..][1..] == h[3..]; }
    assert HeaderValue(h[1..], "Location") == HeaderValue(h[2..], "Location") by { assert h[1..][1..] == h[2..]; }
  }

  /** Memento relations never use the relation `timemap`. */
  lemma NoTimemapAmongMementos(memento: Memento, first: Option<Memento>, last: Option<Memento>)
    ensures CountRel(MementoRelations(memento, first, last), "timemap") == 0
  {
    var f := if first.Some? then [MementoLink(memento.uri, "first memento", first.value.datetime)] else [];
    var m := if UriOf(first) != Some(memento.uri) && UriOf(last) != Some(memento.uri)
             then [MementoLink(memento.uri, "memento", memento.datetime)] else [];
    var l := if last.Some? then [MementoLink(memento.uri, "last memento", last.value.datetime)] else [];
    CountRelAppend(f, m, "timemap");
    CountRelAppend(f + m, l, "timemap");
  }

  /** Exactly two `timemap` links appear, and only when the handler serves
      TimeMaps. */
  lemma TimemapLinksIffServed(memento: Memento, uriR: string, first: Option<Memento>, last: Option<Memento>,
                              hasTimemap: bool, urlFor: UrlFor)
    ensures CountRel(RedirectLinks(memento, uriR, first, last, hasTimemap, urlFor), "timemap")
            == if hasTimemap then 2 else 0
  {
    var a := AdvertisedTimemaps(uriR, hasTimemap, urlFor);
    var m := MementoRelations(memento, first, last);
    CountRelAppend([OriginalLink(uriR)], a, "timemap");
    CountRelAppend([OriginalLink(uriR)] + a, m, "timemap");
    NoTimemapAmongMementos(memento, first, last);
  }

  /** A TimeMap with one distinct Memento gives a single `first last memento`
      link and no plain `memento` link. */
  lemma CollapsedGivesOneLink(memento: Memento, first: Option<Memento>, last: Option<Memento>)
    requires Collapsed(first, last)
    ensures MementoRelations(memento, first, last) == [MementoLink(memento.uri, "first last memento", memento.datetime)]
    ensures CountRel(MementoRelations(memento, first, last), "memento") == 0
  {
  }

  /** Otherwise a plain `memento` link appears exactly when the chosen
      Memento is neither the first nor the last. */
  lemma PlainMementoIff(memento: Memento, first: Option<Memento>, last: Option<Memento>)
    requires !Collapsed(first, last)
    ensures CountRel(MementoRelations(memento, first, last), "memento")
            == if UriOf(first) != Some(memento.uri) && UriOf(last) != Some(memento.uri) then 1 else 0
    ensures CountRel(MementoRelations(memento, first, last), "first memento") == if first.Some? then 1 else 0
    ensures CountRel(MementoRelations(memento, first, last), "last memento") == if last.Some? then 1 else 0
  {
    var f := if first.Some? then [MementoLink(memento.uri, "first memento", first.value.datetime)] else [];
    var m := if UriOf(first) != Some(memento.uri) && UriOf(last) != Some(memento.uri)
             then [MementoLink(memento.uri, "memento", memento.datetime)] else [];
    var l := if last.Some? then [MementoLink(memento.uri, "last memento", last.value.datetime)] else [];
    assert MementoRelations(memento, first, last) == f + m + l;
    CountRelAppend(f, m, "memento");
    CountRelAppend(f + m, l, "memento");
    CountRelAppend(f, m, "first memento");
    CountRelAppend(f + m, l, "first memento");
    CountRelAppend(f, m, "last memento");
    CountRelAppend(f + m, l, "last memento");
  }

  /** Without first and last (single-request mode) the only Memento link is
      a plain `memento` link to the chosen Memento. */
  lemma SingleModeLinks(memento: Memento)
    ensures MementoRelations(memento, None, None) == [MementoLink(memento.uri, "memento", memento.datetime)]
  {
  }

  /** Every Memento relation of the redirect points at the chosen Memento;
      `first memento` carries the first datetime and `last memento` the last. */
  lemma RelationsPointAtChosen(memento: Memento, first: Option<Memento>, last: Option<Memento>)
    ensures forall l :: l in MementoRelations(memento, first, last) ==> l.uri == memento.uri
    ensures forall l :: l in MementoRelations(memento, first, last) && l.rel == "first memento"
              ==> first.Some? && l.datetime == Some(first.value.datetime)
    ensures forall l :: l in MementoRelations(memento, first, last) && l.rel == "last memento"
              ==> last.Some? && l.datetime == Some(last.value.datetime)
  {
  }

  // ---------------------------------------------------------------------
  // The TimeMap in link format (timemap_link_response)

  /** The relation of the Memento at `i` of `n`: first, last, both, or neither. */
  function PositionRel(i: nat, n: nat): string {
    if n == 1 then "first last memento"
    else if i == 0 then "first memento"
    else if i == n - 1 then "last memento"
    else "memento"
  }

  /** `[Link(uri, rel='memento', ...) for (uri, date) in mementos]` */
  function PlainMementoLinks(ms: TimeMap): (r: seq<Link>)
    ensures |r| == |ms|
    ensures forall i :: 0 <= i < |ms| ==> r[i] == MementoLink(ms[i].uri, "memento", ms[i].datetime)
  {
    if ms == [] then [] else [MementoLink(ms[0].uri, "memento", ms[0].datetime)] + PlainMementoLinks(ms[1..])
  }

  /** The Memento part of the TimeMap: one link per Memento, in list order,
      labelled by position. */
  function TimemapMementoLinks(ms: TimeMap): (r: seq<Link>)
    requires |ms| >= 1
    ensures |r| == |ms|
    ensures forall i :: 0 <= i < |ms| ==> r[i] == MementoLink(ms[i].uri, PositionRel(i, |ms|), ms[i].datetime)
  {
    if |ms| == 1 then
      [MementoLink(ms[0].uri, "first last memento", ms[0].datetime)]
    else
      [MementoLink(ms[0].uri, "first memento", ms[0].datetime)]
      + PlainMementoLinks(ms[1..|ms| - 1])
      + [MementoLink(ms[|ms| - 1].uri, "last memento", ms[|ms| - 1].datetime)]
  }

  /** The four links ahead of the Mementos: original, timegate, self (link
      format) and the JSON TimeMap. */
  function TimemapHeadLinks(uriR: string, urlFor: UrlFor): (r: seq<Link>)
    ensures |r| == 4 && r[0] == OriginalLink(uriR)
    ensures r[1].rel == "timegate" && r[2].rel == "self" && r[3].rel == "timemap"
    ensures r[2].mediaType == Some(MediaType(LinkFormat)) && r[3].mediaType == Some(MediaType(JsonFormat))
    ensures r[1].uri == urlFor(TimegateUrl, uriR) && r[2].uri == urlFor(TimemapUrl(LinkFormat), uriR)
            && r[3].uri == urlFor(TimemapUrl(JsonFormat), uriR)
  {
    [OriginalLink(uriR),
     Link(urlFor(TimegateUrl, uriR), "timegate", None, None),
     Link(urlFor(TimemapUrl(LinkFormat), uriR), "self", Some(MediaType(LinkFormat)), None),
     TimemapLink(uriR, JsonFormat, urlFor)]
  }

  /** Python's `sep.join(parts)`. */
  function Join(parts: seq<string>, sep: string): string {
    if parts == [] then ""
    else if |parts| == 1 then parts[0]
    else parts[0] + sep + Join(parts[1..], sep)
  }

  /** `',\n'.join([str(l) for l in links]) + '\n'` */
  function LinkBody(links: seq<Link>, show: Link -> string): string {
    Join(Strings(links, show), ",\n") + "\n"
  }

  function Strings(links: seq<Link>, show: Link -> string): (r: seq<string>)
    ensures |r| == |links|
    ensures forall i :: 0 <= i < |links| ==> r[i] == show(links[i])
  {
    if links == [] then [] else [show(links[0])] + Strings(links[1..], show)
  }

  /** A link-format TimeMap response; `Date` and `Content-Length` are left out. */
  datatype LinkTimemap = LinkTimemap(status: int, contentType: string, links: seq<Link>, body: string)

  /** `timemap_link_response`, which asserts a non-empty TimeMap. */
  function TimemapLinkResponse(ms: TimeMap, uriR: string, urlFor: UrlFor, show: Link -> string): (r: Result<LinkTimemap>)
    ensures r.Ok? <==> |ms| >= 1
    ensures r.Err? ==> r.error == AssertionFailed
    ensures r.Ok? ==> r.value.status == 200 && r.value.contentType == "application/link-format"
    ensures r.Ok? ==> |r.value.links| == 4 + |ms|
                      && r.value.links[..4] == TimemapHeadLinks(uriR, urlFor)
                      && forall i :: 0 <= i < |ms| ==>
                           r.value.links[4 + i] == MementoLink(ms[i].uri, PositionRel(i, |ms|), ms[i].datetime)
    ensures r.Ok? ==> r.value.body == LinkBody(r.value.links, show)
  {
    if |ms| >= 1 then
      var links := TimemapHeadLinks(uriR, urlFor) + TimemapMementoLinks(ms);
      Ok(LinkTimemap(200, "application/link-format", links, LinkBody(links, show)))
    else
      Err(AssertionFailed)
  }

  /** n >= 2 Mementos: `first memento`, n - 2 `memento` links in list order,
      then `last memento`. */
  lemma TimemapLabels(ms: TimeMap)
    requires |ms| >= 2
    ensures var r := TimemapMementoLinks(ms);
      r[0].rel == "first memento" && r[|ms| - 1].rel == "last memento"
      && CountRel(r, "memento") == |ms| - 2
      && CountRel(r, "first memento") == 1 && CountRel(r, "last memento") == 1
  {
    var n := |ms|;
    var first := [MementoLink(ms[0].uri, "first memento", ms[0].datetime)];
    var mid := PlainMementoLinks(ms[1..n - 1]);
    var last := [MementoLink(ms[n - 1].uri, "last memento", ms[n - 1].datetime)];
    assert TimemapMementoLinks(ms) == first + mid + last;
    CountRelAppend(first, mid, "memento");
    CountRelAppend(first + mid, last, "memento");
    CountRelAppend(first, mid, "first memento");
    CountRelAppend(first + mid, last, "first memento");
    CountRelAppend(first, mid, "last memento");
    CountRelAppend(first + mid, last, "last memento");
    AllPlain(ms[1..n - 1]);
  }

  lemma {:induction false} AllPlain(ms: TimeMap)
    ensures CountRel(PlainMementoLinks(ms), "memento") == |ms|
    ensures CountRel(PlainMementoLinks(ms), "first memento") == 0
    ensures CountRel(PlainMementoLinks(ms), "last memento") == 0
    decreases |ms|
  {
    if ms != [] {
      var r := PlainMementoLinks(ms);
      assert r[1..] == PlainMementoLinks(ms[1..]);
      AllPlain(ms[1..]);
    }
  }

  /** A single Memento gives one `first last memento` link and no other. */
  lemma TimemapSingleLabel(ms: TimeMap)
    requires |ms| == 1
    ensures TimemapMementoLinks(ms) == [MementoLink(ms[0].uri, "first last memento", ms[0].datetime)]
    ensures CountRel(TimemapMementoLinks(ms), "memento") == 0
  {
  }

  /** The number of occurrences of `c` in `s`. */
  function Occurrences(s: string, c: char): nat {
    if s == [] then 0 else (if s[0] == c then 1 else 0) + Occurrences(s[1..], c)
  }

  lemma {:induction false} OccurrencesAppend(a: string, b: string, c: char)
    ensures Occurrences(a + b, c) == Occurrences(a, c) + Occurrences(b, c)
    decreases |a|
  {
    if a == [] {
      assert a + b == b;
    } else {
      assert (a + b)[1..] == a[1..] + b;
      OccurrencesAppend(a[1..], b, c);
    }
  }

  lemma {:induction false} OccurrencesAbsent(s: string, c: char)
    requires c !in s
    ensures Occurrences(s, c) == 0
    decreases |s|
  {
    if s != [] {
      OccurrencesAbsent(s[1..], c);
    }
  }

  /** Python's `s.split(c)` for a one-character separator. */
  function Split(s: string, c: char): (r: seq<string>)
    ensures |r| >= 1
  {
    if s == [] then [""]
    else
      var rest := Split(s[1..], c);
      if s[0] == c then [""] + rest else [[s[0]] + rest[0]] + rest[1..]
  }

  /** Splitting gives one piece more than there are separators. */
  lemma {:induction false} SplitPieces(s: string, c: char)
    ensures |Split(s, c)| == Occurrences(s, c) + 1
    decreases |s|
  {
    if s != [] {
      SplitPieces(s[1..], c);
    }
  }

  /** Joining `parts` with ",\n" puts one newline between neighbours. */
  lemma {:induction false} JoinNewlines(parts: seq<string>)
    requires |parts| >= 1
    requires forall i :: 0 <= i < |parts| ==> '\n' !in parts[i]
    ensures Occurrences(Join(parts, ",\n"), '\n') == |parts| - 1
    decreases |parts|
  {
    OccurrencesAbsent(parts[0], '\n');
    if |parts| > 1 {
      JoinNewlines(parts[1..]);
      OccurrencesAppend(parts[0], ",\n", '\n');
      OccurrencesAppend(parts[0] + ",\n", Join(parts[1..], ",\n"), '\n');
      assert Occurrences(",\n", '\n') == 1 by {
        assert ",\n"[1..] == "\n" && "\n"[1..] == "";
      }
    }
  }

  /** A body of n links, none of whose texts holds a newline, splits into
      n + 1 pieces at newlines: 4 head links and 3 Mementos give 8. */
  lemma {:induction false} LinkBodyPieces(links: seq<Link>, show: Link -> string)
    requires |links| >= 1
    requires forall l :: '\n' !in show(l)
    ensures |Split(LinkBody(links, show), '\n')| == |links| + 1
  {
    var parts := Strings(links, show);
    JoinNewlines(parts);
    OccurrencesAppend(Join(parts, ",\n"), "\n", '\n');
    assert Occurrences("\n", '\n') == 1 by { assert "\n"[1..] == ""; }
    SplitPieces(LinkBody(links, show), '\n');
  }

  /** The TimeMap body of n Mementos splits into n + 5 pieces. */
  lemma TimemapBodyPieces(ms: TimeMap, uriR: string, urlFor: UrlFor, show: Link -> string)
    requires |ms| >= 1
    requires forall l :: '\n' !in show(l)
    ensures var r := TimemapLinkResponse(ms, uriR, urlFor, show);
      r.Ok? && |Split(r.value.body, '\n')| == |ms| + 5
  {
    var r := TimemapLinkResponse(ms, uriR, urlFor, show);
    LinkBodyPieces(r.value.links, show);
  }

  // ---------------------------------------------------------------------
  // The TimeMap in JSON (timemap_json_response)

  datatype JsonEntry = JsonEntry(uri: string, datetime: int)

  /** The dictionary that `json.dumps` serialises. */
  datatype JsonTimemap = JsonTimemap(
    originalUri: string,
    timegateUri: string,
    list: seq<JsonEntry>,
    first: JsonEntry,
    last: JsonEntry,
    jsonFormatUri: string,
    linkFormatUri: string)

  /** `[{'uri': urlstr, 'datetime': ...} for (urlstr, date) in mementos]` */
  function JsonEntries(ms: TimeMap): (r: seq<JsonEntry>)
    ensures |r| == |ms|
    ensures forall i :: 0 <= i < |ms| ==> r[i] == JsonEntry(ms[i].uri, ms[i].datetime)
  {
    if ms == [] then [] else [JsonEntry(ms[0].uri, ms[0].datetime)] + JsonEntries(ms[1..])
  }

  /** `timemap_json_response`, which asserts a non-empty TimeMap. */
  function TimemapJsonResponse(ms: TimeMap, uriR: string, urlFor: UrlFor): (r: Result<JsonTimemap>)
    ensures r.Ok? <==> |ms| >= 1
    ensures r.Err? ==> r.error == AssertionFailed
    ensures r.Ok? ==> r.value.originalUri == uriR && r.value.timegateUri == urlFor(TimegateUrl, uriR)
    ensures r.Ok? ==> |r.value.list| == |ms|
                      && (forall i :: 0 <= i < |ms| ==> r.value.list[i] == JsonEntry(ms[i].uri, ms[i].datetime))
                      && r.value.first == r.value.list[0]
                      && r.value.last == r.value.list[|ms| - 1]
    ensures r.Ok? ==> r.value.jsonFormatUri == urlFor(TimemapUrl(JsonFormat), uriR)
                      && r.value.linkFormatUri == urlFor(TimemapUrl(LinkFormat), uriR)
  {
    if |ms| >= 1 then
      Ok(JsonTimemap(uriR, urlFor(TimegateUrl, uriR), JsonEntries(ms),
                     JsonEntry(ms[0].uri, ms[0].datetime), JsonEntry(ms[|ms| - 1].uri, ms[|ms| - 1].datetime),
                     urlFor(TimemapUrl(JsonFormat), uriR), urlFor(TimemapUrl(LinkFormat), uriR)))
    else
      Err(AssertionFailed)
  }
}
