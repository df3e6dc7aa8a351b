/**
  The URI converter of the TimeGate routes (`URIConverter` in
  timegate/application.py): it puts a handler's base URI in front of a bare
  resource identifier, strips it off again when a URL is built, and trades a
  literal space for the escape "%20" and back.
 */
module Uri {
  import opened Types

  predicate StartsWith(s: string, prefix: string) {
    |prefix| <= |s| && s[..|prefix|] == prefix
  }

  /** `s` has `pat` somewhere inside it. */
  predicate HasInfix(s: string, pat: string)
    decreases |s|
  {
    StartsWith(s, pat) || (|s| > 0 && HasInfix(s[1..], pat))
  }

  /** Python's `s.replace(pat, rep)`: every occurrence of `pat`, found left to
      right without overlap, is replaced by `rep`. */
  function Replace(s: string, pat: string, rep: string): string
    requires pat != []
    decreases |s|
  {
    if |s| < |pat| then s
    else if s[..|pat|] == pat then rep + Replace(s[|pat|..], pat, rep)
    else [s[0]] + Replace(s[1..], pat, rep)
  }

  /** `value.replace(' ', '%20')` */
  function Encode(s: string): string {
    Replace(s, " ", "%20")
  }

  /** `value.replace('%20', ' ')` */
  function Decode(s: string): string {
    Replace(s, "%20", " ")
  }

  /** The numbers line 92 of application.py tags a converter with: 100 for
      the catch-all one, 400 for one bound to a base URI.  That line assigns
      a misspelt attribute, so werkzeug never reads them: every converter
      keeps werkzeug's default weight and the rules are tried in
      registration order.  werkzeug tries rules of lower weight first, so
      these numbers, spelt correctly, would put the catch-all ahead of every
      prefix rule.  The routing is meant the other way round: the
      prefix-first policy that line 92's tags (400 for a prefix rule above
      100 for the catch-all), the comment at application.py:133 ('Default
      handler at the end in case the weights are same') and
      test_timegate.py:69-79 point to. */
  const DEFAULT_WEIGHT := 100
  const PREFIX_WEIGHT := 400

  /** A configured `URIConverter(base_uri, default)`; the empty base URI
      stands for no base URI (a `base_uri` Python counts as false). */
  datatype Converter = Converter(baseUri: string, default: bool) {

    /** The assertion of the constructor: `base_uri or default`. */
    predicate WellFormed() {
      baseUri != "" || default
    }

    /** The number line 92 tags the converter with; the prefix-first
        policy ranks the higher one first. */
    function Weight(): (w: int)
      ensures w == DEFAULT_WEIGHT <==> default
      ensures w == PREFIX_WEIGHT <==> !default
    {
      if default then DEFAULT_WEIGHT else PREFIX_WEIGHT
    }

    /** Whether the converter's route accepts `value`: the catch-all pattern
        accepts every identifier, the other one those that start with the
        base URI. */
    predicate Matches(value: string) {
      default || StartsWith(value, baseUri)
    }

    /** `to_python`: encode spaces, then prepend the base URI unless the
        identifier already carries it. */
    function ToPython(value: string): (r: string)
      ensures StartsWith(r, baseUri)
      ensures StartsWith(Encode(value), baseUri) ==> r == Encode(value)
      ensures !StartsWith(Encode(value), baseUri) ==> r == baseUri + Encode(value)
    {
      var v := Encode(value);
      if baseUri != "" && !StartsWith(v, baseUri) then baseUri + v else v
    }

    /** `to_url`: decode "%20", then strip one leading base URI. */
    function ToUrl(value: string): (r: string)
      ensures StartsWith(Decode(value), baseUri) ==> baseUri + r == Decode(value)
      ensures !StartsWith(Decode(value), baseUri) ==> r == Decode(value)
    {
      var v := Decode(value);
      if baseUri != "" && StartsWith(v, baseUri) then v[|baseUri|..] else v
    }
  }

  /** `URIConverter.__init__` with its assertion; the regular expressions it
      compiles are replaced by `Matches`. */
  function NewConverter(baseUri: string, default: bool): (r: Result<Converter>)
    ensures r.Ok? <==> (baseUri != "" || default)
    ensures r.Ok? ==> r.value.baseUri == baseUri && r.value.default == default && r.value.WellFormed()
    ensures r.Err? ==> r.error == AssertionFailed
  {
    if baseUri != "" || default then Ok(Converter(baseUri, default)) else Err(AssertionFailed)
  }

  // ---------------------------------------------------------------------
  // Encoding and decoding

  lemma EncodeCons(c: char, s: string)
    ensures Encode([c] + s) == (if c == ' ' then "%20" else [c]) + Encode(s)
  {
    assert ([c] + s)[..1] == [c];
    assert ([c] + s)[1..] == s;
  }

  /** Encoding works character by character. */
  lemma {:induction false} EncodeAppend(a: string, b: string)
    ensures Encode(a + b) == Encode(a) + Encode(b)
    decreases |a|
  {
    if a == [] {
      assert a + b == b;
    } else {
      assert a + b == [a[0]] + (a[1..] + b);
      EncodeCons(a[0], a[1..] + b);
      EncodeAppend(a[1..], b);
      EncodeCons(a[0], a[1..]);
      assert a == [a[0]] + a[1..];
    }
  }

  /** An identifier without spaces is left as it is by the encoding. */
  lemma {:induction false} EncodeNoSpace(s: string)
    requires ' ' !in s
    ensures Encode(s) == s
    decreases |s|
  {
    if s != [] {
      assert s == [s[0]] + s[1..];
      EncodeCons(s[0], s[1..]);
      EncodeNoSpace(s[1..]);
    }
  }

  /** The encoding never leaves a literal space behind. */
  lemma {:induction false} EncodeRemovesSpaces(s: string)
    ensures ' ' !in Encode(s)
    decreases |s|
  {
    if s != [] {
      assert s == [s[0]] + s[1..];
      EncodeCons(s[0], s[1..]);
      EncodeRemovesSpaces(s[1..]);
    }
  }

  lemma DecodeStep(s: string)
    requires s != []
    ensures StartsWith(s, "%20") ==> Decode(s) == " " + Decode(s[3..])
    ensures !StartsWith(s, "%20") ==> Decode(s) == [s[0]] + Decode(s[1..])
  {
  }

  /** Decoding passes over a prefix that holds no '%' untouched. */
  lemma {:induction false} DecodeAppend(a: string, b: string)
    requires '%' !in a
    ensures Decode(a + b) == a + Decode(b)
    decreases |a|
  {
    if a != [] {
      assert (a + b)[0] == a[0];
      assert !StartsWith(a + b, "%20");
      DecodeStep(a + b);
      assert (a + b)[1..] == a[1..] + b;
      DecodeAppend(a[1..], b);
    } else {
      assert a + b == b;
    }
  }

  /** If the encoded identifier starts with "20", so does the identifier. */
  lemma EncodeStartsWith20(s: string)
    requires StartsWith(Encode(s), "20")
    ensures StartsWith(s, "20")
  {
    var e := Encode(s);
    assert e[0] == '2' && e[1] == '0' by { assert e[..2] == "20"; }
    var c, t := s[0], s[1..];
    assert s == [c] + t;
    EncodeCons(c, t);
    var p := if c == ' ' then "%20" else [c];
    assert e == p + Encode(t);
    assert p[0] == '2';
    assert c == '2' && e[1..] == Encode(t);
    var d, u := t[0], t[1..];
    assert t == [d] + u;
    EncodeCons(d, u);
    var q := if d == ' ' then "%20" else [d];
    assert Encode(t) == q + Encode(u);
    assert q[0] == '0';
    assert d == '0';
  }

  /** Decoding undoes the encoding when the identifier holds no "%20". */
  lemma {:induction false} DecodeEncode(s: string)
    requires !HasInfix(s, "%20")
    ensures Decode(Encode(s)) == s
    decreases |s|
  {
    if s != [] {
      var c, t := s[0], s[1..];
      assert s == [c] + t;
      assert !HasInfix(t, "%20");
      EncodeCons(c, t);
      DecodeEncode(t);
      if c == ' ' {
        var e := "%20" + Encode(t);
        assert e[..3] == "%20" && e[3..] == Encode(t);
        DecodeStep(e);
      } else {
        var e := [c] + Encode(t);
        assert e[1..] == Encode(t);
        if StartsWith(e, "%20") {
          assert Encode(t)[..2] == e[1..3];
          EncodeStartsWith20(t);
          assert false;
        }
        DecodeStep(e);
      }
    }
  }

  /** Encoding undoes the decoding when the identifier holds no literal space. */
  lemma {:induction false} EncodeDecode(s: string)
    requires ' ' !in s
    ensures Encode(Decode(s)) == s
    decreases |s|
  {
    if s != [] {
      DecodeStep(s);
      if StartsWith(s, "%20") {
        assert s == "%20" + s[3..];
        EncodeDecode(s[3..]);
        EncodeCons(' ', Decode(s[3..]));
      } else {
        assert s == [s[0]] + s[1..];
        EncodeDecode(s[1..]);
        EncodeCons(s[0], Decode(s[1..]));
      }
    }
  }

  /** A base URI without '%' can begin an encoded identifier only if it begins
      the identifier itself. */
  lemma {:induction false} EncodedPrefix(v: string, p: string)
    requires '%' !in p
    requires StartsWith(Encode(v), p)
    ensures StartsWith(v, p)
    decreases |p|
  {
    if p != [] {
      var d, w := v[0], v[1..];
      assert v == [d] + w;
      EncodeCons(d, w);
      assert Encode(v)[0] == p[0];
      assert d != ' ';
      assert Encode(w)[..|p| - 1] == p[1..];
      EncodedPrefix(w, p[1..]);
    }
  }

  /** A base URI without spaces that begins the identifier still begins it
      after encoding. */
  lemma PrefixEncoded(v: string, p: string)
    requires ' ' !in p
    requires StartsWith(v, p)
    ensures StartsWith(Encode(v), p)
  {
    assert v == p + v[|p|..];
    EncodeAppend(p, v[|p|..]);
    EncodeNoSpace(p);
  }

  // ---------------------------------------------------------------------
  // The converter

  /** An identifier that already carries the base URI only has its spaces
      encoded. */
  lemma ToPythonPrefixed(c: Converter, v: string)
    requires ' ' !in c.baseUri
    requires StartsWith(v, c.baseUri)
    ensures c.ToPython(v) == Encode(v)
  {
    PrefixEncoded(v, c.baseUri);
  }

  /** A bare identifier gets the base URI put in front of it. */
  lemma ToPythonBare(c: Converter, v: string)
    requires '%' !in c.baseUri
    requires !StartsWith(v, c.baseUri)
    ensures c.ToPython(v) == c.baseUri + Encode(v)
  {
    if StartsWith(Encode(v), c.baseUri) {
      EncodedPrefix(v, c.baseUri);
    }
  }

  /** The default converter (no base URI) only encodes and decodes. */
  lemma DefaultConverterOnlyRecodes(v: string)
    ensures Converter("", true).ToPython(v) == Encode(v)
    ensures Converter("", true).ToUrl(v) == Decode(v)
  {
  }

  /** `to_url` undoes `to_python` for a bare identifier: the URL the server
      builds for a resource is the identifier the client sent. */
  lemma ToUrlToPython(c: Converter, v: string)
    requires ' ' !in c.baseUri && '%' !in c.baseUri
    requires !StartsWith(v, c.baseUri)
    requires !HasInfix(v, "%20")
    ensures c.ToUrl(c.ToPython(v)) == v
  {
    ToPythonBare(c, v);
    DecodeAppend(c.baseUri, Encode(v));
    DecodeEncode(v);
    assert Decode(c.ToPython(v)) == c.baseUri + v;
    assert StartsWith(c.baseUri + v, c.baseUri);
    assert (c.baseUri + v)[|c.baseUri|..] == v;
  }

  /** `to_python` undoes `to_url` for a prefixed identifier without spaces
      whose rest does not repeat the base URI. */
  lemma ToPythonToUrl(c: Converter, x: string)
    requires ' ' !in c.baseUri && '%' !in c.baseUri
    requires ' ' !in x
    requires StartsWith(x, c.baseUri)
    requires !StartsWith(x[|c.baseUri|..], c.baseUri)
    ensures c.ToPython(c.ToUrl(x)) == x
  {
    var b, rest := c.baseUri, x[|c.baseUri|..];
    assert x == b + rest;
    DecodeAppend(b, rest);
    assert Decode(x)[|b|..] == Decode(rest);
    assert StartsWith(Decode(x), b);
    assert ' ' !in rest by {
      forall i | 0 <= i < |rest| ensures rest[i] != ' ' {
        assert rest[i] == x[|b| + i];
      }
    }
    EncodeDecode(rest);
    if b != "" {
      assert c.ToUrl(x) == Decode(rest);
    }
    assert Encode(c.ToUrl(x)) == rest;
  }

  /** The bare and the prefixed form of an identifier reach the same
      resource. */
  lemma BareAndPrefixedAgree(c: Converter, v: string)
    requires ' ' !in c.baseUri && '%' !in c.baseUri
    requires !StartsWith(v, c.baseUri)
    ensures c.ToPython(c.baseUri + v) == c.ToPython(v)
  {
    ToPythonBare(c, v);
    assert StartsWith(c.baseUri + v, c.baseUri);
    ToPythonPrefixed(c, c.baseUri + v);
    EncodeAppend(c.baseUri, v);
    EncodeNoSpace(c.baseUri);
  }
}
