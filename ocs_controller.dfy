/**
  The OCS (Open Collaboration Services) controller base class: the status
  envelope built from a controller's return value, and the constructor that
  passes CORS settings to its parent and registers the `json` and `xml`
  responders.
 */
module OCS {

  import opened Wrappers
  import opened PhpValues

  /** The format tag of each responder the constructor registers. */
  const JsonFormat := "json"
  const XmlFormat := "xml"

  /** CORS defaults of the constructor's optional parameters. */
  const DefaultCorsMethods := "PUT, POST, GET, DELETE, PATCH"
  const DefaultCorsAllowedHeaders := "Authorization, Content-Type, Accept"
  const DefaultCorsMaxAge := 1728000

  /** The nine envelope fields, in the order the response constructor takes them. */
  const EnvelopeKeys: seq<string> :=
    ["status", "statuscode", "message", "data", "tag",
     "tagattribute", "dimension", "itemscount", "itemsperpage"]

  /** The response handed to the serializer: the format and the nine fields. */
  datatype OCSResponse = OCSResponse(
    format: string,
    status: Value,
    statusCode: Value,
    message: Value,
    data: Value,
    tag: Value,
    tagAttribute: Value,
    dimension: Value,
    itemsCount: Value,
    itemsPerPage: Value)

  /** Stand-in for a `DataResponse`: only the payload `getData()` returns. */
  datatype DataResponse = DataResponse(data: Value)

  /** What a responder receives: a raw value or a wrapped `DataResponse`. */
  datatype Payload = Raw(v: Value) | Wrapped(response: DataResponse)

  /** The value whose entries are overlaid: a `DataResponse` is unwrapped. */
  function Unwrap(p: Payload): Value
  {
    match p
    case Raw(v) => v
    case Wrapped(d) => d.data
  }

  /** The default envelope dictionary the builder starts from. */
  function Defaults(): map<Key, Value>
  {
    map[StrKey("status") := Str("OK"),
        StrKey("statuscode") := Int(100),
        StrKey("message") := Str("OK"),
        StrKey("data") := EmptyArray,
        StrKey("tag") := Str(""),
        StrKey("tagattribute") := Str(""),
        StrKey("dimension") := Str("dynamic"),
        StrKey("itemscount") := Str(""),
        StrKey("itemsperpage") := Str("")]
  }

  /** The default of one envelope field. */
  function Default(key: string): Value
    requires key in EnvelopeKeys
  {
    Defaults()[StrKey(key)]
  }

  /** The field of an envelope that carries the given key. */
  function Field(r: OCSResponse, key: string): Value
    requires key in EnvelopeKeys
  {
    if key == "status" then r.status
    else if key == "statuscode" then r.statusCode
    else if key == "message" then r.message
    else if key == "data" then r.data
    else if key == "tag" then r.tag
    else if key == "tagattribute" then r.tagAttribute
    else if key == "dimension" then r.dimension
    else if key == "itemscount" then r.itemsCount
    else r.itemsPerPage
  }

  /** The keys of a sequence of entries. */
  function KeysOf(es: seq<(Key, Value)>): set<Key>
  {
    if es == [] then {} else KeysOf(es[..|es| - 1]) + {es[|es| - 1].0}
  }

  /** The value of the last entry with key `k`, if there is one: what an
      in-order overwrite leaves behind. */
  function LastValue(es: seq<(Key, Value)>, k: Key): Option<Value>
  {
    if es == [] then None
    else if es[|es| - 1].0 == k then Some(es[|es| - 1].1)
    else LastValue(es[..|es| - 1], k)
  }

  /** `base` after `$params[$key] = $value` for every entry of `es` in order.
      The overlay only adds or overwrites keys: it never removes one. */
  function Overlay(base: map<Key, Value>, es: seq<(Key, Value)>): (m: map<Key, Value>)
    ensures m.Keys == base.Keys + KeysOf(es)
    decreases |es|
  {
    if es == [] then base
    else Overlay(base, es[..|es| - 1])[es[|es| - 1].0 := es[|es| - 1].1]
  }

  /** The envelope dictionary after the caller's entries are overlaid. */
  function Params(p: Payload): (m: map<Key, Value>)
    ensures Defaults().Keys <= m.Keys
  {
    Overlay(Defaults(), Entries(Unwrap(p)))
  }

  /** The response built for a format and a payload: the nine fields read
      from the overlaid dictionary in their fixed order. */
  function Envelope(format: string, p: Payload): OCSResponse
  {
    var params := Params(p);
    OCSResponse(format,
      params[StrKey("status")], params[StrKey("statuscode")],
      params[StrKey("message")], params[StrKey("data")], params[StrKey("tag")],
      params[StrKey("tagattribute")], params[StrKey("dimension")],
      params[StrKey("itemscount")], params[StrKey("itemsperpage")])
  }

  // ---------------------------------------------------------------------
  // Properties of the overlay

  /** A key is among the entries' keys exactly when some entry carries it. */
  lemma {:induction false} KeysOfHasEntry(es: seq<(Key, Value)>, k: Key)
    ensures k in KeysOf(es) <==> LastValue(es, k).Some?
  {
    if es != [] {
      KeysOfHasEntry(es[..|es| - 1], k);
    }
  }

  /** After the overlay, a key holds the value of the last entry that
      carries it, and its base value when no entry does. */
  lemma {:induction false} OverlayAt(base: map<Key, Value>, es: seq<(Key, Value)>, k: Key)
    ensures k in Overlay(base, es) <==> k in base || LastValue(es, k).Some?
    ensures LastValue(es, k).Some? ==> Overlay(base, es)[k] == LastValue(es, k).value
    ensures LastValue(es, k).None? && k in base ==> Overlay(base, es)[k] == base[k]
    decreases |es|
  {
    KeysOfHasEntry(es, k);
    if es != [] {
      OverlayAt(base, es[..|es| - 1], k);
    }
  }

  /** In a PHP array (distinct keys) the last entry with a key is its only one. */
  lemma {:induction false} LastValueOfDistinct(es: seq<(Key, Value)>, i: int)
    requires DistinctKeys(es)
    requires 0 <= i < |es|
    ensures LastValue(es, es[i].0) == Some(es[i].1)
    decreases |es|
  {
    if i < |es| - 1 {
      LastValueOfDistinct(es[..|es| - 1], i);
    }
  }

  /** No entry carries the key exactly when there is no last value for it. */
  lemma {:induction false} LastValueAbsent(es: seq<(Key, Value)>, k: Key)
    ensures LastValue(es, k).None? <==> forall i :: 0 <= i < |es| ==> es[i].0 != k
    decreases |es|
  {
    if es != [] {
      LastValueAbsent(es[..|es| - 1], k);
      assert forall i :: 0 <= i < |es| - 1 ==> es[..|es| - 1][i] == es[i];
    }
  }

  /** Each envelope field is the dictionary entry of its key. */
  lemma FieldIsParam(format: string, p: Payload, key: string)
    requires key in EnvelopeKeys
    ensures StrKey(key) in Params(p)
    ensures Field(Envelope(format, p), key) == Params(p)[StrKey(key)]
  {
  }

  // ---------------------------------------------------------------------
  // Properties of the envelope

  /** With no caller data the envelope holds exactly the defaults. */
  lemma EnvelopeOfEmptyData(format: string)
    ensures Envelope(format, Raw(EmptyArray)) ==
      OCSResponse(format, Str("OK"), Int(100), Str("OK"), EmptyArray,
                  Str(""), Str(""), Str("dynamic"), Str(""), Str(""))
  {
  }

  /** A scalar or null payload is not iterated: the envelope holds the defaults. */
  lemma EnvelopeOfNonArray(format: string, v: Value)
    requires !v.Arr?
    ensures Envelope(format, Raw(v)) == Envelope(format, Raw(EmptyArray))
  {
  }

  /** An envelope key present in the caller's array reaches its field verbatim. */
  lemma PresentKeyVerbatim(format: string, p: Payload, i: int)
    requires Unwrap(p).Arr? && DistinctKeys(Unwrap(p).entries)
    requires 0 <= i < |Unwrap(p).entries|
    requires Unwrap(p).entries[i].0.StrKey? && Unwrap(p).entries[i].0.s in EnvelopeKeys
    ensures Field(Envelope(format, p), Unwrap(p).entries[i].0.s) == Unwrap(p).entries[i].1
  {
    var es := Unwrap(p).entries;
    var key := es[i].0.s;
    LastValueOfDistinct(es, i);
    OverlayAt(Defaults(), es, StrKey(key));
    FieldIsParam(format, p, key);
  }

  /** An envelope key absent from the caller's data keeps its default. */
  lemma AbsentKeyDefault(format: string, p: Payload, key: string)
    requires key in EnvelopeKeys
    requires forall i :: 0 <= i < |Entries(Unwrap(p))| ==> Entries(Unwrap(p))[i].0 != StrKey(key)
    ensures Field(Envelope(format, p), key) == Default(key)
  {
    var es := Entries(Unwrap(p));
    LastValueAbsent(es, StrKey(key));
    OverlayAt(Defaults(), es, StrKey(key));
    FieldIsParam(format, p, key);
  }

  /** Keys other than the nine envelope keys never affect the response: two
      payloads whose last values agree on the nine keys give the same envelope. */
  lemma OtherKeysIgnored(format: string, p: Payload, q: Payload)
    requires forall key :: key in EnvelopeKeys ==>
      LastValue(Entries(Unwrap(p)), StrKey(key)) == LastValue(Entries(Unwrap(q)), StrKey(key))
    ensures Envelope(format, p) == Envelope(format, q)
  {
    forall key | key in EnvelopeKeys
      ensures Params(p)[StrKey(key)] == Params(q)[StrKey(key)]
    {
      OverlayAt(Defaults(), Entries(Unwrap(p)), StrKey(key));
      OverlayAt(Defaults(), Entries(Unwrap(q)), StrKey(key));
    }
  }

  /** A `DataResponse` gives the same envelope as the data it wraps. */
  lemma DataResponseUnwrapped(format: string, d: DataResponse)
    ensures Envelope(format, Wrapped(d)) == Envelope(format, Raw(d.data))
  {
  }

  /** After the overlay the dictionary's keys are the nine default keys and the caller's keys. */
  lemma ParamsKeys(p: Payload)
    ensures Params(p).Keys == Defaults().Keys + KeysOf(Entries(Unwrap(p)))
  {
  }

  // ---------------------------------------------------------------------
  // The controller

  class OCSController {
    var appName: string
    /** The CORS settings handed to the parent API controller. */
    var corsMethods: string
    var corsAllowedHeaders: string
    var corsMaxAge: int
    /** Registered responders: each name maps to the format tag its closure
        passes to the envelope builder. */
    var responders: map<string, string>

    constructor (appName: string,
                 corsMethods: string := DefaultCorsMethods,
                 corsAllowedHeaders: string := DefaultCorsAllowedHeaders,
                 corsMaxAge: int := DefaultCorsMaxAge)
      ensures this.appName == appName
      ensures this.corsMethods == corsMethods
      ensures this.corsAllowedHeaders == corsAllowedHeaders
      ensures this.corsMaxAge == corsMaxAge
      ensures responders == map[JsonFormat := JsonFormat, XmlFormat := XmlFormat]
    {
      this.appName := appName;
      this.corsMethods := corsMethods;
      this.corsAllowedHeaders := corsAllowedHeaders;
      this.corsMaxAge := corsMaxAge;
      responders := map[];
      new;
      RegisterResponder(JsonFormat, JsonFormat);
      RegisterResponder(XmlFormat, XmlFormat);
    }

    /** Records a responder under a name, replacing any earlier one. */
    method RegisterResponder(name: string, format: string)
      modifies this
      ensures responders == old(responders)[name := format]
      ensures appName == old(appName) && corsMethods == old(corsMethods)
      ensures corsAllowedHeaders == old(corsAllowedHeaders) && corsMaxAge == old(corsMaxAge)
    {
      responders := responders[name := format];
    }

    /** Unwraps the payload, overlays its entries on the defaults in order
        and reads the nine envelope fields. */
    method BuildOCSResponse(format: string, p: Payload) returns (r: OCSResponse)
      ensures r == Envelope(format, p)
    {
      var data := Unwrap(p);
      var params := Defaults();
      var es := Entries(data);
      var i := 0;
      while i < |es|
        invariant 0 <= i <= |es|
        invariant params == Overlay(Defaults(), es[..i])
      {
        assert es[..i + 1][..i] == es[..i];
        params := params[es[i].0 := es[i].1];
        i := i + 1;
      }
      assert es[..|es|] == es;
      r := OCSResponse(format,
        params[StrKey("status")], params[StrKey("statuscode")],
        params[StrKey("message")], params[StrKey("data")], params[StrKey("tag")],
        params[StrKey("tagattribute")], params[StrKey("dimension")],
        params[StrKey("itemscount")], params[StrKey("itemsperpage")]);
    }

    /** Runs the responder registered under `name`, if any. */
    method InvokeResponder(name: string, p: Payload) returns (r: Option<OCSResponse>)
      ensures r.Some? <==> name in responders
      ensures name in responders ==> r.value == Envelope(responders[name], p)
      ensures name in responders ==> r.value.format == responders[name]
    {
      if name in responders {
        var built := BuildOCSResponse(responders[name], p);
        r := Some(built);
      } else {
        r := None;
      }
    }
  }

  /** The `json` and `xml` responders of a freshly constructed controller
      build envelopes tagged with their own format. */
  method ConstructedResponders(appName: string, p: Payload) returns (json: Option<OCSResponse>, xml: Option<OCSResponse>)
    ensures json == Some(Envelope("json", p)) && json.value.format == "json"
    ensures xml == Some(Envelope("xml", p)) && xml.value.format == "xml"
  {
    var c := new OCSController(appName);
    json := c.InvokeResponder(JsonFormat, p);
    xml := c.InvokeResponder(XmlFormat, p);
  }

  /** Constructed without CORS arguments, the controller hands the documented
      defaults to its parent. */
  method ConstructedCorsDefaults(appName: string) returns (methods: string, headers: string, maxAge: int)
    ensures methods == "PUT, POST, GET, DELETE, PATCH"
    ensures headers == "Authorization, Content-Type, Accept"
    ensures maxAge == 1728000
  {
    var c := new OCSController(appName);
    methods, headers, maxAge := c.corsMethods, c.corsAllowedHeaders, c.corsMaxAge;
  }
}
