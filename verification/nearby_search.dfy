/** The `NearbySearch` helper class: the request URL for a Places Nearby
    Search, the shape of the deserialised response, and the test that decides
    whether a response is used. */
module NearbySearch {
  import opened Wrappers
  import opened Text
  import opened Coordinates
  import Query

  const GoogleApiLink := "https://maps.googleapis.com/maps/api/place/nearbysearch/json?location="
  /** Search radius in meters. */
  const PlaceSearchRadius: nat := 100
  const ApiKey := "YOUR_API_KEY_HERE"
  /** The part of `GoogleApiLink` before its `?`. */
  const Endpoint := "https://maps.googleapis.com/maps/api/place/nearbysearch/json"
  /** The only status for which a response is used. */
  const OkStatus := "OK"

  /** One element of `results`; a null `types` list is None. */
  datatype PlaceResult = PlaceResult(types: Option<seq<string>>)

  /** The deserialised response body; absent fields are None. */
  datatype Response = Response(results: Option<seq<PlaceResult>>, status: Option<string>)

  /** What the HTTP GET plus JSON deserialisation delivered: either one of the
      exceptions the request path can raise, or the deserialised object (None
      when the body is the JSON literal `null`). */
  datatype Fetched = Thrown | Delivered(parsed: Option<Response>)

  /** The request URL. The `type` segment is left out only when
      `typesToInclude` is null; an empty array still produces `&type=`.
      `format` is the culture-dependent rendering of a `double`. */
  function CreateUrl(coordinate: Coordinate, typesToInclude: Option<seq<string>>,
                     format: real -> string): string
  {
    match typesToInclude
    case None =>
      GoogleApiLink + format(coordinate.latitude) + "," + format(coordinate.longitude)
      + "&radius=" + DecimalText(PlaceSearchRadius) + "&key=" + ApiKey
    case Some(types) =>
      GoogleApiLink + format(coordinate.latitude) + "," + format(coordinate.longitude)
      + "&radius=" + DecimalText(PlaceSearchRadius) + "&type=" + Join(types, ',') + "&key=" + ApiKey
  }

  /** The query parameters a request carries, in URL order. */
  function RequestParameters(coordinate: Coordinate, typesToInclude: Option<seq<string>>,
                             format: real -> string): seq<Query.Parameter>
  {
    [("location", format(coordinate.latitude) + "," + format(coordinate.longitude)),
     ("radius", DecimalText(PlaceSearchRadius))]
    + (match typesToInclude
       case None => []
       case Some(types) => [("type", Join(types, ','))])
    + [("key", ApiKey)]
  }

  /** The rendered coordinates and the type labels must not contain `&`:
      nothing in the URL is escaped. */
  predicate Unambiguous(coordinate: Coordinate, typesToInclude: Option<seq<string>>,
                        format: real -> string)
  {
    && '&' !in format(coordinate.latitude)
    && '&' !in format(coordinate.longitude)
    && (typesToInclude.Some? ==>
          forall k :: 0 <= k < |typesToInclude.value| ==> '&' !in typesToInclude.value[k])
  }

  lemma RadiusText()
    ensures DecimalText(PlaceSearchRadius) == "100"
  {
    assert DecimalText(1) == "1";
    assert DecimalText(10) == "10";
  }

  lemma {:induction false} JoinWithout(parts: seq<string>, sep: char, c: char)
    requires c != sep
    requires forall k :: 0 <= k < |parts| ==> c !in parts[k]
    ensures c !in Join(parts, sep)
  {
    if |parts| > 1 {
      JoinWithout(parts[1..], sep, c);
    }
  }

  lemma JoinThree(a: string, b: string, c: string, sep: char)
    ensures Join([a, b, c], sep) == a + [sep] + b + [sep] + c
  {
    assert [a, b, c][1..] == [b, c];
    assert [b, c][1..] == [c];
    assert Join([c], sep) == c;
    assert Join([b, c], sep) == b + [sep] + c;
  }

  lemma JoinFour(a: string, b: string, c: string, d: string, sep: char)
    ensures Join([a, b, c, d], sep) == a + [sep] + b + [sep] + c + [sep] + d
  {
    assert [a, b, c, d][1..] == [b, c, d];
    JoinThree(b, c, d, sep);
  }

  /** Appending one `&name=value` field to a rendered prefix. */
  lemma AppendField(prefix: string, texts: string, field: string, name: string, value: string)
    requires field == "&" + name + "="
    ensures prefix + texts + field + value == prefix + (texts + "&" + (name + "=" + value))
  {
  }

  /** The `None` arm of the format string, over arbitrary field values. */
  lemma RenderThree(endpoint: string, location: string, radius: string, key: string)
    ensures endpoint + "?location=" + location + "&radius=" + radius + "&key=" + key
         == Query.Render(endpoint, [("location", location), ("radius", radius), ("key", key)])
  {
    var ps := [("location", location), ("radius", radius), ("key", key)];
    var t0, t1, t2 := "location" + "=" + location, "radius" + "=" + radius, "key" + "=" + key;
    assert Query.EncodeParameters(ps) == [t0, t1, t2];
    JoinThree(t0, t1, t2, '&');
    var prefix := endpoint + "?";
    assert endpoint + "?location=" + location == prefix + t0;
    AppendField(prefix, t0, "&radius=", "radius", radius);
    AppendField(prefix, t0 + "&" + t1, "&key=", "key", key);
  }

  /** The other arm of the format string, over arbitrary field values. */
  lemma RenderFour(endpoint: string, location: string, radius: string, types: string, key: string)
    ensures endpoint + "?location=" + location + "&radius=" + radius + "&type=" + types + "&key=" + key
         == Query.Render(endpoint, [("location", location), ("radius", radius), ("type", types), ("key", key)])
  {
    var ps := [("location", location), ("radius", radius), ("type", types), ("key", key)];
    var t0, t1 := "location" + "=" + location, "radius" + "=" + radius;
    var t2, t3 := "type" + "=" + types, "key" + "=" + key;
    assert Query.EncodeParameters(ps) == [t0, t1, t2, t3];
    JoinFour(t0, t1, t2, t3, '&');
    var prefix := endpoint + "?";
    assert endpoint + "?location=" + location == prefix + t0;
    AppendField(prefix, t0, "&radius=", "radius", radius);
    AppendField(prefix, t0 + "&" + t1, "&type=", "type", types);
    AppendField(prefix, t0 + "&" + t1 + "&" + t2, "&key=", "key", key);
  }

  /** The built URL is the rendering of the endpoint and `RequestParameters`. */
  lemma CreateUrlRendersParameters(coordinate: Coordinate, typesToInclude: Option<seq<string>>,
                                   format: real -> string)
    ensures CreateUrl(coordinate, typesToInclude, format)
         == Query.Render(Endpoint, RequestParameters(coordinate, typesToInclude, format))
  {
    var location := format(coordinate.latitude) + "," + format(coordinate.longitude);
    var radius := DecimalText(PlaceSearchRadius);
    assert GoogleApiLink == Endpoint + "?location=";
    assert GoogleApiLink + format(coordinate.latitude) + "," + format(coordinate.longitude)
        == Endpoint + "?location=" + location;
    match typesToInclude
    case None =>
      assert RequestParameters(coordinate, typesToInclude, format)
          == [("location", location), ("radius", radius), ("key", ApiKey)];
      RenderThree(Endpoint, location, radius, ApiKey);
    case Some(types) =>
      assert RequestParameters(coordinate, typesToInclude, format)
          == [("location", location), ("radius", radius), ("type", Join(types, ',')), ("key", ApiKey)];
      RenderFour(Endpoint, location, radius, Join(types, ','), ApiKey);
  }

  /** Reading the built URL back gives the endpoint and `RequestParameters`. */
  lemma CreateUrlParsesToParameters(coordinate: Coordinate, typesToInclude: Option<seq<string>>,
                                    format: real -> string)
    requires Unambiguous(coordinate, typesToInclude, format)
    ensures Query.Parse(Endpoint, CreateUrl(coordinate, typesToInclude, format))
         == Some(RequestParameters(coordinate, typesToInclude, format))
  {
    var ps := RequestParameters(coordinate, typesToInclude, format);
    if typesToInclude.Some? {
      JoinWithout(typesToInclude.value, ',', '&');
    }
    assert Query.WellFormed(ps);
    Query.ParseRender(Endpoint, ps);
    CreateUrlRendersParameters(coordinate, typesToInclude, format);
  }

  /** The parameter list names `location`, `radius`, `type` (exactly when a
      type array is given, even an empty one) and `key`, in this order, with
      the coordinates, 100, the comma-joined types and the API key as values. */
  lemma RequestParametersContent(coordinate: Coordinate, typesToInclude: Option<seq<string>>,
                                 format: real -> string)
    ensures var ps := RequestParameters(coordinate, typesToInclude, format);
      && Query.Names(ps) == ["location", "radius"] + (if typesToInclude.Some? then ["type"] else []) + ["key"]
      && Query.Lookup(ps, "location") == Some(format(coordinate.latitude) + "," + format(coordinate.longitude))
      && Query.Lookup(ps, "radius") == Some("100")
      && Query.Lookup(ps, "key") == Some(ApiKey)
      && (typesToInclude.None? ==> Query.Lookup(ps, "type") == None)
      && (typesToInclude.Some? ==> Query.Lookup(ps, "type") == Some(Join(typesToInclude.value, ',')))
  {
    RadiusText();
    var ps := RequestParameters(coordinate, typesToInclude, format);
    var location := format(coordinate.latitude) + "," + format(coordinate.longitude);
    var p0, p1, p3 := ("location", location), ("radius", "100"), ("key", ApiKey);
    match typesToInclude
    case None =>
      assert ps == [p0, p1, p3];
      assert ps[1..] == [p1, p3] && ps[1..][1..] == [p3] && ps[1..][1..][1..] == [];
      assert Query.Lookup([p3], "key") == Some(ApiKey);
      assert Query.Lookup([p1, p3], "key") == Some(ApiKey);
    case Some(types) =>
      var p2 := ("type", Join(types, ','));
      assert ps == [p0, p1, p2, p3];
      assert ps[1..] == [p1, p2, p3] && ps[1..][1..] == [p2, p3] && ps[1..][1..][1..] == [p3];
      assert Query.Lookup([p3], "key") == Some(ApiKey);
      assert Query.Lookup([p2, p3], "key") == Some(ApiKey);
      assert Query.Lookup([p1, p2, p3], "type") == Some(Join(types, ','));
  }

  /** Reading the built URL back as a request to `Endpoint` yields exactly these
      parameters, in this order: `location` = the two rendered coordinates
      joined by a comma, `radius` = 100, `type` = the comma-join of the
      requested types in caller order (present exactly when
      `typesToInclude` is not null, even when it is empty), `key` = the API
      key. */
  lemma CreateUrlParses(coordinate: Coordinate, typesToInclude: Option<seq<string>>,
                        format: real -> string)
    requires Unambiguous(coordinate, typesToInclude, format)
    ensures var u := Query.Parse(Endpoint, CreateUrl(coordinate, typesToInclude, format));
      && u.Some?
      && Query.Names(u.value) == ["location", "radius"] + (if typesToInclude.Some? then ["type"] else []) + ["key"]
      && Query.Lookup(u.value, "location") == Some(format(coordinate.latitude) + "," + format(coordinate.longitude))
      && Query.Lookup(u.value, "radius") == Some("100")
      && Query.Lookup(u.value, "key") == Some(ApiKey)
      && (typesToInclude.None? ==> Query.Lookup(u.value, "type") == None)
      && (typesToInclude.Some? ==> Query.Lookup(u.value, "type") == Some(Join(typesToInclude.value, ',')))
  {
    CreateUrlParsesToParameters(coordinate, typesToInclude, format);
    RequestParametersContent(coordinate, typesToInclude, format);
  }

  /** Without a type filter the URL is exactly the link, `lat,lon`,
      `&radius=100&key=` and the key. */
  lemma CreateUrlWithoutTypes(coordinate: Coordinate, format: real -> string)
    ensures CreateUrl(coordinate, None, format)
         == GoogleApiLink + format(coordinate.latitude) + "," + format(coordinate.longitude)
            + "&radius=100&key=" + ApiKey
  {
    RadiusText();
  }

  /** An empty, non-null type array still sends an empty `type` parameter. */
  lemma EmptyTypesStillSendTypeParameter(coordinate: Coordinate, format: real -> string)
    requires '&' !in format(coordinate.latitude) && '&' !in format(coordinate.longitude)
    ensures var u := Query.Parse(Endpoint, CreateUrl(coordinate, Some([]), format));
      u.Some? && Query.Lookup(u.value, "type") == Some("")
  {
    CreateUrlParses(coordinate, Some([]), format);
  }

  /** The `type` value splits back into the requested labels when there is at
      least one and none contains a comma. */
  lemma TypeValueRoundTrip(types: seq<string>)
    requires |types| > 0
    requires forall k :: 0 <= k < |types| ==> ',' !in types[k]
    ensures Split(Join(types, ','), ',') == types
  {
    SplitJoin(types, ',');
  }

  /** The `location` value splits back into the two rendered coordinates when
      the rendering uses no comma (it does in cultures with a decimal comma,
      and then the value is ambiguous). */
  lemma LocationRoundTrip(coordinate: Coordinate, format: real -> string)
    requires ',' !in format(coordinate.latitude) && ',' !in format(coordinate.longitude)
    ensures Split(format(coordinate.latitude) + "," + format(coordinate.longitude), ',')
         == [format(coordinate.latitude), format(coordinate.longitude)]
  {
    var parts := [format(coordinate.latitude), format(coordinate.longitude)];
    SplitJoin(parts, ',');
    assert Join(parts, ',') == parts[0] + [','] + parts[1];
  }

  /** The check in `GetPlaceAPIResponse`: the deserialised object is returned
      only when it is non-null and its status is the literal "OK"; an
      exception, a null object, a null status or any other status gives null. */
  function GetPlaceApiResponse(fetched: Fetched): (r: Option<Response>)
    ensures r.Some? <==>
              fetched.Delivered? && fetched.parsed.Some? && fetched.parsed.value.status == Some(OkStatus)
    ensures r.Some? ==> r == fetched.parsed && r.value.status == Some("OK")
  {
    match fetched
    case Thrown => None
    case Delivered(parsed) =>
      if parsed.Some? && parsed.value.status.Some? && parsed.value.status.value == OkStatus then parsed
      else None
  }
}
