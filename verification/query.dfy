/** A request URL as an endpoint followed by `?` and `name=value` query
    parameters separated by `&`, with the parser that reads the parameters of
    a URL for a known endpoint back. The parser is the partner of the URL
    builder: the builder is shown correct by parsing what it produces. */
module Query {
  import opened Wrappers
  import opened Text

  type Parameter = (string, string)

  /** At least one parameter; names carry neither `=` nor `&`; values carry
      no `&`. No percent-encoding is applied, so this is what a parameter
      list needs to be read back unambiguously. */
  predicate WellFormed(ps: seq<Parameter>)
  {
    && |ps| > 0
    && forall k :: 0 <= k < |ps| ==> '=' !in ps[k].0 && '&' !in ps[k].0 && '&' !in ps[k].1
  }

  function EncodeParameter(p: Parameter): string
  {
    p.0 + "=" + p.1
  }

  function EncodeParameters(ps: seq<Parameter>): seq<string>
  {
    seq(|ps|, k requires 0 <= k < |ps| => EncodeParameter(ps[k]))
  }

  function Render(endpoint: string, ps: seq<Parameter>): string
  {
    endpoint + "?" + Join(EncodeParameters(ps), '&')
  }

  function DecodeParameters(texts: seq<string>): (r: Option<seq<Parameter>>)
    ensures r.Some? ==> |r.value| == |texts|
  {
    if |texts| == 0 then Some([])
    else
      match SplitFirst(texts[0], '=')
      case None => None
      case Some(p) =>
        match DecodeParameters(texts[1..])
        case None => None
        case Some(rest) => Some([p] + rest)
  }

  /** Reads back the parameters of a URL that starts with `endpoint` and
      `?`: the rest is cut at every `&` and each piece at its first `=`. */
  function Parse(endpoint: string, s: string): Option<seq<Parameter>>
  {
    var prefix := endpoint + "?";
    if |prefix| <= |s| && s[..|prefix|] == prefix then DecodeParameters(Split(s[|prefix|..], '&'))
    else None
  }

  /** Value of the first parameter with the given name. */
  function Lookup(ps: seq<Parameter>, name: string): (r: Option<string>)
    ensures r.Some? <==> name in Names(ps)
  {
    if |ps| == 0 then None
    else
      assert Names(ps) == [ps[0].0] + Names(ps[1..]);
      if ps[0].0 == name then Some(ps[0].1)
      else Lookup(ps[1..], name)
  }

  function Names(ps: seq<Parameter>): seq<string>
  {
    seq(|ps|, k requires 0 <= k < |ps| => ps[k].0)
  }

  lemma {:induction false} DecodeEncoded(ps: seq<Parameter>)
    requires forall k :: 0 <= k < |ps| ==> '=' !in ps[k].0
    ensures DecodeParameters(EncodeParameters(ps)) == Some(ps)
  {
    if |ps| > 0 {
      DecodeEncoded(ps[1..]);
      var texts := EncodeParameters(ps);
      assert texts[1..] == EncodeParameters(ps[1..]);
      assert texts[0] == ps[0].0 + ['='] + ps[0].1;
      SplitFirstOfJoined(ps[0].0, '=', ps[0].1);
      assert [ps[0]] + ps[1..] == ps;
    }
  }

  /** Parsing a rendered well-formed parameter list gives it back. */
  lemma ParseRender(endpoint: string, ps: seq<Parameter>)
    requires WellFormed(ps)
    ensures Parse(endpoint, Render(endpoint, ps)) == Some(ps)
  {
    var texts := EncodeParameters(ps);
    forall k | 0 <= k < |texts|
      ensures '&' !in texts[k]
    {
      assert texts[k] == ps[k].0 + "=" + ps[k].1;
    }
    var s := Render(endpoint, ps);
    var prefix := endpoint + "?";
    assert s == prefix + Join(texts, '&');
    assert s[..|prefix|] == prefix && s[|prefix|..] == Join(texts, '&');
    SplitJoin(texts, '&');
    DecodeEncoded(ps);
  }
}
