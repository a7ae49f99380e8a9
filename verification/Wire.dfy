/** The wire codecs: stream header, datagram plaintext, route list, relay greetings. */
module Wire {
  import opened Bytes
  import opened Uvarint

  datatype Result<T> = Ok(value: T) | Err(reason: string)

  // ------------------------------------------------------------------
  // Length-prefixed fields
  // ------------------------------------------------------------------

  function EncodeField(b: seq<Byte>): seq<Byte> { Put(|b|) + b }

  datatype Field = Field(val: seq<Byte>, rest: seq<Byte>)

  function ReadLenPrefixed(b: seq<Byte>): Result<Field> {
    var d := Get(b);
    if !d.Value? then Err("bad length")
    else
      DecodedFits(b);
      if |b| - d.n < d.x then Err("truncated") else Ok(Field(b[d.n..d.n + d.x], b[d.n + d.x..]))
  }

  lemma FieldRoundTrip(val: seq<Byte>, rest: seq<Byte>)
    requires |val| < UINT64_LIMIT
    ensures ReadLenPrefixed(EncodeField(val) + rest) == Ok(Field(val, rest))
  {
    var b := EncodeField(val) + rest;
    assert b == Put(|val|) + (val + rest);
    RoundTrip(|val|, val + rest);
    var n := |Put(|val|)|;
    assert b[n..n + |val|] == val && b[n + |val|..] == rest;
  }

  /** A field is read exactly when its length decodes and that many bytes follow; it and the rest make up the input. */
  lemma FieldReadIff(b: seq<Byte>)
    ensures var d := Get(b); ReadLenPrefixed(b).Ok? <==> d.Value? && d.n + d.x <= |b|
    ensures var r := ReadLenPrefixed(b); r.Ok? ==>
              var d := Get(b);
              |r.value.val| == d.x && d.n <= |b| && b == b[..d.n] + r.value.val + r.value.rest
  {
    DecodedFits(b);
  }

  // ------------------------------------------------------------------
  // Stream header and datagram plaintext
  // ------------------------------------------------------------------

  function EncodeStreamHeader(name: seq<Byte>): seq<Byte> { EncodeField(name) }

  function DecodeStreamHeader(buf: seq<Byte>): Result<seq<Byte>> {
    var d := Get(buf);
    if !d.Value? then Err("bad varint length name")
    else
      DecodedFits(buf);
      if |buf| - d.n < d.x then Err("truncated name") else Ok(buf[d.n..d.n + d.x])
  }

  lemma StreamHeaderRoundTrip(name: seq<Byte>, rest: seq<Byte>)
    requires |name| < UINT64_LIMIT
    ensures DecodeStreamHeader(EncodeStreamHeader(name) + rest) == Ok(name)
  {
    FieldRoundTrip(name, rest);
  }

  /** A header is accepted exactly when it starts with a whole length-prefixed name, which is then the name. */
  lemma StreamHeaderReadIff(buf: seq<Byte>)
    ensures DecodeStreamHeader(buf).Ok? <==> ReadLenPrefixed(buf).Ok?
    ensures DecodeStreamHeader(buf).Ok? ==> DecodeStreamHeader(buf).value == ReadLenPrefixed(buf).value.val
  {
    DecodedFits(buf);
  }

  datatype Plaintext = Plaintext(channelId: nat, payload: seq<Byte>)

  function EncodeDatagramPlaintext(p: Plaintext): seq<Byte> { Put(p.channelId) + p.payload }

  function DecodeDatagramPlaintext(buf: seq<Byte>): Result<Plaintext> {
    var d := Get(buf);
    if !d.Value? then Err("bad varint channel_id")
    else
      DecodedFits(buf);
      Ok(Plaintext(d.x, buf[d.n..]))
  }

  lemma DatagramRoundTrip(p: Plaintext)
    requires p.channelId < UINT64_LIMIT
    ensures DecodeDatagramPlaintext(EncodeDatagramPlaintext(p)) == Ok(p)
  {
    RoundTrip(p.channelId, p.payload);
    assert (Put(p.channelId) + p.payload)[|Put(p.channelId)|..] == p.payload;
  }

  /** A plaintext is accepted exactly when its channel ID decodes; all bytes after that are payload. */
  lemma DatagramReadIff(buf: seq<Byte>)
    ensures DecodeDatagramPlaintext(buf).Ok? <==> Get(buf).Value?
    ensures var r := DecodeDatagramPlaintext(buf); r.Ok? ==>
              r.value.channelId == Get(buf).x && Get(buf).n <= |buf| && buf == buf[..Get(buf).n] + r.value.payload
  {
    DecodedFits(buf);
  }

  // ------------------------------------------------------------------
  // Route list
  // ------------------------------------------------------------------

  datatype Route = Route(route: seq<Byte>, metadata: seq<Byte>)

  function EncodeRoute(e: Route): seq<Byte> { EncodeField(e.route) + EncodeField(e.metadata) }

  function RouteBytes(es: seq<Route>): seq<Byte> {
    if es == [] then [] else EncodeRoute(es[0]) + RouteBytes(es[1..])
  }

  function RouteList(es: seq<Route>): seq<Byte> { Put(|es|) + RouteBytes(es) }

  /** Reading `count` entries; the first broken field decides the error. */
  function ReadRoutes(b: seq<Byte>, count: nat): Result<seq<Route>> {
    if count == 0 then Ok([])
    else
      var r := ReadLenPrefixed(b);
      if r.Err? then Err("route")
      else
        var m := ReadLenPrefixed(r.value.rest);
        if m.Err? then Err("metadata")
        else
          var more := ReadRoutes(m.value.rest, count - 1);
          if more.Err? then more else Ok([Route(r.value.val, m.value.val)] + more.value)
  }

  function ParseRoutes(b: seq<Byte>): Result<seq<Route>> {
    var d := Get(b);
    if !d.Value? then Err("bad count") else DecodedFits(b); ReadRoutes(b[d.n..], d.x)
  }

  predicate Encodable(e: Route) { |e.route| < UINT64_LIMIT && |e.metadata| < UINT64_LIMIT }

  lemma ReadRouteBack(e: Route, tail: seq<Byte>, count: nat)
    requires Encodable(e) && count > 0
    ensures ReadRoutes(EncodeRoute(e) + tail, count) ==
              var more := ReadRoutes(tail, count - 1); if more.Err? then more else Ok([e] + more.value)
  {
    var afterRoute := EncodeField(e.metadata) + tail;
    assert EncodeRoute(e) + tail == EncodeField(e.route) + afterRoute;
    FieldRoundTrip(e.route, afterRoute);
    FieldRoundTrip(e.metadata, tail);
  }

  ghost predicate AllEncodable(es: seq<Route>) { forall i :: 0 <= i < |es| ==> Encodable(es[i]) }

  lemma EncodableTail(es: seq<Route>)
    requires AllEncodable(es) && es != []
    ensures Encodable(es[0]) && AllEncodable(es[1..])
  {
  }

  lemma RouteBytesCons(es: seq<Route>, rest: seq<Byte>)
    requires es != []
    ensures RouteBytes(es) + rest == EncodeRoute(es[0]) + (RouteBytes(es[1..]) + rest)
  {
  }

  lemma ReadOneMoreBack(es: seq<Route>, tail: seq<Byte>, bytes: seq<Byte>)
    requires es != [] && Encodable(es[0]) && ReadRoutes(tail, |es[1..]|) == Ok(es[1..])
    requires bytes == EncodeRoute(es[0]) + tail
    ensures ReadRoutes(bytes, |es|) == Ok(es)
  {
    ReadRouteBack(es[0], tail, |es|);
    assert [es[0]] + es[1..] == es;
  }

  lemma {:induction false} ReadRoutesBack(es: seq<Route>, rest: seq<Byte>)
    requires AllEncodable(es)
    ensures ReadRoutes(RouteBytes(es) + rest, |es|) == Ok(es)
  {
    if es != [] {
      EncodableTail(es);
      ReadRoutesBack(es[1..], rest);
      RouteBytesCons(es, rest);
      ReadOneMoreBack(es, RouteBytes(es[1..]) + rest, RouteBytes(es) + rest);
    }
  }

  /** Any list of routes is read back, whatever bytes follow. */
  lemma RoutesRoundTrip(es: seq<Route>, rest: seq<Byte>)
    requires |es| < UINT64_LIMIT && forall i :: 0 <= i < |es| ==> Encodable(es[i])
    ensures ParseRoutes(RouteList(es) + rest) == Ok(es)
  {
    var body := RouteBytes(es) + rest;
    assert RouteList(es) + rest == Put(|es|) + body;
    RoundTrip(|es|, body);
    assert (Put(|es|) + body)[|Put(|es|)|..] == body;
    ReadRoutesBack(es, rest);
  }

  lemma {:induction false} RouteBytesSnoc(es: seq<Route>, e: Route)
    ensures RouteBytes(es + [e]) == RouteBytes(es) + EncodeRoute(e)
  {
    if es == [] {
      assert es + [e] == [e];
      assert RouteBytes([e]) == EncodeRoute(e) + RouteBytes([e][1..]);
    } else {
      assert (es + [e])[1..] == es[1..] + [e];
      RouteBytesSnoc(es[1..], e);
    }
  }

  method AppendField(buf: seq<Byte>, val: seq<Byte>) returns (r: seq<Byte>)
    ensures r == buf + EncodeField(val)
  {
    r := buf + Put(|val|);
    r := r + val;
  }

  method EncodeRoutes(entries: seq<Route>) returns (buf: seq<Byte>)
    ensures buf == RouteList(entries)
  {
    buf := Put(|entries|);
    ghost var head := buf;
    for i := 0 to |entries|
      invariant buf == head + RouteBytes(entries[..i])
    {
      var e := entries[i];
      buf := AppendField(buf, e.route);
      buf := AppendField(buf, e.metadata);
      RouteBytesSnoc(entries[..i], e);
      assert entries[..i + 1] == entries[..i] + [e];
    }
    assert entries[..|entries|] == entries;
  }

  function After(entries: seq<Route>, more: Result<seq<Route>>): Result<seq<Route>> {
    if more.Err? then more else Ok(entries + more.value)
  }

  lemma ReadOne(entries: seq<Route>, rest: seq<Byte>, count: nat)
    requires count > 0
    ensures var r := ReadLenPrefixed(rest);
            if r.Err? then After(entries, ReadRoutes(rest, count)) == Err("route")
            else
              var m := ReadLenPrefixed(r.value.rest);
              After(entries, ReadRoutes(rest, count)) ==
                if m.Err? then Err("metadata")
                else After(entries + [Route(r.value.val, m.value.val)], ReadRoutes(m.value.rest, count - 1))
  {
    var r := ReadLenPrefixed(rest);
    if r.Ok? {
      var m := ReadLenPrefixed(r.value.rest);
      if m.Ok? {
        var e := Route(r.value.val, m.value.val);
        var more := ReadRoutes(m.value.rest, count - 1);
        if more.Ok? { assert entries + ([e] + more.value) == entries + [e] + more.value; }
      }
    }
  }

  method DecodeRoutes(b: seq<Byte>) returns (r: Result<seq<Route>>)
    ensures r == ParseRoutes(b)
  {
    var d := Get(b);
    if !d.Value? { return Err("bad count"); }
    DecodedFits(b);
    var rest := b[d.n..];
    var entries: seq<Route> := [];
    ghost var all := ReadRoutes(rest, d.x);
    assert all == After([], all) by { if all.Ok? { assert [] + all.value == all.value; } }
    for i := 0 to d.x
      invariant all == After(entries, ReadRoutes(rest, d.x - i))
    {
      ReadOne(entries, rest, d.x - i);
      var route := ReadLenPrefixed(rest);
      if route.Err? { return Err("route"); }
      var meta := ReadLenPrefixed(route.value.rest);
      if meta.Err? { return Err("metadata"); }
      entries := entries + [Route(route.value.val, meta.value.val)];
      rest := meta.value.rest;
    }
    assert entries + [] == entries;
    return Ok(entries);
  }

  // ------------------------------------------------------------------
  // Relay greetings
  // ------------------------------------------------------------------

  datatype Greeting = Connect(instanceId: string) | Register(token: string, instanceId: string) | Listen(token: string, instanceId: string)

  function Suffix(token: string, instanceId: string): string {
    if token == "" && instanceId == "" then "" else ":" + token + ":" + instanceId
  }

  function EncodeGreeting(g: Greeting): string {
    match g
    case Connect(id) => "connect:" + id
    case Register(token, id) => "register" + Suffix(token, id)
    case Listen(token, id) => "listen" + Suffix(token, id)
  }

  /** The position of the first ':', or the length. */
  function FirstColon(s: string): (i: nat)
    ensures i <= |s|
    ensures i < |s| ==> s[i] == ':'
    ensures forall j :: 0 <= j < i ==> s[j] != ':'
  {
    if s == "" then 0 else if s[0] == ':' then 0 else 1 + FirstColon(s[1..])
  }

  /** Token and instance ID out of what follows the variant's word. */
  function ParseSuffix(rest: string): Result<(string, string)> {
    if rest == "" then Ok(("", ""))
    else if rest[0] != ':' then Err("missing ':' after prefix")
    else
      var body := rest[1..];
      var i := FirstColon(body);
      if i == |body| then Ok((body, "")) else Ok((body[..i], body[i + 1..]))
  }

  function DecodeGreeting(s: string): Result<Greeting> {
    if "connect:" <= s then Ok(Connect(s[8..]))
    else if "register" <= s then
      var p := ParseSuffix(s[8..]);
      if p.Err? then Err(p.reason) else Ok(Register(p.value.0, p.value.1))
    else if "listen" <= s then
      var p := ParseSuffix(s[6..]);
      if p.Err? then Err(p.reason) else Ok(Listen(p.value.0, p.value.1))
    else Err("unrecognised prefix")
  }

  lemma SuffixRoundTrip(token: string, id: string)
    ensures ParseSuffix(Suffix(token, id)) == Ok((token, id)) <==> ':' !in token
  {
    if token != "" || id != "" {
      var body := token + ":" + id;
      assert Suffix(token, id)[1..] == body;
      var i := FirstColon(body);
      assert body[|token|] == ':';
      assert i <= |token|;
      if ':' in token {
        var j :| 0 <= j < |token| && token[j] == ':';
        assert body[j] == ':';
        assert i <= j;
        assert |body[..i]| == i;
      } else {
        assert forall j :: 0 <= j < |token| ==> body[j] == token[j];
        assert i == |token|;
        assert body[..i] == token && body[i + 1..] == id;
      }
    }
  }

  lemma Words(token: string, id: string)
    ensures var r := "register" + Suffix(token, id);
            r[0] == 'r' && r[8..] == Suffix(token, id) && "register" <= r && !("connect:" <= r)
    ensures var l := "listen" + Suffix(token, id);
            l[0] == 'l' && l[6..] == Suffix(token, id) && "listen" <= l && !("connect:" <= l) && !("register" <= l)
    ensures var c := "connect:" + id; c[0] == 'c' && c[8..] == id && "connect:" <= c
  {
  }

  /** A greeting survives the wire exactly when its token holds no ':'; the instance ID is free. */
  lemma GreetingRoundTrip(g: Greeting)
    ensures DecodeGreeting(EncodeGreeting(g)) == Ok(g) <==> g.Connect? || ':' !in g.token
  {
    var token := if g.Connect? then "" else g.token;
    Words(token, g.instanceId);
    SuffixRoundTrip(token, g.instanceId);
  }

  /** Different variants never share an encoding. */
  lemma GreetingsNeverCollide(g: Greeting, h: Greeting)
    requires EncodeGreeting(g) == EncodeGreeting(h)
    ensures g.Connect? == h.Connect? && g.Register? == h.Register? && g.Listen? == h.Listen?
  {
    Words(if g.Connect? then "" else g.token, g.instanceId);
    Words(if h.Connect? then "" else h.token, h.instanceId);
  }

  /** Other spellings the decoder takes: a token with no second ':', or two colons for nothing at all. */
  predicate OtherSuffix(rest: string, token: string, instanceId: string) {
    instanceId == "" && (rest == ":" + token || (token == "" && rest == "::"))
  }

  predicate OtherSpelling(s: string, g: Greeting) {
    || (g.Register? && "register" <= s && OtherSuffix(s[8..], g.token, g.instanceId))
    || (g.Listen? && "listen" <= s && OtherSuffix(s[6..], g.token, g.instanceId))
  }

  lemma ParsedSuffix(rest: string)
    ensures var p := ParseSuffix(rest);
            p.Ok? ==> ':' !in p.value.0 && (rest == Suffix(p.value.0, p.value.1) || OtherSuffix(rest, p.value.0, p.value.1))
    ensures ParseSuffix(rest).Err? <==> rest != "" && rest[0] != ':'
  {
    if rest != "" && rest[0] == ':' {
      var body := rest[1..];
      assert rest == ":" + body;
      var i := FirstColon(body);
      if i < |body| {
        assert body == body[..i] + ":" + body[i + 1..];
        assert rest == ":" + body[..i] + ":" + body[i + 1..];
      }
    }
  }

  /** Conversely, whatever is decoded is the greeting's encoding or another spelling of it, and its token has no ':'. */
  lemma DecodedGreeting(s: string)
    ensures var r := DecodeGreeting(s);
            r.Ok? ==> (s == EncodeGreeting(r.value) || OtherSpelling(s, r.value)) && (r.value.Connect? || ':' !in r.value.token)
  {
    if "connect:" <= s {
      assert s == "connect:" + s[8..];
    } else if "register" <= s {
      ParsedSuffix(s[8..]);
      assert s == "register" + s[8..];
    } else if "listen" <= s {
      ParsedSuffix(s[6..]);
      assert s == "listen" + s[6..];
    }
  }

  /** Refused are exactly the texts with no variant's word, or with something other than ':' after it. */
  lemma RefusedGreeting(s: string)
    ensures DecodeGreeting(s).Err? <==>
              && !("connect:" <= s)
              && ("register" <= s ==> |s| > 8 && s[8] != ':')
              && (!("register" <= s) && "listen" <= s ==> |s| > 6 && s[6] != ':')
  {
    if "register" <= s { ParsedSuffix(s[8..]); } else if "listen" <= s { ParsedSuffix(s[6..]); }
  }
}
