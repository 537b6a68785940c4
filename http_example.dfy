/** The HTTP-triggered handler `http_example`: it resolves a name from the
    query string or, for POST, from the JSON body, and answers with a
    plain-text greeting. */
module HttpExample {
  import opened PythonValues

  datatype Option<T> = None | Some(value: T)

  /** The two methods the route accepts. */
  datatype Method = GET | POST

  /** What `req.get_json()` makes of the body: a parsed value, or a body that
      is not valid JSON. */
  datatype Body = Parsed(value: JsonValue) | Malformed

  /** The parts of the request the handler reads: the method (`req.method`), the value of
      query parameter `name` (`req.params.get("name")`) and the body. */
  datatype Request = Request(verb: Method, query: Option<string>, body: Body)

  datatype Response = Response(body: string, mimetype: string)

  const DefaultMessage: string := "Hello from Azure Functions!"
  const GreetingPrefix: string := "Hello "
  const GreetingSuffix: string := " \U{1F44B}"
  const TextPlain: string := "text/plain"

  /** The query value as a Python value: `None` when the parameter is absent. */
  function QueryValue(q: Option<string>): JsonValue {
    match q
    case None => Null
    case Some(s) => String(s)
  }

  /** The query value is truthy: present and not empty. */
  predicate QueryTruthy(q: Option<string>) {
    q.Some? && q.value != ""
  }

  /** The body is consulted only for a POST whose query name is falsy
      (the right operand of `or` is evaluated only then). */
  predicate ConsultsBody(req: Request) {
    req.verb == POST && !QueryTruthy(req.query)
  }

  /** The name resolved by `params.get("name") or (get_json().get("name") if
      POST else None)`, with the exceptions that evaluation can raise. */
  function ResolveName(req: Request): (r: Result<JsonValue>)
    ensures QueryTruthy(req.query) ==> r == Ok(String(req.query.value))
    ensures r.Raised? ==> ConsultsBody(req)
  {
    var q := QueryValue(req.query);
    if Truthy(q) then Ok(q)
    else if req.verb == POST then
      match req.body
      case Malformed => Raised(ValueError)
      case Parsed(v) => Get(v, "name")
    else Ok(Null)
  }

  /** The personalised message for a rendered name. */
  function Greeting(rendered: string): (msg: string)
    ensures |msg| == |GreetingPrefix| + |rendered| + |GreetingSuffix|
    ensures msg[..|GreetingPrefix|] == GreetingPrefix
    ensures msg[|GreetingPrefix|..|msg| - |GreetingSuffix|] == rendered
    ensures msg[|msg| - |GreetingSuffix|..] == GreetingSuffix
  {
    GreetingPrefix + rendered + GreetingSuffix
  }

  /** The message for a resolved name: personalised when it is truthy,
      the fixed default otherwise. */
  function Message(name: JsonValue, strOther: JsonValue -> string): (msg: string)
    ensures msg == DefaultMessage <==> !Truthy(name)
    ensures Truthy(name) ==> ParseGreeting(msg) == Some(Str(name, strOther))
  {
    GreetingRoundTrip(Str(name, strOther));
    DefaultIsNotAGreeting(Str(name, strOther));
    if Truthy(name) then Greeting(Str(name, strOther)) else DefaultMessage
  }

  /** The handler: the greeting as `text/plain`, or the exception raised
      while resolving the name. A successful message is either the default
      or has the greeting's shape, never both. */
  function Handle(req: Request, strOther: JsonValue -> string): (r: Result<Response>)
    ensures r.Raised? <==> ResolveName(req).Raised?
    ensures r.Ok? ==> r.value.mimetype == TextPlain
    ensures r.Ok? ==> (r.value.body == DefaultMessage <==> ParseGreeting(r.value.body) == None)
  {
    match ResolveName(req)
    case Raised(e) => Raised(e)
    case Ok(name) => Ok(Response(Message(name, strOther), TextPlain))
  }

  /** Inverse of Greeting: the rendered name inside a personalised message,
      or None when the text does not have the greeting's shape. */
  function ParseGreeting(msg: string): (r: Option<string>)
    ensures r.Some? ==> Greeting(r.value) == msg
  {
    var p, s := |GreetingPrefix|, |GreetingSuffix|;
    if |msg| >= p + s && msg[..p] == GreetingPrefix && msg[|msg| - s..] == GreetingSuffix
    then
      var name := msg[p..|msg| - s];
      assert msg == msg[..p] + name + msg[|msg| - s..];
      Some(name)
    else None
  }

  /** The rendered name can be recovered from a personalised message. */
  lemma GreetingRoundTrip(rendered: string)
    ensures ParseGreeting(Greeting(rendered)) == Some(rendered)
  {
  }

  /** The default message does not have the greeting's shape, so no
      personalised message equals it. */
  lemma DefaultIsNotAGreeting(rendered: string)
    ensures ParseGreeting(DefaultMessage) == None
    ensures Greeting(rendered) != DefaultMessage
  {
  }

  /** A truthy query name wins, whatever the method and the body: the body is
      never parsed, so a malformed body raises nothing. */
  lemma QueryNameWins(req: Request, strOther: JsonValue -> string)
    requires QueryTruthy(req.query)
    ensures Handle(req, strOther) == Ok(Response(Greeting(req.query.value), TextPlain))
  {
  }

  /** A GET with an absent or empty query name gets the default message, and
      the body is never consulted. */
  lemma GetIgnoresBody(req: Request, strOther: JsonValue -> string)
    requires req.verb == GET && !QueryTruthy(req.query)
    ensures Handle(req, strOther) == Ok(Response(DefaultMessage, TextPlain))
  {
  }

  /** A POST with an absent or empty query name and a dict body whose "name"
      value is truthy greets that value. */
  lemma PostUsesBodyName(req: Request, strOther: JsonValue -> string)
    requires req.verb == POST && !QueryTruthy(req.query)
    requires req.body.Parsed? && req.body.value.Object?
    requires "name" in req.body.value.fields && Truthy(req.body.value.fields["name"])
    ensures Handle(req, strOther)
         == Ok(Response(Greeting(Str(req.body.value.fields["name"], strOther)), TextPlain))
  {
  }

  /** A POST with an absent or empty query name and a dict body without a
      "name" key, or with a falsy one, gets the default message. */
  lemma FalsyBodyNameFallsBack(req: Request, strOther: JsonValue -> string)
    requires req.verb == POST && !QueryTruthy(req.query)
    requires req.body.Parsed? && req.body.value.Object?
    requires "name" !in req.body.value.fields || !Truthy(req.body.value.fields["name"])
    ensures Handle(req, strOther) == Ok(Response(DefaultMessage, TextPlain))
  {
  }

  /** The handler raises exactly when the body is consulted and is either not
      valid JSON (ValueError) or not a dict (AttributeError). */
  lemma WhenPostRaises(req: Request, strOther: JsonValue -> string)
    ensures Handle(req, strOther).Raised? <==>
      ConsultsBody(req) && (req.body.Malformed? || !req.body.value.Object?)
    ensures ConsultsBody(req) && req.body.Malformed? ==>
      Handle(req, strOther) == Raised(ValueError)
    ensures ConsultsBody(req) && req.body.Parsed? && !req.body.value.Object? ==>
      Handle(req, strOther) == Raised(AttributeError)
  {
  }

  /** Short-circuit: when the body is not consulted, replacing it changes
      nothing; when it is, some bodies give different outcomes. */
  lemma BodyMattersOnlyWhenConsulted(req: Request, strOther: JsonValue -> string)
    ensures !ConsultsBody(req) ==>
      forall b :: Handle(req.(body := b), strOther) == Handle(req, strOther)
    ensures ConsultsBody(req) ==>
      Handle(req.(body := Malformed), strOther)
        != Handle(req.(body := Parsed(Object(map[]))), strOther)
  {
  }

  /** The resolved name decides the message: the default exactly when it is
      falsy, and otherwise a greeting from which ParseGreeting gives back the
      name's rendering. */
  lemma NameRecovered(req: Request, strOther: JsonValue -> string)
    requires ResolveName(req).Ok?
    ensures Handle(req, strOther).Ok?
    ensures var msg := Handle(req, strOther).value.body;
      msg == DefaultMessage <==> !Truthy(ResolveName(req).value)
    ensures var msg := Handle(req, strOther).value.body;
      Truthy(ResolveName(req).value) ==>
        ParseGreeting(msg) == Some(Str(ResolveName(req).value, strOther))
  {
  }

  /** The documented GET cases: no query name (whatever the body),
      `?name=World` and `?name=`. */
  lemma DocumentedGetScenarios(strOther: JsonValue -> string)
    ensures forall b ::
      Handle(Request(GET, None, b), strOther) == Ok(Response("Hello from Azure Functions!", "text/plain"))
    ensures Handle(Request(GET, Some("World"), Malformed), strOther)
         == Ok(Response("Hello World \U{1F44B}", "text/plain"))
    ensures Handle(Request(GET, Some(""), Malformed), strOther)
         == Ok(Response("Hello from Azure Functions!", "text/plain"))
  {
    forall b
      ensures Handle(Request(GET, None, b), strOther) == Ok(Response("Hello from Azure Functions!", "text/plain"))
    {
      GetIgnoresBody(Request(GET, None, b), strOther);
    }
    QueryNameWins(Request(GET, Some("World"), Malformed), strOther);
    assert Greeting("World") == "Hello World \U{1F44B}";
    GetIgnoresBody(Request(GET, Some(""), Malformed), strOther);
  }

  /** The documented POST cases: a body name, an empty object, a query name
      overriding the body, and a malformed body. */
  lemma DocumentedPostScenarios(strOther: JsonValue -> string)
    ensures Handle(Request(POST, None, Parsed(Object(map["name" := String("Ada")]))), strOther)
         == Ok(Response("Hello Ada \U{1F44B}", "text/plain"))
    ensures Handle(Request(POST, None, Parsed(Object(map[]))), strOther)
         == Ok(Response("Hello from Azure Functions!", "text/plain"))
    ensures Handle(Request(POST, Some("Override"), Parsed(Object(map["name" := String("Ignored")]))), strOther)
         == Ok(Response("Hello Override \U{1F44B}", "text/plain"))
    ensures Handle(Request(POST, None, Malformed), strOther) == Raised(ValueError)
  {
    PostUsesBodyName(Request(POST, None, Parsed(Object(map["name" := String("Ada")]))), strOther);
    assert Greeting("Ada") == "Hello Ada \U{1F44B}";
    FalsyBodyNameFallsBack(Request(POST, None, Parsed(Object(map[]))), strOther);
    QueryNameWins(Request(POST, Some("Override"), Parsed(Object(map["name" := String("Ignored")]))), strOther);
    assert Greeting("Override") == "Hello Override \U{1F44B}";
    WhenPostRaises(Request(POST, None, Malformed), strOther);
  }
}
