/** The subjects of the cloud gateway: VIN substitution, routing of commands and recovery of the VIN. */
module CloudSubjects {
  import opened Ports
  import opened NatsSubjects

  // ----- Substitution -----

  const PLACEHOLDER := "{vin}"

  /** The first place where sub occurs in s. */
  function Find(s: string, sub: string): Option<nat> {
    if |sub| <= |s| && s[..|sub|] == sub then Some(0)
    else if s == "" then None
    else match Find(s[1..], sub)
      case None => None
      case Some(i) => Some(i + 1)
  }

  lemma {:induction false} FindBounds(s: string, sub: string)
    ensures var f := Find(s, sub);
            f.Some? ==> f.value + |sub| <= |s| && s[f.value..f.value + |sub|] == sub
  {
    if !(|sub| <= |s| && s[..|sub|] == sub) && s != "" {
      FindBounds(s[1..], sub);
    }
  }

  /** Replaces the first placeholder, if there is one. */
  function Resolve(pattern: string, vin: string): string {
    FindBounds(pattern, PLACEHOLDER);
    match Find(pattern, PLACEHOLDER)
    case None => pattern
    case Some(i) => pattern[..i] + vin + pattern[i + |PLACEHOLDER|..]
  }

  lemma {:induction false} FindAfter(prefix: string, rest: string)
    requires '{' !in prefix
    ensures Find(prefix + PLACEHOLDER + rest, PLACEHOLDER) == Some(|prefix|)
  {
    var s := prefix + PLACEHOLDER + rest;
    if prefix == "" {
      assert s[..|PLACEHOLDER|] == PLACEHOLDER;
    } else {
      assert prefix[0] in prefix && forall c :: c in prefix[1..] ==> c in prefix;
      FindAfter(prefix[1..], rest);
      assert s[1..] == prefix[1..] + PLACEHOLDER + rest;
      assert s[0] != PLACEHOLDER[0];
    }
  }

  // ----- The subjects -----

  datatype Subject =
    | CommandLock
    | CommandResponse
    | CommandLights
    | StateLocked
    | StateMode
    | StateSpeed
    | StateLights
    | InfoVin

  function Parts(x: Subject): (parts: seq<string>)
    ensures |parts| >= 2
  {
    match x
    case CommandLock => ["command", "door", "lock"]
    case CommandResponse => ["command", "door", "response"]
    case CommandLights => ["command", "lights", "set"]
    case StateLocked => ["state", "door", "locked"]
    case StateMode => ["state", "vehicle", "mode"]
    case StateSpeed => ["state", "vehicle", "speed"]
    case StateLights => ["state", "lights", "status"]
    case InfoVin => ["info", "vin"]
  }

  /** As configured: "vehicles.{vin}.command.door.lock" and so on. */
  function Pattern(x: Subject): string {
    "vehicles." + PLACEHOLDER + "." + Join(Parts(x))
  }

  function Concrete(x: Subject, vin: string): string {
    Resolve(Pattern(x), vin)
  }

  function Wildcard(x: Subject): string {
    Resolve(Pattern(x), "*")
  }

  lemma ResolveAt(prefix: string, rest: string, vin: string)
    requires '{' !in prefix
    ensures Resolve(prefix + PLACEHOLDER + rest, vin) == prefix + vin + rest
  {
    FindAfter(prefix, rest);
    hide Find;
    var s := prefix + PLACEHOLDER + rest;
    assert s[..|prefix|] == prefix && s[|prefix| + |PLACEHOLDER|..] == rest;
  }

  lemma Resolved(x: Subject, vin: string)
    ensures Concrete(x, vin) == "vehicles" + "." + vin + "." + Join(Parts(x))
  {
    hide Join;
    hide Parts;
    hide Resolve;
    ResolveAt("vehicles.", "." + Join(Parts(x)), vin);
    assert "vehicles." + PLACEHOLDER + ("." + Join(Parts(x))) == Pattern(x);
    assert "vehicles." + vin + ("." + Join(Parts(x))) == "vehicles" + "." + vin + "." + Join(Parts(x));
  }

  // ----- Routing -----

  lemma GlueConcat(c: char, a: seq<string>, b: seq<string>)
    requires |a| > 0
    ensures Glue(c, a + b) == Glue(c, a) + b
  {
    assert (a + b)[1..] == a[1..] + b;
  }

  lemma {:induction false} SplitConcat(a: string, rest: string)
    ensures Split(a + "." + rest) == Split(a) + Split(rest)
  {
    if a == "" {
      SplitFirst("", rest);
      assert "" + "." + rest == "." + rest;
      assert Split(a) == [""];
    } else {
      SplitConcat(a[1..], rest);
      hide Glue;
      assert (a + "." + rest)[1..] == a[1..] + "." + rest;
      GlueConcat(a[0], Split(a[1..]), Split(rest));
    }
  }

  lemma PartsDotFree(x: Subject)
    ensures Split(Join(Parts(x))) == Parts(x)
    ensures Parts(x)[|Parts(x)| - 1] != ""
  {
    JoinSplit(Parts(x));
  }

  lemma TokensSplit(s: string)
    ensures var parts := Split(s); parts[|parts| - 1] != "" ==> Tokens(s) == parts
  {
  }

  /** The tokens of a subject: the VIN contributes one token per part. */
  lemma SubjectParts(x: Subject, vin: string)
    ensures Split(Concrete(x, vin)) == ["vehicles"] + Split(vin) + Parts(x)
    ensures Tokens(Concrete(x, vin)) == ["vehicles"] + Split(vin) + Parts(x)
  {
    hide Split;
    hide Parts;
    hide Join;
    hide Concrete;
    Resolved(x, vin);
    var tail := Join(Parts(x));
    PartsDotFree(x);
    SplitFirst("vehicles", vin + "." + tail);
    SplitConcat(vin, tail);
    hide Tokens;
    Regrouped("vehicles", vin, tail, Split(vin), Parts(x));
    TokensSplit(Concrete(x, vin));
  }

  lemma Regrouped(a: string, b: string, c: string, p: seq<string>, q: seq<string>)
    ensures a + "." + b + "." + c == a + "." + (b + "." + c)
    ensures [a] + (p + q) == [a] + p + q
  {
  }

  lemma {:induction false} DottedParts(vin: string)
    ensures |Split(vin)| == 1 <==> DotFree(vin)
  {
    SplitJoin(vin);
    assert Split(vin)[0] in Split(vin);
    if DotFree(vin) {
      SplitDotFree(vin);
    }
  }

  lemma WildcardTokens(y: Subject)
    ensures UpToTail(Tokens(Wildcard(y))) == ["vehicles", "*"] + Parts(y)
  {
    hide Tokens;
    hide Split;
    hide Parts;
    hide UpToTail;
    assert Wildcard(y) == Concrete(y, "*");
    hide Concrete;
    hide Wildcard;
    SubjectParts(y, "*");
    SplitDotFree("*");
    assert ["vehicles"] + ["*"] + Parts(y) == ["vehicles", "*"] + Parts(y);
    NoTail(y);
    UpToTailSame(["vehicles", "*"] + Parts(y));
  }

  lemma NoTail(y: Subject)
    ensures TailOnlyLast(["vehicles", "*"] + Parts(y))
    ensures Parts(y)[|Parts(y)| - 1] != ">"
  {
  }

  lemma CoversSubject(y: Subject, x: Subject, middle: seq<string>)
    requires |middle| > 0
    ensures Covers(["vehicles", "*"] + Parts(y), ["vehicles"] + middle + Parts(x)) <==> x == y && |middle| == 1
  {
    var p, t := ["vehicles", "*"] + Parts(y), ["vehicles"] + middle + Parts(x);
    NoTail(y);
    if Covers(p, t) {
      assert Meets(p[|p| - 1], t[|p| - 1]) && Meets(p[|p| - 2], t[|p| - 2]);
      assert t[|t| - 1] == Parts(x)[|Parts(x)| - 1] && t[|t| - 2] == Parts(x)[|Parts(x)| - 2];
    }
  }

  /** A subject is met by its own wildcard subscription and by no other, iff the VIN has no dot. */
  lemma SubscriptionRoutes(y: Subject, x: Subject, vin: string)
    ensures Matches(Wildcard(y), Concrete(x, vin)) <==> x == y && DotFree(vin)
  {
    WildcardTokens(y);
    SubjectParts(x, vin);
    DottedParts(vin);
    CoversSubject(y, x, Split(vin));
    hide Wildcard;
    hide Concrete;
    hide Covers;
    hide Parts;
    hide Split;
    hide Tokens;
    hide UpToTail;
  }

  // ----- The VIN recovered by the companion app -----

  function LearnVin(subject: string, current: string): string {
    var parts := Split(subject);
    if |parts| >= 2 && parts[1] != "*" then parts[1] else current
  }

  /** The app learns the VIN a subject was made with iff it is dot-free and not "*", or was known already. */
  lemma VinRecovered(x: Subject, vin: string, current: string)
    ensures LearnVin(Concrete(x, vin), current) == vin <==>
            (DotFree(vin) && vin != "*") || (current == vin && Split(vin)[0] == "*")
  {
    hide Concrete;
    hide Join;
    FirstPart(x, vin);
    FirstPartDots(vin);
    hide Split;
    hide Parts;
  }

  lemma FirstPart(x: Subject, vin: string)
    ensures var parts := Split(Concrete(x, vin)); |parts| >= 2 && parts[1] == Split(vin)[0]
  {
    hide Split;
    hide Concrete;
    SubjectParts(x, vin);
  }

  /** The first part of a VIN is the VIN itself iff it has no dot. */
  lemma FirstPartDots(vin: string)
    ensures Split(vin)[0] == vin <==> DotFree(vin)
  {
    DottedParts(vin);
    SplitJoin(vin);
    if DotFree(vin) {
      SplitDotFree(vin);
    } else {
      assert Split(vin)[0] in Split(vin);
    }
    hide Split;
  }

  // ----- Dispatch to the subscribers -----

  datatype Handler = LockCommandHandler | LightCommandHandler

  class NatsTransport {
    var subscribers: map<string, Handler>

    constructor ()
      ensures subscribers == map[]
    {
      subscribers := map[];
    }

    method Subscribe(pattern: string, handler: Handler)
      modifies this
      ensures subscribers == old(subscribers)[pattern := handler]
    {
      subscribers := subscribers[pattern := handler];
    }

    /** The patterns whose callbacks are called, each once; the order is the hash map's. */
    method DispatchMessage(subject: string) returns (matched: seq<string>)
      ensures forall p :: p in matched <==> p in subscribers && Matches(p, subject)
      ensures forall i, j :: 0 <= i < j < |matched| ==> matched[i] != matched[j]
    {
      matched := [];
      var rest := subscribers.Keys;
      while rest != {}
        invariant rest <= subscribers.Keys
        invariant forall p :: p in matched <==> p in subscribers && p !in rest && Matches(p, subject)
        invariant forall i, j :: 0 <= i < j < |matched| ==> matched[i] != matched[j]
        decreases |rest|
      {
        var pattern :| pattern in rest;
        var matches := SubjectMatchesPattern(pattern, subject);
        rest := rest - {pattern};
        if matches {
          assert pattern !in matched;
          matched := matched + [pattern];
        }
      }
    }
  }

  /** What the gateway subscribes to when it starts. */
  function GatewaySubscriptions(): map<string, Handler> {
    map[Wildcard(CommandLock) := LockCommandHandler, Wildcard(CommandLights) := LightCommandHandler]
  }

  lemma WildcardsDiffer(x: Subject, y: Subject)
    requires x != y
    ensures Wildcard(x) != Wildcard(y)
  {
    SubscriptionRoutes(x, x, "*");
    SubscriptionRoutes(y, x, "*");
    assert Wildcard(x) == Concrete(x, "*");
    hide Matches;
  }

  /** A command reaches exactly one gateway handler, its own; other subjects and dotted VINs reach none. */
  method CommandDispatch(transport: NatsTransport, x: Subject, vin: string) returns (called: seq<Handler>)
    requires transport.subscribers == GatewaySubscriptions()
    ensures called ==
            if !DotFree(vin) then []
            else if x == CommandLock then [LockCommandHandler]
            else if x == CommandLights then [LightCommandHandler]
            else []
  {
    hide Matches;
    hide Concrete;
    hide Wildcard;
    SubscriptionRoutes(CommandLock, x, vin);
    SubscriptionRoutes(CommandLights, x, vin);
    WildcardsDiffer(CommandLock, CommandLights);
    var matched := transport.DispatchMessage(Concrete(x, vin));
    called := [];
    assert |matched| >= 1 ==> matched[0] in matched;
    assert |matched| >= 2 ==> matched[1] in matched;
    for i := 0 to |matched|
      invariant |called| == i
      invariant forall k :: 0 <= k < i ==> called[k] == transport.subscribers[matched[k]]
    {
      assert matched[i] in matched;
      called := called + [transport.subscribers[matched[i]]];
    }
    if DotFree(vin) && x == CommandLock {
      assert Wildcard(CommandLock) in matched;
    } else if DotFree(vin) && x == CommandLights {
      assert Wildcard(CommandLights) in matched;
    }
  }
}
