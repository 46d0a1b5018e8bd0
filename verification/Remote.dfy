/** The verifier behind a transport: what crosses, what comes back, and when nothing is lost. */
module Remote {

  import opened Contracts
  import opened Pipeline
  import opened Wire

  /** Bytes on the wire: a JSON text, or something that is not one. */
  datatype Raw = Text(json: Json) | Garbage

  /** What the port comes back with. */
  datatype Outcome = Returned(bundle: VerdictBundle) | ReturnedIllTyped | Rethrown(exc: Exception)

  const ERROR_KINDS := {"GateUnavailable", "SandboxError", "VerifierError", "ProviderError"}

  // ------------------------------------------------------------------ the envelope

  function OkEnvelope(result: Json): Raw {
    Text(JObj(map["v" := JNum(1.0), "ok" := JBool(true), "result" := result]))
  }

  function ErrEnvelope(exc: Exception): Raw {
    Text(JObj(map["v" := JNum(1.0), "ok" := JBool(false),
                  "error" := JObj(map["kind" := JStr(exc.className), "message" := JStr(exc.message)])]))
  }

  predicate Truthy(j: Json) {
    match j
    case JNull => false
    case JBool(b) => b
    case JNum(n) => n != 0.0
    case JStr(s) => s != ""
    case JList(items) => items != []
    case JObj(fields) => fields != map[]
  }

  predicate Holds(f: map<string, Json>, key: string) {
    key in f && Truthy(f[key])
  }

  function MessageText(f: map<string, Json>): string {
    if "message" in f && f["message"].JStr? then f["message"].text else ""
  }

  /** The result of an envelope, or the error it carries. */
  function ParseResult(raw: Raw): Result<Json, Exception> {
    if raw.Garbage? then Err(Exception("TransportError", "malformed envelope"))
    else if !raw.json.JObj? then Err(ATTRIBUTE_ERROR)
    else
      var f := raw.json.fields;
      if Holds(f, "ok") then Ok(if "result" in f then f["result"] else JNull)
      else if Holds(f, "error") && !f["error"].JObj? then Err(ATTRIBUTE_ERROR)
      else
        var error := if Holds(f, "error") then f["error"].fields else map[];
        var kind := if "kind" in error then error["kind"] else JStr("");
        if kind.JList? || kind.JObj? then Err(TYPE_ERROR)
        else if kind.JStr? && kind.text in ERROR_KINDS then Err(Exception(kind.text, MessageText(error)))
        else Err(Exception("TransportError", MessageText(error)))
  }

  /** The error kinds cross as themselves; any other exception arrives as a transport error. */
  lemma EnvelopeRoundTrip(result: Json, exc: Exception)
    ensures ParseResult(OkEnvelope(result)) == Ok(result)
    ensures ParseResult(ErrEnvelope(exc)) ==
      Err(if exc.className in ERROR_KINDS then exc else Exception("TransportError", exc.message))
  {
    var f := OkEnvelope(result).json.fields;
    assert "ok" in f && "result" in f && f["ok"] == JBool(true) && f["result"] == result by {
      assert "ok" != "result" && "v" != "ok" && "v" != "result";
    }
    var g := ErrEnvelope(exc).json.fields;
    assert "ok" != "error" && "v" != "ok" && "v" != "error";
    assert g["ok"] == JBool(false) && g["error"].JObj?;
    assert "kind" != "message" by { assert "kind"[0] != "message"[0]; }
    assert "kind" in g["error"].fields;
  }

  // ------------------------------------------------------------------ the client, on any reply

  function Degraded(why: string): Outcome {
    Rethrown(Exception("GateUnavailable", why))
  }

  /** Transport failures and unreadable verdicts degrade; everything else goes on as it is. */
  function Remapped(exc: Exception): Outcome {
    if exc.className in {"TransportError", "TransportUnavailable"}
    then Degraded("verifier unreachable or misbehaving: " + exc.message)
    else if exc.className in {"ValueError", "KeyError", "TypeError"}
    then Degraded("verifier returned an unreadable verdict: " + exc.message)
    else Rethrown(exc)
  }

  function ClientReads(raw: Raw): Outcome {
    match ParseResult(raw)
    case Err(exc) => Remapped(exc)
    case Ok(result) =>
      match BundleFrom(result)
      case Good(bundle) => Returned(bundle)
      case Ill => ReturnedIllTyped
      case Bad(exc) => Remapped(exc)
  }

  /** A decision entry that is not an object, before any entry that raises otherwise. */
  ghost predicate TripsAt(items: seq<Json>, i: nat) {
    && i < |items| && !items[i].JObj?
    && forall j | 0 <= j < i :: !DecisionFrom(items[j]).Bad?
  }

  /** A reply of a shape the client does not guard against. */
  ghost predicate Trips(raw: Raw) {
    raw.Text? &&
    if !raw.json.JObj? then true
    else
      var f := raw.json.fields;
      if !Holds(f, "ok") then Holds(f, "error") && !f["error"].JObj?
      else
        && "result" in f && f["result"].JObj?
        && StatusAt(f["result"].fields).Good?
        && "decisions" in f["result"].fields
        && var d := f["result"].fields["decisions"];
           (d.JStr? && d.text != "") || (d.JObj? && d.fields != map[])
           || (d.JList? && exists i: nat :: TripsAt(d.items, i))
  }

  lemma {:induction false} ReadTrips(items: seq<Json>)
    ensures ReadAll(items, DecisionFrom) == Bad(ATTRIBUTE_ERROR) <==> exists i: nat :: TripsAt(items, i)
    ensures ReadAll(items, DecisionFrom).Bad? ==> ReadAll(items, DecisionFrom).exc in PLAIN + {ATTRIBUTE_ERROR}
  {
    if items != [] {
      ReadTrips(items[1..]);
      DecisionRaises(items[0]);
      var first := DecisionFrom(items[0]);
      if i: nat :| TripsAt(items, i) {
        if i > 0 {
          assert !DecisionFrom(items[0]).Bad?;
          assert TripsAt(items[1..], i - 1) by {
            forall j | 0 <= j < i - 1 ensures !DecisionFrom(items[1..][j]).Bad? { assert items[1..][j] == items[j + 1]; }
          }
        }
      }
      if !items[0].JObj? {
        assert TripsAt(items, 0);
      } else if !first.Bad? && exists i: nat :: TripsAt(items[1..], i) {
        var i: nat :| TripsAt(items[1..], i);
        assert TripsAt(items, i + 1) by {
          forall j | 0 <= j < i + 1 ensures !DecisionFrom(items[j]).Bad? {
            if j > 0 { assert items[j] == items[1..][j - 1]; }
          }
        }
      }
    }
  }

  const PLAIN := {KEY_ERROR, TYPE_ERROR, VALUE_ERROR}

  lemma PlainIsPlain()
    ensures ATTRIBUTE_ERROR !in PLAIN
    ensures ATTRIBUTE_ERROR.className !in {"TransportError", "TransportUnavailable", "ValueError", "KeyError", "TypeError"}
    ensures ATTRIBUTE_ERROR.className !in ERROR_KINDS
    ensures forall exc | exc in PLAIN :: exc.className in {"ValueError", "KeyError", "TypeError"}
    ensures forall exc | exc in PLAIN :: exc.className !in {"TransportError", "TransportUnavailable"}
  {
    assert "AttributeError"[0] == 'A' && "TransportError"[0] == 'T' && "TransportUnavailable"[0] == 'T';
    assert "ValueError"[0] == 'V' && "KeyError"[0] == 'K' && "TypeError"[0] == 'T' && "TypeError"[1] == 'y' && "TransportError"[1] == 'r';
    assert "TransportUnavailable"[1] == 'r';
    assert "GateUnavailable"[0] == 'G' && "SandboxError"[0] == 'S' && "ProviderError"[0] == 'P';
  }

  lemma {:induction false} WorstIn(faults: seq<Fault>, ok: set<Exception>)
    requires forall f | f in faults && f.Raising? :: f.exc in ok
    ensures Worst(faults).Raising? ==> Worst(faults).exc in ok
  {
    if faults != [] {
      assert faults[0] in faults;
      WorstIn(faults[1..], ok);
    }
  }

  lemma DecisionRaises(j: Json)
    ensures DecisionFrom(j) == Bad(ATTRIBUTE_ERROR) <==> !j.JObj?
    ensures DecisionFrom(j).Bad? && j.JObj? ==> DecisionFrom(j).exc in PLAIN
  {
    PlainIsPlain();
    if j.JObj? {
      var f := j.fields;
      WorstIn([FaultOf(TextAt(f, "gate")), FaultOf(KindAt(f)), FaultOf(TextAt(f, "rationale")),
               FaultOf(DefectsAt(f)), FaultOf(ScoreAt(f))], PLAIN);
    }
  }

  lemma BundleTrips(j: Json)
    ensures BundleFrom(j).Bad? ==> BundleFrom(j).exc in PLAIN + {ATTRIBUTE_ERROR}
    ensures BundleFrom(j) == Bad(ATTRIBUTE_ERROR) <==>
      j.JObj? && StatusAt(j.fields).Good? && "decisions" in j.fields
      && var d := j.fields["decisions"];
         (d.JStr? && d.text != "") || (d.JObj? && d.fields != map[])
         || (d.JList? && exists i: nat :: TripsAt(d.items, i))
  {
    PlainIsPlain();
    if j.JObj? && "decisions" in j.fields && j.fields["decisions"].JList? {
      ReadTrips(j.fields["decisions"].items);
    }
    hide DecisionFrom, TripsAt;
    if j.JObj? {
      var status, decisions, supersedes := StatusAt(j.fields), DecisionsAt(j.fields), OptTextAt(j.fields, "supersedes");
      BlameThree(FaultOf(status), FaultOf(decisions), FaultOf(supersedes));
    }
  }

  lemma BlameThree(a: Fault, b: Fault, c: Fault)
    ensures Worst([a, b, c]) ==
      if a.Raising? then a else if b.Raising? then b else if c.Raising? then c
      else if a.IllTyped? || b.IllTyped? || c.IllTyped? then IllTyped else Fine
  {
    assert [a, b, c][1..] == [b, c] && [b, c][1..] == [c] && [c][1..] == [];
    assert Worst([c]) == c && Worst([]) == Fine;
  }

  /** Any reply degrades to a recoverable failure or is a verdict or a boundary error, except that an
      `AttributeError` escapes exactly on the replies that trip the client. */
  lemma MisbehavingPeersExactlyWhen(raw: Raw)
    ensures ClientReads(raw) == Rethrown(ATTRIBUTE_ERROR) <==> Trips(raw)
    ensures ClientReads(raw).Rethrown? && !Trips(raw) ==> ClientReads(raw).exc.className in ERROR_KINDS
  {
    hide BundleFrom, TripsAt, StatusAt;
    PlainIsPlain();
    match ParseResult(raw)
    case Err(exc) =>
    case Ok(result) =>
      BundleTrips(result);
      assert !JNull.JObj?;
  }

  /** The smallest such reply: an envelope that is not an object. */
  lemma AListTripsTheClient()
    ensures ClientReads(Text(JList([]))) == Rethrown(ATTRIBUTE_ERROR)
    ensures ATTRIBUTE_ERROR.className !in ERROR_KINDS
  {
    PlainIsPlain();
  }

  // ------------------------------------------------------------------ one dispatch over loopback

  /** How a local verifier's answer arrives: a verdict and the four kinds as themselves, everything
      else as a recoverable failure. */
  function Relayed(reply: Reply): Outcome {
    match reply
    case Verdict(bundle) => Returned(bundle)
    case Raises(exc) =>
      if exc.className in ERROR_KINDS then Rethrown(exc)
      else Degraded("verifier unreachable or misbehaving: " + exc.message)
  }

  function ReplyEnvelope(reply: Reply): Raw {
    match reply
    case Verdict(bundle) => OkEnvelope(BundleTo(bundle))
    case Raises(exc) => ErrEnvelope(exc)
  }

  lemma ReplyCrosses(reply: Reply)
    ensures ClientReads(ReplyEnvelope(reply)) == Relayed(reply)
  {
    hide BundleFrom, BundleTo, ParseResult, OkEnvelope, ErrEnvelope;
    match reply
    case Verdict(bundle) =>
      EnvelopeRoundTrip(BundleTo(bundle), KEY_ERROR);
      BundleRoundTrip(bundle);
    case Raises(exc) =>
      EnvelopeRoundTrip(JNull, exc);
  }

  const NOT_SET_UP := Exception("TransportError", "verifier not set up yet")

  /** What a server that hosts `local` sends back for one request body. An ill-typed reference in a
      request counts as unreadable. */
  function Served(local: VerifierRequest -> Reply, body: Json): Raw {
    match RequestFrom(body)
    case Good(req) => ReplyEnvelope(local(req))
    case Ill => ErrEnvelope(TYPE_ERROR)
    case Bad(exc) => ErrEnvelope(exc)
  }

  function OverTheWire(local: VerifierRequest -> Reply, req: VerifierRequest): Outcome {
    ClientReads(Served(local, RequestTo(req)))
  }

  lemma ErrorsAreNotVerdicts(exc: Exception)
    ensures ClientReads(ErrEnvelope(exc)).Rethrown?
  {
    EnvelopeRoundTrip(JNull, exc);
  }

  /** The remote verifier is the local one, for every verifier, exactly when no artifact in the
      request has a payload that looks like an object reference. */
  lemma RefinesLocalExactlyWhen(req: VerifierRequest)
    ensures (forall local: VerifierRequest -> Reply :: OverTheWire(local, req) == Relayed(local(req))) <==> NoMarkers(req)
  {
    hide RequestFrom, RequestTo, ClientReads, ReplyEnvelope, NoMarkers, ErrEnvelope;
    RequestRoundTripExactlyWhen(req);
    if NoMarkers(req) {
      forall local: VerifierRequest -> Reply ensures OverTheWire(local, req) == Relayed(local(req)) {
        ReplyCrosses(local(req));
      }
    } else {
      var verdict, other := Verdict(VerdictBundle(Tentative, [], None)), Raises(TYPE_ERROR);
      var local := (r: VerifierRequest) => if r == req then verdict else other;
      assert local(req) == verdict;
      match RequestFrom(RequestTo(req)) {
        case Good(r) => ReplyCrosses(other);
        case Ill => ErrorsAreNotVerdicts(TYPE_ERROR);
        case Bad(exc) => ErrorsAreNotVerdicts(exc);
      }
      assert OverTheWire(local, req) != Relayed(local(req));
    }
  }

  /** A payload that looks like a reference is not judged as itself: here it arrives as a stored
      object. */
  lemma MarkerIsMisread(a: Artifact)
    requires a.payload == Inline(JObj(map[MARKER := RefTo(ObjectRef("b", "h"))]))
    ensures ArtifactFrom(ArtifactTo(a)) == Good(a.(payload := Stored(ObjectRef("b", "h"))))
  {
    hide PairsAt, StatusAt;
    ArtifactFields(a);
    RefRoundTrip(ObjectRef("b", "h"));
  }

  // ------------------------------------------------------------------ the two ends as they run

  datatype VerifierSetup = VerifierSetup(objects: map<string, Bytes>, params: map<string, Json>)

  function SetupTo(s: VerifierSetup): Json {
    JObj(map["objects" := ObjectsTo(s.objects), "params" := JObj(s.params)])
  }

  function SetupFrom(j: Json): Read<VerifierSetup> {
    if !j.JObj? then Bad(ATTRIBUTE_ERROR)
    else
      var objects := if "objects" in j.fields then ObjectsFrom(j.fields["objects"]) else Good(map[]);
      var params := if "params" !in j.fields then Good(map[])
        else if j.fields["params"].JObj? then Good(j.fields["params"].fields) else Bad(TYPE_ERROR);
      if objects.Good? && params.Good? then Good(VerifierSetup(objects.value, params.value))
      else Blame([FaultOf(objects), FaultOf(params)])
  }

  lemma SetupRoundTrip(s: VerifierSetup)
    ensures SetupFrom(SetupTo(s)) == Good(s)
  {
    ObjectsRoundTrip(s.objects);
    assert "objects" != "params" by { assert "objects"[0] != "params"[0]; }
  }

  /** What a builder makes of a setup: the identity, the pipelines and the first state, or a raise. */
  datatype Built<!S> = Built(identity: string, pipelines: map<string, seq<GateStep<S>>>, state: S)

  class VerifierServer<S> {
    const builder: Option<VerifierSetup -> Result<Built<S>, Exception>>
    var impl: Option<SdkVerifier<S>>

    constructor (impl: Option<SdkVerifier<S>>, builder: Option<VerifierSetup -> Result<Built<S>, Exception>>)
      requires impl.Some? || builder.Some?
      ensures this.impl == impl && this.builder == builder
    {
      this.impl, this.builder := impl, builder;
    }

    /** Builds the verifier from the setup; with a fixed one a setup is refused. */
    method Setup(body: Json) returns (raw: Raw)
      modifies this
      ensures builder.None? ==> impl == old(impl) && ParseResult(raw).Err?
      ensures builder.Some? ==>
        match SetupFrom(body)
        case Good(s) =>
          (match builder.value(s)
           case Ok(b) =>
             if forall t | t in b.pipelines :: HasHard(b.pipelines[t]) then
               && raw == OkEnvelope(JNull) && impl.Some? && fresh(impl.value) && impl.value.Valid()
               && impl.value.identity == b.identity && impl.value.pipelines == b.pipelines
               && impl.value.state == b.state
             else impl == old(impl) && ParseResult(raw).Err?
           case Err(exc) => impl == old(impl) && raw == ErrEnvelope(exc))
        case _ => impl == old(impl) && ParseResult(raw).Err?
    {
      EnvelopeRoundTrip(JNull, NOT_SET_UP);
      if builder.None? {
        return ErrEnvelope(NOT_SET_UP);
      }
      match SetupFrom(body) {
        case Good(s) =>
          var built := builder.value(s);
          if built.Err? { return ErrEnvelope(built.error); }
          var made := CreateVerifier(built.value.identity, built.value.pipelines, built.value.state);
          if made.Err? {
            EnvelopeRoundTrip(JNull, made.error);
            return ErrEnvelope(made.error);
          }
          impl := Some(made.value);
          raw := OkEnvelope(JNull);
        case Ill =>
          EnvelopeRoundTrip(JNull, TYPE_ERROR);
          raw := ErrEnvelope(TYPE_ERROR);
        case Bad(exc) =>
          EnvelopeRoundTrip(JNull, exc);
          raw := ErrEnvelope(exc);
      }
    }

    /** One dispatch: any raise rides the envelope, by its class name. */
    method Dispatch(body: Json) returns (raw: Raw)
      modifies if impl.Some? then {impl.value} else {}
      ensures impl.None? ==> raw == ErrEnvelope(NOT_SET_UP)
      ensures impl.Some? ==>
        match RequestFrom(body)
        case Good(req) =>
          var (state, reply) := Dispatched(impl.value.pipelines, old(impl.value.state), req);
          && raw == ReplyEnvelope(reply) && impl.value.state == state
          && impl.value.requests == old(impl.value.requests) + [req]
        case Ill =>
          raw == ErrEnvelope(TYPE_ERROR) && impl.value.state == old(impl.value.state)
          && impl.value.requests == old(impl.value.requests)
        case Bad(exc) =>
          raw == ErrEnvelope(exc) && impl.value.state == old(impl.value.state)
          && impl.value.requests == old(impl.value.requests)
    {
      if impl.None? { return ErrEnvelope(NOT_SET_UP); }
      match RequestFrom(body) {
        case Good(req) =>
          var reply := impl.value.Dispatch(req);
          raw := ReplyEnvelope(reply);
        case Ill =>
          raw := ErrEnvelope(TYPE_ERROR);
        case Bad(exc) =>
          raw := ErrEnvelope(exc);
      }
    }

    method Provision() returns (raw: Raw)
      ensures raw == if impl.Some? then OkEnvelope(JObj(map["identity" := JStr(impl.value.identity)])) else ErrEnvelope(NOT_SET_UP)
    {
      if impl.None? { return ErrEnvelope(NOT_SET_UP); }
      raw := OkEnvelope(JObj(map["identity" := JStr(impl.value.identity)]));
    }

    /** A verifier made by a builder is gone after its task; a fixed one stays. */
    method Teardown() returns (raw: Raw)
      modifies this
      ensures raw == OkEnvelope(JNull)
      ensures impl == if builder.Some? then None else old(impl)
    {
      if impl.Some? && builder.Some? { impl := None; }
      raw := OkEnvelope(JNull);
    }
  }

  class RemoteVerifier<S> {
    const server: VerifierServer<S>
    const setup: Option<VerifierSetup>
    var identity: string

    constructor (server: VerifierServer<S>, setup: Option<VerifierSetup>)
      ensures this.server == server && this.setup == setup && identity == ""
    {
      this.server, this.setup, identity := server, setup, "";
    }

    /** One dispatch over loopback: the hosted verifier is left exactly as a direct call with the
        same request would leave it, and its answer arrives as itself. */
    method Dispatch(req: VerifierRequest) returns (r: Outcome)
      requires NoMarkers(req)
      modifies if server.impl.Some? then {server.impl.value} else {}
      ensures server.impl.None? ==> r == Degraded("verifier unreachable or misbehaving: " + NOT_SET_UP.message)
      ensures server.impl.Some? ==>
        var (state, reply) := Dispatched(server.impl.value.pipelines, old(server.impl.value.state), req);
        && r == Relayed(reply) && server.impl.value.state == state
        && server.impl.value.requests == old(server.impl.value.requests) + [req]
    {
      hide RequestFrom, RequestTo, NoMarkers, ClientReads, ReplyEnvelope, Dispatched;
      RequestRoundTripExactlyWhen(req);
      var raw := server.Dispatch(RequestTo(req));
      r := ClientReads(raw);
      if server.impl.None? {
        NotSetUpDegrades();
      } else {
        ReplyCrosses(Dispatched(server.impl.value.pipelines, old(server.impl.value.state), req).1);
      }
    }

    /** Ships the setup (if there is one), then learns the identity; when the verifier cannot be
        built the identity stays unknown. */
    method Provision() returns (error: Option<Exception>)
      modifies this, server
      ensures error.None? ==> server.impl.Some? && identity == server.impl.value.identity
      ensures error.Some? ==> identity == old(identity)
      ensures setup.None? ==> server.impl == old(server.impl) && (error.None? <==> server.impl.Some?)
      ensures setup.Some? && server.builder.Some? ==>
        match server.builder.value(setup.value)
        case Ok(b) =>
          (error.None? <==> forall t | t in b.pipelines :: HasHard(b.pipelines[t]))
          && (error.None? ==>
                (identity == b.identity && fresh(server.impl.value)
                 && server.impl.value.pipelines == b.pipelines && server.impl.value.state == b.state))
        case Err(exc) => error.Some? && server.impl == old(server.impl)
    {
      hide SetupFrom, SetupTo, ParseResult, OkEnvelope, ErrEnvelope, HasHard;
      error := None;
      EnvelopeRoundTrip(JNull, NOT_SET_UP);
      if setup.Some? {
        SetupRoundTrip(setup.value);
        var raw := server.Setup(SetupTo(setup.value));
        if server.builder.Some? && server.builder.value(setup.value).Err? {
          EnvelopeRoundTrip(JNull, server.builder.value(setup.value).error);
        }
        var parsed := ParseResult(raw);
        if parsed.Err? { return Some(Provisioning(parsed.error)); }
      }
      var raw := server.Provision();
      if server.impl.Some? { EnvelopeRoundTrip(JObj(map["identity" := JStr(server.impl.value.identity)]), NOT_SET_UP); }
      var parsed := ParseResult(raw);
      if parsed.Err? { return Some(Provisioning(parsed.error)); }
      if parsed.value.JObj? && "identity" in parsed.value.fields && parsed.value.fields["identity"].JStr? {
        identity := parsed.value.fields["identity"].text;
      }
    }
  }

  /** A transport failure while provisioning degrades; any other error goes on as it is. */
  function Provisioning(exc: Exception): Exception {
    if exc.className in {"TransportError", "TransportUnavailable"}
    then Exception("GateUnavailable", "verifier unreachable or misbehaving: " + exc.message)
    else exc
  }

  lemma NotSetUpDegrades()
    ensures ClientReads(ErrEnvelope(NOT_SET_UP)) == Degraded("verifier unreachable or misbehaving: " + NOT_SET_UP.message)
  {
    EnvelopeRoundTrip(JNull, NOT_SET_UP);
  }
}
