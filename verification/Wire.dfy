/** The wire shape of artifacts, bundles and requests, as JSON values. */
module Wire {

  import opened Contracts

  const MARKER := "__object_ref__"

  /** What decoding comes to: a value, a value some field of which has the wrong type (the decoder
      does not look), or a raise. */
  datatype Read<+T> = Good(value: T) | Ill | Bad(exc: Exception)

  datatype Fault = Fine | IllTyped | Raising(exc: Exception)

  function FaultOf<T>(r: Read<T>): Fault {
    match r
    case Good(_) => Fine
    case Ill => IllTyped
    case Bad(exc) => Raising(exc)
  }

  /** The first raise counts; else an ill-typed field makes the whole ill-typed. */
  function Worst(faults: seq<Fault>): Fault {
    if faults == [] then Fine
    else if faults[0].Raising? then faults[0]
    else
      var rest := Worst(faults[1..]);
      if rest == Fine then faults[0] else rest
  }

  function Blame<T>(faults: seq<Fault>): Read<T> {
    match Worst(faults)
    case Raising(exc) => Bad(exc)
    case _ => Ill
  }

  const KEY_ERROR := Exception("KeyError", "missing key")
  const TYPE_ERROR := Exception("TypeError", "not of the expected shape")
  const VALUE_ERROR := Exception("ValueError", "not a valid value")
  const ATTRIBUTE_ERROR := Exception("AttributeError", "object has no attribute 'get'")

  // ------------------------------------------------------------------ fields

  function TextAt(f: map<string, Json>, key: string): Read<string> {
    if key !in f then Bad(KEY_ERROR)
    else if f[key].JStr? then Good(f[key].text) else Ill
  }

  /** A field that may be absent or null. */
  function OptTextAt(f: map<string, Json>, key: string): Read<Option<string>> {
    if key !in f || f[key].JNull? then Good(None)
    else if f[key].JStr? then Good(Some(f[key].text)) else Ill
  }

  function OptText(o: Option<string>): Json {
    if o.Some? then JStr(o.value) else JNull
  }

  function FlagAt(f: map<string, Json>, key: string): Read<bool> {
    if key !in f then Good(false) else if f[key].JBool? then Good(f[key].flag) else Ill
  }

  function StatusName(s: Status): string {
    match s
    case Proposed => "proposed"
    case Tentative => "tentative"
    case Accepted => "accepted"
    case Rejected => "rejected"
    case Superseded => "superseded"
    case Revised => "revised"
  }

  function StatusNamed(name: string): Option<Status> {
    if name == "proposed" then Some(Proposed)
    else if name == "tentative" then Some(Tentative)
    else if name == "accepted" then Some(Accepted)
    else if name == "rejected" then Some(Rejected)
    else if name == "superseded" then Some(Superseded)
    else if name == "revised" then Some(Revised)
    else None
  }

  function StatusAt(f: map<string, Json>): Read<Status> {
    if "status" !in f then Bad(KEY_ERROR)
    else if !f["status"].JStr? || StatusNamed(f["status"].text).None? then Bad(VALUE_ERROR)
    else Good(StatusNamed(f["status"].text).value)
  }

  lemma StatusRoundTrip(s: Status)
    ensures StatusNamed(StatusName(s)) == Some(s)
  {
  }

  /** The names under which statuses and rulings cross are those of the contract. */
  lemma WireNames(k: Kind)
    ensures StatusName(Proposed) == "proposed" && StatusName(Tentative) == "tentative"
    ensures StatusName(Accepted) == "accepted" && StatusName(Rejected) == "rejected"
    ensures StatusName(Superseded) == "superseded" && StatusName(Revised) == "revised"
    ensures KindAt(map["kind" := JStr(KindName(k))]) == Good(k)
    ensures KindName(Accept) == "accept" && KindName(Reject) == "reject" && KindName(Refine) == "refine"
  {
  }

  function KindName(k: Kind): string {
    match k
    case Accept => "accept"
    case Reject => "reject"
    case Refine => "refine"
  }

  function KindAt(f: map<string, Json>): Read<Kind> {
    if "kind" !in f then Bad(KEY_ERROR)
    else if f["kind"] == JStr("accept") then Good(Accept)
    else if f["kind"] == JStr("reject") then Good(Reject)
    else if f["kind"] == JStr("refine") then Good(Refine)
    else Bad(VALUE_ERROR)
  }

  // ------------------------------------------------------------------ lists

  /** Reads the elements one after the other. */
  function ReadAll<T>(items: seq<Json>, read: Json -> Read<T>): Read<seq<T>> {
    if items == [] then Good([])
    else
      var first := read(items[0]);
      if first.Bad? then Bad(first.exc)
      else
        var rest := ReadAll(items[1..], read);
        if rest.Bad? then Bad(rest.exc)
        else if first.Good? && rest.Good? then Good([first.value] + rest.value)
        else Ill
  }

  function WriteAll<T>(values: seq<T>, write: T -> Json): (items: seq<Json>)
    ensures |items| == |values|
  {
    seq(|values|, i requires 0 <= i < |values| => write(values[i]))
  }

  lemma {:induction false} AllRoundTrip<T>(values: seq<T>, write: T -> Json, read: Json -> Read<T>)
    requires forall v | v in values :: read(write(v)) == Good(v)
    ensures ReadAll(WriteAll(values, write), read) == Good(values)
  {
    if values != [] {
      assert values[0] in values;
      assert WriteAll(values, write)[1..] == WriteAll(values[1..], write);
      AllRoundTrip(values[1..], write, read);
      assert values == [values[0]] + values[1..];
    }
  }

  lemma {:induction false} AllRoundTripOnly<T>(values: seq<T>, write: T -> Json, read: Json -> Read<T>)
    requires ReadAll(WriteAll(values, write), read) == Good(values)
    ensures forall v | v in values :: read(write(v)) == Good(v)
  {
    if values != [] {
      assert WriteAll(values, write)[1..] == WriteAll(values[1..], write);
      var rest := ReadAll(WriteAll(values[1..], write), read);
      assert values == [values[0]] + values[1..];
      AllRoundTripOnly(values[1..], write, read);
    }
  }

  // ------------------------------------------------------------------ verdict bundles

  function TextOf(j: Json): Read<string> {
    if j.JStr? then Good(j.text) else Ill
  }

  function Chars(s: string): seq<string> {
    seq(|s|, i requires 0 <= i < |s| => [s[i]])
  }

  /** An iterable of defects; a text is taken apart into its characters. */
  function DefectsAt(f: map<string, Json>): Read<Option<seq<string>>> {
    if "defects" !in f || f["defects"].JNull? then Good(None)
    else
      match f["defects"]
      case JList(items) =>
        var read := ReadAll(items, TextOf);
        if read.Good? then Good(Some(read.value)) else Ill
      case JStr(text) => Good(Some(Chars(text)))
      case JObj(fields) => Ill
      case _ => Bad(TYPE_ERROR)
  }

  function ScoreAt(f: map<string, Json>): Read<Option<real>> {
    if "score" !in f || f["score"].JNull? then Good(None)
    else if f["score"].JNum? then Good(Some(f["score"].number)) else Ill
  }

  function DecisionTo(g: GateDecision): Json {
    JObj(map["gate" := JStr(g.gate), "kind" := JStr(KindName(g.kind)), "rationale" := JStr(g.rationale),
             "defects" := if g.defects.Some? then JList(WriteAll(g.defects.value, s => JStr(s))) else JNull,
             "score" := if g.score.Some? then JNum(g.score.value) else JNull])
  }

  function DecisionFrom(j: Json): Read<GateDecision> {
    if !j.JObj? then Bad(ATTRIBUTE_ERROR)
    else
      var f := j.fields;
      var gate, kind, rationale := TextAt(f, "gate"), KindAt(f), TextAt(f, "rationale");
      var defects, score := DefectsAt(f), ScoreAt(f);
      if gate.Good? && kind.Good? && rationale.Good? && defects.Good? && score.Good?
      then Good(GateDecision(gate.value, kind.value, rationale.value, defects.value, score.value))
      else Blame([FaultOf(gate), FaultOf(kind), FaultOf(rationale), FaultOf(defects), FaultOf(score)])
  }

  function DecisionsAt(f: map<string, Json>): Read<seq<GateDecision>> {
    if "decisions" !in f then Good([])
    else
      match f["decisions"]
      case JList(items) => ReadAll(items, DecisionFrom)
      case JStr(text) => if text == "" then Good([]) else Bad(ATTRIBUTE_ERROR)
      case JObj(fields) => if fields == map[] then Good([]) else Bad(ATTRIBUTE_ERROR)
      case _ => Bad(TYPE_ERROR)
  }

  function BundleTo(b: VerdictBundle): Json {
    JObj(map["status" := JStr(StatusName(b.status)),
             "decisions" := JList(WriteAll(b.decisions, DecisionTo)),
             "supersedes" := OptText(b.supersedes)])
  }

  function BundleFrom(j: Json): Read<VerdictBundle> {
    if !j.JObj? then Bad(TYPE_ERROR)
    else
      var status, decisions, supersedes := StatusAt(j.fields), DecisionsAt(j.fields), OptTextAt(j.fields, "supersedes");
      if status.Good? && decisions.Good? && supersedes.Good?
      then Good(VerdictBundle(status.value, decisions.value, supersedes.value))
      else Blame([FaultOf(status), FaultOf(decisions), FaultOf(supersedes)])
  }

  lemma DecisionRoundTrip(g: GateDecision)
    ensures DecisionFrom(DecisionTo(g)) == Good(g)
  {
    var f := DecisionTo(g).fields;
    if g.defects.Some? {
      AllRoundTrip(g.defects.value, s => JStr(s), TextOf);
      assert DefectsAt(f) == Good(g.defects);
    }
    assert KindAt(f) == Good(g.kind) by {
      assert "accept" != "reject" && "accept" != "refine" && "reject" != "refine" by {
        assert "accept"[0] != "reject"[0] && "accept"[0] != "refine"[0] && "reject"[2] != "refine"[2];
      }
    }
  }

  /** A verdict crosses unchanged. */
  lemma BundleRoundTrip(b: VerdictBundle)
    ensures BundleFrom(BundleTo(b)) == Good(b)
  {
    StatusRoundTrip(b.status);
    forall d | d in b.decisions ensures DecisionFrom(DecisionTo(d)) == Good(d) { DecisionRoundTrip(d); }
    AllRoundTrip(b.decisions, DecisionTo, DecisionFrom);
  }

  // ------------------------------------------------------------------ artifacts

  function RefTo(ref: ObjectRef): Json {
    JObj(map["blob_ref" := JStr(ref.blobRef), "content_hash" := JStr(ref.contentHash)])
  }

  function RefFrom(j: Json): Read<ObjectRef> {
    if !j.JObj? then Bad(TYPE_ERROR)
    else
      var blob, hash := TextAt(j.fields, "blob_ref"), TextAt(j.fields, "content_hash");
      if blob.Good? && hash.Good? then Good(ObjectRef(blob.value, hash.value))
      else Blame([FaultOf(blob), FaultOf(hash)])
  }

  lemma RefRoundTrip(ref: ObjectRef)
    ensures RefFrom(RefTo(ref)) == Good(ref)
  {
    assert "blob_ref" != "content_hash" by { assert "blob_ref"[0] != "content_hash"[0]; }
  }

  /** An object reference rides under the marker; everything else as it is. */
  function PayloadTo(p: Payload): Json {
    match p
    case Stored(ref) => JObj(map[MARKER := RefTo(ref)])
    case Inline(value) => value
  }

  predicate HasMarker(j: Json) {
    j.JObj? && MARKER in j.fields
  }

  function PayloadFrom(j: Json): Read<Payload> {
    if HasMarker(j) then
      var ref := RefFrom(j.fields[MARKER]);
      if ref.Good? then Good(Stored(ref.value)) else Blame([FaultOf(ref)])
    else Good(Inline(j))
  }

  /** A payload crosses unchanged exactly when it does not look like a reference. */
  lemma PayloadRoundTripExactlyWhen(p: Payload)
    ensures PayloadFrom(PayloadTo(p)) == Good(p) <==> !(p.Inline? && HasMarker(p.value))
  {
    if p.Stored? { RefRoundTrip(p.ref); }
  }

  function PairTo(pair: (string, ObjectRef)): Json {
    JList([JStr(pair.0), RefTo(pair.1)])
  }

  function PairFrom(j: Json): Read<(string, ObjectRef)> {
    if !j.JList? then Bad(TYPE_ERROR)
    else if |j.items| != 2 then Bad(VALUE_ERROR)
    else
      var name, ref := TextOf(j.items[0]), RefFrom(j.items[1]);
      if name.Good? && ref.Good? then Good((name.value, ref.value)) else Blame([FaultOf(name), FaultOf(ref)])
  }

  lemma PairRoundTrip(pair: (string, ObjectRef))
    ensures PairFrom(PairTo(pair)) == Good(pair)
  {
    RefRoundTrip(pair.1);
  }

  function PairsAt(f: map<string, Json>): Read<seq<(string, ObjectRef)>> {
    if "objects" !in f then Good([])
    else if f["objects"].JList? then ReadAll(f["objects"].items, PairFrom)
    else Bad(TYPE_ERROR)
  }

  function ArtifactTo(a: Artifact): Json {
    JObj(map["id" := JStr(a.id), "type" := JStr(a.atype), "payload" := PayloadTo(a.payload),
             "status" := JStr(StatusName(a.status)), "created_by" := JStr(a.createdBy),
             "created_at" := JStr(a.createdAt), "superseded_by" := OptText(a.supersededBy),
             "revised_by" := OptText(a.revisedBy), "is_root" := JBool(a.isRoot),
             "objects" := JList(WriteAll(a.objects, PairTo))])
  }

  function PayloadAt(f: map<string, Json>): Read<Payload> {
    if "payload" !in f then Bad(KEY_ERROR) else PayloadFrom(f["payload"])
  }

  function ArtifactFrom(j: Json): Read<Artifact> {
    if !j.JObj? then Bad(TYPE_ERROR)
    else
      var f := j.fields;
      var id, atype, payload, status := TextAt(f, "id"), TextAt(f, "type"), PayloadAt(f), StatusAt(f);
      var author, made := TextAt(f, "created_by"), TextAt(f, "created_at");
      var superseded, revised := OptTextAt(f, "superseded_by"), OptTextAt(f, "revised_by");
      var root, objects := FlagAt(f, "is_root"), PairsAt(f);
      if id.Good? && atype.Good? && payload.Good? && status.Good? && author.Good? && made.Good?
         && superseded.Good? && revised.Good? && root.Good? && objects.Good?
      then Good(Artifact(id.value, atype.value, payload.value, status.value, author.value, made.value,
                         superseded.value, revised.value, root.value, objects.value))
      else Blame([FaultOf(id), FaultOf(atype), FaultOf(payload), FaultOf(status), FaultOf(author), FaultOf(made),
                  FaultOf(superseded), FaultOf(revised), FaultOf(root), FaultOf(objects)])
  }

  predicate Marked(a: Artifact) {
    a.payload.Inline? && HasMarker(a.payload.value)
  }

  lemma ArtifactFields(a: Artifact)
    ensures var f := ArtifactTo(a).fields;
      && TextAt(f, "id") == Good(a.id) && TextAt(f, "type") == Good(a.atype)
      && PayloadAt(f) == PayloadFrom(PayloadTo(a.payload))
      && StatusAt(f) == Good(a.status)
      && TextAt(f, "created_by") == Good(a.createdBy) && TextAt(f, "created_at") == Good(a.createdAt)
      && OptTextAt(f, "superseded_by") == Good(a.supersededBy)
      && OptTextAt(f, "revised_by") == Good(a.revisedBy)
      && FlagAt(f, "is_root") == Good(a.isRoot) && PairsAt(f) == Good(a.objects)
  {
    hide PairFrom, PairTo, ReadAll, WriteAll, StatusName, StatusNamed, PayloadTo, PayloadFrom;
    StatusRoundTrip(a.status);
    PairsRoundTrip(a.objects);
  }

  lemma PairsRoundTrip(pairs: seq<(string, ObjectRef)>)
    ensures ReadAll(WriteAll(pairs, PairTo), PairFrom) == Good(pairs)
  {
    forall p | p in pairs ensures PairFrom(PairTo(p)) == Good(p) { PairRoundTrip(p); }
    AllRoundTrip(pairs, PairTo, PairFrom);
  }

  /** An artifact crosses unchanged exactly when its payload does not look like a reference. */
  lemma ArtifactRoundTripExactlyWhen(a: Artifact)
    ensures ArtifactFrom(ArtifactTo(a)) == Good(a) <==> !Marked(a)
  {
    hide PayloadFrom, PayloadTo, PairsAt, StatusAt, HasMarker;
    ArtifactFields(a);
    PayloadRoundTripExactlyWhen(a.payload);
  }

  // ------------------------------------------------------------------ requests

  /** Stands for base64. */
  function Base64(data: Bytes): string {
    seq(|data|, i requires 0 <= i < |data| => data[i] as int as char)
  }

  function FromBase64(text: string): Option<Bytes> {
    if forall i | 0 <= i < |text| :: text[i] as int < 256
    then Some(seq(|text|, i requires 0 <= i < |text| && text[i] as int < 256 => text[i] as int as byte))
    else None
  }

  lemma Base64RoundTrip(data: Bytes)
    ensures FromBase64(Base64(data)) == Some(data)
  {
    var text := Base64(data);
    assert forall i | 0 <= i < |text| :: text[i] == data[i] as int as char;
    assert FromBase64(text).value == data;
  }

  function BlobTo(data: Bytes): Json {
    JObj(map["inline" := JStr(Base64(data))])
  }

  function BlobFrom(j: Json): Read<Bytes> {
    if !j.JObj? then Bad(TYPE_ERROR)
    else if "inline" !in j.fields then Bad(VALUE_ERROR)
    else if !j.fields["inline"].JStr? then Bad(TYPE_ERROR)
    else if FromBase64(j.fields["inline"].text).None? then Bad(VALUE_ERROR)
    else Good(FromBase64(j.fields["inline"].text).value)
  }

  function ObjectsTo(objects: map<string, Bytes>): Json {
    JObj(map name | name in objects :: BlobTo(objects[name]))
  }

  function ObjectsFrom(j: Json): Read<map<string, Bytes>> {
    if !j.JObj? then Bad(ATTRIBUTE_ERROR)
    else if forall name | name in j.fields :: BlobFrom(j.fields[name]).Good?
    then Good(map name | name in j.fields && BlobFrom(j.fields[name]).Good? :: BlobFrom(j.fields[name]).value)
    else Bad(VALUE_ERROR)
  }

  lemma ObjectsRoundTrip(objects: map<string, Bytes>)
    ensures ObjectsFrom(ObjectsTo(objects)) == Good(objects)
  {
    forall name | name in objects ensures BlobFrom(BlobTo(objects[name])) == Good(objects[name]) {
      Base64RoundTrip(objects[name]);
    }
    var f := ObjectsTo(objects).fields;
    assert forall name | name in f :: name in objects && BlobFrom(f[name]) == Good(objects[name]);
    assert ObjectsFrom(ObjectsTo(objects)).value == objects;
  }

  function GatesTo(scores: map<string, real>): Json {
    JObj(map g | g in scores :: JNum(scores[g]))
  }

  function GatesFrom(j: Json): Read<map<string, real>> {
    if !j.JObj? then Bad(ATTRIBUTE_ERROR)
    else if forall g | g in j.fields :: j.fields[g].JNum?
    then Good(map g | g in j.fields && j.fields[g].JNum? :: j.fields[g].number)
    else Bad(TYPE_ERROR)
  }

  function ScoresTo(scores: map<Id, map<string, real>>): Json {
    JObj(map id | id in scores :: GatesTo(scores[id]))
  }

  function ScoresFrom(j: Json): Read<map<Id, map<string, real>>> {
    if !j.JObj? then Bad(ATTRIBUTE_ERROR)
    else if forall id | id in j.fields :: GatesFrom(j.fields[id]).Good?
    then Good(map id | id in j.fields && GatesFrom(j.fields[id]).Good? :: GatesFrom(j.fields[id]).value)
    else Bad(TYPE_ERROR)
  }

  lemma GatesRoundTrip(scores: map<string, real>)
    ensures GatesFrom(GatesTo(scores)) == Good(scores)
  {
    var f := GatesTo(scores).fields;
    assert forall g | g in f :: g in scores && f[g] == JNum(scores[g]);
    assert GatesFrom(GatesTo(scores)).value == scores;
  }

  lemma ScoresRoundTrip(scores: map<Id, map<string, real>>)
    ensures ScoresFrom(ScoresTo(scores)) == Good(scores)
  {
    forall id | id in scores ensures GatesFrom(GatesTo(scores[id])) == Good(scores[id]) {
      GatesRoundTrip(scores[id]);
    }
    var f := ScoresTo(scores).fields;
    assert forall id | id in f :: id in scores && GatesFrom(f[id]) == Good(scores[id]);
    assert ScoresFrom(ScoresTo(scores)).value == scores;
  }

  function RequestTo(r: VerifierRequest): Json {
    JObj(map["proposal" := ArtifactTo(r.proposal),
             "store_slice" := JList(WriteAll(r.storeSlice, ArtifactTo)),
             "objects" := ObjectsTo(r.objects),
             "scores" := ScoresTo(r.scores)])
  }

  function SliceAt(f: map<string, Json>): Read<seq<Artifact>> {
    if "store_slice" !in f then Good([])
    else if f["store_slice"].JList? then ReadAll(f["store_slice"].items, ArtifactFrom)
    else Bad(TYPE_ERROR)
  }

  function RequestFrom(j: Json): Read<VerifierRequest> {
    if !j.JObj? then Bad(TYPE_ERROR)
    else if "proposal" !in j.fields then Bad(KEY_ERROR)
    else
      var f := j.fields;
      var proposal, slice := ArtifactFrom(f["proposal"]), SliceAt(f);
      var objects := if "objects" in f then ObjectsFrom(f["objects"]) else Good(map[]);
      var scores := if "scores" in f then ScoresFrom(f["scores"]) else Good(map[]);
      if proposal.Good? && slice.Good? && objects.Good? && scores.Good?
      then Good(VerifierRequest(proposal.value, slice.value, objects.value, scores.value))
      else Blame([FaultOf(proposal), FaultOf(slice), FaultOf(objects), FaultOf(scores)])
  }

  predicate NoMarkers(r: VerifierRequest) {
    !Marked(r.proposal) && forall a | a in r.storeSlice :: !Marked(a)
  }

  lemma RequestFields(r: VerifierRequest)
    ensures var f := RequestTo(r).fields;
      && "proposal" in f && f["proposal"] == ArtifactTo(r.proposal)
      && SliceAt(f) == ReadAll(WriteAll(r.storeSlice, ArtifactTo), ArtifactFrom)
      && "objects" in f && ObjectsFrom(f["objects"]) == Good(r.objects)
      && "scores" in f && ScoresFrom(f["scores"]) == Good(r.scores)
  {
    hide ArtifactTo, ArtifactFrom, ObjectsTo, ObjectsFrom, ScoresTo, ScoresFrom, ReadAll;
    ObjectsRoundTrip(r.objects);
    ScoresRoundTrip(r.scores);
  }

  /** A request crosses unchanged exactly when none of its artifacts has a payload that looks like a
      reference. */
  lemma RequestRoundTripExactlyWhen(r: VerifierRequest)
    ensures RequestFrom(RequestTo(r)) == Good(r) <==> NoMarkers(r)
  {
    hide ArtifactTo, ArtifactFrom, SliceAt, ObjectsFrom, ScoresFrom, Marked, ReadAll;
    RequestFields(r);
    ArtifactRoundTripExactlyWhen(r.proposal);
    forall a | a in r.storeSlice ensures ArtifactFrom(ArtifactTo(a)) == Good(a) <==> !Marked(a) {
      ArtifactRoundTripExactlyWhen(a);
    }
    var slice := ReadAll(WriteAll(r.storeSlice, ArtifactTo), ArtifactFrom);
    if forall a | a in r.storeSlice :: !Marked(a) {
      AllRoundTrip(r.storeSlice, ArtifactTo, ArtifactFrom);
    }
    if slice == Good(r.storeSlice) {
      AllRoundTripOnly(r.storeSlice, ArtifactTo, ArtifactFrom);
    }
  }
}
