/** The value types that cross a service boundary: artifacts, operations, verdicts and requests. */
module Contracts {

  datatype Option<+T> = None | Some(value: T)

  datatype Result<+T, +E> = Ok(value: T) | Err(error: E)

  newtype byte = x: int | 0 <= x < 256
  type Bytes = seq<byte>

  type Id = string
  type Timestamp = string

  datatype Status = Proposed | Tentative | Accepted | Rejected | Superseded | Revised

  datatype OpStatus = OpSuccess | OpFailed | OpRetried

  datatype Kind = Accept | Reject | Refine

  datatype Json =
    | JNull
    | JBool(flag: bool)
    | JNum(number: real)
    | JStr(text: string)
    | JList(items: seq<Json>)
    | JObj(fields: map<string, Json>)

  datatype ObjectRef = ObjectRef(blobRef: string, contentHash: string)

  datatype Payload = Inline(value: Json) | Stored(ref: ObjectRef)

  datatype Artifact = Artifact(
    id: Id,
    atype: string,
    payload: Payload,
    status: Status,
    createdBy: string,
    createdAt: Timestamp,
    supersededBy: Option<Id>,
    revisedBy: Option<Id>,
    isRoot: bool,
    objects: seq<(string, ObjectRef)>)

  datatype Operation = Operation(
    opId: Id,
    opName: string,
    parents: seq<Id>,
    outputId: Id,
    status: OpStatus,
    createdAt: Timestamp)

  datatype GateVerdict = GateVerdict(
    kind: Kind,
    rationale: string,
    defects: Option<seq<string>>,
    score: Option<real>,
    supersedes: Option<Id>)

  datatype GateDecision = GateDecision(
    gate: string,
    kind: Kind,
    rationale: string,
    defects: Option<seq<string>>,
    score: Option<real>)

  datatype VerdictBundle = VerdictBundle(
    status: Status,
    decisions: seq<GateDecision>,
    supersedes: Option<Id>)

  datatype VerifierRequest = VerifierRequest(
    proposal: Artifact,
    storeSlice: seq<Artifact>,
    objects: map<string, Bytes>,
    scores: map<Id, map<string, real>>)

  datatype ProposalEnvelope = ProposalEnvelope(
    artifact: Artifact,
    operation: Operation,
    metadata: string,
    objects: map<string, Bytes>)

  /** A raised exception: the name of its class and its message. */
  datatype Exception = Exception(className: string, message: string)

  /** What one verifier handoff comes back with: a bundle, or the exception it raised. */
  datatype Reply = Verdict(bundle: VerdictBundle) | Raises(exc: Exception)

  /** Stands for SHA-256 of some bytes. Nothing but its injectivity is ever used. */
  function Sha256(data: Bytes): (hash: string)
    ensures |hash| == |data|
  {
    seq(|data|, i requires 0 <= i < |data| => data[i] as int as char)
  }

  lemma Sha256Injective(a: Bytes, b: Bytes)
    requires Sha256(a) == Sha256(b)
    ensures a == b
  {
    assert |a| == |b|;
    forall i | 0 <= i < |a| ensures a[i] == b[i] {
      assert Sha256(a)[i] == Sha256(b)[i];
      assert a[i] as int as char == b[i] as int as char;
      assert (a[i] as int as char) as int == a[i] as int;
    }
  }
}
