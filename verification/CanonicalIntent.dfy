/** Canonical business intents, approval capabilities and delegation proofs:
    what is valid, what is signed, and that the bytes determine the value. */
module CanonicalIntent {
  import opened Basics
  import opened Encoding

  function Ascii(s: string): (b: Bytes)
    ensures |b| == |s|
  {
    seq(|s|, i requires 0 <= i < |s| => s[i] as int % 256)
  }

  /** Checks and hashes taken from libraries. */
  datatype Rules = Rules(
    sha256: Bytes -> Bytes,
    canonicalText: Bytes -> bool,
    timestamp: Bytes -> bool,
    base64: (Bytes, nat) -> bool)

  ghost predicate Hashes(rules: Rules) {
    forall b :: |rules.sha256(b)| == DIGEST
  }

  predicate ValidText(rules: Rules, v: Bytes) {
    v != [] && |v| < UINT32 && rules.canonicalText(v)
  }

  predicate ValidSubject(rules: Rules, v: Bytes, prefix: string) {
    ValidText(rules, v) && Ascii(prefix) < v
  }

  predicate ValidTimestamp(rules: Rules, v: Bytes) {
    |v| == 27 && rules.timestamp(v)
  }

  /** Canonical unpadded base64url of the given number of bytes. */
  predicate ValidOpaque(rules: Rules, v: Bytes, size: nat) {
    |v| == (size * 8 + 5) / 6 && rules.base64(v, size)
  }

  predicate ValidCurrency(v: Bytes) {
    |v| == 3 && forall i :: 0 <= i < |v| ==> 'A' as int <= v[i] <= 'Z' as int
  }

  // ------------------------------------------------------------------ intents

  datatype Intent = Intent(
    intentVersion: Bytes, tenantId: Bytes, companyId: Int64, resourceType: Bytes, resourceId: Int64, action: Bytes,
    vendorId: Int64, currencyCode: Bytes, currencyScale: Int64, amountMinor: Int64, lineDigest: string,
    recordState: Bytes, recordWriteVersion: Bytes, stateWitness: string, creatorSubject: Bytes,
    delegationGrantId: Int64, delegatorSubject: Bytes, agentSubject: Bytes, commandId: Bytes, proofVersion: Bytes)

  predicate ValidFields(rules: Rules, x: Intent) {
    && x.intentVersion == Ascii("cbi.v1")
    && ValidText(rules, x.tenantId)
    && x.companyId > 0 && x.resourceId > 0 && x.vendorId > 0 && x.delegationGrantId > 0
    && x.resourceType == Ascii("purchase.order")
    && x.action == Ascii("action:CONFIRM_PURCHASE_ORDER")
    && ValidCurrency(x.currencyCode)
    && 0 <= x.currencyScale <= 6 && x.amountMinor >= 0
    && DecodeDigest(x.lineDigest).Some?
    && ValidText(rules, x.recordState)
    && ValidTimestamp(rules, x.recordWriteVersion)
    && ValidSubject(rules, x.creatorSubject, "user:")
    && ValidSubject(rules, x.delegatorSubject, "user:")
    && ValidSubject(rules, x.agentSubject, "agent:")
    && ValidOpaque(rules, x.commandId, 32)
    && x.proofVersion == Ascii("v2")
  }

  function DigestOf(hex: string): Bytes {
    var d := DecodeDigest(hex);
    if d.Some? then d.value else []
  }

  /** The material state a witness covers. */
  function StateFields(x: Intent): (fs: seq<Field>)
    ensures |fs| == 13
  {
    [Text(x.tenantId), Number(x.companyId), Text(x.resourceType), Number(x.resourceId), Number(x.vendorId),
     Text(x.currencyCode), Number(x.currencyScale), Number(x.amountMinor), Raw(DigestOf(x.lineDigest)),
     Text(x.recordState), Text(x.recordWriteVersion), Number(x.delegationGrantId), Text(x.creatorSubject)]
  }

  const INTENT_DOMAIN: string := "PDP-CANONICAL-BUSINESS-INTENT"
  const STATE_DOMAIN: string := "PDP-ODOO-PO-STATE-V1"
  const CAPABILITY_DOMAIN: string := "PDP-APPROVAL-CAPABILITY-V1"
  const PROOF_DOMAIN: string := "PDP-DELEGATION-PROOF"
  const PROOF_V2_DOMAIN: string := "PDP-DELEGATION-PROOF-V2"

  function Payload(domain: string, fields: seq<Field>): Bytes {
    Ascii(domain) + EncodeAll(fields)
  }

  predicate Valid(rules: Rules, x: Intent) {
    && ValidFields(rules, x)
    && DecodeDigest(x.stateWitness) == Some(rules.sha256(Payload(STATE_DOMAIN, StateFields(x))))
  }

  function IntentFields(x: Intent): (fs: seq<Field>)
    ensures |fs| == 20
  {
    [Text(x.intentVersion), Text(x.tenantId), Number(x.companyId), Text(x.resourceType), Number(x.resourceId),
     Text(x.action), Number(x.vendorId), Text(x.currencyCode), Number(x.currencyScale), Number(x.amountMinor),
     Raw(DigestOf(x.lineDigest)), Text(x.recordState), Text(x.recordWriteVersion), Raw(DigestOf(x.stateWitness)),
     Text(x.creatorSubject), Number(x.delegationGrantId), Text(x.delegatorSubject), Text(x.agentSubject),
     Text(x.commandId), Text(x.proofVersion)]
  }

  lemma IntentFieldsFit(rules: Rules, x: Intent)
    requires Valid(rules, x)
    ensures AllFit(IntentFields(x))
  {
    hide EncodeAll;
    hide FromHex;
  }

  lemma DigestInjective(hex: string, other: string)
    requires DecodeDigest(hex).Some? && DecodeDigest(other).Some? && DigestOf(hex) == DigestOf(other)
    ensures hex == other
  {
    hide FromHex;
    HexInjective(hex, other);
  }

  lemma IntentFieldsInjective(x: Intent, y: Intent)
    requires DecodeDigest(x.lineDigest).Some? && DecodeDigest(y.lineDigest).Some?
    requires DecodeDigest(x.stateWitness).Some? && DecodeDigest(y.stateWitness).Some?
    requires IntentFields(x) == IntentFields(y)
    ensures x == y
  {
    hide DigestOf;
    hide DecodeDigest;
    var fs, gs := IntentFields(x), IntentFields(y);
    assert forall i :: 0 <= i < 20 ==> fs[i] == gs[i];
    assert fs[10] == gs[10] && fs[13] == gs[13];
    DigestInjective(x.lineDigest, y.lineDigest);
    DigestInjective(x.stateWitness, y.stateWitness);
    assert fs[0] == gs[0] && fs[1] == gs[1] && fs[2] == gs[2] && fs[3] == gs[3] && fs[4] == gs[4];
    assert fs[5] == gs[5] && fs[6] == gs[6] && fs[7] == gs[7] && fs[8] == gs[8] && fs[9] == gs[9];
    assert fs[11] == gs[11] && fs[12] == gs[12] && fs[14] == gs[14] && fs[15] == gs[15];
    assert fs[16] == gs[16] && fs[17] == gs[17] && fs[18] == gs[18] && fs[19] == gs[19];
  }

  lemma PayloadsCancel(domain: string, fs: seq<Field>, gs: seq<Field>)
    requires SameShape(fs, gs) && AllFit(fs) && AllFit(gs) && Payload(domain, fs) == Payload(domain, gs)
    ensures fs == gs
  {
    hide EncodeAll;
    hide Ascii;
    SplitsAlike(Ascii(domain), Ascii(domain), EncodeAll(fs), EncodeAll(gs));
    assert EncodeAll(fs) + [] == EncodeAll(gs) + [];
    FieldsCancel(fs, gs, [], []);
  }

  lemma IntentShape(x: Intent, y: Intent)
    ensures SameShape(IntentFields(x), IntentFields(y))
  {
    hide DigestOf;
  }

  /** Equal canonical bytes of valid intents come from equal intents. */
  lemma IntentInjective(rules: Rules, x: Intent, y: Intent)
    requires Valid(rules, x) && Valid(rules, y)
    requires Payload(INTENT_DOMAIN, IntentFields(x)) == Payload(INTENT_DOMAIN, IntentFields(y))
    ensures x == y
  {
    hide Payload;
    hide IntentFields;
    hide StateFields;
    IntentFieldsFit(rules, x);
    IntentFieldsFit(rules, y);
    IntentShape(x, y);
    PayloadsCancel(INTENT_DOMAIN, IntentFields(x), IntentFields(y));
    IntentFieldsInjective(x, y);
  }

  method WriteWitnessed(payload: Buffer, x: Intent)
    requires payload.Valid()
    modifies payload
    ensures payload.Valid()
    ensures payload.fields == old(payload.fields) + StateFields(x)[..7]
  {
    hide payload.Valid;
    hide DigestOf;
    payload.WriteString(x.tenantId);
    payload.WriteInt64(x.companyId);
    payload.WriteString(x.resourceType);
    payload.WriteInt64(x.resourceId);
    payload.WriteInt64(x.vendorId);
    payload.WriteString(x.currencyCode);
    payload.WriteInt64(x.currencyScale);
  }

  method WriteWitnessedRest(payload: Buffer, x: Intent)
    requires payload.Valid()
    modifies payload
    ensures payload.Valid()
    ensures payload.fields == old(payload.fields) + StateFields(x)[7..]
  {
    hide payload.Valid;
    hide DigestOf;
    payload.WriteInt64(x.amountMinor);
    payload.WriteRaw(DigestOf(x.lineDigest));
    payload.WriteString(x.recordState);
    payload.WriteString(x.recordWriteVersion);
    payload.WriteInt64(x.delegationGrantId);
    payload.WriteString(x.creatorSubject);
  }

  /** The state witness, as the encoder computes it. */
  method ComputeStateWitness(rules: Rules, x: Intent) returns (digest: Bytes)
    ensures digest == rules.sha256(Payload(STATE_DOMAIN, StateFields(x)))
  {
    hide EncodeAll;
    hide StateFields;
    var payload := new Buffer(Ascii(STATE_DOMAIN));
    WriteWitnessed(payload, x);
    WriteWitnessedRest(payload, x);
    ghost var fs := StateFields(x);
    assert payload.fields == [] + fs[..7] + fs[7..] == fs;
    digest := rules.sha256(payload.bytes);
  }

  /** The two intents agree on everything a witness covers. */
  predicate SameState(x: Intent, y: Intent) {
    && x.tenantId == y.tenantId && x.companyId == y.companyId && x.resourceType == y.resourceType
    && x.resourceId == y.resourceId && x.vendorId == y.vendorId && x.currencyCode == y.currencyCode
    && x.currencyScale == y.currencyScale && x.amountMinor == y.amountMinor && x.lineDigest == y.lineDigest
    && x.recordState == y.recordState && x.recordWriteVersion == y.recordWriteVersion
    && x.delegationGrantId == y.delegationGrantId && x.creatorSubject == y.creatorSubject
  }

  lemma StateFieldsInjective(rules: Rules, x: Intent, y: Intent)
    requires ValidFields(rules, x) && ValidFields(rules, y)
    ensures SameState(x, y) <==> StateFields(x) == StateFields(y)
  {
    hide DigestOf;
    hide DecodeDigest;
    var fs, gs := StateFields(x), StateFields(y);
    if fs == gs {
      assert fs[8] == gs[8];
      DigestInjective(x.lineDigest, y.lineDigest);
      assert fs[0] == gs[0] && fs[1] == gs[1] && fs[2] == gs[2] && fs[3] == gs[3] && fs[4] == gs[4] && fs[5] == gs[5];
      assert fs[6] == gs[6] && fs[7] == gs[7] && fs[9] == gs[9] && fs[10] == gs[10] && fs[11] == gs[11] && fs[12] == gs[12];
    }
  }

  lemma StateFieldsFit(rules: Rules, x: Intent)
    requires ValidFields(rules, x)
    ensures AllFit(StateFields(x))
  {
    hide FromHex;
  }

  predicate NoStateCollision(rules: Rules, x: Intent, y: Intent) {
    var a, b := Payload(STATE_DOMAIN, StateFields(x)), Payload(STATE_DOMAIN, StateFields(y));
    rules.sha256(a) == rules.sha256(b) ==> a == b
  }

  /** Valid intents have equal witnesses if and only if their material state is
      equal, wherever the hash does not collide. */
  lemma WitnessIsState(rules: Rules, x: Intent, y: Intent)
    requires Valid(rules, x) && Valid(rules, y) && NoStateCollision(rules, x, y)
    ensures x.stateWitness == y.stateWitness <==> SameState(x, y)
  {
    StateFieldsInjective(rules, x, y);
    StateFieldsFit(rules, x);
    StateFieldsFit(rules, y);
    StateShape(x, y);
    hide StateFields;
    hide ValidFields;
    hide SameState;
    if x.stateWitness == y.stateWitness {
      hide Payload;
      PayloadsCancel(STATE_DOMAIN, StateFields(x), StateFields(y));
    } else if StateFields(x) == StateFields(y) {
      DigestInjective(x.stateWitness, y.stateWitness);
    }
  }

  lemma StateShape(x: Intent, y: Intent)
    ensures SameShape(StateFields(x), StateFields(y))
  {
    hide DigestOf;
  }

  // ------------------------------------------------------------- capabilities

  datatype Capability = Capability(
    version: Bytes, purpose: Bytes, approvalId: Bytes, tenantId: Bytes, companyId: Int64, intentHash: string,
    stateWitness: string, commandId: Bytes, delegationGrantId: Int64, delegatorSubject: Bytes, agentSubject: Bytes,
    creatorSubject: Bytes, approverUserId: Int64, approverSubject: Bytes, requiredPermission: Bytes,
    issuancePolicyRevision: Int64, issuedAt: Int64, expiresAt: Int64, oneTimeId: Bytes)

  const MAX_CAPABILITY_TTL: int := 86400

  predicate ValidCapability(rules: Rules, c: Capability) {
    && c.version == Ascii("ac.v1") && c.purpose == Ascii("odoo.purchase_order.confirm")
    && c.requiredPermission == Ascii("approval:purchase_order.confirm")
    && ValidOpaque(rules, c.approvalId, 16) && ValidText(rules, c.tenantId)
    && c.companyId > 0 && c.delegationGrantId > 0 && c.approverUserId > 0 && c.issuancePolicyRevision >= 0
    && DecodeDigest(c.intentHash).Some? && DecodeDigest(c.stateWitness).Some?
    && ValidOpaque(rules, c.commandId, 32)
    && ValidSubject(rules, c.delegatorSubject, "user:") && ValidSubject(rules, c.agentSubject, "agent:")
    && ValidSubject(rules, c.creatorSubject, "user:") && ValidSubject(rules, c.approverSubject, "user:")
    && c.approverSubject != c.delegatorSubject && c.approverSubject != c.creatorSubject
    && c.approverSubject != c.agentSubject
    && 0 < c.issuedAt < c.expiresAt <= c.issuedAt + MAX_CAPABILITY_TTL
    && ValidOpaque(rules, c.oneTimeId, 32)
  }

  function CapabilityFields(c: Capability): (fs: seq<Field>)
    ensures |fs| == 19
  {
    [Text(c.version), Text(c.purpose), Text(c.approvalId), Text(c.tenantId), Number(c.companyId),
     Raw(DigestOf(c.intentHash)), Raw(DigestOf(c.stateWitness)), Text(c.commandId), Number(c.delegationGrantId),
     Text(c.delegatorSubject), Text(c.agentSubject), Text(c.creatorSubject), Number(c.approverUserId),
     Text(c.approverSubject), Text(c.requiredPermission), Number(c.issuancePolicyRevision), Number(c.issuedAt),
     Number(c.expiresAt), Text(c.oneTimeId)]
  }

  lemma CapabilityFieldsFit(rules: Rules, c: Capability)
    requires ValidCapability(rules, c)
    ensures AllFit(CapabilityFields(c))
  {
    hide FromHex;
  }

  lemma CapabilityShape(c: Capability, d: Capability)
    ensures SameShape(CapabilityFields(c), CapabilityFields(d))
  {
    hide DigestOf;
  }

  lemma CapabilityFieldsInjective(c: Capability, d: Capability)
    requires DecodeDigest(c.intentHash).Some? && DecodeDigest(d.intentHash).Some?
    requires DecodeDigest(c.stateWitness).Some? && DecodeDigest(d.stateWitness).Some?
    requires CapabilityFields(c) == CapabilityFields(d)
    ensures c == d
  {
    hide DigestOf;
    hide DecodeDigest;
    var fs, gs := CapabilityFields(c), CapabilityFields(d);
    assert fs[5] == gs[5] && fs[6] == gs[6];
    DigestInjective(c.intentHash, d.intentHash);
    DigestInjective(c.stateWitness, d.stateWitness);
    assert fs[0] == gs[0] && fs[1] == gs[1] && fs[2] == gs[2] && fs[3] == gs[3] && fs[4] == gs[4];
    assert fs[7] == gs[7] && fs[8] == gs[8] && fs[9] == gs[9] && fs[10] == gs[10] && fs[11] == gs[11];
    assert fs[12] == gs[12] && fs[13] == gs[13] && fs[14] == gs[14] && fs[15] == gs[15];
    assert fs[16] == gs[16] && fs[17] == gs[17] && fs[18] == gs[18];
  }

  lemma CapabilityInjective(rules: Rules, c: Capability, d: Capability)
    requires ValidCapability(rules, c) && ValidCapability(rules, d)
    requires Payload(CAPABILITY_DOMAIN, CapabilityFields(c)) == Payload(CAPABILITY_DOMAIN, CapabilityFields(d))
    ensures c == d
  {
    hide Payload;
    hide CapabilityFields;
    CapabilityFieldsFit(rules, c);
    CapabilityFieldsFit(rules, d);
    CapabilityShape(c, d);
    PayloadsCancel(CAPABILITY_DOMAIN, CapabilityFields(c), CapabilityFields(d));
    CapabilityFieldsInjective(c, d);
  }

  // ------------------------------------------------------------------- proofs

  datatype ProofInput = ProofInput(
    tenantId: Bytes, grantId: Bytes, delegator: Bytes, agent: Bytes, action: Bytes, resource: Bytes, amount: Bytes,
    delegationChain: Bytes, creatorId: Bytes, toolContext: Bytes, executionMode: Bytes, nonce: Bytes,
    issuedAt: Int64, validUntil: Int64)

  function ProofFields(keyId: Bytes, p: ProofInput): (fs: seq<Field>)
    ensures |fs| == 16
  {
    [Text(Ascii("v1")), Text(keyId), Text(p.tenantId), Text(p.grantId), Text(p.delegator), Text(p.agent),
     Text(p.action), Text(p.resource), Text(p.amount), Text(p.delegationChain), Text(p.creatorId),
     Text(p.toolContext), Text(p.executionMode), Text(p.nonce), Number(p.issuedAt), Number(p.validUntil)]
  }

  /** Equal V1 payloads sign one key and one tuple, for texts whose length fits
      the 32-bit prefix. */
  lemma ProofInjective(k: Bytes, p: ProofInput, l: Bytes, q: ProofInput)
    requires AllFit(ProofFields(k, p)) && AllFit(ProofFields(l, q))
    requires Payload(PROOF_DOMAIN, ProofFields(k, p)) == Payload(PROOF_DOMAIN, ProofFields(l, q))
    ensures k == l && p == q
  {
    hide Payload;
    var fs, gs := ProofFields(k, p), ProofFields(l, q);
    PayloadsCancel(PROOF_DOMAIN, fs, gs);
    assert fs[1] == gs[1] && fs[2] == gs[2] && fs[3] == gs[3] && fs[4] == gs[4] && fs[5] == gs[5];
    assert fs[6] == gs[6] && fs[7] == gs[7] && fs[8] == gs[8] && fs[9] == gs[9] && fs[10] == gs[10];
    assert fs[11] == gs[11] && fs[12] == gs[12] && fs[13] == gs[13] && fs[14] == gs[14] && fs[15] == gs[15];
  }

  datatype ProofV2Input = ProofV2Input(intent: Intent, issuedAt: Int64, validUntil: Int64)

  function IntentHash(rules: Rules, x: Intent): Bytes {
    rules.sha256(Payload(INTENT_DOMAIN, IntentFields(x)))
  }

  predicate ValidProofV2(rules: Rules, p: ProofV2Input) {
    Valid(rules, p.intent) && 0 < p.issuedAt < p.validUntil <= p.issuedAt + MAX_CAPABILITY_TTL
  }

  function ProofV2Fields(rules: Rules, keyId: Bytes, p: ProofV2Input): seq<Field> {
    [Text(Ascii("v2")), Text(keyId), Raw(IntentHash(rules, p.intent)), Number(p.intent.delegationGrantId),
     Text(p.intent.agentSubject), Number(p.issuedAt), Number(p.validUntil)]
  }

  /** Equal V2 payloads have one key, one window and one intent hash, so one
      intent wherever the hash does not collide. */
  lemma ProofV2Injective(rules: Rules, k: Bytes, p: ProofV2Input, l: Bytes, q: ProofV2Input)
    requires Hashes(rules) && |k| < UINT32 && |l| < UINT32
    requires ValidProofV2(rules, p) && ValidProofV2(rules, q)
    requires Payload(PROOF_V2_DOMAIN, ProofV2Fields(rules, k, p)) == Payload(PROOF_V2_DOMAIN, ProofV2Fields(rules, l, q))
    ensures k == l && p.issuedAt == q.issuedAt && p.validUntil == q.validUntil
    ensures IntentHash(rules, p.intent) == IntentHash(rules, q.intent)
    ensures NoCollision(rules, p.intent, q.intent) ==> p == q
  {
    hide Payload;
    hide IntentFields;
    hide StateFields;
    var fs, gs := ProofV2Fields(rules, k, p), ProofV2Fields(rules, l, q);
    PayloadsCancel(PROOF_V2_DOMAIN, fs, gs);
    assert fs[1] == gs[1] && fs[2] == gs[2] && fs[5] == gs[5] && fs[6] == gs[6];
    if NoCollision(rules, p.intent, q.intent) {
      IntentInjective(rules, p.intent, q.intent);
    }
  }

  predicate NoCollision(rules: Rules, x: Intent, y: Intent) {
    IntentHash(rules, x) == IntentHash(rules, y)
    ==> Payload(INTENT_DOMAIN, IntentFields(x)) == Payload(INTENT_DOMAIN, IntentFields(y))
  }

  /** No V1 payload is a V2 payload, although one domain begins the other: where
      V2 goes on with a dash, V1 has the first byte of a short length. */
  lemma ProofVersionsSeparated(rules: Rules, k: Bytes, p: ProofInput, l: Bytes, q: ProofV2Input)
    ensures Ascii(PROOF_DOMAIN) <= Ascii(PROOF_V2_DOMAIN)
    ensures Payload(PROOF_DOMAIN, ProofFields(k, p)) != Payload(PROOF_V2_DOMAIN, ProofV2Fields(rules, l, q))
  {
    var v1 := Payload(PROOF_DOMAIN, ProofFields(k, p));
    var rest := ProofFields(k, p)[1..];
    assert ProofFields(k, p) == [Text(Ascii("v1"))] + rest;
    EncodeConcat([Text(Ascii("v1"))], rest);
    FirstByte();
    assert |PROOF_DOMAIN| == 20;
    assert v1[20] == 0;
    assert Payload(PROOF_V2_DOMAIN, ProofV2Fields(rules, l, q))[20] == '-' as int;
  }

  lemma FirstByte()
    ensures |EncodeAll([Text(Ascii("v1"))])| == 6 && EncodeAll([Text(Ascii("v1"))])[0] == 0
  {
    var f := Text(Ascii("v1"));
    assert [f][..0] == [];
    assert EncodeAll([f]) == [] + Encode(f);
    assert BigEndian(2, 4) == [0, 0, 0, 2] by {
      assert BigEndian(0, 1) == [0] && BigEndian(0, 2) == [0, 0] && BigEndian(0, 3) == [0, 0, 0];
    }
  }

  // ----------------------------------------------------------- the encoders

  method WriteOrder(payload: Buffer, x: Intent)
    requires payload.Valid()
    modifies payload
    ensures payload.Valid()
    ensures payload.fields == old(payload.fields) + IntentFields(x)[..7]
  {
    hide payload.Valid;
    var texts := [x.intentVersion, x.tenantId];
    payload.WriteString(texts[0]);
    payload.WriteString(texts[1]);
    payload.WriteInt64(x.companyId);
    payload.WriteString(x.resourceType);
    payload.WriteInt64(x.resourceId);
    payload.WriteString(x.action);
    payload.WriteInt64(x.vendorId);
  }

  method WriteState(payload: Buffer, x: Intent)
    requires payload.Valid()
    modifies payload
    ensures payload.Valid()
    ensures payload.fields == old(payload.fields) + IntentFields(x)[7..14]
  {
    hide payload.Valid;
    payload.WriteString(x.currencyCode);
    payload.WriteInt64(x.currencyScale);
    payload.WriteInt64(x.amountMinor);
    payload.WriteRaw(DigestOf(x.lineDigest));
    payload.WriteString(x.recordState);
    payload.WriteString(x.recordWriteVersion);
    payload.WriteRaw(DigestOf(x.stateWitness));
  }

  method WriteParties(payload: Buffer, x: Intent)
    requires payload.Valid()
    modifies payload
    ensures payload.Valid()
    ensures payload.fields == old(payload.fields) + IntentFields(x)[14..]
  {
    hide payload.Valid;
    payload.WriteString(x.creatorSubject);
    payload.WriteInt64(x.delegationGrantId);
    payload.WriteString(x.delegatorSubject);
    payload.WriteString(x.agentSubject);
    payload.WriteString(x.commandId);
    payload.WriteString(x.proofVersion);
  }

  method ValidateText(rules: Rules, v: Bytes) returns (ok: bool)
    ensures ok <==> ValidText(rules, v)
  {
    if |v| == 0 || |v| > 0xFFFF_FFFF { return false; }
    ok := rules.canonicalText(v);
  }

  method ValidateSubject(rules: Rules, v: Bytes, prefix: string) returns (ok: bool)
    ensures ok <==> ValidSubject(rules, v, prefix)
  {
    ok := ValidateText(rules, v);
    if !ok || |v| < |prefix| || v[..|prefix|] != Ascii(prefix) { return false; }
    ok := |v| != |prefix|;
  }

  /** A date and a time with six places, in UTC. */
  method ValidateTimestamp(rules: Rules, v: Bytes) returns (ok: bool)
    ensures ok <==> ValidTimestamp(rules, v)
  {
    ok := |v| == |"2006-01-02T15:04:05.000000Z"| && rules.timestamp(v);
  }

  /** Four characters for three bytes, and one more than is left at the end. */
  method ValidateOpaque(rules: Rules, v: Bytes, size: nat) returns (ok: bool)
    ensures ok <==> ValidOpaque(rules, v, size)
  {
    var whole, left := size / 3, size % 3;
    assert size * 8 + 5 == 6 * (4 * whole) + left * 8 + 5;
    ok := |v| == 4 * whole + (if left == 0 then 0 else left + 1) && rules.base64(v, size);
  }

  method ValidateCurrency(code: Bytes) returns (ok: bool)
    ensures ok <==> |code| == 3 && forall i :: 0 <= i < 3 ==> 65 <= code[i] <= 90
  {
    if |code| != 3 { return false; }
    var i := 0;
    while i < |code|
      invariant 0 <= i <= |code| && forall k :: 0 <= k < i ==> 65 <= code[k] <= 90
    {
      if code[i] < 65 || code[i] > 90 { return false; }
      i := i + 1;
    }
    ok := true;
  }

  /** The checks of an intent's fields, one after the other. */
  method ValidateFields(rules: Rules, x: Intent) returns (ok: bool)
    ensures ok <==> ValidFields(rules, x)
  {
    hide DecodeDigest;
    hide ValidText;
    hide ValidSubject;
    hide ValidTimestamp;
    hide ValidOpaque;
    if x.intentVersion != Ascii("cbi.v1") { return false; }
    ok := ValidateText(rules, x.tenantId);
    if !ok { return; }
    if x.companyId <= 0 || x.resourceId <= 0 || x.vendorId <= 0 || x.delegationGrantId <= 0 { return false; }
    if x.resourceType != Ascii("purchase.order") { return false; }
    if x.action != Ascii("action:CONFIRM_PURCHASE_ORDER") { return false; }
    ok := ValidateCurrency(x.currencyCode);
    if !ok { return; }
    if x.currencyScale < 0 || x.currencyScale > 6 { return false; }
    if x.amountMinor < 0 { return false; }
    if DecodeDigest(x.lineDigest).None? { return false; }
    ok := ValidateText(rules, x.recordState);
    if !ok { return; }
    ok := ValidateTimestamp(rules, x.recordWriteVersion);
    if !ok { return; }
    ok := ValidateSubject(rules, x.creatorSubject, "user:");
    if !ok { return; }
    ok := ValidateSubject(rules, x.delegatorSubject, "user:");
    if !ok { return; }
    ok := ValidateSubject(rules, x.agentSubject, "agent:");
    if !ok { return; }
    ok := ValidateOpaque(rules, x.commandId, 32);
    if !ok { return; }
    ok := x.proofVersion == Ascii("v2");
  }

  /** The encoder writes every field of a valid intent once, in order. */
  method CanonicalBytes(rules: Rules, x: Intent) returns (r: Option<Bytes>)
    ensures r == if Valid(rules, x) then Some(Payload(INTENT_DOMAIN, IntentFields(x))) else None
  {
    hide EncodeAll;
    hide ValidFields;
    hide StateFields;
    hide IntentFields;
    var ok := ValidateFields(rules, x);
    if !ok { return None; }
    var digest := ComputeStateWitness(rules, x);
    if DecodeDigest(x.stateWitness) != Some(digest) { return None; }
    var payload := new Buffer(Ascii(INTENT_DOMAIN));
    WriteOrder(payload, x);
    WriteState(payload, x);
    WriteParties(payload, x);
    ghost var fs := IntentFields(x);
    assert payload.fields == [] + fs[..7] + fs[7..14] + fs[14..] == fs;
    r := Some(payload.bytes);
  }

  // ------------------------------------------------- issuing and verifying

  datatype Envelope = Envelope(keyId: string, payload: Bytes, signature: Bytes)

  datatype Signer = Signer(hmac: (Bytes, Bytes) -> Bytes, keys: map<string, Bytes>, activeKey: string, ttl: int)

  const CLOCK_SKEW: int := 30

  function Earlier(a: int, b: int): int {
    if a < b then a else b
  }

  /** Issuing fills in the window, which ends with the delegation if that is sooner. */
  function Issue(rules: Rules, signer: Signer, c: Capability, validUntil: Int64, now: Int64, oneTimeId: Bytes)
    : Option<(Capability, Envelope)>
    requires signer.activeKey in signer.keys && 0 < signer.ttl <= MAX_CAPABILITY_TTL
  {
    var expiresAt := Earlier(now + signer.ttl, validUntil);
    if expiresAt <= now then None
    else
      var issued := c.(version := Ascii("ac.v1"), purpose := Ascii("odoo.purchase_order.confirm"),
                       requiredPermission := Ascii("approval:purchase_order.confirm"),
                       issuedAt := now, expiresAt := expiresAt, oneTimeId := oneTimeId);
      if !ValidCapability(rules, issued) then None
      else
        var payload := Payload(CAPABILITY_DOMAIN, CapabilityFields(issued));
        Some((issued, Envelope(signer.activeKey, payload, signer.hmac(signer.keys[signer.activeKey], payload))))
  }

  predicate Verify(rules: Rules, signer: Signer, c: Capability, e: Envelope, now: int) {
    && e.keyId in signer.keys
    && ValidCapability(rules, c)
    && Payload(CAPABILITY_DOMAIN, CapabilityFields(c)) == e.payload
    && |e.signature| == DIGEST && signer.hmac(signer.keys[e.keyId], e.payload) == e.signature
    && c.issuedAt <= now + CLOCK_SKEW && now <= c.expiresAt
  }

  /** An issued envelope verifies for the issued capability and no other, and
      exactly from the clock skew before issue to its expiry, which is never
      after the delegation's end. */
  lemma IssuedVerifies(rules: Rules, signer: Signer, c: Capability, validUntil: Int64, issuedAt: Int64,
                       oneTimeId: Bytes, d: Capability, now: int)
    requires signer.activeKey in signer.keys && 0 < signer.ttl <= MAX_CAPABILITY_TTL
    requires forall k, b :: |signer.hmac(k, b)| == DIGEST
    requires Issue(rules, signer, c, validUntil, issuedAt, oneTimeId).Some?
    ensures var (issued, envelope) := Issue(rules, signer, c, validUntil, issuedAt, oneTimeId).value;
      && issued.expiresAt <= validUntil && issued.expiresAt <= issuedAt + signer.ttl
      && (issued.expiresAt == validUntil || issued.expiresAt == issuedAt + signer.ttl)
      && issued == c.(version := Ascii("ac.v1"), purpose := Ascii("odoo.purchase_order.confirm"),
                      requiredPermission := Ascii("approval:purchase_order.confirm"),
                      issuedAt := issuedAt, expiresAt := issued.expiresAt, oneTimeId := oneTimeId)
      && (Verify(rules, signer, d, envelope, now)
          <==> d == issued && issuedAt - CLOCK_SKEW <= now <= issued.expiresAt)
  {
    hide Payload;
    hide CapabilityFields;
    hide ValidCapability;
    var (issued, envelope) := Issue(rules, signer, c, validUntil, issuedAt, oneTimeId).value;
    if Verify(rules, signer, d, envelope, now) {
      CapabilityInjective(rules, d, issued);
    }
  }

  // ------------------------------------------- capabilities and proofs, checked and written

  /** The checks of a capability's fields, one after the other: among them that
      the approver is neither the delegator nor the creator nor the agent. */
  method ValidateCapability(rules: Rules, c: Capability) returns (ok: bool)
    ensures ok <==> ValidCapability(rules, c)
    ensures ok ==> c.approverSubject !in {c.delegatorSubject, c.creatorSubject, c.agentSubject}
    ensures ok ==> 0 < c.issuedAt < c.expiresAt <= c.issuedAt + 86400
  {
    hide DecodeDigest;
    hide ValidText;
    hide ValidSubject;
    hide ValidOpaque;
    if c.version != Ascii("ac.v1") || c.purpose != Ascii("odoo.purchase_order.confirm") { return false; }
    if c.requiredPermission != Ascii("approval:purchase_order.confirm") { return false; }
    ok := ValidateOpaque(rules, c.approvalId, 16);
    if !ok { return; }
    ok := ValidateText(rules, c.tenantId);
    if !ok { return; }
    if c.companyId <= 0 || c.delegationGrantId <= 0 || c.approverUserId <= 0 || c.issuancePolicyRevision < 0 {
      return false;
    }
    if DecodeDigest(c.intentHash).None? { return false; }
    ok := ValidateOpaque(rules, c.commandId, 32);
    if !ok { return; }
    ok := ValidateSubject(rules, c.delegatorSubject, "user:");
    if !ok { return; }
    ok := ValidateSubject(rules, c.agentSubject, "agent:");
    if !ok { return; }
    ok := ValidateSubject(rules, c.creatorSubject, "user:");
    if !ok { return; }
    ok := ValidateSubject(rules, c.approverSubject, "user:");
    if !ok { return; }
    if c.approverSubject == c.delegatorSubject || c.approverSubject == c.creatorSubject { return false; }
    if c.approverSubject == c.agentSubject { return false; }
    if c.issuedAt <= 0 || c.expiresAt <= c.issuedAt || c.expiresAt - c.issuedAt > MAX_CAPABILITY_TTL { return false; }
    ok := ValidateOpaque(rules, c.oneTimeId, 32);
    if !ok { return; }
    ok := DecodeDigest(c.stateWitness).Some?;
  }

  method WriteBinding(payload: Buffer, c: Capability)
    requires payload.Valid()
    modifies payload
    ensures payload.Valid()
    ensures payload.fields == old(payload.fields) + CapabilityFields(c)[..9]
  {
    hide payload.Valid;
    hide DigestOf;
    payload.WriteString(c.version);
    payload.WriteString(c.purpose);
    payload.WriteString(c.approvalId);
    payload.WriteString(c.tenantId);
    payload.WriteInt64(c.companyId);
    payload.WriteRaw(DigestOf(c.intentHash));
    payload.WriteRaw(DigestOf(c.stateWitness));
    payload.WriteString(c.commandId);
    payload.WriteInt64(c.delegationGrantId);
  }

  method WriteApproval(payload: Buffer, c: Capability)
    requires payload.Valid()
    modifies payload
    ensures payload.Valid()
    ensures payload.fields == old(payload.fields) + CapabilityFields(c)[9..]
  {
    hide payload.Valid;
    hide DigestOf;
    payload.WriteString(c.delegatorSubject);
    payload.WriteString(c.agentSubject);
    payload.WriteString(c.creatorSubject);
    payload.WriteInt64(c.approverUserId);
    payload.WriteString(c.approverSubject);
    payload.WriteString(c.requiredPermission);
    payload.WriteInt64(c.issuancePolicyRevision);
    payload.WriteInt64(c.issuedAt);
    payload.WriteInt64(c.expiresAt);
    payload.WriteString(c.oneTimeId);
  }

  /** The encoder writes every field of a valid capability once, in order. */
  method CapabilityBytes(rules: Rules, c: Capability) returns (r: Option<Bytes>)
    ensures r == if ValidCapability(rules, c) then Some(Payload(CAPABILITY_DOMAIN, CapabilityFields(c))) else None
  {
    hide EncodeAll;
    hide ValidCapability;
    hide CapabilityFields;
    var ok := ValidateCapability(rules, c);
    if !ok { return None; }
    var payload := new Buffer(Ascii(CAPABILITY_DOMAIN));
    WriteBinding(payload, c);
    WriteApproval(payload, c);
    ghost var fs := CapabilityFields(c);
    assert payload.fields == [] + fs[..9] + fs[9..] == fs;
    r := Some(payload.bytes);
  }

  method WriteGrant(payload: Buffer, keyId: Bytes, p: ProofInput)
    requires payload.Valid()
    modifies payload
    ensures payload.Valid()
    ensures payload.fields == old(payload.fields) + ProofFields(keyId, p)[..8]
  {
    hide payload.Valid;
    payload.WriteString(Ascii("v1"));
    payload.WriteString(keyId);
    payload.WriteString(p.tenantId);
    payload.WriteString(p.grantId);
    payload.WriteString(p.delegator);
    payload.WriteString(p.agent);
    payload.WriteString(p.action);
    payload.WriteString(p.resource);
  }

  method WriteContext(payload: Buffer, keyId: Bytes, p: ProofInput)
    requires payload.Valid()
    modifies payload
    ensures payload.Valid()
    ensures payload.fields == old(payload.fields) + ProofFields(keyId, p)[8..]
  {
    hide payload.Valid;
    payload.WriteString(p.amount);
    payload.WriteString(p.delegationChain);
    payload.WriteString(p.creatorId);
    payload.WriteString(p.toolContext);
    payload.WriteString(p.executionMode);
    payload.WriteString(p.nonce);
    payload.WriteInt64(p.issuedAt);
    payload.WriteInt64(p.validUntil);
  }

  /** A V1 proof is over its version, its key and the tuple, field by field. */
  method ProofBytes(keyId: Bytes, p: ProofInput) returns (bytes: Bytes)
    ensures bytes == Payload(PROOF_DOMAIN, ProofFields(keyId, p))
  {
    hide EncodeAll;
    hide ProofFields;
    var payload := new Buffer(Ascii(PROOF_DOMAIN));
    WriteGrant(payload, keyId, p);
    WriteContext(payload, keyId, p);
    ghost var fs := ProofFields(keyId, p);
    assert payload.fields == [] + fs[..8] + fs[8..] == fs;
    bytes := payload.bytes;
  }

  /** A V2 proof is over its key, the intent's hash and the window. */
  method ProofV2Bytes(rules: Rules, keyId: Bytes, p: ProofV2Input) returns (r: Option<Bytes>)
    ensures r == if ValidProofV2(rules, p) then Some(Payload(PROOF_V2_DOMAIN, ProofV2Fields(rules, keyId, p))) else None
  {
    hide EncodeAll;
    hide IntentFields;
    hide Valid;
    var bytes := CanonicalBytes(rules, p.intent);
    if bytes.None? { return None; }
    if p.issuedAt <= 0 || p.validUntil <= p.issuedAt { return None; }
    if p.validUntil - p.issuedAt > MAX_CAPABILITY_TTL { return None; }
    var payload := new Buffer(Ascii(PROOF_V2_DOMAIN));
    payload.WriteString(Ascii("v2"));
    payload.WriteString(keyId);
    payload.WriteRaw(rules.sha256(bytes.value));
    payload.WriteInt64(p.intent.delegationGrantId);
    payload.WriteString(p.intent.agentSubject);
    payload.WriteInt64(p.issuedAt);
    payload.WriteInt64(p.validUntil);
    assert payload.fields == ProofV2Fields(rules, keyId, p);
    r := Some(payload.bytes);
  }

  // ------------------------------------------------------- what verifies was issued

  /** The signer, with any of its keys active and any allowed lifetime. */
  predicate IssuedUnder(rules: Rules, signer: Signer, keyId: string, ttl: int, base: Capability, validUntil: Int64,
                        at: Int64, oneTimeId: Bytes, c: Capability, e: Envelope) {
    && keyId in signer.keys && 0 < ttl <= MAX_CAPABILITY_TTL
    && Issue(rules, signer.(activeKey := keyId, ttl := ttl), base, validUntil, at, oneTimeId) == Some((c, e))
  }

  ghost predicate Issued(rules: Rules, signer: Signer, c: Capability, e: Envelope) {
    exists keyId, ttl, base, validUntil, at, oneTimeId ::
      IssuedUnder(rules, signer, keyId, ttl, base, validUntil, at, oneTimeId, c, e)
  }

  lemma VerifiedIsIssued(rules: Rules, signer: Signer, c: Capability, e: Envelope, now: int)
    requires Verify(rules, signer, c, e, now)
    ensures IssuedUnder(rules, signer, e.keyId, c.expiresAt - c.issuedAt, c, c.expiresAt, c.issuedAt, c.oneTimeId, c, e)
  {
    hide Payload;
    hide CapabilityFields;
    hide ValidSubject;
    hide ValidOpaque;
    hide DecodeDigest;
  }

  /** An envelope verifies for a capability if and only if some issue under a key
      the verifier holds yields exactly that pair, and the time is within the
      window. */
  lemma VerifiesIffIssued(rules: Rules, signer: Signer, c: Capability, e: Envelope, now: int)
    requires forall k, b :: |signer.hmac(k, b)| == DIGEST
    ensures Verify(rules, signer, c, e, now)
       <==> Issued(rules, signer, c, e) && c.issuedAt - CLOCK_SKEW <= now <= c.expiresAt
  {
    if Verify(rules, signer, c, e, now) { VerifiedIsIssued(rules, signer, c, e, now); }
    hide Payload;
    hide CapabilityFields;
    hide ValidCapability;
    if Issued(rules, signer, c, e) {
      var keyId, ttl, base, validUntil, at, oneTimeId :|
        IssuedUnder(rules, signer, keyId, ttl, base, validUntil, at, oneTimeId, c, e);
    }
  }
}
