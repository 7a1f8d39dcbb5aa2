/** The audit record, its canonical bytes, the preimage its anchor hash is taken
    of, and the append-only store of successive states of a record. */
module Audit {
  import opened Basics
  import opened Json
  import opened Utf8

  /** Numbers are kept as their printed tokens. The two fields the agent writes
      freely may hold text that has no encoding until the record is stored. */
  datatype Record<T> = Record(
    schemaVersion: string,
    auditId: string,
    decisionId: T,
    agentAddress: string,
    chainId: string,
    venue: string,
    decidedAtIso: string,
    inputHashes: map<string, string>,
    asset: string,
    side: Option<string>,
    verdict: string,
    sized: Option<map<string, Json>>,
    reasoning: T,
    outcome: string,
    fill: Option<map<string, Json>>,
    venueOrderId: Option<string>,
    arcTxHash: Option<string>,
    arcJobId: Option<string>,
    nonceHex: string)

  type Draft = Record<RawText>

  type AuditRecord = Record<string>

  const SCHEMA_VERSION := "v1"
  const EXECUTE := "EXECUTE"
  const PENDING := "PENDING"
  const REASONING_MAX: nat := 2048

  /** A record at decision time; the identifier, nonce and clock reading come
      from outside. */
  function NewRecord(auditId: string, nonceHex: string, decidedAtIso: string, decisionId: RawText,
                     agentAddress: string, chainId: string, venue: string, asset: string, side: Option<string>,
                     verdict: string, inputHashes: map<string, string>, sized: Option<map<string, Json>>,
                     reasoning: RawText): Draft
  {
    Record(
      SCHEMA_VERSION, auditId, decisionId, agentAddress, chainId, venue, decidedAtIso, inputHashes, asset, side,
      verdict, sized, Shortened(reasoning), PENDING, None, None, None, None, nonceHex)
  }

  function Shortened(reasoning: RawText): RawText {
    if |reasoning| <= REASONING_MAX then reasoning else reasoning[..REASONING_MAX]
  }

  function Rewrite<S, T>(r: Record<S>, decisionId: T, reasoning: T): Record<T> {
    Record(r.schemaVersion, r.auditId, decisionId, r.agentAddress, r.chainId, r.venue, r.decidedAtIso, r.inputHashes,
           r.asset, r.side, r.verdict, r.sized, reasoning, r.outcome, r.fill, r.venueOrderId, r.arcTxHash, r.arcJobId,
           r.nonceHex)
  }

  /** The record that can be stored, unless one of its texts has no encoding. */
  function Sealed(draft: Draft): Option<AuditRecord> {
    if Encodable(draft.decisionId) && Encodable(draft.reasoning) then
      Some(Rewrite(draft, Chars(draft.decisionId), Chars(draft.reasoning)))
    else None
  }

  /** A stored record in the hands of the program. */
  function Reopened(r: AuditRecord): Draft {
    Rewrite(r, Codes(r.decisionId), Codes(r.reasoning))
  }

  lemma {:induction false} SealedReopened(r: AuditRecord)
    ensures Sealed(Reopened(r)) == Some(r)
  {
    CharsOfCodes(r.decisionId);
    CharsOfCodes(r.reasoning);
  }

  /** What storing a draft comes to: the encoding can fail, and then the
      database can refuse the insert. */
  function Persist(draft: Draft, accepts: bool): Result<AuditRecord> {
    var sealed := Sealed(draft);
    if sealed.None? then Err(UnicodeEncode) else if !accepts then Err(Storage) else Ok(sealed.value)
  }

  // ------------------------------------------------------------ record <-> JSON

  datatype Field =
    | SchemaVersion | AuditId | DecisionId | AgentAddress | ChainId | VenueName | DecidedAtIso | InputHashes
    | AssetName | SideName | VerdictName | SizedBlock | Reasoning | OutcomeName | FillBlock | VenueOrderId
    | ArcTxHash | ArcJobId | NonceHex

  const FIELDS: set<Field> := set f: Field | true

  function Name(f: Field): string {
    match f
    case SchemaVersion => "schema_version"
    case AuditId => "audit_id"
    case DecisionId => "decision_id"
    case AgentAddress => "agent_address"
    case ChainId => "chain_id"
    case VenueName => "venue"
    case DecidedAtIso => "decided_at_iso"
    case InputHashes => "input_hashes"
    case AssetName => "asset"
    case SideName => "side"
    case VerdictName => "verdict"
    case SizedBlock => "sized"
    case Reasoning => "reasoning"
    case OutcomeName => "outcome"
    case FillBlock => "fill"
    case VenueOrderId => "venue_order_id"
    case ArcTxHash => "arc_tx_hash"
    case ArcJobId => "arc_job_id"
    case NonceHex => "nonce_hex"
  }

  /** Length and first letter tell the field names apart. */
  lemma {:induction false} NameInjective(f: Field, g: Field)
    requires Name(f) == Name(g)
    ensures f == g
  {
    assert |Name(f)| == |Name(g)| && Name(f)[0] == Name(g)[0];
  }

  function OptJson(o: Option<string>): Json {
    if o.None? then Null else Str(o.value)
  }

  function OptNum(o: Option<string>): Json {
    if o.None? then Null else Num(o.value)
  }

  function OptBlock(o: Option<map<string, Json>>): Json {
    if o.None? then Null else Obj(o.value)
  }

  function HashesJson(hashes: map<string, string>): Json {
    Obj(map k | k in hashes :: Str(hashes[k]))
  }

  function FieldJson(r: AuditRecord, f: Field): Json {
    match f
    case SchemaVersion => Str(r.schemaVersion)
    case AuditId => Str(r.auditId)
    case DecisionId => Str(r.decisionId)
    case AgentAddress => Str(r.agentAddress)
    case ChainId => Num(r.chainId)
    case VenueName => Str(r.venue)
    case DecidedAtIso => Str(r.decidedAtIso)
    case InputHashes => HashesJson(r.inputHashes)
    case AssetName => Str(r.asset)
    case SideName => OptJson(r.side)
    case VerdictName => Str(r.verdict)
    case SizedBlock => OptBlock(r.sized)
    case Reasoning => Str(r.reasoning)
    case OutcomeName => Str(r.outcome)
    case FillBlock => OptBlock(r.fill)
    case VenueOrderId => OptJson(r.venueOrderId)
    case ArcTxHash => OptJson(r.arcTxHash)
    case ArcJobId => OptNum(r.arcJobId)
    case NonceHex => Str(r.nonceHex)
  }

  lemma {:induction false} NamesDistinct()
    ensures forall f, g :: Name(f) == Name(g) ==> f == g
  {
    forall f, g | Name(f) == Name(g) ensures f == g {
      NameInjective(f, g);
    }
  }

  /** The record as a dictionary of its fields. */
  function AsDict(r: AuditRecord): map<string, Json> {
    NamesDistinct();
    map f | f in FIELDS :: Name(f) := FieldJson(r, f)
  }

  function StrOf(j: Json): Option<string> {
    if j.Str? then Some(j.text) else None
  }

  function NumOf(j: Json): Option<string> {
    if j.Num? then Some(j.token) else None
  }

  function OptStrOf(j: Json): Option<Option<string>> {
    if j.Null? then Some(None) else if j.Str? then Some(Some(j.text)) else None
  }

  function OptNumOf(j: Json): Option<Option<string>> {
    if j.Null? then Some(None) else if j.Num? then Some(Some(j.token)) else None
  }

  function OptBlockOf(j: Json): Option<Option<map<string, Json>>> {
    if j.Null? then Some(None) else if j.Obj? then Some(Some(j.fields)) else None
  }

  function HashesOf(j: Json): Option<map<string, string>> {
    if j.Obj? && forall k :: k in j.fields ==> j.fields[k].Str? then
      Some(map k | k in j.fields :: j.fields[k].text)
    else None
  }

  /** The values of the fields, when the dictionary has exactly their names. */
  function ByField(m: map<string, Json>): Option<map<Field, Json>> {
    if m.Keys != set f | f in FIELDS :: Name(f) then None
    else
      assert forall f :: f in FIELDS ==> Name(f) in m.Keys;
      Some(map f | f in FIELDS :: m[Name(f)])
  }

  predicate Complete(v: map<Field, Json>) {
    forall f: Field :: f in v
  }

  function Build(v: map<Field, Json>): Option<AuditRecord>
    requires Complete(v)
  {
    var schemaVersion, auditId, decisionId := StrOf(v[SchemaVersion]), StrOf(v[AuditId]), StrOf(v[DecisionId]);
    var agentAddress, chainId, venue := StrOf(v[AgentAddress]), NumOf(v[ChainId]), StrOf(v[VenueName]);
    var decidedAtIso, inputHashes := StrOf(v[DecidedAtIso]), HashesOf(v[InputHashes]);
    var asset, side, verdict := StrOf(v[AssetName]), OptStrOf(v[SideName]), StrOf(v[VerdictName]);
    var sized, reasoning := OptBlockOf(v[SizedBlock]), StrOf(v[Reasoning]);
    var outcome, fill := StrOf(v[OutcomeName]), OptBlockOf(v[FillBlock]);
    var venueOrderId, arcTxHash := OptStrOf(v[VenueOrderId]), OptStrOf(v[ArcTxHash]);
    var arcJobId, nonceHex := OptNumOf(v[ArcJobId]), StrOf(v[NonceHex]);
    if schemaVersion.None? || auditId.None? || decisionId.None? || agentAddress.None? || chainId.None? || venue.None?
       || decidedAtIso.None? || inputHashes.None? || asset.None? || side.None? || verdict.None? || sized.None?
       || reasoning.None? || outcome.None? || fill.None? || venueOrderId.None? || arcTxHash.None? || arcJobId.None?
       || nonceHex.None?
    then None
    else
      Some(Record(
        schemaVersion.value, auditId.value, decisionId.value, agentAddress.value, chainId.value, venue.value,
        decidedAtIso.value, inputHashes.value, asset.value, side.value, verdict.value, sized.value,
        reasoning.value, outcome.value, fill.value, venueOrderId.value, arcTxHash.value, arcJobId.value,
        nonceHex.value))
  }

  lemma {:induction false} FieldsComplete(f: Field)
    ensures f in FIELDS
  {
  }

  /** Keyword construction: exactly the nineteen fields, none more, none less. */
  function FromDict(m: map<string, Json>): Option<AuditRecord> {
    var v := ByField(m);
    if v.None? then None
    else
      assert Complete(v.value) by {
        forall f: Field ensures f in v.value {
          FieldsComplete(f);
        }
      }
      Build(v.value)
  }

  function Dumps(r: AuditRecord): string {
    Print(Obj(AsDict(r)))
  }

  function CanonicalJson(r: AuditRecord): seq<Byte> {
    Encode(Dumps(r))
  }

  function RecordFromJson(blob: string): Option<AuditRecord> {
    var j := Loads(blob);
    if j.None? || !j.value.Obj? then None else FromDict(j.value.fields)
  }

  /** The numbers a record carries are number tokens. */
  predicate Writable(r: AuditRecord) {
    && NumberToken(r.chainId)
    && (r.arcJobId.Some? ==> NumberToken(r.arcJobId.value))
    && Printable(OptBlock(r.sized)) && Printable(OptBlock(r.fill))
  }

  lemma {:induction false} DictHasFields(r: AuditRecord)
    ensures AsDict(r).Keys == set f | f in FIELDS :: Name(f)
    ensures forall f :: f in FIELDS ==> Name(f) in AsDict(r) && AsDict(r)[Name(f)] == FieldJson(r, f)
  {
    NamesDistinct();
  }

  function AsFields(r: AuditRecord): (v: map<Field, Json>)
    ensures Complete(v) && forall f :: f in v ==> v[f] == FieldJson(r, f)
  {
    assert forall f: Field :: f in FIELDS by {
      forall f: Field ensures f in FIELDS {
        FieldsComplete(f);
      }
    }
    map f | f in FIELDS :: FieldJson(r, f)
  }

  lemma {:induction false} HashesBack(r: AuditRecord)
    ensures HashesOf(FieldJson(r, InputHashes)) == Some(r.inputHashes)
  {
    assert HashesOf(FieldJson(r, InputHashes)).value == r.inputHashes;
  }

  lemma {:induction false} IdentityFields(r: AuditRecord)
    ensures
      var v := AsFields(r);
      && v[SchemaVersion] == Str(r.schemaVersion) && v[AuditId] == Str(r.auditId)
      && v[DecisionId] == Str(r.decisionId) && v[AgentAddress] == Str(r.agentAddress)
      && v[ChainId] == Num(r.chainId) && v[VenueName] == Str(r.venue) && v[DecidedAtIso] == Str(r.decidedAtIso)
  {
    hide OptBlock, OptJson, OptNum, HashesJson, AsFields;
  }

  lemma {:induction false} DecisionFields(r: AuditRecord)
    ensures
      var v := AsFields(r);
      && v[AssetName] == Str(r.asset) && v[SideName] == OptJson(r.side) && v[VerdictName] == Str(r.verdict)
      && v[SizedBlock] == OptBlock(r.sized) && v[Reasoning] == Str(r.reasoning)
  {
    hide OptBlock, OptJson, OptNum, HashesJson, AsFields;
  }

  lemma {:induction false} OutcomeFields(r: AuditRecord)
    ensures
      var v := AsFields(r);
      && v[OutcomeName] == Str(r.outcome) && v[FillBlock] == OptBlock(r.fill)
      && v[VenueOrderId] == OptJson(r.venueOrderId) && v[ArcTxHash] == OptJson(r.arcTxHash)
      && v[ArcJobId] == OptNum(r.arcJobId) && v[NonceHex] == Str(r.nonceHex)
  {
    hide OptBlock, OptJson, OptNum, HashesJson, AsFields;
  }

  lemma {:induction false} HashesField(r: AuditRecord)
    ensures HashesOf(AsFields(r)[InputHashes]) == Some(r.inputHashes)
  {
    HashesBack(r);
    hide HashesJson, HashesOf, AsFields;
  }

  lemma {:induction false} BuildAsFields(r: AuditRecord)
    ensures Build(AsFields(r)) == Some(r)
  {
    IdentityFields(r);
    DecisionFields(r);
    OutcomeFields(r);
    HashesField(r);
    hide *;
    BuildFrom(r, AsFields(r));
  }

  lemma {:induction false} BuildFrom(r: AuditRecord, v: map<Field, Json>)
    requires Complete(v)
    requires v[SchemaVersion] == Str(r.schemaVersion) && v[AuditId] == Str(r.auditId)
    requires v[DecisionId] == Str(r.decisionId) && v[AgentAddress] == Str(r.agentAddress)
    requires v[ChainId] == Num(r.chainId) && v[VenueName] == Str(r.venue) && v[DecidedAtIso] == Str(r.decidedAtIso)
    requires HashesOf(v[InputHashes]) == Some(r.inputHashes)
    requires v[AssetName] == Str(r.asset) && v[SideName] == OptJson(r.side) && v[VerdictName] == Str(r.verdict)
    requires v[SizedBlock] == OptBlock(r.sized) && v[Reasoning] == Str(r.reasoning)
    requires v[OutcomeName] == Str(r.outcome) && v[FillBlock] == OptBlock(r.fill)
    requires v[VenueOrderId] == OptJson(r.venueOrderId) && v[ArcTxHash] == OptJson(r.arcTxHash)
    requires v[ArcJobId] == OptNum(r.arcJobId) && v[NonceHex] == Str(r.nonceHex)
    ensures Build(v) == Some(r)
  {
    hide HashesOf, Complete;
  }

  lemma {:induction false} FromDictAsDict(r: AuditRecord)
    ensures FromDict(AsDict(r)) == Some(r)
  {
    DictHasFields(r);
    assert ByField(AsDict(r)).value == AsFields(r);
    BuildAsFields(r);
    hide Build, AsDict, ByField;
  }

  lemma {:induction false} FieldPrintable(r: AuditRecord, f: Field)
    requires Writable(r)
    ensures Printable(FieldJson(r, f))
  {
  }

  lemma {:induction false} DictPrintable(r: AuditRecord)
    requires Writable(r)
    ensures Printable(Obj(AsDict(r)))
  {
    DictHasFields(r);
    var m := AsDict(r);
    hide Name, AsDict, FieldJson;
    forall k | k in m ensures Printable(m[k]) {
      var f :| f in FIELDS && k == Name(f);
      FieldPrintable(r, f);
    }
  }

  /** Main result: reading a stored blob gives back the record it was made of. */
  lemma {:induction false} RecordRoundTrip(r: AuditRecord)
    requires Writable(r)
    ensures RecordFromJson(Dumps(r)) == Some(r)
  {
    DictPrintable(r);
    LoadsPrint(Obj(AsDict(r)));
    FromDictAsDict(r);
    hide FromDict, AsDict, Print, Loads;
  }

  // ------------------------------------------------------------ anchor preimage

  /** bytes.fromhex, on the hexadecimal digits alone. */
  function FromHex(s: string): Option<seq<Byte>>
    decreases |s|
  {
    if s == "" then Some([])
    else if |s| < 2 then None
    else
      var high, low, rest := HexValue(s[0]), HexValue(s[1]), FromHex(s[2..]);
      if high.None? || low.None? || rest.None? then None
      else
        HexSmall(s[0]);
        HexSmall(s[1]);
        Some([high.value * 16 + low.value] + rest.value)
  }

  lemma {:induction false} HexSmall(c: char)
    ensures HexValue(c).Some? ==> HexValue(c).value < 16
  {
  }

  lemma {:induction false} FromHexLength(s: string)
    requires FromHex(s).Some?
    ensures 2 * |FromHex(s).value| == |s|
    decreases |s|
  {
    if s != "" {
      FromHexLength(s[2..]);
    }
  }

  /** What the anchor hash is taken of: the canonical bytes, then the nonce. */
  function Preimage(r: AuditRecord): Option<seq<Byte>> {
    var nonce := FromHex(r.nonceHex);
    if nonce.None? then None else Some(CanonicalJson(r) + nonce.value)
  }

  predicate Hashable(r: AuditRecord) {
    Writable(r) && |r.nonceHex| == 64 && FromHex(r.nonceHex).Some?
  }

  /** Main result: two records share a preimage only if they are the same
      record, so the anchor hash commits to every field. */
  lemma {:induction false} PreimageInjective(r: AuditRecord, q: AuditRecord)
    requires Hashable(r) && Hashable(q)
    requires Preimage(r) == Preimage(q)
    ensures r == q
  {
    FromHexLength(r.nonceHex);
    FromHexLength(q.nonceHex);
    SamePrefix(CanonicalJson(r), FromHex(r.nonceHex).value, CanonicalJson(q), FromHex(q.nonceHex).value);
    EncodeInjective(Dumps(r), Dumps(q));
    RecordRoundTrip(r);
    RecordRoundTrip(q);
  }

  lemma {:induction false} SamePrefix(a: seq<Byte>, x: seq<Byte>, b: seq<Byte>, y: seq<Byte>)
    requires a + x == b + y && |x| == |y|
    ensures a == b
  {
    assert a == (a + x)[..|a|] && b == (b + y)[..|b|];
  }

  /** The row written after anchoring. */
  function Anchored(r: AuditRecord, tx: Option<string>, job: Option<string>): AuditRecord {
    r.(arcTxHash := tx, arcJobId := job)
  }

  /** The row written after anchoring does not hash to the value on chain: it
      has the committed preimage exactly when it carries no new anchor fields. */
  lemma {:induction false} AnchoredRowCommitsIff(r: AuditRecord, tx: Option<string>, job: Option<string>)
    requires Hashable(r) && Hashable(Anchored(r, tx, job))
    ensures Preimage(Anchored(r, tx, job)) == Preimage(r) <==> tx == r.arcTxHash && job == r.arcJobId
  {
    if tx == r.arcTxHash && job == r.arcJobId {
      assert Anchored(r, tx, job) == r;
    } else if Preimage(Anchored(r, tx, job)) == Preimage(r) {
      PreimageInjective(Anchored(r, tx, job), r);
    }
  }

  // -------------------------------------------------------------------- storage

  /** A stored row: the columns queries look at, and the record as text. */
  datatype Row = Row(auditId: string, verdict: string, outcome: string, blob: string)

  function RowOf(r: AuditRecord): Row {
    Row(r.auditId, r.verdict, r.outcome, Dumps(r))
  }

  /** The latest state of a record in a log of states. */
  function LastOf(log: seq<AuditRecord>, auditId: string): Option<AuditRecord>
    decreases |log|
  {
    if log == [] then None
    else if log[|log| - 1].auditId == auditId then Some(log[|log| - 1])
    else LastOf(log[..|log| - 1], auditId)
  }

  predicate Waiting(r: AuditRecord) {
    r.outcome == PENDING && r.verdict == EXECUTE
  }

  /** The waiting states, oldest first; with an age floor only the old ones. */
  function WaitingIn(log: seq<AuditRecord>, aged: AuditRecord -> bool): seq<AuditRecord>
    decreases |log|
  {
    if log == [] then []
    else
      var r := log[|log| - 1];
      WaitingIn(log[..|log| - 1], aged) + (if Waiting(r) && aged(r) then [r] else [])
  }

  /** The query keeps exactly the waiting trades that are old enough. */
  lemma {:induction false} WaitingIs(log: seq<AuditRecord>, aged: AuditRecord -> bool)
    ensures forall r :: r in WaitingIn(log, aged) <==>
      r in log && r.outcome == "PENDING" && r.verdict == "EXECUTE" && aged(r)
    decreases |log|
  {
    if log != [] {
      WaitingIs(log[..|log| - 1], aged);
      assert log == log[..|log| - 1] + [log[|log| - 1]];
    }
  }

  /** Anchoring ends no wait: the anchored state is listed beside the one it was
      made of, in the order they were stored. */
  lemma {:induction false} AnchoringKeepsWaiting(log: seq<AuditRecord>, r: AuditRecord, tx: Option<string>,
                                                 job: Option<string>)
    requires r in WaitingIn(log, _ => true)
    ensures WaitingIn(log + [Anchored(r, tx, job)], _ => true) == WaitingIn(log, _ => true) + [Anchored(r, tx, job)]
  {
    WaitingIs(log, _ => true);
    assert (log + [Anchored(r, tx, job)])[..|log|] == log;
  }

  /** Appending a state makes it the latest of its own record and of no other. */
  lemma {:induction false} LastOfAppend(log: seq<AuditRecord>, r: AuditRecord, auditId: string)
    ensures LastOf(log + [r], auditId) == if r.auditId == auditId then Some(r) else LastOf(log, auditId)
  {
    assert (log + [r])[..|log|] == log;
  }

  lemma {:induction false} LastOfIs(log: seq<AuditRecord>, auditId: string)
    ensures LastOf(log, auditId).None? <==> forall i :: 0 <= i < |log| ==> log[i].auditId != auditId
    ensures LastOf(log, auditId).Some? ==>
      exists i :: 0 <= i < |log| && log[i] == LastOf(log, auditId).value && log[i].auditId == auditId
        && forall k :: i < k < |log| ==> log[k].auditId != auditId
    decreases |log|
  {
    if log != [] && log[|log| - 1].auditId != auditId {
      LastOfIs(log[..|log| - 1], auditId);
    }
  }

  class AuditStore {
    var rows: seq<Row>
    ghost var log: seq<AuditRecord>

    ghost predicate Valid()
      reads this
    {
      && |rows| == |log|
      && forall i :: 0 <= i < |log| ==> rows[i] == RowOf(log[i]) && Writable(log[i])
    }

    constructor ()
      ensures Valid() && log == []
    {
      rows, log := [], [];
    }

    /** Encode first, insert second: a failure of either leaves the store as it
        was. */
    method Append(draft: Draft, accepts: bool) returns (rowid: Result<nat>)
      requires Valid() && (Sealed(draft).Some? ==> Writable(Sealed(draft).value))
      modifies this
      ensures Valid()
      ensures
        var stored := Persist(draft, accepts);
        && log == (if stored.Ok? then old(log) + [stored.value] else old(log))
        && rowid == (if stored.Ok? then Ok(|log|) else Err(stored.fault))
    {
      var sealed := Sealed(draft);
      if sealed.None? {
        return Err(UnicodeEncode);
      }
      hide Dumps, Writable, Sealed;
      var row := RowOf(sealed.value);
      if !accepts {
        return Err(Storage);
      }
      rows := rows + [row];
      log := log + [sealed.value];
      rowid := Ok(|rows|);
    }

    /** Newest row of the record, parsed back from its text. */
    method Latest(auditId: string) returns (r: Option<AuditRecord>)
      requires Valid()
      ensures r == LastOf(log, auditId)
    {
      hide RecordFromJson, Dumps;
      assert log[..|log|] == log;
      var i := |rows|;
      while i > 0
        invariant 0 <= i <= |rows|
        invariant LastOf(log, auditId) == LastOf(log[..i], auditId)
      {
        i := i - 1;
        assert log[..i + 1][..i] == log[..i];
        if rows[i].auditId == auditId {
          RecordRoundTrip(log[i]);
          return RecordFromJson(rows[i].blob);
        }
      }
      r := None;
    }

    method ListPending(aged: AuditRecord -> bool) returns (records: seq<AuditRecord>)
      requires Valid()
      ensures records == WaitingIn(log, aged)
    {
      hide RecordFromJson, Dumps;
      records := [];
      for i := 0 to |rows|
        invariant records == WaitingIn(log[..i], aged)
      {
        assert log[..i + 1][..i] == log[..i];
        if rows[i].outcome == PENDING && rows[i].verdict == EXECUTE {
          RecordRoundTrip(log[i]);
          var r := RecordFromJson(rows[i].blob);
          if r.Some? && aged(r.value) {
            records := records + [r.value];
          }
        }
      }
      assert log[..|rows|] == log;
    }

    method Count() returns (n: nat)
      requires Valid()
      ensures n == |log|
    {
      n := |rows|;
    }
  }
}
