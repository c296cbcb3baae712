/** The data of the external RGB engine: operation records, the keyspaces of the
    database, carrier transactions and the keys under which records are stored. */
module ExternalModel {
  import opened Basics

  // ---------------------------------------------------------------- carriers

  type Bytes = seq<nat>

  /** The encoding of a fascia or a consignment is never empty. */
  type Encoding = b: Bytes | b != [] witness [0]
  type Txid = string
  type Contract = string

  datatype Outpoint = Outpoint(txid: Txid, vout: nat)

  /** An outpoint as it is written down. The same outpoint may have several texts. */
  type OutText = string

  datatype TxOut = TxOut(script: string, sats: nat)

  datatype TxIn = TxIn(previous: Outpoint, scriptSig: Bytes)

  /** The part of a transaction that its id commits to (BIP 141, section
      "Transaction ID"): everything except the witnesses. */
  datatype Body = Body(inputs: seq<TxIn>, outputs: seq<TxOut>)

  datatype Tx = Tx(body: Body, witnesses: seq<Bytes>)

  datatype PsbtInput = PsbtInput(witnessUtxo: Option<TxOut>, finalScriptSig: Option<Bytes>, finalWitness: Option<Bytes>)

  /** A partially signed transaction: one entry per input of an unsigned body,
      which carries no script signature. */
  type Psbt = p: RawPsbt |
      |p.inputs| == |p.body.inputs| && forall i :: 0 <= i < |p.body.inputs| ==> p.body.inputs[i].scriptSig == []
    witness RawPsbt(Body([], []), [])

  datatype RawPsbt = RawPsbt(body: Body, inputs: seq<PsbtInput>)

  function OrEmpty(b: Option<Bytes>): Bytes {
    if b.Some? then b.value else []
  }

  /** The transaction that a finalized PSBT stands for: script signatures and
      witnesses are moved from the PSBT inputs into the transaction. */
  function ExtractTx(p: Psbt): Tx {
    Tx(Body(seq(|p.body.inputs|, i requires 0 <= i < |p.body.inputs| =>
                  TxIn(p.body.inputs[i].previous, OrEmpty(p.inputs[i].finalScriptSig))),
            p.body.outputs),
       seq(|p.inputs|, i requires 0 <= i < |p.inputs| => OrEmpty(p.inputs[i].finalWitness)))
  }

  /** Every input is signed by a witness alone, over the output that was prepared. */
  predicate Completes(prepared: Psbt, signed: Psbt) {
    |signed.inputs| == |prepared.inputs| &&
    forall i :: 0 <= i < |signed.inputs| ==>
      && signed.inputs[i].witnessUtxo == prepared.inputs[i].witnessUtxo
      && signed.inputs[i].finalScriptSig in {None, Some([])}
      && signed.inputs[i].finalWitness !in {None, Some([])}
  }

  /** `finalized_transaction`: a signed PSBT is accepted only for the prepared
      carrier, and the transaction it yields differs from it in witnesses only.
      `verified` is the answer of the signature check. */
  function FinalizedTransaction(prepared: Psbt, signed: Psbt, verified: bool): (r: Result<Tx>)
    ensures r.Ok? ==> r.value.body == prepared.body == signed.body && verified && r.value == ExtractTx(signed)
    ensures r.Ok? ==> forall i :: 0 <= i < |r.value.witnesses| ==> r.value.witnesses[i] != []
    ensures r.Ok? <==> signed.body == prepared.body && verified && Completes(prepared, signed)
  {
    if signed.body != prepared.body || |signed.inputs| != |prepared.inputs| then Err
    else if exists i :: 0 <= i < |signed.inputs| && prepared.inputs[i].witnessUtxo != signed.inputs[i].witnessUtxo
    then Err
    else if exists i :: 0 <= i < |signed.inputs| && OrEmpty(signed.inputs[i].finalScriptSig) != [] then Err
    else if exists i :: 0 <= i < |signed.inputs| && OrEmpty(signed.inputs[i].finalWitness) == [] then Err
    else if !verified then Err
    else
      assert ExtractTx(signed).body.inputs == prepared.body.inputs;
      Ok(ExtractTx(signed))
  }

  // ----------------------------------------------------------- keys and ids

  /** A collision-free digest, named by what was hashed. */
  datatype Digest = Sha256(preimage: string)

  type OpId = Digest

  datatype Kind = ReceiveKind | PrepareKind | FinalizeKind | CancelKind

  datatype OpKey = OpKey(account: string, id: OpId)

  datatype IdemKey = IdemKey(account: string, kind: Kind, request: string)

  datatype Binding = Binding(hash: Digest, id: OpId)

  function KindText(k: Kind): string {
    match k
    case ReceiveKind => "receive"
    case PrepareKind => "prepare"
    case FinalizeKind => "finalize"
    case CancelKind => "cancel"
  }

  function Scoped(account: string, id: string): string {
    account + "/" + id
  }

  /** The text under which an idempotency binding is stored. */
  function IdemText(k: IdemKey): string {
    Scoped(k.account, KindText(k.kind) + "/" + k.request)
  }

  predicate IdentifierChar(c: char) {
    'a' <= c <= 'z' || 'A' <= c <= 'Z' || '0' <= c <= '9' || c == '-' || c == '_'
  }

  /** `identifier`: 1 to 128 letters, digits, dashes or underscores. */
  predicate Identifier(s: string) {
    1 <= |s| <= 128 && forall i :: 0 <= i < |s| ==> IdentifierChar(s[i])
  }

  /** The text of a bitcoin address holds letters and digits only. */
  predicate AccountText(s: string) {
    s != [] && forall i :: 0 <= i < |s| ==> IdentifierChar(s[i])
  }

  function OperationId(k: IdemKey): OpId {
    Sha256(IdemText(k))
  }

  /** Splitting at the first slash is determined by the text. */
  lemma SlashSplit(a: string, x: string, b: string, y: string)
    requires forall i :: 0 <= i < |a| ==> a[i] != '/'
    requires forall i :: 0 <= i < |b| ==> b[i] != '/'
    requires a + "/" + x == b + "/" + y
    ensures a == b && x == y
  {
    var s := a + "/" + x;
    assert s[|a|] == '/' && s[|b|] == '/';
    assert |a| == |b|;
    assert a == s[..|a|] == b;
    assert x == s[|a| + 1..] == y;
  }

  predicate WellFormedKey(k: IdemKey) {
    AccountText(k.account) && Identifier(k.request)
  }

  /** Texts of idempotency keys, and with them operation ids, never collide:
      the three parts can be read back from the text. */
  lemma IdemTextInjective(a: IdemKey, b: IdemKey)
    requires WellFormedKey(a) && WellFormedKey(b)
    requires IdemText(a) == IdemText(b)
    ensures a == b
  {
    SlashSplit(a.account, KindText(a.kind) + "/" + a.request, b.account, KindText(b.kind) + "/" + b.request);
    SlashSplit(KindText(a.kind), a.request, KindText(b.kind), b.request);
    assert KindText(a.kind)[0] == KindText(b.kind)[0];
  }

  // ----------------------------------------------------------------- records

  datatype Direction = Send | Receive

  datatype Status =
    | Preparing | AwaitingSignature | Delivering          // sends
    | AwaitingTransfer | Validating | Cancelled           // receives
    | WaitingConfirmations | Settled | NeedsReview        // both

  datatype Delivery = DeliveryNotStarted | Delivered | DeliveryValidated

  datatype Broadcast = BroadcastNotStarted | BroadcastUnknown | BroadcastDone | BroadcastConfirmed

  /** What `candidate_hex` holds: the caller's PSBT until preparation is
      complete, a transaction afterwards. */
  datatype Candidate = Draft(psbt: Psbt) | Carrier(tx: Tx)

  /** What an operation is about; no write changes it. */
  datatype Terms = Terms(
    direction: Direction,
    asset: Contract,
    amount: u64,
    recipient: string,
    required: nat,
    expiresAt: nat,
    blind: bool,
    recipientVout: Option<nat>,
    changeVout: Option<nat>,
    inputs: seq<OutText>)

  datatype Artifact = Artifact(fascia: Bytes, proof: Bytes)

  datatype Retry = Retry(retryable: bool, nextRetryAt: nat, attempts: nat)

  datatype Record = Record(
    key: OpKey,
    terms: Terms,
    status: Status,
    txid: Option<Txid>,
    anchor: Option<Psbt>,
    delivery: Delivery,
    broadcast: Broadcast,
    acknowledged: Option<bool>,
    confirmations: nat,
    receiveOutpoint: Option<OutText>,
    artifact: Artifact,
    candidate: Option<Candidate>,
    signed: Option<Tx>,
    retry: Retry,
    quarantine: bool)

  const NoArtifact := Artifact([], [])

  /** The part of a record kept in the operations keyspace; fascia and proof
      live in the artifacts keyspace. */
  function Stripped(r: Record): Record {
    r.(artifact := NoArtifact)
  }

  /** The durable state of the engine. `utxos` tracks, per account, the outpoints
      credited by the daemon and whether they are confirmed. */
  datatype Db = Db(
    ops: map<OpKey, Record>,
    artifacts: map<OpKey, Artifact>,
    idem: map<IdemKey, Binding>,
    reservations: map<OutText, OpId>,
    utxos: map<(string, OutText), bool>)

  const EmptyDb := Db(map[], map[], map[], map[], map[])

  /** `load`: an operation together with its artifacts. */
  function Loaded(db: Db, key: OpKey): Record
    requires key in db.ops
  {
    if key in db.artifacts then db.ops[key].(artifact := db.artifacts[key]) else db.ops[key]
  }

  // ------------------------------------------------------------------- world

  datatype PubWitness = WitnessId(txid: Txid) | WitnessTx(tx: Tx)

  /** A decoded consignment: its contract and the witness of each bundle. */
  datatype Transfer = Transfer(contract: Contract, witnesses: seq<PubWitness>)

  /** What a proxy slot holds. */
  datatype Slot = Slot(consignment: Option<Bytes>, txid: Option<Txid>, vout: Option<nat>)

  /** What a transfer would bring, as its preview finds it. */
  datatype Allocation = Allocation(contract: Contract, amount: u64)

  /** Sum of the amounts allocated for one contract. */
  function Total(s: seq<Allocation>, contract: Contract): nat {
    if s == [] then 0
    else Total(s[..|s| - 1], contract) + if s[|s| - 1].contract == contract then s[|s| - 1].amount else 0
  }

  /** The total is the sum of what each allocation brings, in any order. */
  lemma {:induction false} TotalSplits(s: seq<Allocation>, t: seq<Allocation>, contract: Contract)
    ensures Total(s + t, contract) == Total(s, contract) + Total(t, contract) == Total(t + s, contract)
    decreases |s| + |t|
  {
    if s == [] || t == [] {
      assert s + t == t + s == if s == [] then t else s;
    } else {
      assert (s + t)[..|s + t| - 1] == s + t[..|t| - 1];
      assert (t + s)[..|t + s| - 1] == t + s[..|s| - 1];
      TotalSplits(s, t[..|t| - 1], contract);
      TotalSplits(s[..|s| - 1], t, contract);
    }
  }

  /** An allocation counts for its own contract and for no other. */
  lemma TotalOfOne(a: Allocation, contract: Contract)
    ensures Total([a], contract) == if a.contract == contract then a.amount else 0
  {
    assert [a][..0] == [];
  }

  /** What the engine is configured with, the foreign functions whose answers depend
      on their argument only, and whether a commit may be followed by an error of the
      flush. */
  datatype World = World(
    txidOf: Body -> Txid,
    decode: Bytes -> Option<Transfer>,
    parse: OutText -> Option<Outpoint>,
    show: Outpoint -> OutText,
    maxOperations: nat,
    required: nat,
    maxProof: nat,
    flushes: bool)

  function WitnessTxid(w: World, p: PubWitness): Txid {
    match p
    case WitnessId(txid) => txid
    case WitnessTx(tx) => w.txidOf(tx.body)
  }

  /** The carrier a consignment brings along: the witness of the first bundle
      anchored in `txid`, when it is a whole transaction. */
  function FindCarrier(w: World, ps: seq<PubWitness>, txid: Txid): (c: Option<Tx>)
    ensures c.Some? ==> w.txidOf(c.value.body) == txid && WitnessTx(c.value) in ps
  {
    if ps == [] then None
    else if WitnessTxid(w, ps[0]) == txid then (if ps[0].WitnessTx? then Some(ps[0].tx) else None)
    else FindCarrier(w, ps[1..], txid)
  }

  /** It is the witness of the first such bundle: a later one is not looked at, even
      if the first one is not a whole transaction. */
  lemma {:induction false} CarrierIsFirst(w: World, ps: seq<PubWitness>, txid: Txid, i: nat)
    requires i <= |ps| && forall j :: 0 <= j < i ==> WitnessTxid(w, ps[j]) != txid
    requires i < |ps| ==> WitnessTxid(w, ps[i]) == txid
    ensures FindCarrier(w, ps, txid) == if i < |ps| && ps[i].WitnessTx? then Some(ps[i].tx) else None
  {
    if i > 0 {
      assert forall j :: 0 <= j < i - 1 ==> ps[1..][j] == ps[j + 1];
      CarrierIsFirst(w, ps[1..], txid, i - 1);
    }
  }

  /** A shown outpoint is read back. */
  ghost predicate ReadsBack(w: World) {
    forall o :: w.parse(w.show(o)) == Some(o)
  }

  /** Decoding an empty consignment fails, a shown outpoint is read back, and the
      configured size limit is one that the configuration allows. */
  ghost predicate GoodWorld(w: World) {
    w.decode([]).None? && ReadsBack(w) && 1024 <= w.maxProof <= 16 * 1024 * 1024
  }

  /** A consignment that is not too long and decodes. */
  predicate Receivable(w: World, proof: Bytes) {
    |proof| <= w.maxProof && w.decode(proof).Some?
  }

  /** No receive can be credited twice: the disk keeps what it committed without an
      error, or nothing can be received at all. */
  ghost predicate Steady(w: World) {
    w.flushes || forall proof :: !Receivable(w, proof)
  }

  /** The text is the one that the program itself would write. */
  predicate Canonical(w: World, t: OutText) {
    w.parse(t).Some? && t == w.show(w.parse(t).value)
  }

  /** What a transaction with these inputs spends, as it is reserved. */
  function Spends(w: World, inputs: seq<TxIn>): (s: seq<OutText>)
    ensures |s| == |inputs| && forall i :: 0 <= i < |s| ==> s[i] == w.show(inputs[i].previous)
  {
    seq(|inputs|, i requires 0 <= i < |inputs| => w.show(inputs[i].previous))
  }

  /** The output that the outpoint names pays to the account. */
  predicate PaysTo(tx: Tx, outpoint: Outpoint, account: string) {
    outpoint.vout < |tx.body.outputs| && tx.body.outputs[outpoint.vout].script == account
  }
}
