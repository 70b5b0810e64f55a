/** Block headers, consensus parameters, hashes and signatures.

    A digest is a free constructor: it is injective and differs from the zero
    value, and nothing else is known about it. `Raw` stands for byte strings that
    are the digest of nothing. A signature is a free constructor too: it verifies
    for exactly the key and the message it was made with, and `nonce` tells apart
    different signatures of one key on one message. */
module Blocks {
  import opened Wrappers
  import opened NumPeers
  import opened OrderedTables

  datatype Hash<+T> = Zero | Digest(of: T) | Raw(bytes: nat)

  type PeerPubkey = nat

  type Byte = b: nat | b < 256

  type Payload = seq<Byte>

  const HEADER_SEQ_MODULUS: nat := 0x1_0000_0000

  datatype BlockHeader = BlockHeader(
    headerVersion: nat,
    padding: nat,
    seqNo: nat,
    round: nat,
    timestamp: nat,
    payloadLen: nat,
    paramsLen: nat,
    prevBlockHash: Hash<BlockHeader>,
    paramsHash: Hash<ConsensusParams>,
    payloadHash: Hash<Payload>)

  datatype ConsensusParams = ConsensusParams(
    formatVersion: nat,
    initMajor: nat,
    initMinor: nat,
    timestamp: nat,
    scheduleRound: nat,
    applyRound: nat,
    prevMidBlock: Option<(nat, Hash<BlockHeader>)>,
    peers: seq<PeerPubkey>)

  /** Length of the encoding: fixed-size fields, an option tag, a variable-size
      vector length and 32 bytes a key. */
  function EncodedLen(params: ConsensusParams): nat {
    var midBlock := if params.prevMidBlock.Some? then 41 else 1;
    var peersLen := if |params.peers| < 251 then 1 else 3;
    1 + 4 + 8 + 8 + 8 + midBlock + peersLen + 32 * |params.peers|
  }

  // Signatures

  /** The two kinds of signed message carry different tags. */
  datatype Message = BlockMessage(header: BlockHeader) | FinalityMessage(round: nat)

  datatype Signature = Signature(signer: PeerPubkey, message: Message, nonce: nat) | Malformed(bytes: nat)

  predicate Verifies(sig: Signature, key: PeerPubkey, message: Message) {
    sig.Signature? && sig.signer == key && sig.message == message
  }

  datatype SignedBlock = SignedBlock(inner: BlockHeader, sig: Signature)

  datatype Notarized = Notarized(inner: BlockHeader, sigs: map<nat, Signature>)

  // Headers

  function NextSeq(seqNo: nat): nat {
    (seqNo + 1) % HEADER_SEQ_MODULUS
  }

  function NewHeader(prev: Option<BlockHeader>, timestamp: nat, round: nat,
                     params: ConsensusParams, payload: Payload): BlockHeader {
    BlockHeader(0, 0, if prev.Some? then NextSeq(prev.value.seqNo) else 0, round, timestamp,
                |payload|, EncodedLen(params),
                if prev.Some? then Digest(prev.value) else Zero, Digest(params), Digest(payload))
  }

  function NewDummy(round: nat, params: ConsensusParams): BlockHeader {
    BlockHeader(0, 0, 0, round, 0, 0, EncodedLen(params), Zero, Digest(params), Zero)
  }

  predicate IsDummy(block: BlockHeader) {
    block.seqNo == 0 && block.prevBlockHash == Zero && block.payloadHash == Zero && block.payloadLen == 0
  }

  predicate DirectlyExtends(block: BlockHeader, prev: Option<BlockHeader>) {
    match prev
    case Some(p) => NextSeq(p.seqNo) == block.seqNo && p.round < block.round && Digest(p) == block.prevBlockHash
    case None => block.seqNo == 0 && block.prevBlockHash == Zero
  }

  datatype ContentError =
    | PayloadHashMismatch | PayloadLenMismatch | UnknownVersion | ParamsHashMismatch | ParamsLenMismatch

  /** The first content check that fails. */
  function VerifyWithContent(block: BlockHeader, params: ConsensusParams, payload: Payload): (r: Option<ContentError>)
    ensures r.None? && !IsDummy(block) ==> HasPayload(block, payload)
  {
    if IsDummy(block) && |payload| != 0 then Some(PayloadLenMismatch)
    else if !IsDummy(block) && Digest(payload) != block.payloadHash then Some(PayloadHashMismatch)
    else if !IsDummy(block) && |payload| != block.payloadLen then Some(PayloadLenMismatch)
    else if block.headerVersion != 0 then Some(UnknownVersion)
    else if block.paramsHash != Digest(params) then Some(ParamsHashMismatch)
    else if block.paramsLen != EncodedLen(params) then Some(ParamsLenMismatch)
    else None
  }

  predicate HasPayload(block: BlockHeader, payload: Payload) {
    block.payloadHash == Digest(payload) && block.payloadLen == |payload|
  }

  /** A correct leader's header passes every check a receiver makes on a proposal. */
  lemma NewHeaderIsAcceptable(prev: Option<BlockHeader>, timestamp: nat, round: nat,
                              params: ConsensusParams, payload: Payload)
    requires prev.Some? ==> prev.value.round < round
    ensures var h := NewHeader(prev, timestamp, round, params, payload);
            !IsDummy(h) && DirectlyExtends(h, prev) && VerifyWithContent(h, params, payload).None?
    ensures NewHeader(prev, timestamp, round, params, payload).round == round
    ensures NewHeader(prev, timestamp, round, params, payload).timestamp == timestamp
  {
    var h := NewHeader(prev, timestamp, round, params, payload);
    assert h.payloadHash != Zero;
  }

  /** A dummy header passes the content check with the empty payload. */
  lemma NewDummyIsAcceptable(round: nat, params: ConsensusParams)
    ensures IsDummy(NewDummy(round, params)) && VerifyWithContent(NewDummy(round, params), params, []).None?
  {}

  /** The content check passes exactly for version 0, the hash and length of the parameters, and the hash and
      length of the payload, which a dummy has none of. */
  lemma ContentFitsIff(block: BlockHeader, params: ConsensusParams, payload: Payload)
    ensures VerifyWithContent(block, params, payload).None? <==>
            && block.headerVersion == 0
            && block.paramsHash == Digest(params) && block.paramsLen == EncodedLen(params)
            && block.payloadLen == |payload|
            && (block.payloadHash == Digest(payload)
                || (block.payloadHash == Zero && payload == [] && block.seqNo == 0 && block.prevBlockHash == Zero))
  {}

  /** Which content error is reported: one of the payload before one of the parameters. */
  lemma ContentErrorsIff(block: BlockHeader, params: ConsensusParams, payload: Payload)
    ensures var error := VerifyWithContent(block, params, payload);
            var wrongHash := !IsDummy(block) && block.payloadHash != Digest(payload);
            var wrongLen := block.payloadLen != |payload|;
            && (error == Some(PayloadHashMismatch) <==> wrongHash)
            && (error == Some(PayloadLenMismatch) <==> !wrongHash && wrongLen)
            && (error == Some(UnknownVersion) <==> !wrongHash && !wrongLen && block.headerVersion != 0)
            && (error == Some(ParamsHashMismatch) <==>
                  !wrongHash && !wrongLen && block.headerVersion == 0 && block.paramsHash != Digest(params))
            && (error == Some(ParamsLenMismatch) <==>
                  !wrongHash && !wrongLen && block.headerVersion == 0 && block.paramsHash == Digest(params)
                  && block.paramsLen != EncodedLen(params))
  {}

  // Certificates

  datatype CertificateCheck = CertOk | NotEnoughSignatures | InvalidPeerSignature(peerIdx: nat) | IndexOutOfRange

  predicate SigOk(cert: Notarized, params: ConsensusParams, idx: nat) {
    idx in cert.sigs && idx < |params.peers| && Verifies(cert.sigs[idx], params.peers[idx], BlockMessage(cert.inner))
  }

  /** What a caller learns from a certificate that was accepted. */
  ghost predicate QuorumSigned(cert: Notarized, params: ConsensusParams) {
    Threshold(|params.peers|) <= |Voters(cert.sigs)| && forall i | i in cert.sigs :: SigOk(cert, params, i)
  }

  /** Signatures are checked in the order of the peer indices, which are bytes, up to the first that
      fails; an index without a peer stops the process. */
  method VerifySigs(cert: Notarized, params: ConsensusParams) returns (r: CertificateCheck)
    requires forall i | i in cert.sigs :: i < 256
    ensures r == CertOk <==> QuorumSigned(cert, params)
    ensures r == NotEnoughSignatures <==> |Voters(cert.sigs)| < Threshold(|params.peers|)
    ensures r.InvalidPeerSignature? <==>
            && Threshold(|params.peers|) <= |Voters(cert.sigs)|
            && exists i :: i in cert.sigs && i < |params.peers| && !SigOk(cert, params, i)
    ensures r.InvalidPeerSignature? ==>
            && r.peerIdx in cert.sigs && r.peerIdx < |params.peers| && !SigOk(cert, params, r.peerIdx)
            && forall j | j in cert.sigs && j < r.peerIdx :: SigOk(cert, params, j)
  {
    if |Voters(cert.sigs)| < Threshold(|params.peers|) {
      return NotEnoughSignatures;
    }
    for idx := 0 to 256
      invariant forall j | j in cert.sigs && j < idx :: SigOk(cert, params, j)
    {
      if idx in cert.sigs {
        if idx >= |params.peers| {
          return IndexOutOfRange;
        }
        if !Verifies(cert.sigs[idx], params.peers[idx], BlockMessage(cert.inner)) {
          return InvalidPeerSignature(idx);
        }
      }
    }
    return CertOk;
  }
}
