/** The bytes of consensus parameters, whose number every block header commits to. */
module ParamsEncoding {
  import opened Blocks
  import opened State

  /** The last `width` base-256 digits, the highest first. */
  function BigEndian(n: nat, width: nat): (bytes: seq<Byte>)
    ensures |bytes| == width
  {
    if width == 0 then [] else BigEndian(n / 256, width - 1) + [n % 256]
  }

  /** The variable-size form of a number: one byte, or a marker and two bytes, the higher first. */
  function Varint(n: nat): seq<Byte>
    requires n < 0x1_0000
  {
    if n < 251 then [n] else [251, n / 256, n % 256]
  }

  function EncodedKeys(keys: seq<PeerPubkey>): seq<Byte> {
    if keys == [] then [] else BigEndian(keys[0], 32) + EncodedKeys(keys[1..])
  }

  /** The fields one after the other. `hash` stands for the 32 bytes of the hash in `prevMidBlock`, if any. */
  function Encoded(params: ConsensusParams, hash: seq<Byte>): seq<Byte>
    requires |hash| == 32 && |params.peers| < 0x1_0000
  {
    BigEndian(params.formatVersion, 1)
      + BigEndian(params.initMajor, 2) + BigEndian(params.initMinor, 2)
      + BigEndian(params.timestamp, 8) + BigEndian(params.scheduleRound, 8) + BigEndian(params.applyRound, 8)
      + (if params.prevMidBlock.Some? then [1] + BigEndian(params.prevMidBlock.value.0, 8) + hash else [0])
      + Varint(|params.peers|) + EncodedKeys(params.peers)
  }

  lemma {:induction false} KeysLen(keys: seq<PeerPubkey>)
    ensures |EncodedKeys(keys)| == 32 * |keys|
  {
    if keys != [] {
      KeysLen(keys[1..]);
    }
  }

  /** The length that headers carry is the number of these bytes. */
  lemma EncodedLenCountsBytes(params: ConsensusParams, hash: seq<Byte>)
    requires |hash| == 32 && GoodPeers(params.peers)
    ensures |Encoded(params, hash)| == EncodedLen(params)
  {
    KeysLen(params.peers);
  }
}
