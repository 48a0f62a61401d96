/** The CRC32 mapper of account/txnMapper.go: which key (and so which shard) a sender uses. */
module TxnMapper {

  /** `CRC32Mapper.Map`: the 32-bit checksum modulo the number of keys, for a number of keys that fits into
      32 bits. Without keys the Go program panics on the modulo. */
  function Crc32Map(checksum: nat, totalNumKeys: nat): (keyIndex: nat)
    requires 0 < totalNumKeys < 0x1_0000_0000
    ensures keyIndex < totalNumKeys
    ensures exists q: nat :: checksum % 0x1_0000_0000 == q * totalNumKeys + keyIndex
  {
    var sum := checksum % 0x1_0000_0000;
    assert sum == sum / totalNumKeys * totalNumKeys + sum % totalNumKeys;
    sum % totalNumKeys
  }

  /** Every key is some sender's: no index is left out. */
  lemma EveryKeyIsUsed(keyIndex: nat, totalNumKeys: nat)
    requires keyIndex < totalNumKeys < 0x1_0000_0000
    ensures Crc32Map(keyIndex, totalNumKeys) == keyIndex
  {
  }
}
