/** Wire types shared by every component: transactions, headers and blocks.

  Hashing is idealised.  A transaction id is the term `HashOf(tx)` and a block hash is the
  term `HeaderHash(header)`, so both are injective by construction and nothing can contain
  its own hash: what a hash commits to is a strict subterm of it.  The Merkle root is the
  sequence of transaction ids it commits to.
*/
module Wire {
  datatype Option<+T> = None | Some(value: T)

  datatype Result<+T, +E> = Ok(value: T) | Err(error: E)

  newtype int64 = x: int | -0x8000_0000_0000_0000 <= x < 0x8000_0000_0000_0000

  type uint32 = x: int | 0 <= x < 0x1_0000_0000

  newtype byte = x: int | 0 <= x < 0x100

  type Script = seq<byte>

  datatype TxId = ZeroTxId | HashOf(tx: Tx)

  datatype OutPoint = OutPoint(hash: TxId, index: nat)

  datatype TxIn = TxIn(prev: OutPoint, sigScript: Script, sequence: uint32)

  datatype TxOut = TxOut(value: int64, pkScript: Script)

  datatype Tx = Tx(version: int, ins: seq<TxIn>, outs: seq<TxOut>, lockTime: uint32)

  datatype Hash = ZeroHash | HeaderHash(header: Header)

  datatype Header = Header(version: int, prev: Hash, merkle: seq<TxId>, time: uint32, bits: uint32, nonce: uint32)

  datatype Block = Block(header: Header, txs: seq<Tx>)

  function MerkleRoot(txs: seq<Tx>): seq<TxId> {
    seq(|txs|, i requires 0 <= i < |txs| => HashOf(txs[i]))
  }

  function BlockHash(b: Block): Hash {
    HeaderHash(b.header)
  }

  const MAX_UINT32: uint32 := 0xFFFF_FFFF

  predicate IsCoinbase(tx: Tx) {
    |tx.ins| == 1 && tx.ins[0].prev == OutPoint(ZeroTxId, MAX_UINT32)
  }

  /** Two blocks that carry their own Merkle root and hash alike are the same block. */
  lemma BlockHashInjective(a: Block, b: Block)
    requires a.header.merkle == MerkleRoot(a.txs) && b.header.merkle == MerkleRoot(b.txs)
    requires BlockHash(a) == BlockHash(b)
    ensures a == b
  {
    assert |a.txs| == |b.txs|;
    forall i | 0 <= i < |a.txs|
      ensures a.txs[i] == b.txs[i]
    {
      assert MerkleRoot(a.txs)[i] == MerkleRoot(b.txs)[i];
    }
  }
}
