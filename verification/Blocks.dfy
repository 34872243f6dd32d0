/** The block list both halves of the node share: headers, hashes, receipts and
    world states.  Hashing and Merkle roots are free constructors, so they are
    injective by construction. */
module Blocks {
  datatype Option<+T> = None | Some(value: T)

  datatype Result<+T, +E> = Ok(value: T) | Err(error: E)

  type Address = nat

  /** One more than the largest unsigned 64-bit number. */
  const UINT64: nat := 0x1_0000_0000_0000_0000

  /** An account state.  Its Merkle root is the value itself. */
  datatype World = World(nonces: map<Address, nat>, balances: map<Address, nat>, rest: nat)

  datatype Tx = Tx(nonce: nat, gas: nat, to: Option<Address>, kind: nat, payload: nat)

  datatype Log = Log(address: Address, topics: seq<nat>, data: nat)

  /** The three fields a receipt has on disk. */
  datatype StoredReceipt = StoredReceipt(status: bool, cumulativeGas: nat, logs: seq<Log>)

  /** What the receipt trie commits to for one transaction. */
  datatype ReceiptLeaf = ReceiptLeaf(kind: nat, stored: StoredReceipt, bloom: set<nat>)

  datatype Root<T> = EmptyRoot | RootOf(items: seq<T>)

  /** `misc` stands for every header field that no code path checks. */
  datatype Header = Header(parentHash: Hash, number: nat, time: nat, gasLimit: nat, extra: string, misc: nat,
                           root: World, gasUsed: nat, txRoot: Root<Tx>, receiptRoot: Root<ReceiptLeaf>,
                           bloom: set<nat>)

  datatype Hash = ZeroHash | HashOf(header: Header)

  /** The hash covers the header only; the body is tied to it by `txRoot`. */
  datatype Block = Block(header: Header, txs: seq<Tx>)

  function BlockHash(b: Block): Hash {
    HashOf(b.header)
  }

  function Number(b: Block): nat {
    b.header.number
  }

  function Hashes(chain: seq<Block>): (r: seq<Hash>)
    ensures |r| == |chain|
  {
    seq(|chain|, i requires 0 <= i < |chain| => BlockHash(chain[i]))
  }
}
