/** The values a node stores, and the outside functions it calls. */
module Domain {

  datatype Option<+T> = None | Some(value: T)

  datatype OutPoint = OutPoint(txid: string, vout: nat)

  datatype Input = Input(point: OutPoint, pubkey: string, signature: Option<string>)

  datatype Output = Output(to: string, amount: nat)

  datatype Tx = Tx(txid: string, inputs: seq<Input>, outputs: seq<Output>, timestamp: int)

  datatype Header = Header(index: nat, previous: string, merkleRoot: string, timestamp: int, nonce: nat, bits: nat)

  datatype Block = Block(header: Header, txs: seq<Tx>, hash: string)

  datatype Utxo = Utxo(to: string, amount: nat)

  /** Hashing, signatures, address derivation, case folding and encoding: code the model takes as given. */
  datatype Env = Env(
    headerHash: Header -> string,
    hashValue: string -> Option<nat>,
    leafOf: string -> string,
    pairHash: (string, string) -> string,
    hexOf: string -> string,
    emptyRoot: string,
    signaturesVerify: Tx -> bool,
    addressOf: string -> Option<string>,
    lower: string -> string,
    encodedSize: Tx -> nat)

  /** Folding case twice is folding it once. */
  ghost predicate CaseFolds(env: Env) {
    forall s :: env.lower(env.lower(s)) == env.lower(s)
  }
}
