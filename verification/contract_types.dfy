/** The records the generated IBC-transfer contract works on, shared by its
    newer (rust/src/contract/) and older (rust/src/) versions. The two
    versions declare the same records; they differ only in integer widths,
    which the operations state as preconditions, and in the type of the
    packet timeout height, which is the parameter `H` here. Addresses are
    opaque strings and amounts unbounded naturals. */
module ContractTypes {

  type Addr = string

  datatype ContractVersion = ContractVersion(contract: string, version: string)

  datatype Coin = Coin(denom: string, amount: nat)

  datatype MsgInfo = MsgInfo(sender: Addr, funds: seq<Coin>)

  datatype ContractInfo = ContractInfo(address: Addr)

  datatype Env = Env(contract: ContractInfo)

  datatype Error = Error(msg: string)

  /** The Rust `Result { data }` record a successful call answers with. */
  datatype Response = Response(data: string)

  datatype StdResult = Ok(result: Response) | Err(error: Error)

  datatype Reply = Reply(id: int, result: StdResult)

  datatype InstantiateMsg = InstantiateMsg(data: string)

  datatype ExecuteMsgSend<H> = ExecuteMsgSend(channel: string, to: Addr, denom: string, amount: nat, timeoutHeight: H)

  /** The newer version's timeout height. */
  datatype RequestPacketTimeoutHeight = RequestPacketTimeoutHeight(revisionNumber: int, revisionHeight: int)

  datatype IbcFee = IbcFee(recvFee: seq<Coin>, ackFee: seq<Coin>, timeoutFee: seq<Coin>)

  datatype NeutronMsgIbcTransfer<H> = NeutronMsgIbcTransfer(
    sourcePort: string,
    sourceChannel: string,
    token: Coin,
    sender: Addr,
    receiver: Addr,
    timeoutHeight: H,
    timeoutTimestamp: nat,
    memo: string,
    fee: IbcFee)

  datatype SubMsgIbcTransfer<H> = SubMsgIbcTransfer(id: int, msg: NeutronMsgIbcTransfer<H>, replyOn: string)

  datatype NeutronResult<H> = NeutronOk(messages: seq<SubMsgIbcTransfer<H>>) | NeutronError(error: string)

  /** The contract's whole state: its version, the pending transfers by
      submessage id with the address that asked for each, the last id
      handed out, and the senders whose transfers were acknowledged. */
  datatype ContractStorage = ContractStorage(
    contractVersion: ContractVersion,
    replyQueue: map<int, Addr>,
    runningId: int,
    successfulTransfers: set<Addr>)

  const ContractName: string := "ibc_transfer"
  const ContractVersionStr: string := "0.1.0"

  /** The fee every transfer pays: nothing on receipt, 1250 untrn on
      acknowledgement, 500 untrn on timeout. */
  const MinFee: IbcFee := IbcFee([], [Coin("untrn", 1250)], [Coin("untrn", 500)])

  /** Rust's `Default` for the storage: empty version strings, no pending
      transfers, id counter 0, no acknowledged senders. */
  const DefaultStorage: ContractStorage := ContractStorage(ContractVersion("", ""), map[], 0, {})

  /** Every id waiting for a reply has been handed out already: none is
      above the counter. */
  predicate KeysIssued(s: ContractStorage)
  {
    forall k | k in s.replyQueue :: k <= s.runningId
  }
}
