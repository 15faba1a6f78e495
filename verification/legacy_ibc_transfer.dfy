/** The older IBC-transfer contract (rust/src/ibc_transfer.rs): the same
    three operations with `i32` ids, a `u64` timeout height, and a reply
    that unwraps the queue lookup, so replying to an unknown id panics. */
module LegacyIbcTransfer {
  import opened ContractTypes
  import Ast
  import IbcTransfer

  const I32Max: int := 0x7fff_ffff

  /** `instantiate`: records the contract's name and version. */
  function Instantiate(s: ContractStorage, info: MsgInfo, msg: InstantiateMsg): (r: (StdResult, ContractStorage))
    ensures r.0 == Ok(Response("instantiated"))
    ensures r.1.contractVersion == ContractVersion("ibc_transfer", "0.1.0")
    ensures r.1.replyQueue == s.replyQueue
    ensures r.1.runningId == s.runningId
    ensures r.1.successfulTransfers == s.successfulTransfers
  {
    (Ok(Response("instantiated")), s.(contractVersion := ContractVersion(ContractName, ContractVersionStr)))
  }

  /** `execute_send`: hands out the next id and remembers who asked. The
      `+= 1` on the `i32` counter overflows at its maximum. */
  function ExecuteSend(info: MsgInfo, env: Env, msg: ExecuteMsgSend<Ast.U64>, s: ContractStorage): (r: (NeutronResult<Ast.U64>, ContractStorage))
    requires s.runningId < I32Max
    ensures r.1.runningId == s.runningId + 1
    ensures r.1.replyQueue == s.replyQueue[s.runningId + 1 := info.sender]
    ensures r.1.successfulTransfers == s.successfulTransfers
    ensures r.1.contractVersion == s.contractVersion
    ensures r.0.NeutronOk? && |r.0.messages| == 1
    ensures var m := r.0.messages[0];
            && m.id == r.1.runningId
            && m.replyOn == "always"
            && m.msg == NeutronMsgIbcTransfer("transfer", msg.channel, Coin(msg.denom, msg.amount), env.contract.address,
                                              msg.to, msg.timeoutHeight, 0, "", MinFee)
  {
    var transfer := NeutronMsgIbcTransfer("transfer", msg.channel, Coin(msg.denom, msg.amount), env.contract.address,
                                          msg.to, msg.timeoutHeight, 0, "", MinFee);
    var newId := s.runningId + 1;
    (NeutronOk([SubMsgIbcTransfer(newId, transfer, "always")]),
     s.(runningId := newId, replyQueue := s.replyQueue[newId := info.sender]))
  }

  /** `reply`: the id must be pending, since the lookup is unwrapped. */
  function Reply(env: Env, msg: ContractTypes.Reply, s: ContractStorage): (r: (StdResult, ContractStorage))
    requires msg.id in s.replyQueue
    ensures r.0 == Ok(Response("got reply to successful transfer"))
    ensures msg.id !in r.1.replyQueue
    ensures forall k | k in s.replyQueue && k != msg.id :: k in r.1.replyQueue && r.1.replyQueue[k] == s.replyQueue[k]
    ensures r.1.replyQueue.Keys <= s.replyQueue.Keys
    ensures r.1.successfulTransfers == s.successfulTransfers + {s.replyQueue[msg.id]}
    ensures r.1.runningId == s.runningId
    ensures r.1.contractVersion == s.contractVersion
  {
    var replyTo := s.replyQueue[msg.id];
    (Ok(Response("got reply to successful transfer")),
     s.(replyQueue := s.replyQueue - {msg.id}, successfulTransfers := s.successfulTransfers + {replyTo}))
  }

  /** Wherever the older version is defined, it computes what the newer one
      does: same answers, same storage. */
  lemma {:induction false} InstantiateAgrees(s: ContractStorage, info: MsgInfo, msg: InstantiateMsg)
    ensures Instantiate(s, info, msg) == IbcTransfer.InstantiateHelper(s, info, msg)
  {
  }

  lemma {:induction false} ExecuteSendAgrees(info: MsgInfo, env: Env, msg: ExecuteMsgSend<Ast.U64>, s: ContractStorage)
    requires s.runningId < I32Max
    ensures ExecuteSend(info, env, msg, s) == IbcTransfer.ExecuteSendHelper(info, env, msg, s)
  {
  }

  lemma {:induction false} ReplyAgrees(env: Env, msg: ContractTypes.Reply, s: ContractStorage)
    requires msg.id in s.replyQueue
    ensures Reply(env, msg, s) == IbcTransfer.ReplyHelper(env, msg, s)
  {
  }

  /** The older operations keep every pending id issued too. */
  lemma {:induction false} OperationsKeepKeysIssued(info: MsgInfo, env: Env, imsg: InstantiateMsg, smsg: ExecuteMsgSend<Ast.U64>,
                                                    rmsg: ContractTypes.Reply, s: ContractStorage)
    requires KeysIssued(s)
    ensures KeysIssued(Instantiate(s, info, imsg).1)
    ensures s.runningId < I32Max ==> KeysIssued(ExecuteSend(info, env, smsg, s).1)
    ensures rmsg.id in s.replyQueue ==> KeysIssued(Reply(env, rmsg, s).1)
  {
  }
}
