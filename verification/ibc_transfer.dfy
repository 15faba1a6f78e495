/** The newer IBC-transfer contract (rust/src/contract/ibc_transfer.rs): a
    state machine of three operations over `ContractStorage`. Each takes
    the storage and returns the answer together with the new storage. Ids
    are Rust `i64`; a reply to an id nobody is waiting for is an error. */
module IbcTransfer {
  import opened ContractTypes
  import QuintStdlib
  import Wrappers

  const I64Max: int := 0x7fff_ffff_ffff_ffff

  /** `instantiate_helper`: records the contract's name and version. */
  function InstantiateHelper(s: ContractStorage, info: MsgInfo, msg: InstantiateMsg): (r: (StdResult, ContractStorage))
    ensures r.0 == Ok(Response("instantiated"))
    ensures r.1.contractVersion == ContractVersion("ibc_transfer", "0.1.0")
    ensures r.1.replyQueue == s.replyQueue
    ensures r.1.runningId == s.runningId
    ensures r.1.successfulTransfers == s.successfulTransfers
  {
    var result := Response("instantiated");
    (Ok(result), s.(contractVersion := ContractVersion(ContractName, ContractVersionStr)))
  }

  /** `execute_send_helper`: hands out the next id, remembers who asked,
      and answers with one IBC transfer submessage carrying that id. The
      `+= 1` on the `i64` counter overflows at its maximum. */
  function ExecuteSendHelper<H>(info: MsgInfo, env: Env, msg: ExecuteMsgSend<H>, s: ContractStorage): (r: (NeutronResult<H>, ContractStorage))
    requires s.runningId < I64Max
    ensures r.1.runningId == s.runningId + 1
    ensures r.1.replyQueue == s.replyQueue[s.runningId + 1 := info.sender]
    ensures r.1.successfulTransfers == s.successfulTransfers
    ensures r.1.contractVersion == s.contractVersion
    ensures r.0.NeutronOk? && |r.0.messages| == 1
    ensures var m := r.0.messages[0];
            && m.id == r.1.runningId
            && m.replyOn == "always"
            && m.msg.sourcePort == "transfer"
            && m.msg.sourceChannel == msg.channel
            && m.msg.sender == env.contract.address
            && m.msg.receiver == msg.to
            && m.msg.token == Coin(msg.denom, msg.amount)
            && m.msg.timeoutHeight == msg.timeoutHeight
            && m.msg.timeoutTimestamp == 0
            && m.msg.memo == ""
            && m.msg.fee == MinFee
  {
    var sender := info.sender;
    var coin := Coin(msg.denom, msg.amount);
    var transfer := NeutronMsgIbcTransfer("transfer", msg.channel, coin, env.contract.address, msg.to,
                                          msg.timeoutHeight, 0, "", MinFee);
    var newId := s.runningId + 1;
    var s' := s.(runningId := newId, replyQueue := s.replyQueue[newId := sender]);
    (NeutronOk([SubMsgIbcTransfer(newId, transfer, "always")]), s')
  }

  /** `reply_helper`: the acknowledgement of a submessage. A known id leaves
      the queue and its sender joins the acknowledged ones; an unknown id
      is an error that changes nothing. */
  function ReplyHelper(env: Env, msg: Reply, s: ContractStorage): (r: (StdResult, ContractStorage))
    ensures msg.id !in s.replyQueue ==> r == (Err(Error("got reply to unknown transfer")), s)
    ensures msg.id in s.replyQueue ==>
              && r.0 == Ok(Response("got reply to successful transfer"))
              && r.1.replyQueue.Keys == s.replyQueue.Keys - {msg.id}
              && (forall k | k in r.1.replyQueue :: r.1.replyQueue[k] == s.replyQueue[k])
              && r.1.successfulTransfers == s.successfulTransfers + {s.replyQueue[msg.id]}
              && r.1.runningId == s.runningId
              && r.1.contractVersion == s.contractVersion
  {
    if msg.id !in s.replyQueue then
      (Err(Error("got reply to unknown transfer")), s)
    else
      var replyTo := s.replyQueue[msg.id];
      var s' := s.(replyQueue := QuintStdlib.MapRemove(s.replyQueue, msg.id),
                   successfulTransfers := s.successfulTransfers + {replyTo});
      (Ok(Response("got reply to successful transfer")), s')
  }

  /** Instantiating a second time changes nothing more. */
  lemma {:induction false} InstantiateIdempotent(s: ContractStorage, info: MsgInfo, msg: InstantiateMsg, info': MsgInfo, msg': InstantiateMsg)
    ensures var once := InstantiateHelper(s, info, msg).1;
            InstantiateHelper(once, info', msg') == (Ok(Response("instantiated")), once)
  {
  }

  /** None of the three operations hands out an id above the counter or
      lowers the counter below a pending id. */
  lemma {:induction false} InstantiateKeepsKeysIssued(s: ContractStorage, info: MsgInfo, msg: InstantiateMsg)
    requires KeysIssued(s)
    ensures KeysIssued(InstantiateHelper(s, info, msg).1)
  {
  }

  lemma {:induction false} SendKeepsKeysIssued<H>(info: MsgInfo, env: Env, msg: ExecuteMsgSend<H>, s: ContractStorage)
    requires s.runningId < I64Max
    requires KeysIssued(s)
    ensures KeysIssued(ExecuteSendHelper(info, env, msg, s).1)
  {
  }

  lemma {:induction false} ReplyKeepsKeysIssued(env: Env, msg: Reply, s: ContractStorage)
    requires KeysIssued(s)
    ensures KeysIssued(ReplyHelper(env, msg, s).1)
  {
  }

  /** With every pending id issued, a send never overwrites a pending
      transfer: its id is fresh and the queue grows by exactly that id. */
  lemma {:induction false} SendIdFresh<H>(info: MsgInfo, env: Env, msg: ExecuteMsgSend<H>, s: ContractStorage)
    requires s.runningId < I64Max
    requires KeysIssued(s)
    ensures var r := ExecuteSendHelper(info, env, msg, s);
            && r.0.messages[0].id !in s.replyQueue
            && r.1.replyQueue.Keys == s.replyQueue.Keys + {r.0.messages[0].id}
            && |r.1.replyQueue| == |s.replyQueue| + 1
  {
    var r := ExecuteSendHelper(info, env, msg, s);
    var id := s.runningId + 1;
    assert id !in s.replyQueue;
    assert r.1.replyQueue.Keys == s.replyQueue.Keys + {id};
  }

  /** The acknowledgement of a fresh transfer undoes its queue entry and
      records its sender. */
  lemma {:induction false} SendThenReply<H>(info: MsgInfo, env: Env, msg: ExecuteMsgSend<H>, s: ContractStorage, env': Env, result: StdResult)
    requires s.runningId < I64Max
    requires KeysIssued(s)
    ensures var sent := ExecuteSendHelper(info, env, msg, s);
            var replied := ReplyHelper(env', Reply(sent.0.messages[0].id, result), sent.1);
            && replied.0 == Ok(Response("got reply to successful transfer"))
            && replied.1.replyQueue == s.replyQueue
            && replied.1.successfulTransfers == s.successfulTransfers + {info.sender}
            && replied.1.runningId == s.runningId + 1
  {
    var sent := ExecuteSendHelper(info, env, msg, s);
    var replied := ReplyHelper(env', Reply(sent.0.messages[0].id, result), sent.1);
    SendIdFresh(info, env, msg, s);
    assert replied.1.replyQueue == s.replyQueue;
  }

  /** A transfer is acknowledged at most once: a second reply with the same
      id is the unknown-transfer error and changes nothing. */
  lemma {:induction false} ReplyTwiceFails(env: Env, msg: Reply, s: ContractStorage, env': Env, result: StdResult)
    requires msg.id in s.replyQueue
    ensures var once := ReplyHelper(env, msg, s).1;
            ReplyHelper(env', Reply(msg.id, result), once) == (Err(Error("got reply to unknown transfer")), once)
  {
  }

  /** One call into the contract. */
  datatype Action<H> =
    | Instantiate(info: MsgInfo, instantiateMsg: InstantiateMsg)
    | Send(info: MsgInfo, env: Env, sendMsg: ExecuteMsgSend<H>)
    | ReplyTo(env: Env, reply: Reply)

  /** The storage after one call; `None` when the call panics, which only
      a send at the largest id does. An error answer is not a panic: the
      storage it returns is kept. */
  function Step<H>(s: ContractStorage, a: Action<H>): (r: Wrappers.Option<ContractStorage>)
    ensures r.None? <==> a.Send? && s.runningId >= I64Max
  {
    match a
    case Instantiate(info, m) => Wrappers.Some(InstantiateHelper(s, info, m).1)
    case Send(info, env, m) =>
      if s.runningId >= I64Max then Wrappers.None else Wrappers.Some(ExecuteSendHelper(info, env, m, s).1)
    case ReplyTo(env, m) => Wrappers.Some(ReplyHelper(env, m, s).1)
  }

  lemma {:induction false} StepKeepsKeysIssued<H>(s: ContractStorage, a: Action<H>)
    requires KeysIssued(s)
    ensures Step(s, a).Some? ==> KeysIssued(Step(s, a).value)
  {
    match a
    case Instantiate(info, m) => InstantiateKeepsKeysIssued(s, info, m);
    case Send(info, env, m) =>
      if s.runningId < I64Max {
        SendKeepsKeysIssued(info, env, m, s);
      }
    case ReplyTo(env, m) => ReplyKeepsKeysIssued(env, m, s);
  }

  /** The storage after a sequence of calls, or `None` if one panics. */
  function Run<H>(s: ContractStorage, actions: seq<Action<H>>): Wrappers.Option<ContractStorage>
    decreases |actions|
  {
    if |actions| == 0 then Wrappers.Some(s)
    else
      match Step(s, actions[0])
      case None => Wrappers.None
      case Some(s') => Run(s', actions[1..])
  }

  /** From the default storage, every sequence of calls that does not panic
      ends in a storage whose pending ids have all been issued. */
  lemma {:induction false} RunKeepsKeysIssued<H>(s: ContractStorage, actions: seq<Action<H>>)
    requires KeysIssued(s)
    ensures Run(s, actions).Some? ==> KeysIssued(Run(s, actions).value)
    decreases |actions|
  {
    if |actions| > 0 {
      match Step(s, actions[0])
      case None =>
      case Some(s') =>
        StepKeepsKeysIssued(s, actions[0]);
        RunKeepsKeysIssued(s', actions[1..]);
    }
  }

  lemma {:induction false} ReachableKeysIssued<H>(actions: seq<Action<H>>)
    ensures Run(DefaultStorage, actions).Some? ==> KeysIssued(Run(DefaultStorage, actions).value)
  {
    RunKeepsKeysIssued(DefaultStorage, actions);
  }
}
