/** The vocabulary of the simulated NIC: virtual networks, message and request
    kinds, the records behind BxiMsg and BxiRequest, and the global settings that
    change what the handlers do. */
module Wire {

  datatype Option<+T> = None | Some(value: T)

  type Nid = nat
  type Pid = nat
  type MsgId = nat
  type ReqId = nat

  datatype Vn = ServiceRequest | ComputeRequest | ServiceResponse | ComputeResponse

  datatype MsgType =
    | E2eAck | PtlAck | GetResponse | PtlPut | PtlGet | PtlAtomic | PtlFetchAtomic | FetchAtomicResponse

  datatype ReqType = FetchAtomicReq | AtomicReq | PutReq | GetReq

  datatype Phase = Created | Received | Answered | Finished

  datatype AckReq = NoAckReq | CtAckReq | OcAckReq | FullAckReq

  datatype NiFail = NiOk | NiTargetInvalid | NiPtDisabled

  datatype ListKind = Priority | Overflow

  /** Settings shared by the whole simulated machine; a limit of 0 disables that flow-control layer. */
  datatype Config = Config(
    e2eOff: bool,
    quickAcks: bool,
    maxRetries: nat,
    maxToTarget: nat,
    maxToProcess: nat)

  const MAX_E2E_ENTRIES: nat := 8192
  const CQ_INITIAL_CAPACITY: nat := 16
  const ACK_SIZE: nat := 32

  /** One message on the simulated network. `service` is the flag of its request, which never changes. `origin` is
      history: the message this one is a copy of, or itself, so that a credit can be told by who paid for it. */
  datatype Msg = Msg(
    initiator: Nid,
    target: Nid,
    typ: MsgType,
    service: bool,
    retry: nat,
    req: ReqId,
    refCount: int,
    fail: NiFail,
    answers: Option<MsgId>,
    size: nat,
    origin: MsgId)

  /** What the target's matching engine found for a request message. `silent` stands for
      COMM_DISABLE or SUCCESS_DISABLE on the entry. */
  datatype Match =
    | NoMatch(fail: NiFail)
    | Matched(list: ListKind, ackDisable: bool, silent: bool, ctComm: bool, mlength: nat, offset: nat)

  /** What the initiator's queues and counters see of one request. */
  datatype InitiatorEvent =
    | SendCount | SendEvent
    | AckCount | AckEvent(fail: NiFail, mlength: nat, offset: nat)
    | ReplyCount | ReplyEvent(fail: NiFail, mlength: nat, offset: nat)

  /** What happens at the target: `Effect` is the memory update with the offset advance. */
  datatype TargetEvent = Effect | TargetCount | HeaderPush | DirectEvent | OverflowEvent

  /** What the user asks for: the fixed part of a request. `ctReply` is read from the descriptor
      the reply is delivered to. */
  datatype Command = Command(
    typ: ReqType,
    src: Nid,
    srcPid: Pid,
    dst: Nid,
    targetPid: Pid,
    service: bool,
    ackReq: AckReq,
    ctSend: bool,
    ctAck: bool,
    ctReply: bool,
    sendEvents: bool,
    length: nat)

  /** One Portals operation. `header` and `token` are history: the message queued as unexpected
      header for this request, and the message whose delivery moves the request forward. */
  datatype Req = Req(
    command: Command,
    phase: Phase,
    msgRefs: int,
    sendIssued: bool,
    getIssued: bool,
    matched: Option<Match>,
    initiatorLog: seq<InitiatorEvent>,
    targetLog: seq<TargetEvent>,
    header: Option<MsgId>,
    token: MsgId)

  /** The mlength and target offset a request reports; nothing sets them before a match. */
  function ReportedLength(q: Req): nat {
    if q.matched.Some? && q.matched.value.Matched? then q.matched.value.mlength else 0
  }

  function ReportedOffset(q: Req): nat {
    if q.matched.Some? && q.matched.value.Matched? then q.matched.value.offset else 0
  }

  predicate IsRequest(t: MsgType) {
    t.PtlPut? || t.PtlGet? || t.PtlAtomic? || t.PtlFetchAtomic?
  }

  predicate IsReply(t: MsgType) {
    t.PtlAck? || t.GetResponse? || t.FetchAtomicResponse?
  }

  function RequestVn(service: bool): Vn {
    if service then ServiceRequest else ComputeRequest
  }

  function ResponseVn(service: bool): Vn {
    if service then ServiceResponse else ComputeResponse
  }

  function GetVn(t: MsgType, service: bool): Vn {
    if IsRequest(t) then RequestVn(service) else ResponseVn(service)
  }

  predicate IsRequestVn(vn: Vn) {
    vn.ServiceRequest? || vn.ComputeRequest?
  }

  function Rank(p: Phase): nat {
    match p
    case Created => 0
    case Received => 1
    case Answered => 2
    case Finished => 3
  }
}
