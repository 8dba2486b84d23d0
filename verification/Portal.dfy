/** One portal as a state machine: its registries, its mailbox messages, and what one turn does with one message. */
module Portal {
  import opened Bytes
  import opened Codec
  import opened Refs

  type ActorId = nat
  type OpaqueId = nat

  type Uuid = b: seq<byte> | |b| == 16 witness seq(16, _ => 0)

  datatype Introduction = Introduction(contribution: Uuid, side: nat)

  /** The text of a handshake: a readable introduction, or something `serde_json` rejects. */
  datatype HandshakeText = Intro(intro: Introduction) | Unreadable

  datatype LookupError = ActorNotFound | TransmissionError

  datatype Lookup = Found(id: RemoteId) | Missing(error: LookupError)

  /** A message a proxy handed to its portal, with the id it was sent to. */
  datatype Job = Job(target: RemoteId, ty: Ty, value: Val)

  /** Serialized message; `tag` is the number of the job it came from. No handler looks at the tag. */
  datatype Payload = Payload(bytes: seq<byte>, tag: nat)

  datatype CrossPortal =
    | RequestActorByName(id: nat, name: string)
    | ResponseActorByName(id: nat, result: Lookup)
    | ResponseActorById(id: nat, result: Lookup)
    | SendMessage(target: RemoteId, payload: Payload)
    | ActorExited(who: RemoteId)

  /** Content of a frame: a decodable message, or bytes bincode rejects. */
  datatype Data = Decoded(msg: CrossPortal) | Undecodable

  datatype Packet = HandshakePacket(text: HandshakeText) | ContentPacket(data: Data)

  /** One-shot reply channels: the application's, and those of the detached serialization tasks. */
  datatype Port = UserPort(n: nat) | TaskPort(tag: nat)

  datatype Mail =
    | Handshake(text: HandshakeText)
    | Content(data: Data)
    | Close
    | ImmaterializeMessage(job: Job)
    | TransmitMessage(target: RemoteId, payload: Payload)
    | PublishNamedActor(name: string, actor: ActorId, receiver: Ty, reply: Option<Port>)
    | PublishActor(actor: ActorId, receiver: Ty, reply: Option<Port>)
    | RegisterProxy(remote: RemoteId, proxy: ActorId)
    | QueryNamedRemoteActor(name: string, port: Port)
    | WaitForHandshake(port: Port)
    | LocalActorExited(actor: ActorId)

  datatype Channel = Opening(intro: Introduction) | Open(id: nat)

  datatype Cause =
    | BadHandshake | BadContent | BadPayload | TargetStopped | ReplyDropped | SinkBroken | NexusGone | CounterOverflow

  /** Everything but `Running` is final: a stopped or failed actor takes no more turns. */
  datatype Status = Running | Closed | ProtocolViolation | Failed(cause: Cause)

  datatype Published = Published(actor: ActorId, receiver: Ty)

  type Registry = map<OpaqueId, Published>

  datatype Answer = Opened | Issued(id: RemoteId) | MaybeIssued(maybe: Option<RemoteId>)

  datatype Delivery = Delivery(actor: ActorId, value: Val, tag: nat)

  /** The `error!` lines that report a message nothing could be done with. */
  datatype Complaint = UnknownRequest | UnknownTarget | UnknownProxy | UnknownActor | BeforeHandshake

  /** What the portal has done to the outside so far, in order. */
  datatype Log = Log(
    sent: seq<Packet>,                       // written to the conduit sink
    replies: seq<(Port, Answer)>,            // publish and handshake replies
    asked: seq<(string, Port)>,              // lookups accepted from the application
    answered: seq<(Port, Lookup)>,           // lookup results handed out
    spawned: seq<Job>,                       // serialization tasks started, with the value each serializes
    delivered: seq<Delivery>,                // messages passed to local actors
    started: seq<(RemoteId, ActorId)>,       // proxies started while rematerializing
    stopped: seq<(RemoteId, ActorId)>,       // proxies stopped
    watched: seq<ActorId>,                   // exit watchers started
    named: seq<(string, ActorId)>,           // name publications handled
    learned: set<RemoteId>,                  // ids received from the peer
    complaints: seq<Complaint>)

  datatype Portal = Portal(
    localId: nat,
    channel: Channel,
    published: Registry,
    named: map<string, OpaqueId>,
    proxies: map<RemoteId, ActorId>,
    nextRequestId: nat,
    openRequests: map<nat, Port>,
    waiting: seq<Port>,
    status: Status,
    log: Log)

  /** What a turn meets outside: a uuid nobody has, the nexus registry (or no nexus), the reply channels whose receiver is
      gone, the stopped actors, whether the sink still works, what the target's rematerializer makes of an incoming
      payload, and the ids of the proxies it starts for the references inside. */
  datatype World = World(
    uuid: OpaqueId, nexus: Option<map<string, Published>>, dropped: set<Port>, gone: set<ActorId>, sinkOk: bool,
    inbound: Option<Val>, proxies: seq<ActorId>)

  // ------------------------------------------------------------------------------------------------
  // The registry of published actors

  ghost predicate Injective(r: Registry) {
    forall j, k :: j in r && k in r && r[j].actor == r[k].actor ==> j == k
  }

  ghost predicate IsPublished(r: Registry, actor: ActorId) {
    exists k :: k in r && r[k].actor == actor
  }

  ghost function IdOf(r: Registry, actor: ActorId): (k: OpaqueId)
    requires IsPublished(r, actor)
    ensures k in r && r[k].actor == actor
  {
    var k :| k in r && r[k].actor == actor; k
  }

  /** `publish_actor`: an actor keeps the id it was first published under. */
  ghost function Publish(p: Portal, actor: ActorId, receiver: Ty, w: World): Portal {
    if IsPublished(p.published, actor) then p
    else p.(published := p.published[w.uuid := Published(actor, receiver)],
            log := p.log.(watched := p.log.watched + [actor]))
  }

  /** The id under which this portal's peer knows a published actor. */
  function Rid(p: Portal, id: OpaqueId): RemoteId
    requires p.channel.Open?
  {
    RemoteId(p.channel.id, p.localId, id)
  }

  // ------------------------------------------------------------------------------------------------
  // Handshake

  function XorByte(a: byte, b: byte): byte {
    ((a as bv8) ^ (b as bv8)) as byte
  }

  function XorArrays(a: Uuid, b: Uuid): Uuid {
    seq(16, i requires 0 <= i < 16 => XorByte(a[i], b[i]))
  }

  /** The id of the conduit: both contributions xored, read as a little-endian u128. */
  function ConduitId(a: Uuid, b: Uuid): nat {
    FromLe(XorArrays(a, b))
  }

  function Initial(localId: nat, contribution: Uuid): Portal {
    var intro := Introduction(contribution, localId);
    Portal(localId, Opening(intro), map[], map[], map[], 1, map[], [], Running,
           Log([HandshakePacket(Intro(intro))], [], [], [], [], [], [], [], [], [], {}, []))
  }

  /** Releases everyone waiting for the handshake; a receiver that is gone is skipped. */
  function Release(waiting: seq<Port>, dropped: set<Port>): seq<(Port, Answer)> {
    if waiting == [] then []
    else (if waiting[0] in dropped then [] else [(waiting[0], Opened)]) + Release(waiting[1..], dropped)
  }

  function OnHandshake(p: Portal, text: HandshakeText, w: World): Portal {
    if p.channel.Open? then p.(status := ProtocolViolation)
    else if text.Unreadable? then p.(status := Failed(BadHandshake))
    else p.(channel := Open(ConduitId(p.channel.intro.contribution, text.intro.contribution)),
            waiting := [],
            log := p.log.(replies := p.log.replies + Release(p.waiting, w.dropped)))
  }

  // ------------------------------------------------------------------------------------------------
  // Single effects

  function Send(p: Portal, msg: CrossPortal, w: World): Portal {
    if w.sinkOk then p.(log := p.log.(sent := p.log.sent + [ContentPacket(Decoded(msg))]))
    else p.(status := Failed(SinkBroken))
  }

  function Complain(p: Portal, c: Complaint): Portal {
    p.(log := p.log.(complaints := p.log.complaints + [c]))
  }

  /** Using a reply channel; a dropped receiver ends the portal. */
  function Reply(p: Portal, port: Port, answer: Answer, w: World): Portal {
    if port in w.dropped then p.(status := Failed(ReplyDropped))
    else p.(log := p.log.(replies := p.log.replies + [(port, answer)]))
  }

  function Remotes(addrs: seq<Address>): (ids: seq<RemoteId>)
    ensures |ids| <= |addrs|
  {
    if addrs == [] then []
    else (if addrs[0].Remote? then [addrs[0].id] else []) + Remotes(addrs[1..])
  }

  function ToSet(ids: seq<RemoteId>): set<RemoteId> {
    set id | id in ids
  }

  /** Proxies for the references inside a rematerialized message, in order. */
  function Started(ids: seq<RemoteId>, proxies: seq<ActorId>): seq<(RemoteId, ActorId)> {
    if ids == [] || proxies == [] then [] else [(ids[0], proxies[0])] + Started(ids[1..], proxies[1..])
  }

  // ------------------------------------------------------------------------------------------------
  // Content from the peer

  /** The portal's own names come first, then those of the nexus, whose actor is published on the way. */
  ghost function OnRequest(p: Portal, id: nat, name: string, w: World): Portal
    requires p.channel.Open?
  {
    if name in p.named then Send(p, ResponseActorByName(id, Found(Rid(p, p.named[name]))), w)
    else if w.nexus.None? then p.(status := Failed(NexusGone))
    else if name in w.nexus.value then
      RespondPublished(Publish(p, w.nexus.value[name].actor, w.nexus.value[name].receiver, w), id,
                       w.nexus.value[name].actor, w)
    else Send(p, ResponseActorByName(id, Missing(ActorNotFound)), w)
  }

  ghost function RespondPublished(q: Portal, id: nat, actor: ActorId, w: World): Portal
    requires q.channel.Open?
  {
    Send(q, ResponseActorByName(id, Found(Rid(q, PublishedId(q, actor)))), w)
  }

  /** The id an actor has once it is published. */
  ghost function PublishedId(p: Portal, actor: ActorId): OpaqueId {
    if IsPublished(p.published, actor) then IdOf(p.published, actor) else 0
  }

  function OnResponse(p: Portal, id: nat, result: Lookup, w: World): Portal {
    if id in p.openRequests then
      var port := p.openRequests[id];
      var q := p.(openRequests := p.openRequests - {id});
      if port in w.dropped then q.(status := Failed(ReplyDropped))
      else
        q.(log := q.log.(answered := q.log.answered + [(port, result)],
                         learned := q.log.learned + if result.Found? then {result.id} else {}))
    else Complain(p, UnknownRequest)
  }

  function OnSendMessage(p: Portal, target: RemoteId, payload: Payload, w: World): Portal {
    if target.id !in p.published then Complain(p, UnknownTarget)
    else if w.inbound.None? then p.(status := Failed(BadPayload))
    else
      var ids := Remotes(Addresses(w.inbound.value));
      var q := p.(log := p.log.(started := p.log.started + Started(ids, w.proxies)));
      if p.published[target.id].actor in w.gone then q.(status := Failed(TargetStopped))
      else
        q.(log := q.log.(
             delivered := q.log.delivered + [Delivery(p.published[target.id].actor, w.inbound.value, payload.tag)],
             learned := q.log.learned + ToSet(ids)))
  }

  function OnActorExited(p: Portal, who: RemoteId): Portal {
    if who in p.proxies then
      p.(proxies := p.proxies - {who}, log := p.log.(stopped := p.log.stopped + [(who, p.proxies[who])]))
    else Complain(p, UnknownProxy)
  }

  ghost function OnContent(p: Portal, data: Data, w: World): Portal {
    if p.channel.Opening? then p.(status := ProtocolViolation)
    else if data.Undecodable? then p.(status := Failed(BadContent))
    else
      match data.msg
      case RequestActorByName(id, name) => OnRequest(p, id, name, w)
      case ResponseActorByName(id, result) => OnResponse(p, id, result, w)
      case ResponseActorById(id, result) => OnResponse(p, id, result, w)
      case SendMessage(target, payload) => OnSendMessage(p, target, payload, w)
      case ActorExited(who) => OnActorExited(p, who)
  }

  // ------------------------------------------------------------------------------------------------
  // Messages from this side

  ghost function OnPublishNamed(p: Portal, name: string, actor: ActorId, receiver: Ty, reply: Option<Port>, w: World)
    : Portal
  {
    var q := Publish(p, actor, receiver, w);
    var id := PublishedId(q, actor);
    var r := q.(named := q.named[name := id], log := q.log.(named := q.log.named + [(name, actor)]));
    if reply.None? then r
    else Reply(r, reply.value, MaybeIssued(if r.channel.Open? then Some(Rid(r, id)) else None), w)
  }

  ghost function OnPublish(p: Portal, actor: ActorId, receiver: Ty, reply: Option<Port>, w: World): Portal {
    if reply.Some? && p.channel.Opening? then Complain(p, BeforeHandshake)
    else
      var q := Publish(p, actor, receiver, w);
      if reply.None? then q else Reply(q, reply.value, Issued(Rid(q, PublishedId(q, actor))), w)
  }

  function OnQuery(p: Portal, name: string, port: Port, w: World): Portal {
    if p.channel.Opening? then Complain(p, BeforeHandshake)
    else if p.nextRequestId == U64_LIMIT - 1 then p.(status := Failed(CounterOverflow))
    else
      var q := p.(nextRequestId := p.nextRequestId + 1,
                  openRequests := p.openRequests[p.nextRequestId := port],
                  log := p.log.(asked := p.log.asked + [(name, port)]));
      Send(q, RequestActorByName(p.nextRequestId, name), w)
  }

  /** What a reply port without a timeout gets, in milliseconds. */
  const DEFAULT_RPC_PORT_TIMEOUT: nat := 120_000

  /** The job as its task serializes it. */
  function Accepts(job: Job): Job {
    job.(value := WithTimeouts(job.value, DEFAULT_RPC_PORT_TIMEOUT))
  }

  function OnImmaterialize(p: Portal, job: Job): Portal {
    if p.channel.Opening? then Complain(p, BeforeHandshake)
    else p.(log := p.log.(spawned := p.log.spawned + [Accepts(job)]))
  }

  function OnTransmit(p: Portal, target: RemoteId, payload: Payload, w: World): Portal {
    if p.channel.Opening? then Complain(p, BeforeHandshake) else Send(p, SendMessage(target, payload), w)
  }

  function OnRegister(p: Portal, remote: RemoteId, proxy: ActorId): Portal {
    if p.channel.Opening? then Complain(p, BeforeHandshake) else p.(proxies := p.proxies[remote := proxy])
  }

  function OnWait(p: Portal, port: Port, w: World): Portal {
    if p.channel.Opening? then p.(waiting := p.waiting + [port]) else Reply(p, port, Opened, w)
  }

  ghost function OnLocalExit(p: Portal, actor: ActorId, w: World): Portal {
    if p.channel.Opening? then Complain(p, BeforeHandshake)
    else if !IsPublished(p.published, actor) then Complain(p, UnknownActor)
    else Send(p, ActorExited(Rid(p, IdOf(p.published, actor))), w)
  }

  /** One turn: `PortalActor::handle`. */
  ghost function Turn(p: Portal, m: Mail, w: World): Portal {
    match m
    case Handshake(text) => OnHandshake(p, text, w)
    case Content(data) => OnContent(p, data, w)
    case Close => p.(status := Closed)
    case ImmaterializeMessage(job) => OnImmaterialize(p, job)
    case TransmitMessage(target, payload) => OnTransmit(p, target, payload, w)
    case PublishNamedActor(name, actor, receiver, reply) => OnPublishNamed(p, name, actor, receiver, reply, w)
    case PublishActor(actor, receiver, reply) => OnPublish(p, actor, receiver, reply, w)
    case RegisterProxy(remote, proxy) => OnRegister(p, remote, proxy)
    case QueryNamedRemoteActor(name, port) => OnQuery(p, name, port, w)
    case WaitForHandshake(port) => OnWait(p, port, w)
    case LocalActorExited(actor) => OnLocalExit(p, actor, w)
  }
}
