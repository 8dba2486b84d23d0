/** How a turn ends and what it complains about, as tables: each end and each complaint happens exactly on its condition. */
module PortalEnds {
  import opened Bytes
  import opened Portal
  import opened PortalFrames
  import opened PortalTheorems

  // ------------------------------------------------------------------------------------------------
  // Ends

  /** An open portal that handles this has something to send. */
  ghost predicate Speaks(p: Portal, m: Mail, w: World) {
    && p.channel.Open?
    && match m
       case Content(Decoded(RequestActorByName(_, name))) => name in p.named || w.nexus.Some?
       case QueryNamedRemoteActor(_, _) => p.nextRequestId != U64_LIMIT - 1
       case TransmitMessage(_, _) => true
       case LocalActorExited(actor) => IsPublished(p.published, actor)
       case _ => false
  }

  /** The reply channel a turn answers on, if it answers on one. */
  function AnswersOn(p: Portal, m: Mail): Option<Port> {
    match m
    case PublishNamedActor(_, _, _, reply) => reply
    case PublishActor(_, _, reply) => if p.channel.Open? then reply else None
    case WaitForHandshake(port) => if p.channel.Open? then Some(port) else None
    case Content(Decoded(ResponseActorByName(id, _))) =>
      if p.channel.Open? && id in p.openRequests then Some(p.openRequests[id]) else None
    case Content(Decoded(ResponseActorById(id, _))) =>
      if p.channel.Open? && id in p.openRequests then Some(p.openRequests[id]) else None
    case _ => None
  }

  /** A message for a published actor. */
  predicate ForPublished(p: Portal, m: Mail) {
    IsSendMessage(m) && p.channel.Open? && m.data.msg.target.id in p.published
  }

  /** When a turn ends the portal this way. */
  ghost predicate Ends(p: Portal, m: Mail, w: World, status: Status) {
    match status
    case Running => true
    case Closed => m.Close?
    case ProtocolViolation => (m.Handshake? && p.channel.Open?) || (m.Content? && p.channel.Opening?)
    case Failed(BadHandshake) => m == Handshake(Unreadable) && p.channel.Opening?
    case Failed(BadContent) => m == Content(Undecodable) && p.channel.Open?
    case Failed(BadPayload) => ForPublished(p, m) && w.inbound.None?
    case Failed(TargetStopped) =>
      ForPublished(p, m) && w.inbound.Some? && p.published[m.data.msg.target.id].actor in w.gone
    case Failed(ReplyDropped) => AnswersOn(p, m).Some? && AnswersOn(p, m).value in w.dropped
    case Failed(SinkBroken) => Speaks(p, m, w) && !w.sinkOk
    case Failed(NexusGone) => IsRequest(m) && p.channel.Open? && m.data.msg.name !in p.named && w.nexus.None?
    case Failed(CounterOverflow) =>
      m.QueryNamedRemoteActor? && p.channel.Open? && p.nextRequestId == U64_LIMIT - 1
  }

  /** Nothing else ends it. */
  ghost predicate EndsExactly(p: Portal, m: Mail, w: World, after: Status) {
    && Ends(p, m, w, after)
    && (after.Running? ==> forall status :: Ends(p, m, w, status) ==> status.Running?)
  }

  lemma TurnEnds(p: Portal, m: Mail, w: World)
    requires p.status.Running?
    ensures EndsExactly(p, m, w, Turn(p, m, w).status)
  {
    match m
    case Content(data) => ContentEnds(p, m, w);
    case PublishNamedActor(_, _, _, _) => PublishEnds(p, m, w);
    case PublishActor(_, _, _) => PublishEnds(p, m, w);
    case QueryNamedRemoteActor(_, _) => QueryEnds(p, m, w);
    case LocalActorExited(_) => ExitEnds(p, m, w);
    case Handshake(_) => HandshakeEnds(p, m, w);
    case WaitForHandshake(_) => WaitEnds(p, m, w);
    case TransmitMessage(_, _) => TransmitEnds(p, m, w);
    case _ => OtherEnds(p, m, w);
  }

  lemma WaitEnds(p: Portal, m: Mail, w: World)
    requires p.status.Running? && m.WaitForHandshake?
    ensures EndsExactly(p, m, w, Turn(p, m, w).status)
  {
  }

  lemma TransmitEnds(p: Portal, m: Mail, w: World)
    requires p.status.Running? && m.TransmitMessage?
    ensures EndsExactly(p, m, w, Turn(p, m, w).status)
  {
  }

  lemma HandshakeEnds(p: Portal, m: Mail, w: World)
    requires p.status.Running? && m.Handshake?
    ensures EndsExactly(p, m, w, Turn(p, m, w).status)
  {
  }

  lemma QueryEnds(p: Portal, m: Mail, w: World)
    requires p.status.Running? && m.QueryNamedRemoteActor?
    ensures EndsExactly(p, m, w, Turn(p, m, w).status)
  {
  }

  lemma ExitEnds(p: Portal, m: Mail, w: World)
    requires p.status.Running? && m.LocalActorExited?
    ensures EndsExactly(p, m, w, Turn(p, m, w).status)
  {
  }

  lemma OtherEnds(p: Portal, m: Mail, w: World)
    requires p.status.Running?
    requires m.Close? || m.ImmaterializeMessage? || m.RegisterProxy?
    ensures EndsExactly(p, m, w, Turn(p, m, w).status)
  {
  }

  lemma PublishEnds(p: Portal, m: Mail, w: World)
    requires p.status.Running? && (m.PublishNamedActor? || m.PublishActor?)
    ensures EndsExactly(p, m, w, Turn(p, m, w).status)
  {
    FramePublish(p, m.actor, m.receiver, w);
  }

  lemma ContentEnds(p: Portal, m: Mail, w: World)
    requires p.status.Running? && m.Content?
    ensures EndsExactly(p, m, w, Turn(p, m, w).status)
  {
    if p.channel.Opening? || m.data.Undecodable? {
      UnreadEnds(p, m, w);
    } else if IsRequest(m) {
      RequestEnds(p, m, w);
    } else if IsResponse(m) {
      ResponseEnds(p, m, w);
    } else if IsSendMessage(m) {
      MessageEnds(p, m, w);
    } else {
      NoticeEnds(p, m, w);
    }
  }

  lemma UnreadEnds(p: Portal, m: Mail, w: World)
    requires p.status.Running? && m.Content? && (p.channel.Opening? || m.data.Undecodable?)
    ensures EndsExactly(p, m, w, Turn(p, m, w).status)
  {
  }

  lemma ResponseEnds(p: Portal, m: Mail, w: World)
    requires p.status.Running? && IsResponse(m) && p.channel.Open?
    ensures EndsExactly(p, m, w, Turn(p, m, w).status)
  {
    assert Turn(p, m, w) == OnResponse(p, m.data.msg.id, m.data.msg.result, w);
    ResponseStatus(p, m.data.msg.id, m.data.msg.result, w);
  }

  lemma ResponseStatus(p: Portal, id: nat, result: Lookup, w: World)
    ensures OnResponse(p, id, result, w).status
         == if id in p.openRequests && p.openRequests[id] in w.dropped then Failed(ReplyDropped) else p.status
  {
  }

  lemma MessageEnds(p: Portal, m: Mail, w: World)
    requires p.status.Running? && IsSendMessage(m) && p.channel.Open?
    ensures EndsExactly(p, m, w, Turn(p, m, w).status)
  {
    assert Turn(p, m, w) == OnSendMessage(p, m.data.msg.target, m.data.msg.payload, w);
  }

  lemma NoticeEnds(p: Portal, m: Mail, w: World)
    requires p.status.Running? && IsExitNotice(m) && p.channel.Open?
    ensures EndsExactly(p, m, w, Turn(p, m, w).status)
  {
    assert Turn(p, m, w) == OnActorExited(p, m.data.msg.who);
  }

  lemma RequestEnds(p: Portal, m: Mail, w: World)
    requires p.status.Running? && IsRequest(m) && p.channel.Open?
    ensures EndsExactly(p, m, w, Turn(p, m, w).status)
  {
    var pub := Publication(p, m, w);
    if pub.Some? {
      FramePublish(p, pub.value.actor, pub.value.receiver, w);
      assert Turn(p, m, w)
          == RespondPublished(Publish(p, pub.value.actor, pub.value.receiver, w), m.data.msg.id, pub.value.actor, w);
    }
  }

  // ------------------------------------------------------------------------------------------------
  // Complaints

  /** Mail that can only be complained about, and how. */
  ghost function ComplaintOf(p: Portal, m: Mail): Option<Complaint> {
    if p.channel.Opening? then
      match m
      case ImmaterializeMessage(_) => Some(BeforeHandshake)
      case TransmitMessage(_, _) => Some(BeforeHandshake)
      case PublishActor(_, _, reply) => if reply.Some? then Some(BeforeHandshake) else None
      case RegisterProxy(_, _) => Some(BeforeHandshake)
      case QueryNamedRemoteActor(_, _) => Some(BeforeHandshake)
      case LocalActorExited(_) => Some(BeforeHandshake)
      case _ => None
    else
      match m
      case Content(Decoded(ResponseActorByName(id, _))) => if id in p.openRequests then None else Some(UnknownRequest)
      case Content(Decoded(ResponseActorById(id, _))) => if id in p.openRequests then None else Some(UnknownRequest)
      case Content(Decoded(SendMessage(target, _))) => if target.id in p.published then None else Some(UnknownTarget)
      case Content(Decoded(ActorExited(who))) => if who in p.proxies then None else Some(UnknownProxy)
      case LocalActorExited(actor) => if IsPublished(p.published, actor) then None else Some(UnknownActor)
      case _ => None
  }

  /** Such mail changes nothing else, and no other mail is complained about. */
  ghost predicate ComplainsExactly(p: Portal, m: Mail, q: Portal) {
    match ComplaintOf(p, m)
    case Some(c) => q == p.(log := p.log.(complaints := p.log.complaints + [c]))
    case None => q.log.complaints == p.log.complaints
  }

  lemma TurnComplains(p: Portal, m: Mail, w: World)
    ensures ComplainsExactly(p, m, Turn(p, m, w))
  {
    match m
    case Content(data) => ContentComplains(p, m, w);
    case PublishNamedActor(_, _, _, _) => PublishComplains(p, m, w);
    case PublishActor(_, _, _) => PublishComplains(p, m, w);
    case LocalActorExited(_) => ExitComplains(p, m, w);
    case QueryNamedRemoteActor(_, _) => QueryComplains(p, m, w);
    case _ => OtherComplains(p, m, w);
  }

  lemma OtherComplains(p: Portal, m: Mail, w: World)
    requires m.Handshake? || m.Close? || m.ImmaterializeMessage? || m.TransmitMessage? || m.RegisterProxy?
          || m.WaitForHandshake?
    ensures ComplainsExactly(p, m, Turn(p, m, w))
  {
  }

  lemma QueryComplains(p: Portal, m: Mail, w: World)
    requires m.QueryNamedRemoteActor?
    ensures ComplainsExactly(p, m, Turn(p, m, w))
  {
  }

  lemma ExitComplains(p: Portal, m: Mail, w: World)
    requires m.LocalActorExited?
    ensures ComplainsExactly(p, m, Turn(p, m, w))
  {
  }

  lemma PublishComplains(p: Portal, m: Mail, w: World)
    requires m.PublishNamedActor? || m.PublishActor?
    ensures ComplainsExactly(p, m, Turn(p, m, w))
  {
    FramePublish(p, m.actor, m.receiver, w);
  }

  lemma ContentComplains(p: Portal, m: Mail, w: World)
    requires m.Content?
    ensures ComplainsExactly(p, m, Turn(p, m, w))
  {
    if p.channel.Opening? || m.data.Undecodable? {
    } else if IsRequest(m) {
      RequestComplains(p, m, w);
    } else if IsResponse(m) {
      assert Turn(p, m, w) == OnResponse(p, m.data.msg.id, m.data.msg.result, w);
    } else if IsSendMessage(m) {
      assert Turn(p, m, w) == OnSendMessage(p, m.data.msg.target, m.data.msg.payload, w);
    } else {
      assert Turn(p, m, w) == OnActorExited(p, m.data.msg.who);
    }
  }

  lemma RequestComplains(p: Portal, m: Mail, w: World)
    requires IsRequest(m) && p.channel.Open?
    ensures Turn(p, m, w).log.complaints == p.log.complaints
  {
    var pub := Publication(p, m, w);
    if pub.Some? {
      FramePublish(p, pub.value.actor, pub.value.receiver, w);
      assert Turn(p, m, w)
          == RespondPublished(Publish(p, pub.value.actor, pub.value.receiver, w), m.data.msg.id, pub.value.actor, w);
    }
  }
}
