/** Which parts of a portal each kind of turn leaves alone. */
module PortalFrames {
  import opened Bytes
  import opened Codec
  import opened Portal

  predicate SameRegistry(p: Portal, q: Portal) {
    q.published == p.published && q.named == p.named && q.log.named == p.log.named && q.log.watched == p.log.watched
  }

  predicate SameChannel(p: Portal, q: Portal) {
    q.channel == p.channel
  }

  predicate SameLookups(p: Portal, q: Portal) {
    && q.nextRequestId == p.nextRequestId && q.openRequests == p.openRequests
    && q.log.asked == p.log.asked && q.log.answered == p.log.answered
  }

  predicate SameSent(p: Portal, q: Portal) {
    q.log.sent == p.log.sent
  }

  predicate SameJobs(p: Portal, q: Portal) {
    q.log.spawned == p.log.spawned
  }

  predicate SameDeliveries(p: Portal, q: Portal) {
    q.log.delivered == p.log.delivered && q.log.started == p.log.started
  }

  predicate SameProxies(p: Portal, q: Portal) {
    q.proxies == p.proxies && q.log.stopped == p.log.stopped
  }

  predicate SameReplies(p: Portal, q: Portal) {
    q.log.replies == p.log.replies && q.waiting == p.waiting
  }

  predicate SameLearned(p: Portal, q: Portal) {
    q.log.learned == p.log.learned
  }

  /** A run-of-the-mill complaint log entry, or none. */
  predicate Complained(p: Portal, q: Portal) {
    p.log.complaints <= q.log.complaints
  }

  predicate Publishes(m: Mail) {
    m.PublishNamedActor? || m.PublishActor? || IsRequest(m)
  }

  predicate IsRequest(m: Mail) {
    m.Content? && m.data.Decoded? && m.data.msg.RequestActorByName?
  }

  predicate IsResponse(m: Mail) {
    m.Content? && m.data.Decoded? && (m.data.msg.ResponseActorByName? || m.data.msg.ResponseActorById?)
  }

  predicate IsSendMessage(m: Mail) {
    m.Content? && m.data.Decoded? && m.data.msg.SendMessage?
  }

  predicate IsExitNotice(m: Mail) {
    m.Content? && m.data.Decoded? && m.data.msg.ActorExited?
  }

  predicate Sends(m: Mail) {
    IsRequest(m) || m.QueryNamedRemoteActor? || m.TransmitMessage? || m.LocalActorExited?
  }

  predicate Replies(m: Mail) {
    m.Handshake? || m.WaitForHandshake? || m.PublishNamedActor? || m.PublishActor?
  }

  predicate IsPassive(m: Mail) {
    m.Close? || (m.Content? && m.data.Undecodable?)
  }

  /** Everything of `p` outside the parts a mail of this kind is about is in `q`. */
  predicate Framed(p: Portal, m: Mail, q: Portal) {
    && q.localId == p.localId
    && Complained(p, q)
    && (Publishes(m) || SameRegistry(p, q))
    && (m.Handshake? || SameChannel(p, q))
    && (m.QueryNamedRemoteActor? || IsResponse(m) || SameLookups(p, q))
    && (Sends(m) || SameSent(p, q))
    && (m.ImmaterializeMessage? || SameJobs(p, q))
    && (IsSendMessage(m) || SameDeliveries(p, q))
    && (IsExitNotice(m) || m.RegisterProxy? || SameProxies(p, q))
    && (Replies(m) || SameReplies(p, q))
    && (IsSendMessage(m) || IsResponse(m) || SameLearned(p, q))
  }

  lemma FrameHandshake(p: Portal, m: Mail, w: World)
    requires m.Handshake?
    ensures Framed(p, m, Turn(p, m, w))
  {
    var q := OnHandshake(p, m.text, w);
    assert q == p.(channel := q.channel, waiting := q.waiting, status := q.status, log := p.log.(replies := q.log.replies));
    assert Turn(p, m, w) == q;
  }

  lemma FrameRequest(p: Portal, m: Mail, w: World)
    requires IsRequest(m)
    ensures Framed(p, m, Turn(p, m, w))
  {
    if p.channel.Open? && m.data.msg.name !in p.named && w.nexus.Some? && m.data.msg.name in w.nexus.value {
      FrameNexusRequest(p, m, w);
    }
  }

  lemma FrameNexusRequest(p: Portal, m: Mail, w: World)
    requires IsRequest(m) && p.channel.Open? && m.data.msg.name !in p.named
    requires w.nexus.Some? && m.data.msg.name in w.nexus.value
    ensures Framed(p, m, Turn(p, m, w))
  {
    var found := w.nexus.value[m.data.msg.name];
    var q := Publish(p, found.actor, found.receiver, w);
    FramePublish(p, found.actor, found.receiver, w);
    assert Turn(p, m, w) == RespondPublished(q, m.data.msg.id, found.actor, w);
    FrameRespond(q, m.data.msg.id, found.actor, w);
  }

  lemma FramePublish(p: Portal, actor: ActorId, receiver: Ty, w: World)
    ensures var q := Publish(p, actor, receiver, w);
      && q == p.(published := q.published, log := p.log.(watched := q.log.watched))
  {
  }

  lemma FrameRespond(q: Portal, id: nat, actor: ActorId, w: World)
    requires q.channel.Open?
    ensures var r := RespondPublished(q, id, actor, w);
      r == q.(status := r.status, log := q.log.(sent := r.log.sent))
  {
  }

  lemma ResponseChanges(p: Portal, id: nat, result: Lookup, w: World)
    ensures var q := OnResponse(p, id, result, w);
      && q == p.(openRequests := q.openRequests, status := q.status,
                 log := p.log.(answered := q.log.answered, learned := q.log.learned, complaints := q.log.complaints))
      && Complained(p, q) && p.log.answered <= q.log.answered && p.log.learned <= q.log.learned
  {
  }

  lemma FrameResponse(p: Portal, m: Mail, w: World)
    requires IsResponse(m)
    ensures Framed(p, m, Turn(p, m, w))
  {
    if p.channel.Open? {
      ResponseChanges(p, m.data.msg.id, m.data.msg.result, w);
      assert Turn(p, m, w) == OnResponse(p, m.data.msg.id, m.data.msg.result, w);
    } else {
      assert Turn(p, m, w) == p.(status := ProtocolViolation);
    }
  }

  lemma SendMessageChanges(p: Portal, target: RemoteId, payload: Payload, w: World)
    ensures var q := OnSendMessage(p, target, payload, w);
      && q == p.(status := q.status,
                 log := p.log.(delivered := q.log.delivered, started := q.log.started, learned := q.log.learned,
                               complaints := q.log.complaints))
      && Complained(p, q) && p.log.delivered <= q.log.delivered && p.log.started <= q.log.started
      && p.log.learned <= q.log.learned
  {
  }

  lemma FrameSendMessage(p: Portal, m: Mail, w: World)
    requires IsSendMessage(m)
    ensures Framed(p, m, Turn(p, m, w))
  {
    if p.channel.Open? {
      SendMessageChanges(p, m.data.msg.target, m.data.msg.payload, w);
      assert Turn(p, m, w) == OnSendMessage(p, m.data.msg.target, m.data.msg.payload, w);
    } else {
      assert Turn(p, m, w) == p.(status := ProtocolViolation);
    }
  }

  lemma FrameExitNotice(p: Portal, m: Mail, w: World)
    requires IsExitNotice(m)
    ensures Framed(p, m, Turn(p, m, w))
  {
    if p.channel.Open? {
      ExitNoticeChanges(p, m.data.msg.who);
      assert Turn(p, m, w) == OnActorExited(p, m.data.msg.who);
    } else {
      assert Turn(p, m, w) == p.(status := ProtocolViolation);
    }
  }

  lemma ExitNoticeChanges(p: Portal, who: RemoteId)
    ensures var q := OnActorExited(p, who);
      && q == p.(proxies := q.proxies, log := p.log.(stopped := q.log.stopped, complaints := q.log.complaints))
      && Complained(p, q)
  {
  }

  lemma FramePassive(p: Portal, m: Mail, w: World)
    requires IsPassive(m)
    ensures Framed(p, m, Turn(p, m, w))
  {
  }

  lemma FrameImmaterialize(p: Portal, m: Mail, w: World)
    requires m.ImmaterializeMessage?
    ensures Framed(p, m, Turn(p, m, w))
  {
    ImmaterializeChanges(p, m.job);
    assert Turn(p, m, w) == OnImmaterialize(p, m.job);
  }

  lemma ImmaterializeChanges(p: Portal, job: Job)
    ensures var q := OnImmaterialize(p, job);
      q == p.(log := p.log.(spawned := q.log.spawned, complaints := q.log.complaints)) && Complained(p, q)
  {
  }

  lemma FrameRegister(p: Portal, m: Mail, w: World)
    requires m.RegisterProxy?
    ensures Framed(p, m, Turn(p, m, w))
  {
    RegisterChanges(p, m.remote, m.proxy);
    assert Turn(p, m, w) == OnRegister(p, m.remote, m.proxy);
  }

  lemma RegisterChanges(p: Portal, remote: RemoteId, proxy: ActorId)
    ensures var q := OnRegister(p, remote, proxy);
      q == p.(proxies := q.proxies, log := p.log.(complaints := q.log.complaints)) && Complained(p, q)
  {
  }

  lemma FrameTransmit(p: Portal, m: Mail, w: World)
    requires m.TransmitMessage?
    ensures Framed(p, m, Turn(p, m, w))
  {
    TransmitChanges(p, m.target, m.payload, w);
    assert Turn(p, m, w) == OnTransmit(p, m.target, m.payload, w);
  }

  lemma TransmitChanges(p: Portal, target: RemoteId, payload: Payload, w: World)
    ensures var q := OnTransmit(p, target, payload, w);
      && q == p.(status := q.status, log := p.log.(sent := q.log.sent, complaints := q.log.complaints))
      && Complained(p, q)
  {
  }

  lemma FramePublishNamed(p: Portal, m: Mail, w: World)
    requires m.PublishNamedActor?
    ensures Framed(p, m, Turn(p, m, w))
  {
    PublishNamedChanges(p, m.name, m.actor, m.receiver, m.reply, w);
    assert Turn(p, m, w) == OnPublishNamed(p, m.name, m.actor, m.receiver, m.reply, w);
  }

  lemma PublishNamedChanges(p: Portal, name: string, actor: ActorId, receiver: Ty, reply: Option<Port>, w: World)
    ensures var q := OnPublishNamed(p, name, actor, receiver, reply, w);
      && q == p.(published := q.published, named := q.named, status := q.status,
                 log := p.log.(watched := q.log.watched, named := q.log.named, replies := q.log.replies,
                               complaints := q.log.complaints))
      && Complained(p, q)
  {
    FramePublish(p, actor, receiver, w);
  }

  lemma FramePublishActor(p: Portal, m: Mail, w: World)
    requires m.PublishActor?
    ensures Framed(p, m, Turn(p, m, w))
  {
    PublishActorChanges(p, m.actor, m.receiver, m.reply, w);
    assert Turn(p, m, w) == OnPublish(p, m.actor, m.receiver, m.reply, w);
  }

  lemma PublishActorChanges(p: Portal, actor: ActorId, receiver: Ty, reply: Option<Port>, w: World)
    ensures var q := OnPublish(p, actor, receiver, reply, w);
      && q == p.(published := q.published, status := q.status,
                 log := p.log.(watched := q.log.watched, replies := q.log.replies, complaints := q.log.complaints))
      && Complained(p, q)
  {
    FramePublish(p, actor, receiver, w);
  }

  lemma FrameQuery(p: Portal, m: Mail, w: World)
    requires m.QueryNamedRemoteActor?
    ensures Framed(p, m, Turn(p, m, w))
  {
    QueryChanges(p, m.name, m.port, w);
    assert Turn(p, m, w) == OnQuery(p, m.name, m.port, w);
  }

  lemma QueryChanges(p: Portal, name: string, port: Port, w: World)
    ensures var q := OnQuery(p, name, port, w);
      && q == p.(nextRequestId := q.nextRequestId, openRequests := q.openRequests, status := q.status,
                 log := p.log.(asked := q.log.asked, sent := q.log.sent, complaints := q.log.complaints))
      && Complained(p, q)
  {
  }

  lemma FrameWait(p: Portal, m: Mail, w: World)
    requires m.WaitForHandshake?
    ensures Framed(p, m, Turn(p, m, w))
  {
    var q := OnWait(p, m.port, w);
    assert q == p.(waiting := q.waiting, status := q.status, log := p.log.(replies := q.log.replies));
    assert Turn(p, m, w) == q;
  }

  lemma FrameLocalExit(p: Portal, m: Mail, w: World)
    requires m.LocalActorExited?
    ensures Framed(p, m, Turn(p, m, w))
  {
    LocalExitChanges(p, m.actor, w);
    assert Turn(p, m, w) == OnLocalExit(p, m.actor, w);
  }

  lemma LocalExitChanges(p: Portal, actor: ActorId, w: World)
    ensures var q := OnLocalExit(p, actor, w);
      && q == p.(status := q.status, log := p.log.(sent := q.log.sent, complaints := q.log.complaints))
      && Complained(p, q)
  {
  }

  lemma TurnFramed(p: Portal, m: Mail, w: World)
    ensures Framed(p, m, Turn(p, m, w))
  {
    match m
    case Handshake(_) => FrameHandshake(p, m, w);
    case Content(data) =>
      if IsPassive(m) { FramePassive(p, m, w); }
      else if IsRequest(m) { FrameRequest(p, m, w); }
      else if IsResponse(m) { FrameResponse(p, m, w); }
      else if IsSendMessage(m) { FrameSendMessage(p, m, w); }
      else { FrameExitNotice(p, m, w); }
    case Close => FramePassive(p, m, w);
    case ImmaterializeMessage(_) => FrameImmaterialize(p, m, w);
    case TransmitMessage(_, _) => FrameTransmit(p, m, w);
    case PublishNamedActor(_, _, _, _) => FramePublishNamed(p, m, w);
    case PublishActor(_, _, _) => FramePublishActor(p, m, w);
    case RegisterProxy(_, _) => FrameRegister(p, m, w);
    case QueryNamedRemoteActor(_, _) => FrameQuery(p, m, w);
    case WaitForHandshake(_) => FrameWait(p, m, w);
    case LocalActorExited(_) => FrameLocalExit(p, m, w);
  }
}
