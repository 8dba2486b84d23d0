/** What one turn puts on the wire. */
module PortalSends {
  import opened Bytes
  import opened Codec
  import opened Portal
  import opened PortalFrames
  import opened PortalTheorems

  /** `id` names one of this portal's published actors to the peer. */
  predicate IssuedBy(p: Portal, id: RemoteId) {
    p.channel.Open? && id.key == p.channel.id && id.side == p.localId && id.id in p.published
  }

  /** Why a portal that is `q` after handling `m` sent `msg`. */
  ghost predicate SentFor(p: Portal, m: Mail, q: Portal, msg: CrossPortal) {
    match msg
    case RequestActorByName(id, name) => m.QueryNamedRemoteActor? && m.name == name && id == p.nextRequestId
    case ResponseActorByName(id, result) =>
      IsRequest(m) && m.data.msg.id == id && (result.Found? ==> IssuedBy(q, result.id))
    case ResponseActorById(_, _) => false
    case SendMessage(target, payload) => m == TransmitMessage(target, payload)
    case ActorExited(who) => m.LocalActorExited? && IssuedBy(q, who) && q.published[who.id].actor == m.actor
  }

  function Appended(sent: Option<CrossPortal>): seq<Packet> {
    if sent.Some? then [ContentPacket(Decoded(sent.value))] else []
  }

  /** A turn sends one message or none; an open portal that still runs has answered a request, asked a query, and passed
      on a finished message. */
  lemma SentStep(p: Portal, m: Mail, w: World) returns (sent: Option<CrossPortal>)
    requires RegistriesOk(p) && w.uuid !in p.published
    ensures Turn(p, m, w).log.sent == p.log.sent + Appended(sent)
    ensures sent.Some? ==> p.channel.Open? && Sends(m) && SentFor(p, m, Turn(p, m, w), sent.value)
    ensures sent.None? && Turn(p, m, w).status.Running? && p.channel.Open?
      ==> !IsRequest(m) && !m.QueryNamedRemoteActor? && !m.TransmitMessage?
  {
    if IsRequest(m) {
      sent := SentByRequest(p, m, w);
    } else if m.QueryNamedRemoteActor? {
      sent := SentByQuery(p, m, w);
    } else if m.TransmitMessage? {
      sent := SentByTransmit(p, m, w);
    } else if m.LocalActorExited? {
      sent := SentByExit(p, m, w);
    } else {
      TurnFramed(p, m, w);
      sent := None;
      assert Turn(p, m, w).log.sent == p.log.sent + Appended(sent);
    }
  }

  lemma SentByRequest(p: Portal, m: Mail, w: World) returns (sent: Option<CrossPortal>)
    requires IsRequest(m) && RegistriesOk(p) && w.uuid !in p.published
    ensures Turn(p, m, w).log.sent == p.log.sent + Appended(sent)
    ensures sent.Some? ==> p.channel.Open? && SentFor(p, m, Turn(p, m, w), sent.value)
    ensures sent.None? && p.channel.Open? ==> !Turn(p, m, w).status.Running?
  {
    if p.channel.Opening? {
      sent := None;
      assert Turn(p, m, w) == p.(status := ProtocolViolation);
    } else if !w.sinkOk || (m.data.msg.name !in p.named && w.nexus.None?) {
      sent := None;
      RegistryAfterRequest(p, m, w);
      SilentRequest(p, m, w);
    } else {
      var answer := RequestSends(p, m, w);
      sent := Some(ResponseActorByName(m.data.msg.id, answer));
    }
  }

  lemma SilentRequest(p: Portal, m: Mail, w: World)
    requires IsRequest(m) && p.channel.Open? && (!w.sinkOk || (m.data.msg.name !in p.named && w.nexus.None?))
    ensures Turn(p, m, w).log.sent == p.log.sent + [] && !Turn(p, m, w).status.Running?
  {
    var pub := Publication(p, m, w);
    if pub.Some? {
      FramePublish(p, pub.value.actor, pub.value.receiver, w);
      assert Turn(p, m, w)
          == RespondPublished(Publish(p, pub.value.actor, pub.value.receiver, w), m.data.msg.id, pub.value.actor, w);
    }
  }

  lemma RequestSends(p: Portal, m: Mail, w: World) returns (answer: Lookup)
    requires IsRequest(m) && RegistriesOk(p) && w.uuid !in p.published && p.channel.Open?
    requires w.sinkOk && (m.data.msg.name in p.named || w.nexus.Some?)
    ensures Turn(p, m, w).log.sent == p.log.sent + [ContentPacket(Decoded(ResponseActorByName(m.data.msg.id, answer)))]
    ensures answer.Found? ==> IssuedBy(Turn(p, m, w), answer.id)
  {
    var pub := Publication(p, m, w);
    if pub.Some? {
      var q := Publish(p, pub.value.actor, pub.value.receiver, w);
      PublishKeeps(p, pub.value.actor, pub.value.receiver, w);
      FramePublish(p, pub.value.actor, pub.value.receiver, w);
      answer := Found(Rid(q, PublishedId(q, pub.value.actor)));
      assert Turn(p, m, w) == RespondPublished(q, m.data.msg.id, pub.value.actor, w);
    } else if m.data.msg.name in p.named {
      answer := Found(Rid(p, p.named[m.data.msg.name]));
    } else {
      answer := Missing(ActorNotFound);
    }
  }

  lemma SentByQuery(p: Portal, m: Mail, w: World) returns (sent: Option<CrossPortal>)
    requires m.QueryNamedRemoteActor?
    ensures Turn(p, m, w).log.sent == p.log.sent + Appended(sent)
    ensures sent.Some? ==> p.channel.Open? && SentFor(p, m, Turn(p, m, w), sent.value)
    ensures sent.None? && p.channel.Open? ==> !Turn(p, m, w).status.Running?
  {
    if p.channel.Open? && p.nextRequestId != U64_LIMIT - 1 && w.sinkOk {
      sent := Some(RequestActorByName(p.nextRequestId, m.name));
    } else {
      sent := None;
    }
  }

  lemma SentByTransmit(p: Portal, m: Mail, w: World) returns (sent: Option<CrossPortal>)
    requires m.TransmitMessage?
    ensures Turn(p, m, w).log.sent == p.log.sent + Appended(sent)
    ensures sent.Some? ==> p.channel.Open? && SentFor(p, m, Turn(p, m, w), sent.value)
    ensures sent.None? && p.channel.Open? ==> !Turn(p, m, w).status.Running?
  {
    if p.channel.Open? && w.sinkOk {
      sent := Some(SendMessage(m.target, m.payload));
    } else {
      sent := None;
    }
  }

  lemma SentByExit(p: Portal, m: Mail, w: World) returns (sent: Option<CrossPortal>)
    requires m.LocalActorExited?
    ensures Turn(p, m, w).log.sent == p.log.sent + Appended(sent)
    ensures sent.Some? ==> p.channel.Open? && SentFor(p, m, Turn(p, m, w), sent.value)
  {
    if p.channel.Open? && IsPublished(p.published, m.actor) && w.sinkOk {
      sent := Some(ActorExited(Rid(p, IdOf(p.published, m.actor))));
    } else {
      sent := None;
    }
  }
}
