/** The portal actor as the object it is: registries in fields, one handler per message, each proved to do the turn the
    state machine of `Portal` prescribes. */
module PortalActor {
  import opened Bytes
  import opened Codec
  import opened Refs
  import opened Portal
  import opened PortalTheorems

  class PortalActor {
    const localId: nat
    var channelState: Channel
    var publishedActors: map<OpaqueId, Published>
    var namedActors: map<string, OpaqueId>
    var proxiesForRemoteActors: map<RemoteId, ActorId>
    var nextRequestId: nat
    var openRequests: map<nat, Port>
    var waitingForHandshake: seq<Port>
    var status: Status
    var log: Log

    ghost function View(): Portal
      reads this
    {
      Portal(localId, channelState, publishedActors, namedActors, proxiesForRemoteActors, nextRequestId, openRequests,
             waitingForHandshake, status, log)
    }

    /** `pre_start`: the introduction goes out before anything else. */
    constructor (localId: nat, contribution: Uuid)
      ensures View() == Initial(localId, contribution)
    {
      var introduction := Introduction(contribution, localId);
      this.localId := localId;
      channelState := Opening(introduction);
      publishedActors, namedActors, proxiesForRemoteActors := map[], map[], map[];
      nextRequestId, openRequests := 1, map[];
      waitingForHandshake := [];
      status := Running;
      log := Log([HandshakePacket(Intro(introduction))], [], [], [], [], [], [], [], [], [], {}, []);
    }

    // ----------------------------------------------------------------------------------------------
    // Shared steps

    method Fail(cause: Cause)
      modifies this`status
      ensures View() == old(View()).(status := Failed(cause))
    {
      status := Failed(cause);
    }

    method Report(c: Complaint)
      modifies this`log
      ensures View() == Complain(old(View()), c)
    {
      log := log.(complaints := log.complaints + [c]);
    }

    method SendContent(msg: CrossPortal, w: World)
      modifies this`log, this`status
      ensures View() == Send(old(View()), msg, w)
    {
      if w.sinkOk {
        log := log.(sent := log.sent + [ContentPacket(Decoded(msg))]);
      } else {
        status := Failed(SinkBroken);
      }
    }

    method SendReply(port: Port, answer: Answer, w: World)
      modifies this`log, this`status
      ensures View() == Reply(old(View()), port, answer, w)
    {
      if port in w.dropped {
        status := Failed(ReplyDropped);
      } else {
        log := log.(replies := log.replies + [(port, answer)]);
      }
    }

    /** `iter().find(..)` over the published actors: entries are visited in some order until one holds the actor. */
    method FindPublished(actor: ActorId) returns (found: Option<OpaqueId>)
      ensures found.Some? <==> IsPublished(publishedActors, actor)
      ensures found.Some? ==> found.value in publishedActors && publishedActors[found.value].actor == actor
    {
      var rest := publishedActors.Keys;
      while rest != {}
        invariant rest <= publishedActors.Keys
        invariant forall k :: k in publishedActors && k !in rest ==> publishedActors[k].actor != actor
        decreases rest
      {
        var k :| k in rest;
        if publishedActors[k].actor == actor {
          return Some(k);
        }
        rest := rest - {k};
      }
      return None;
    }

    /** `publish_actor`: returns the id the actor already has, or inserts it under the new uuid and starts a watcher. */
    method PublishCell(actor: ActorId, receiver: Ty, w: World) returns (id: OpaqueId)
      requires Injective(publishedActors) && w.uuid !in publishedActors
      modifies this`publishedActors, this`log
      ensures View() == Publish(old(View()), actor, receiver, w)
      ensures id == PublishedId(View(), actor)
      ensures Injective(publishedActors)
    {
      PublishKeeps(View(), actor, receiver, w);
      var existing := FindPublished(actor);
      if existing.Some? {
        id := existing.value;
        IdIsUnique(publishedActors, id);
      } else {
        id := w.uuid;
        publishedActors := publishedActors[id := Published(actor, receiver)];
        log := log.(watched := log.watched + [actor]);
        assert View() == Publish(old(View()), actor, receiver, w);
        IdIsUnique(publishedActors, id);
      }
    }

    // ----------------------------------------------------------------------------------------------
    // Handshake

    /** Drains the waiting list; failed sends are ignored. */
    method DrainWaiting(w: World)
      modifies this`waitingForHandshake, this`log
      ensures View() == old(View()).(waiting := [],
        log := old(log).(replies := old(log).replies + Release(old(waitingForHandshake), w.dropped)))
    {
      var done := log.replies + Release(waitingForHandshake, w.dropped);
      while waitingForHandshake != []
        invariant log.replies + Release(waitingForHandshake, w.dropped) == done
        invariant View() == old(View()).(waiting := waitingForHandshake, log := old(log).(replies := log.replies))
        decreases |waitingForHandshake|
      {
        var x := waitingForHandshake[0];
        if x !in w.dropped {
          Shift(log.replies, (x, Opened), Release(waitingForHandshake[1..], w.dropped));
          log := log.(replies := log.replies + [(x, Opened)]);
        } else {
          assert Release(waitingForHandshake, w.dropped) == Release(waitingForHandshake[1..], w.dropped);
        }
        waitingForHandshake := waitingForHandshake[1..];
      }
      assert log.replies == done;
    }

    static lemma Shift(a: seq<(Port, Answer)>, x: (Port, Answer), b: seq<(Port, Answer)>)
      ensures a + ([x] + b) == a + [x] + b
    {
    }

    method HandleHandshake(text: HandshakeText, w: World)
      modifies this
      ensures View() == OnHandshake(old(View()), text, w)
    {
      match channelState {
        case Opening(selfIntroduction) =>
          if text.Unreadable? {
            Fail(BadHandshake);
          } else {
            channelState := Open(ConduitId(selfIntroduction.contribution, text.intro.contribution));
            DrainWaiting(w);
          }
        case Open(_) => status := ProtocolViolation;
      }
    }

    // ----------------------------------------------------------------------------------------------
    // Content

    method HandleRequest(id: nat, name: string, w: World)
      requires channelState.Open? && Injective(publishedActors) && w.uuid !in publishedActors
      modifies this
      ensures View() == OnRequest(old(View()), id, name, w)
    {
      if name in namedActors {
        SendContent(ResponseActorByName(id, Found(RemoteId(channelState.id, localId, namedActors[name]))), w);
      } else if w.nexus.None? {
        Fail(NexusGone);
      } else if name in w.nexus.value {
        var onNexus := w.nexus.value[name];
        var opaqueId := PublishCell(onNexus.actor, onNexus.receiver, w);
        SendContent(ResponseActorByName(id, Found(RemoteId(channelState.id, localId, opaqueId))), w);
      } else {
        SendContent(ResponseActorByName(id, Missing(ActorNotFound)), w);
      }
    }

    method HandleResponse(id: nat, result: Lookup, w: World)
      modifies this
      ensures View() == OnResponse(old(View()), id, result, w)
    {
      if id in openRequests {
        var port := openRequests[id];
        openRequests := openRequests - {id};
        if port in w.dropped {
          Fail(ReplyDropped);
        } else {
          log := log.(answered := log.answered + [(port, result)],
                      learned := log.learned + if result.Found? then {result.id} else {});
        }
      } else {
        Report(UnknownRequest);
      }
    }

    method HandleSendMessage(target: RemoteId, payload: Payload, w: World)
      modifies this
      ensures View() == OnSendMessage(old(View()), target, payload, w)
    {
      if target.id !in publishedActors {
        Report(UnknownTarget);
        return;
      }
      var cell := publishedActors[target.id];
      if w.inbound.None? {
        Fail(BadPayload);
        return;
      }
      var ids := Remotes(Addresses(w.inbound.value));
      log := log.(started := log.started + Started(ids, w.proxies));
      if cell.actor in w.gone {
        Fail(TargetStopped);
        return;
      }
      log := log.(delivered := log.delivered + [Delivery(cell.actor, w.inbound.value, payload.tag)],
                  learned := log.learned + ToSet(ids));
    }

    method HandleActorExited(who: RemoteId)
      modifies this
      ensures View() == OnActorExited(old(View()), who)
    {
      if who !in proxiesForRemoteActors {
        Report(UnknownProxy);
        return;
      }
      var cell := proxiesForRemoteActors[who];
      proxiesForRemoteActors := proxiesForRemoteActors - {who};
      log := log.(stopped := log.stopped + [(who, cell)]);
    }

    method HandleContent(data: Data, w: World)
      requires Injective(publishedActors) && w.uuid !in publishedActors
      modifies this
      ensures View() == OnContent(old(View()), data, w)
    {
      if channelState.Opening? {
        status := ProtocolViolation;
        return;
      }
      if data.Undecodable? {
        Fail(BadContent);
        return;
      }
      match data.msg {
        case RequestActorByName(id, name) => HandleRequest(id, name, w);
        case ResponseActorByName(id, result) => HandleResponse(id, result, w);
        case ResponseActorById(id, result) => HandleResponse(id, result, w);
        case SendMessage(target, payload) => HandleSendMessage(target, payload, w);
        case ActorExited(who) => HandleActorExited(who);
      }
    }

    // ----------------------------------------------------------------------------------------------
    // Messages from this side

    method HandlePublishNamed(name: string, actor: ActorId, receiver: Ty, reply: Option<Port>, w: World)
      requires Injective(publishedActors) && w.uuid !in publishedActors
      modifies this
      ensures View() == OnPublishNamed(old(View()), name, actor, receiver, reply, w)
    {
      var opaqueId := PublishCell(actor, receiver, w);
      namedActors := namedActors[name := opaqueId];
      log := log.(named := log.named + [(name, actor)]);
      if reply.Some? {
        if channelState.Open? {
          SendReply(reply.value, MaybeIssued(Some(RemoteId(channelState.id, localId, opaqueId))), w);
        } else {
          SendReply(reply.value, MaybeIssued(None), w);
        }
      }
    }

    method HandlePublish(actor: ActorId, receiver: Ty, reply: Option<Port>, w: World)
      requires Injective(publishedActors) && w.uuid !in publishedActors
      modifies this
      ensures View() == OnPublish(old(View()), actor, receiver, reply, w)
    {
      if reply.Some? && channelState.Opening? {
        Report(BeforeHandshake);
        return;
      }
      var opaqueId := PublishCell(actor, receiver, w);
      if reply.Some? {
        SendReply(reply.value, Issued(RemoteId(channelState.id, localId, opaqueId)), w);
      }
    }

    method HandleQuery(name: string, port: Port, w: World)
      modifies this
      ensures View() == OnQuery(old(View()), name, port, w)
    {
      if channelState.Opening? {
        Report(BeforeHandshake);
        return;
      }
      var requestId := nextRequestId;
      if requestId == U64_LIMIT - 1 {
        Fail(CounterOverflow);
        return;
      }
      nextRequestId := nextRequestId + 1;
      openRequests := openRequests[requestId := port];
      log := log.(asked := log.asked + [(name, port)]);
      SendContent(RequestActorByName(requestId, name), w);
    }

    method HandleImmaterialize(job: Job)
      modifies this
      ensures View() == OnImmaterialize(old(View()), job)
    {
      if channelState.Opening? {
        Report(BeforeHandshake);
        return;
      }
      log := log.(spawned := log.spawned + [Accepts(job)]);
    }

    method HandleTransmit(target: RemoteId, payload: Payload, w: World)
      modifies this
      ensures View() == OnTransmit(old(View()), target, payload, w)
    {
      if channelState.Opening? {
        Report(BeforeHandshake);
        return;
      }
      SendContent(SendMessage(target, payload), w);
    }

    method HandleRegister(remote: RemoteId, proxy: ActorId)
      modifies this
      ensures View() == OnRegister(old(View()), remote, proxy)
    {
      if channelState.Opening? {
        Report(BeforeHandshake);
        return;
      }
      proxiesForRemoteActors := proxiesForRemoteActors[remote := proxy];
    }

    method HandleWait(port: Port, w: World)
      modifies this
      ensures View() == OnWait(old(View()), port, w)
    {
      if channelState.Opening? {
        waitingForHandshake := waitingForHandshake + [port];
      } else {
        SendReply(port, Opened, w);
      }
    }

    method HandleLocalExit(actor: ActorId, w: World)
      requires Injective(publishedActors)
      modifies this
      ensures View() == OnLocalExit(old(View()), actor, w)
    {
      if channelState.Opening? {
        Report(BeforeHandshake);
        return;
      }
      var entry := FindPublished(actor);
      if entry.None? {
        Report(UnknownActor);
        return;
      }
      IdIsUnique(publishedActors, entry.value);
      SendContent(ActorExited(RemoteId(channelState.id, localId, entry.value)), w);
    }

    /** `PortalActor::handle`: one message, one turn of the state machine. */
    method Handle(m: Mail, w: World)
      requires RegistriesOk(View()) && w.uuid !in publishedActors
      modifies this
      ensures View() == Turn(old(View()), m, w)
      ensures RegistriesOk(View())
    {
      TurnKeepsRegistries(View(), m, w);
      match m {
        case Handshake(text) => HandleHandshake(text, w);
        case Content(data) => HandleContent(data, w);
        case Close => status := Closed;
        case ImmaterializeMessage(job) => HandleImmaterialize(job);
        case TransmitMessage(target, payload) => HandleTransmit(target, payload, w);
        case PublishNamedActor(name, actor, receiver, reply) => HandlePublishNamed(name, actor, receiver, reply, w);
        case PublishActor(actor, receiver, reply) => HandlePublish(actor, receiver, reply, w);
        case RegisterProxy(remote, proxy) => HandleRegister(remote, proxy);
        case QueryNamedRemoteActor(name, port) => HandleQuery(name, port, w);
        case WaitForHandshake(port) => HandleWait(port, w);
        case LocalActorExited(actor) => HandleLocalExit(actor, w);
      }
    }
  }
}
