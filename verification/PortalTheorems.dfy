/** What every turn of one portal keeps: ids stand for the actor they were issued for, and names mean what was last
    published under them. */
module PortalTheorems {
  import opened Bytes
  import opened Codec
  import opened Portal
  import opened PortalFrames

  // ------------------------------------------------------------------------------------------------
  // Registries

  /** The registry is injective on actors and every name leads to a published actor. */
  ghost predicate RegistriesOk(p: Portal) {
    Injective(p.published) && forall name :: name in p.named ==> p.named[name] in p.published
  }

  /** Nothing handed out is ever taken back. */
  ghost predicate Grows(p: Portal, q: Portal) {
    && q.localId == p.localId
    && (p.channel.Open? ==> q.channel == p.channel)
    && (forall id :: id in p.published ==> id in q.published && q.published[id] == p.published[id])
    && p.log.sent <= q.log.sent && p.log.spawned <= q.log.spawned && p.log.asked <= q.log.asked
    && p.log.learned <= q.log.learned && p.log.named <= q.log.named && p.log.delivered <= q.log.delivered
    && p.log.stopped <= q.log.stopped && p.log.answered <= q.log.answered
    && p.log.started <= q.log.started && p.log.watched <= q.log.watched
    && p.log.replies <= q.log.replies && p.log.complaints <= q.log.complaints
  }

  lemma GrowsSelf(p: Portal)
    ensures Grows(p, p)
  {
  }

  lemma PublishKeeps(p: Portal, actor: ActorId, receiver: Ty, w: World)
    requires Injective(p.published) && w.uuid !in p.published
    ensures var q := Publish(p, actor, receiver, w);
      && Injective(q.published) && IsPublished(q.published, actor)
      && (forall id :: id in p.published ==> id in q.published && q.published[id] == p.published[id])
      && (forall id :: id in q.published && id !in p.published ==> id == w.uuid && q.published[id].actor == actor)
  {
    var q := Publish(p, actor, receiver, w);
    if !IsPublished(p.published, actor) {
      assert w.uuid in q.published && q.published[w.uuid].actor == actor;
    }
  }

  /** An actor that was published stays as it was; another one is filed under the new id with its rematerializer. */
  ghost predicate FiledOnce(before: Registry, after: Registry, actor: ActorId, receiver: Ty, uuid: OpaqueId) {
    if IsPublished(before, actor) then after == before else after == before[uuid := Published(actor, receiver)]
  }

  /** The actor a turn publishes, if it publishes one. */
  function Publication(p: Portal, m: Mail, w: World): Option<Published> {
    match m
    case PublishNamedActor(_, actor, receiver, _) => Some(Published(actor, receiver))
    case PublishActor(actor, receiver, reply) =>
      if reply.Some? && p.channel.Opening? then None else Some(Published(actor, receiver))
    case Content(Decoded(RequestActorByName(_, name))) =>
      if p.channel.Open? && name !in p.named && w.nexus.Some? && name in w.nexus.value then Some(w.nexus.value[name])
      else None
    case _ => None
  }

  lemma RegistryAfter(p: Portal, m: Mail, w: World)
    ensures var q, pub := Turn(p, m, w), Publication(p, m, w);
      && q.published == (if pub.Some? then Publish(p, pub.value.actor, pub.value.receiver, w).published else p.published)
      && q.log.watched == (if pub.Some? then Publish(p, pub.value.actor, pub.value.receiver, w) else p).log.watched
  {
    if !Publishes(m) {
      TurnFramed(p, m, w);
      assert Publication(p, m, w).None?;
    } else if IsRequest(m) {
      RegistryAfterRequest(p, m, w);
    } else if m.PublishActor? {
      RegistryAfterPublish(p, m, w);
    } else {
      RegistryAfterNamed(p, m, w);
    }
  }

  lemma RegistryAfterRequest(p: Portal, m: Mail, w: World)
    requires IsRequest(m)
    ensures var q, pub := Turn(p, m, w), Publication(p, m, w);
      && q.published == (if pub.Some? then Publish(p, pub.value.actor, pub.value.receiver, w).published else p.published)
      && q.log.watched == (if pub.Some? then Publish(p, pub.value.actor, pub.value.receiver, w) else p).log.watched
      && q.named == p.named && q.log.named == p.log.named
  {
    var pub := Publication(p, m, w);
    if pub.Some? {
      var q := Publish(p, pub.value.actor, pub.value.receiver, w);
      FramePublish(p, pub.value.actor, pub.value.receiver, w);
      FrameRespond(q, m.data.msg.id, pub.value.actor, w);
      assert Turn(p, m, w) == RespondPublished(q, m.data.msg.id, pub.value.actor, w);
    }
  }

  lemma RegistryAfterPublish(p: Portal, m: Mail, w: World)
    requires m.PublishActor?
    ensures var q, pub := Turn(p, m, w), Publication(p, m, w);
      && q.published == (if pub.Some? then Publish(p, pub.value.actor, pub.value.receiver, w).published else p.published)
      && q.log.watched == (if pub.Some? then Publish(p, pub.value.actor, pub.value.receiver, w) else p).log.watched
      && q.named == p.named && q.log.named == p.log.named
  {
    FramePublish(p, m.actor, m.receiver, w);
  }

  lemma RegistryAfterNamed(p: Portal, m: Mail, w: World)
    requires m.PublishNamedActor?
    ensures var q, r := Turn(p, m, w), Publish(p, m.actor, m.receiver, w);
      && q.published == r.published && q.log.watched == r.log.watched
      && q.named == p.named[m.name := PublishedId(r, m.actor)]
      && q.log.named == p.log.named + [(m.name, m.actor)]
  {
    FramePublish(p, m.actor, m.receiver, w);
  }

  lemma TurnKeepsRegistries(p: Portal, m: Mail, w: World)
    requires RegistriesOk(p) && w.uuid !in p.published
    ensures RegistriesOk(Turn(p, m, w))
    ensures forall id :: id in p.published ==>
      id in Turn(p, m, w).published && Turn(p, m, w).published[id] == p.published[id]
  {
    RegistryAfter(p, m, w);
    var pub := Publication(p, m, w);
    if pub.Some? {
      PublishKeeps(p, pub.value.actor, pub.value.receiver, w);
    }
    if m.PublishNamedActor? {
      RegistryAfterNamed(p, m, w);
    } else {
      NamesOnlyByPublish(p, m, w);
    }
  }

  lemma NamesOnlyByPublish(p: Portal, m: Mail, w: World)
    requires !m.PublishNamedActor?
    ensures Turn(p, m, w).named == p.named && Turn(p, m, w).log.named == p.log.named
  {
    if !Publishes(m) {
      TurnFramed(p, m, w);
    } else if IsRequest(m) {
      RegistryAfterRequest(p, m, w);
    } else {
      RegistryAfterPublish(p, m, w);
    }
  }

  lemma LogsGrow(p: Portal, m: Mail, w: World)
    ensures var q := Turn(p, m, w);
      && (p.channel.Open? ==> q.channel == p.channel)
      && p.log.sent <= q.log.sent && p.log.spawned <= q.log.spawned && p.log.asked <= q.log.asked
      && p.log.learned <= q.log.learned && p.log.delivered <= q.log.delivered
      && p.log.stopped <= q.log.stopped && p.log.answered <= q.log.answered
      && p.log.started <= q.log.started && p.log.replies <= q.log.replies
  {
    TurnFramed(p, m, w);
    if Sends(m) { SentGrows(p, m, w); }
    if Replies(m) { RepliesGrow(p, m, w); }
    if IsSendMessage(m) || IsResponse(m) { ReceivedGrows(p, m, w); }
    if m.QueryNamedRemoteActor? || m.ImmaterializeMessage? || IsExitNotice(m) { OthersGrow(p, m, w); }
  }

  lemma SentGrows(p: Portal, m: Mail, w: World)
    requires Sends(m)
    ensures p.log.sent <= Turn(p, m, w).log.sent
  {
    if IsRequest(m) {
      var pub := Publication(p, m, w);
      if pub.Some? {
        FramePublish(p, pub.value.actor, pub.value.receiver, w);
        assert Turn(p, m, w)
            == RespondPublished(Publish(p, pub.value.actor, pub.value.receiver, w), m.data.msg.id, pub.value.actor, w);
      }
    }
  }

  lemma RepliesGrow(p: Portal, m: Mail, w: World)
    requires Replies(m)
    ensures p.log.replies <= Turn(p, m, w).log.replies && (p.channel.Open? ==> Turn(p, m, w).channel == p.channel)
  {
    if m.PublishNamedActor? || m.PublishActor? {
      FramePublish(p, m.actor, m.receiver, w);
    }
  }

  lemma ReceivedGrows(p: Portal, m: Mail, w: World)
    requires IsSendMessage(m) || IsResponse(m)
    ensures var q := Turn(p, m, w);
      && p.log.learned <= q.log.learned && p.log.delivered <= q.log.delivered
      && p.log.started <= q.log.started && p.log.answered <= q.log.answered
  {
    if p.channel.Open? {
      if IsResponse(m) {
        ResponseChanges(p, m.data.msg.id, m.data.msg.result, w);
        assert Turn(p, m, w) == OnResponse(p, m.data.msg.id, m.data.msg.result, w);
      } else {
        SendMessageChanges(p, m.data.msg.target, m.data.msg.payload, w);
        assert Turn(p, m, w) == OnSendMessage(p, m.data.msg.target, m.data.msg.payload, w);
      }
    } else {
      assert Turn(p, m, w) == p.(status := ProtocolViolation);
    }
  }

  lemma OthersGrow(p: Portal, m: Mail, w: World)
    requires m.QueryNamedRemoteActor? || m.ImmaterializeMessage? || IsExitNotice(m)
    ensures var q := Turn(p, m, w);
      p.log.asked <= q.log.asked && p.log.spawned <= q.log.spawned && p.log.stopped <= q.log.stopped
  {
    TurnFramed(p, m, w);
    if m.QueryNamedRemoteActor? {
      AskedGrows(p, m, w);
    } else if m.ImmaterializeMessage? {
      SpawnedGrows(p, m, w);
    } else {
      StoppedGrows(p, m, w);
    }
  }

  lemma AskedGrows(p: Portal, m: Mail, w: World)
    requires m.QueryNamedRemoteActor?
    ensures p.log.asked <= Turn(p, m, w).log.asked
  {
  }

  lemma SpawnedGrows(p: Portal, m: Mail, w: World)
    requires m.ImmaterializeMessage?
    ensures p.log.spawned <= Turn(p, m, w).log.spawned
  {
  }

  lemma StoppedGrows(p: Portal, m: Mail, w: World)
    requires IsExitNotice(m)
    ensures p.log.stopped <= Turn(p, m, w).log.stopped
  {
  }

  lemma TurnGrows(p: Portal, m: Mail, w: World)
    requires RegistriesOk(p) && w.uuid !in p.published
    ensures Grows(p, Turn(p, m, w))
  {
    TurnKeepsRegistries(p, m, w);
    LogsGrow(p, m, w);
    TurnFramed(p, m, w);
    RegistryAfter(p, m, w);
    if m.PublishNamedActor? {
      RegistryAfterNamed(p, m, w);
    } else {
      NamesOnlyByPublish(p, m, w);
    }
  }

  lemma IdIsUnique(r: Registry, id: OpaqueId)
    requires Injective(r) && id in r
    ensures IsPublished(r, r[id].actor) && IdOf(r, r[id].actor) == id
  {
  }

  // ------------------------------------------------------------------------------------------------
  // Names

  /** The actor of the last publication under `name`. */
  function LastNamed(names: seq<(string, ActorId)>, name: string): Option<ActorId> {
    if names == [] then None
    else if names[|names| - 1].0 == name then Some(names[|names| - 1].1)
    else LastNamed(names[..|names| - 1], name)
  }

  /** What `name` stands for on this portal. */
  function NamedActor(p: Portal, name: string): Option<ActorId> {
    if name in p.named && p.named[name] in p.published then Some(p.published[p.named[name]].actor) else None
  }

  ghost predicate NamesOk(p: Portal) {
    forall name :: NamedActor(p, name) == LastNamed(p.log.named, name)
  }

  lemma NamesAfterPublish(p: Portal, q: Portal, name: string, actor: ActorId, id: OpaqueId)
    requires RegistriesOk(p) && NamesOk(p)
    requires forall i :: i in p.published ==> i in q.published && q.published[i] == p.published[i]
    requires q.named == p.named[name := id] && q.log.named == p.log.named + [(name, actor)]
    requires id in q.published && q.published[id].actor == actor
    ensures NamesOk(q)
  {
    forall x ensures NamedActor(q, x) == LastNamed(q.log.named, x) {
      assert q.log.named[..|q.log.named| - 1] == p.log.named;
      if x != name {
        assert NamedActor(p, x) == LastNamed(p.log.named, x);
        if x in p.named {
          assert p.named[x] in p.published;
        }
      }
    }
  }

  lemma NamesUnchanged(p: Portal, q: Portal)
    requires RegistriesOk(p) && NamesOk(p) && Grows(p, q) && q.named == p.named && q.log.named == p.log.named
    ensures NamesOk(q)
  {
    forall x ensures NamedActor(q, x) == LastNamed(q.log.named, x) {
      assert NamedActor(p, x) == LastNamed(p.log.named, x);
      if x in p.named {
        assert p.named[x] in p.published;
      }
    }
  }

  lemma TurnKeepsNames(p: Portal, m: Mail, w: World)
    requires RegistriesOk(p) && NamesOk(p) && w.uuid !in p.published
    ensures NamesOk(Turn(p, m, w))
  {
    var q := Turn(p, m, w);
    TurnGrows(p, m, w);
    if m.PublishNamedActor? {
      PublishKeeps(p, m.actor, m.receiver, w);
      RegistryAfterNamed(p, m, w);
      NamesAfterPublish(p, q, m.name, m.actor, PublishedId(Publish(p, m.actor, m.receiver, w), m.actor));
    } else {
      NamesOnlyByPublish(p, m, w);
      NamesUnchanged(p, q);
    }
  }

  /** What a lookup finds: the last publication on the portal, else the nexus entry, else nothing. */
  function Resolve(p: Portal, nexus: map<string, Published>, name: string): Option<ActorId> {
    var here := LastNamed(p.log.named, name);
    if here.Some? then here
    else if name in nexus then Some(nexus[name].actor)
    else None
  }

  /** The answer to a lookup, and what it means: the id it carries stands for the actor the name resolves to. */
  lemma RequestAnswered(p: Portal, id: nat, name: string, w: World) returns (answer: Lookup)
    requires RegistriesOk(p) && NamesOk(p) && p.channel.Open? && w.uuid !in p.published
    requires w.sinkOk && w.nexus.Some?
    ensures var q := Turn(p, Content(Decoded(RequestActorByName(id, name))), w);
      && q.log.sent == p.log.sent + [ContentPacket(Decoded(ResponseActorByName(id, answer)))]
      && q.status == p.status
      && Means(q, answer, Resolve(p, w.nexus.value, name))
      && (if LastNamed(p.log.named, name).None? && name in w.nexus.value
          then FiledOnce(p.published, q.published, w.nexus.value[name].actor, w.nexus.value[name].receiver, w.uuid)
          else q.published == p.published)
  {
    assert NamedActor(p, name) == LastNamed(p.log.named, name);
    var m := Content(Decoded(RequestActorByName(id, name)));
    RegistryAfter(p, m, w);
    assert Publication(p, m, w).Some? <==> name !in p.named && name in w.nexus.value;
    if name in p.named {
      answer := Found(Rid(p, p.named[name]));
    } else if name in w.nexus.value {
      var found := w.nexus.value[name];
      PublishKeeps(p, found.actor, found.receiver, w);
      answer := Found(Rid(p, PublishedId(Publish(p, found.actor, found.receiver, w), found.actor)));
    } else {
      answer := Missing(ActorNotFound);
    }
  }

  /** What publishing under a name hands back: an id of the actor that was published, in the terms of the open conduit,
      or nothing before the handshake; and the name means that actor from then on. */
  lemma NamedPublicationAnswered(p: Portal, name: string, actor: ActorId, receiver: Ty, port: Port, w: World)
      returns (maybe: Option<RemoteId>)
    requires RegistriesOk(p) && w.uuid !in p.published && port !in w.dropped
    ensures var q := Turn(p, PublishNamedActor(name, actor, receiver, Some(port)), w);
      && NamedActor(q, name) == Some(actor)
      && q.log.replies == p.log.replies + [(port, MaybeIssued(maybe))]
      && (maybe.Some? <==> p.channel.Open?)
      && (maybe.Some? ==> IdFor(q, maybe.value, actor))
      && FiledOnce(p.published, q.published, actor, receiver, w.uuid)
  {
    var q := Publish(p, actor, receiver, w);
    PublishKeeps(p, actor, receiver, w);
    maybe := if p.channel.Open? then Some(Rid(p, PublishedId(q, actor))) else None;
    NamedPublicationReplies(p, name, actor, receiver, port, w);
    RegistryAfterNamed(p, PublishNamedActor(name, actor, receiver, Some(port)), w);
  }

  lemma NamedPublicationReplies(p: Portal, name: string, actor: ActorId, receiver: Ty, port: Port, w: World)
    requires port !in w.dropped
    ensures var q, r := Turn(p, PublishNamedActor(name, actor, receiver, Some(port)), w), Publish(p, actor, receiver, w);
      && q.channel == p.channel && q.localId == p.localId
      && q.log.replies == p.log.replies
           + [(port, MaybeIssued(if p.channel.Open? then Some(Rid(p, PublishedId(r, actor))) else None))]
  {
    FramePublish(p, actor, receiver, w);
  }

  /** What publishing without a name hands back; before the handshake, a publication that wants an id does nothing. */
  lemma PublicationAnswered(p: Portal, actor: ActorId, receiver: Ty, port: Port, w: World) returns (id: RemoteId)
    requires RegistriesOk(p) && w.uuid !in p.published && port !in w.dropped
    ensures var q := Turn(p, PublishActor(actor, receiver, Some(port)), w);
      if p.channel.Opening? then q == Complain(p, BeforeHandshake)
      else
        && q.log.replies == p.log.replies + [(port, Issued(id))] && IdFor(q, id, actor)
        && FiledOnce(p.published, q.published, actor, receiver, w.uuid)
  {
    var q := Publish(p, actor, receiver, w);
    PublishKeeps(p, actor, receiver, w);
    FramePublish(p, actor, receiver, w);
    id := if p.channel.Open? then Rid(p, PublishedId(q, actor)) else RemoteId(0, 0, 0);
  }

  /** The id stands for the actor on this portal's side of the conduit. */
  predicate IdFor(p: Portal, id: RemoteId, actor: ActorId) {
    && p.channel.Open? && id.key == p.channel.id && id.side == p.localId
    && id.id in p.published && p.published[id.id].actor == actor
  }

  // ------------------------------------------------------------------------------------------------
  // Watchers

  /** Exactly one watcher was started for each published actor, and none for others. */
  ghost predicate WatchersOk(p: Portal) {
    forall a :: multiset(p.log.watched)[a] == if IsPublished(p.published, a) then 1 else 0
  }

  lemma TurnKeepsWatchers(p: Portal, m: Mail, w: World)
    requires RegistriesOk(p) && WatchersOk(p) && w.uuid !in p.published
    ensures WatchersOk(Turn(p, m, w))
  {
    RegistryAfter(p, m, w);
    var pub := Publication(p, m, w);
    if pub.Some? {
      PublishKeepsWatchers(p, pub.value.actor, pub.value.receiver, w);
      SameWatchers(Publish(p, pub.value.actor, pub.value.receiver, w), Turn(p, m, w));
    } else {
      SameWatchers(p, Turn(p, m, w));
    }
  }

  lemma SameWatchers(p: Portal, q: Portal)
    requires WatchersOk(p) && q.published == p.published && q.log.watched == p.log.watched
    ensures WatchersOk(q)
  {
  }

  lemma PublishKeepsWatchers(p: Portal, actor: ActorId, receiver: Ty, w: World)
    requires RegistriesOk(p) && WatchersOk(p) && w.uuid !in p.published
    ensures WatchersOk(Publish(p, actor, receiver, w))
  {
    var q := Publish(p, actor, receiver, w);
    if !IsPublished(p.published, actor) {
      assert q.published[w.uuid].actor == actor;
      forall a ensures multiset(q.log.watched)[a] == if IsPublished(q.published, a) then 1 else 0 {
        if a != actor && IsPublished(p.published, a) {
          var k := IdOf(p.published, a);
          assert q.published[k].actor == a;
        }
      }
    }
  }

  // ------------------------------------------------------------------------------------------------
  // Waiting for the handshake

  /** How often `port` waits, or has been told, that the portal is open. */
  function Told(p: Portal, port: Port): nat {
    multiset(p.waiting)[port] + multiset(p.log.replies)[(port, Opened)]
  }

  /** Nobody waits on an open portal. */
  predicate WaitingOk(p: Portal) {
    p.channel.Open? ==> p.waiting == []
  }

  lemma {:induction false} ReleaseCounts(waiting: seq<Port>, dropped: set<Port>, port: Port)
    ensures multiset(Release(waiting, dropped))[(port, Opened)] == if port in dropped then 0 else multiset(waiting)[port]
    ensures |Release(waiting, dropped)| <= |waiting|
    decreases |waiting|
  {
    if waiting != [] {
      ReleaseCounts(waiting[1..], dropped, port);
      CountFirst(waiting, port);
      if waiting[0] !in dropped {
        var released := Release(waiting[1..], dropped);
        CountFirst([(waiting[0], Opened)] + released, (port, Opened));
        assert ([(waiting[0], Opened)] + released)[1..] == released;
      }
    }
  }

  lemma CountFirst<T>(s: seq<T>, x: T)
    requires s != []
    ensures multiset(s)[x] == multiset(s[1..])[x] + if s[0] == x then 1 else 0
  {
    assert s == [s[0]] + s[1..];
  }

  /** The waiting ports are answered in order, each that still has a receiver. */
  lemma {:induction false} ReleaseInOrder(waiting: seq<Port>, port: Port, dropped: set<Port>)
    ensures Release(waiting + [port], dropped)
         == Release(waiting, dropped) + (if port in dropped then [] else [(port, Opened)])
    decreases |waiting|
  {
    if waiting == [] {
      assert [port][1..] == [] && [] + [port] == [port];
    } else {
      assert (waiting + [port])[0] == waiting[0] && (waiting + [port])[1..] == waiting[1..] + [port];
      ReleaseInOrder(waiting[1..], port, dropped);
    }
  }

  /** The handshake that opens a portal answers everyone who waited for it, as often as they asked, and leaves nobody
      waiting. */
  lemma HandshakeReleases(p: Portal, intro: Introduction, w: World, port: Port)
    requires p.channel.Opening?
    ensures var q := Turn(p, Handshake(Intro(intro)), w);
      && q.channel == Open(ConduitId(p.channel.intro.contribution, intro.contribution)) && q.waiting == []
      && multiset(q.log.replies)[(port, Opened)]
         == multiset(p.log.replies)[(port, Opened)] + if port in w.dropped then 0 else multiset(p.waiting)[port]
  {
    ReleaseCounts(p.waiting, w.dropped, port);
    assert multiset(p.log.replies + Release(p.waiting, w.dropped))
        == multiset(p.log.replies) + multiset(Release(p.waiting, w.dropped));
  }

  /** Each time a port asks to be told, it is counted once; nothing else a turn does counts. */
  lemma TurnTells(p: Portal, m: Mail, w: World, port: Port)
    requires WaitingOk(p) && port !in w.dropped
    ensures WaitingOk(Turn(p, m, w))
    ensures Told(Turn(p, m, w), port) == Told(p, port) + if m == WaitForHandshake(port) then 1 else 0
  {
    if m.Handshake? {
      if p.channel.Opening? && m.text.Intro? {
        HandshakeReleases(p, m.text.intro, w, port);
      }
    } else if m.WaitForHandshake? {
      WaitTells(p, m.port, w, port);
    } else if m.PublishNamedActor? || m.PublishActor? {
      PublishTells(p, m, w, port);
    } else {
      TurnFramed(p, m, w);
    }
  }

  lemma WaitTells(p: Portal, asking: Port, w: World, port: Port)
    requires WaitingOk(p) && port !in w.dropped
    ensures WaitingOk(Turn(p, WaitForHandshake(asking), w))
    ensures Told(Turn(p, WaitForHandshake(asking), w), port) == Told(p, port) + if asking == port then 1 else 0
  {
    if p.channel.Open? && asking !in w.dropped {
      ToldOneMore(p.log.replies, (asking, Opened), port);
    }
  }

  lemma ToldOneMore(replies: seq<(Port, Answer)>, reply: (Port, Answer), port: Port)
    ensures multiset(replies + [reply])[(port, Opened)]
         == multiset(replies)[(port, Opened)] + if reply == (port, Opened) then 1 else 0
  {
  }

  lemma PublishTells(p: Portal, m: Mail, w: World, port: Port)
    requires WaitingOk(p) && (m.PublishNamedActor? || m.PublishActor?)
    ensures WaitingOk(Turn(p, m, w)) && Told(Turn(p, m, w), port) == Told(p, port)
  {
    var reply := PublishReplies(p, m, w);
    if reply.Some? {
      ToldOneMore(p.log.replies, reply.value, port);
    }
  }

  lemma PublishReplies(p: Portal, m: Mail, w: World) returns (reply: Option<(Port, Answer)>)
    requires m.PublishNamedActor? || m.PublishActor?
    ensures var q := Turn(p, m, w);
      && q.waiting == p.waiting && q.channel == p.channel
      && q.log.replies == (if reply.Some? then p.log.replies + [reply.value] else p.log.replies)
      && (reply.Some? ==> !reply.value.1.Opened?)
  {
    FramePublish(p, m.actor, m.receiver, w);
    var q, n := Turn(p, m, w), |p.log.replies|;
    reply := if |q.log.replies| > n then Some(q.log.replies[n]) else None;
  }

  function Waits(turns: seq<(Mail, World)>, port: Port): nat {
    if turns == [] then 0 else (if turns[0].0 == WaitForHandshake(port) then 1 else 0) + Waits(turns[1..], port)
  }

  /** Over any life that leaves the portal open and running, a port has been told that it opened exactly as often as it
      asked, whether it asked before or after the handshake. */
  lemma {:induction false} AskersAreTold(p: Portal, turns: seq<(Mail, World)>, port: Port)
    requires WaitingOk(p) && forall i :: 0 <= i < |turns| ==> port !in turns[i].1.dropped
    ensures WaitingOk(Live(p, turns))
    ensures Live(p, turns).status.Running? ==> Told(Live(p, turns), port) == Told(p, port) + Waits(turns, port)
    decreases |turns|
  {
    if turns != [] && p.status.Running? {
      TurnTells(p, turns[0].0, turns[0].1, port);
      AskersAreTold(Turn(p, turns[0].0, turns[0].1), turns[1..], port);
    }
  }

  // ------------------------------------------------------------------------------------------------
  // Runs of one portal

  /** A portal's life: any mail under any circumstances, as long as it runs. */
  ghost function Live(p: Portal, turns: seq<(Mail, World)>): Portal
    decreases turns
  {
    if turns == [] || !p.status.Running? then p else Live(Turn(p, turns[0].0, turns[0].1), turns[1..])
  }

  /** Uuids do not repeat: each is unknown to the registry it is offered to. */
  ghost predicate FreshUuids(p: Portal, turns: seq<(Mail, World)>)
    decreases turns
  {
    turns == [] || !p.status.Running?
    || (turns[0].1.uuid !in p.published && FreshUuids(Turn(p, turns[0].0, turns[0].1), turns[1..]))
  }

  /** Whatever a portal lived through, its registries are in order, its names mean the last publication, each published
      actor has its watcher, and everything it had before is still there. */
  lemma {:induction false} LifeKeeps(p: Portal, turns: seq<(Mail, World)>)
    requires RegistriesOk(p) && NamesOk(p) && WatchersOk(p) && FreshUuids(p, turns)
    ensures RegistriesOk(Live(p, turns)) && NamesOk(Live(p, turns)) && WatchersOk(Live(p, turns))
    ensures Grows(p, Live(p, turns))
    decreases |turns|
  {
    if turns != [] && p.status.Running? {
      var q := Turn(p, turns[0].0, turns[0].1);
      TurnKeeps(p, turns[0].0, turns[0].1);
      LifeKeeps(q, turns[1..]);
      GrowsTransitive(p, q, Live(q, turns[1..]));
    }
  }

  /** At any two moments of a portal's life equal ids mean equal actors, and equal actors have equal ids. */
  lemma IdsAreStable(p: Portal, turns: seq<(Mail, World)>, a: ActorId, b: ActorId)
    requires RegistriesOk(p) && NamesOk(p) && WatchersOk(p) && FreshUuids(p, turns)
    requires IsPublished(p.published, a) && IsPublished(Live(p, turns).published, b)
    ensures IsPublished(Live(p, turns).published, a)
    ensures IdOf(p.published, a) == IdOf(Live(p, turns).published, b) <==> a == b
  {
    LifeKeeps(p, turns);
    var k := IdOf(p.published, a);
    assert k in Live(p, turns).published && Live(p, turns).published[k].actor == a;
  }

  /** The circumstances of a lookup that can be answered. */
  predicate Answerable(p: Portal, w: World) {
    p.channel.Open? && w.uuid !in p.published && w.sinkOk && w.nexus.Some?
  }

  /** Two lookups on one portal, with any life in between: their answers are the same if and only if both names resolved
      to the same actor, or both to none. */
  lemma LookupsRepeat(p: Portal, id1: nat, name1: string, w1: World, turns: seq<(Mail, World)>,
                      id2: nat, name2: string, w2: World) returns (first: Lookup, second: Lookup)
    requires RegistriesOk(p) && NamesOk(p) && WatchersOk(p) && Answerable(p, w1)
    requires var q := Turn(p, Content(Decoded(RequestActorByName(id1, name1))), w1);
      FreshUuids(q, turns) && Answerable(Live(q, turns), w2)
    ensures var q := Turn(p, Content(Decoded(RequestActorByName(id1, name1))), w1);
      var r := Live(q, turns);
      && q.log.sent == p.log.sent + [ContentPacket(Decoded(ResponseActorByName(id1, first)))]
      && Turn(r, Content(Decoded(RequestActorByName(id2, name2))), w2).log.sent
         == r.log.sent + [ContentPacket(Decoded(ResponseActorByName(id2, second)))]
      && (first == second <==> Resolve(p, w1.nexus.value, name1) == Resolve(r, w2.nexus.value, name2))
  {
    var m1, m2 := Content(Decoded(RequestActorByName(id1, name1))), Content(Decoded(RequestActorByName(id2, name2)));
    var q := Turn(p, m1, w1);
    var r := Live(q, turns);
    var s := Turn(r, m2, w2);
    TurnKeeps(p, m1, w1);
    LifeKeeps(q, turns);
    TurnKeeps(r, m2, w2);
    GrowsTransitive(q, r, s);
    first := RequestAnswered(p, id1, name1, w1);
    second := RequestAnswered(r, id2, name2, w2);
    AnswersAgree(q, s, first, Resolve(p, w1.nexus.value, name1), second, Resolve(r, w2.nexus.value, name2));
  }

  lemma TurnKeeps(p: Portal, m: Mail, w: World)
    requires RegistriesOk(p) && NamesOk(p) && WatchersOk(p) && w.uuid !in p.published
    ensures var q := Turn(p, m, w); RegistriesOk(q) && NamesOk(q) && WatchersOk(q) && Grows(p, q)
  {
    TurnKeepsRegistries(p, m, w);
    TurnKeepsNames(p, m, w);
    TurnKeepsWatchers(p, m, w);
    TurnGrows(p, m, w);
  }

  /** An answer means what was found. */
  predicate Means(q: Portal, answer: Lookup, found: Option<ActorId>) {
    if found.None? then answer == Missing(ActorNotFound) else answer.Found? && IdFor(q, answer.id, found.value)
  }

  lemma AnswersAgree(q: Portal, s: Portal, first: Lookup, found1: Option<ActorId>, second: Lookup, found2: Option<ActorId>)
    requires Grows(q, s) && RegistriesOk(s) && Means(q, first, found1) && Means(s, second, found2)
    ensures first == second <==> found1 == found2
  {
  }

  lemma GrowsTransitive(p: Portal, q: Portal, r: Portal)
    requires Grows(p, q) && Grows(q, r)
    ensures Grows(p, r)
  {
  }

  lemma InitialOk(localId: nat, contribution: Uuid)
    ensures RegistriesOk(Initial(localId, contribution)) && NamesOk(Initial(localId, contribution))
    ensures WatchersOk(Initial(localId, contribution)) && WaitingOk(Initial(localId, contribution))
  {
  }
}
