/** Crossing a conduit keeps the meaning of a message in every interleaving: what the peer's actor receives is the sent
    tree with each local actor replaced by the id that stands for it, provided the message has the type the actor was
    published for; and it is the actor the target id was issued for. */
module LinkCrossing {
  import opened Bytes
  import opened Codec
  import opened CodecTheorems
  import opened Refs
  import opened Portal
  import opened PortalFrames
  import opened PortalTheorems
  import opened PortalSends
  import opened PortalEnds
  import opened Link
  import opened LinkWire
  import opened LinkIds

  // ------------------------------------------------------------------------------------------------
  // What one turn adds

  lemma SpawnTurn(p: Portal, m: Mail, w: World)
    requires m.ImmaterializeMessage?
    ensures var q := Turn(p, m, w);
      && q.log.spawned == p.log.spawned + (if p.channel.Open? then [Accepts(m.job)] else [])
      && q.channel == p.channel && q.log.replies == p.log.replies
  {
  }

  lemma PublishTurn(p: Portal, m: Mail, w: World)
    requires m.PublishActor? && m.reply.Some? && p.channel.Open? && Injective(p.published) && w.uuid !in p.published
    ensures var q := Turn(p, m, w);
      && IsPublished(q.published, m.actor) && q.channel == p.channel
      && (if m.reply.value in w.dropped then q.log.replies == p.log.replies
          else
            q.log.replies == p.log.replies + [(m.reply.value, Issued(Rid(p, IdOf(q.published, m.actor))))])
  {
    PublishKeeps(p, m.actor, m.receiver, w);
    FramePublish(p, m.actor, m.receiver, w);
  }

  lemma {:induction false} ReleaseOpens(waiting: seq<Port>, dropped: set<Port>)
    ensures forall i :: 0 <= i < |Release(waiting, dropped)| ==> Release(waiting, dropped)[i].1 == Opened
    decreases |waiting|
  {
    if waiting != [] {
      ReleaseOpens(waiting[1..], dropped);
    }
  }

  /** The last reply of a turn hands out an id only if the turn handled a publication asking for one. */
  predicate Unrouted(p: Portal, q: Portal) {
    |q.log.replies| == |p.log.replies| + 1 ==> !q.log.replies[|p.log.replies|].1.Issued?
  }

  lemma OthersUnrouted(p: Portal, m: Mail, w: World)
    requires !m.PublishActor?
    ensures Unrouted(p, Turn(p, m, w))
  {
    TurnFramed(p, m, w);
    if m.Handshake? {
      ReleaseOpens(p.waiting, w.dropped);
    } else if m.WaitForHandshake? {
      WaitUnrouted(p, m, w);
    } else if m.PublishNamedActor? {
      FramePublish(p, m.actor, m.receiver, w);
    }
  }

  lemma WaitUnrouted(p: Portal, m: Mail, w: World)
    requires m.WaitForHandshake?
    ensures Unrouted(p, Turn(p, m, w))
  {
  }

  // ------------------------------------------------------------------------------------------------
  // Jobs, tasks and publications

  lemma JobsAfterTurn(cx: Formats, p: Portal, peer: Portal, m: Mail, w: World)
    requires JobsSafe(cx, p, peer) && MailSafe(cx, p, peer, m)
    ensures JobsSafe(cx, Turn(p, m, w), peer)
  {
    TurnFramed(p, m, w);
    if m.ImmaterializeMessage? {
      SpawnTurn(p, m, w);
      TimeoutsKeep(cx, m.job.ty, m.job.value, DEFAULT_RPC_PORT_TIMEOUT);
    } else if m.Handshake? {
      HandshakeChannel(p, m, w);
    }
  }

  lemma TasksAfterTurn(cx: Formats, x: Node, w: World)
    requires RegistriesOk(x.p) && x.mailbox != [] && w.uuid !in x.p.published
    requires TasksOk(x.p, x.tasks) && AsksOk(x.mailbox, x.tasks)
    ensures TasksOk(AfterTurn(x, w).p, AfterTurn(x, w).tasks) && AsksOk(x.mailbox[1..], AfterTurn(x, w).tasks)
  {
    var m, q := x.mailbox[0], Turn(x.p, x.mailbox[0], w);
    TurnGrows(x.p, m, w);
    TurnKeepsRegistries(x.p, m, w);
    TasksStable(x.p, q, x.tasks);
    AsksRest(x.mailbox, x.tasks);
    if m.ImmaterializeMessage? {
      SpawnTurn(x.p, m, w);
      TasksSpawned(x, q);
    } else if m.PublishActor? {
      TurnFramed(x.p, m, w);
      TasksPublished(x, w);
    } else {
      TurnFramed(x.p, m, w);
      OthersUnrouted(x.p, m, w);
    }
  }

  lemma AsksRest(mailbox: seq<Mail>, tasks: map<nat, Task>)
    requires AsksOk(mailbox, tasks) && mailbox != []
    ensures AsksOk(mailbox[1..], tasks)
    ensures AskTag(mailbox[0]).Some? ==>
      forall i :: 0 <= i < |mailbox[1..]| ==> AskTag(mailbox[1..][i]) != AskTag(mailbox[0])
  {
    var rest := mailbox[1..];
    forall i | 0 <= i < |rest| && AskTag(rest[i]).Some? ensures AskOk(tasks, rest[i]) {
      assert rest[i] == mailbox[i + 1];
    }
    forall i, j | 0 <= i < j < |rest| && AskTag(rest[i]).Some? ensures AskTag(rest[i]) != AskTag(rest[j]) {
      assert rest[i] == mailbox[i + 1] && rest[j] == mailbox[j + 1];
    }
  }

  /** Changing one task leaves the publications for the others as they were. */
  lemma AsksOther(mailbox: seq<Mail>, tasks: map<nat, Task>, k: nat, t: Task)
    requires AsksOk(mailbox, tasks) && forall i :: 0 <= i < |mailbox| ==> AskTag(mailbox[i]) != Some(k)
    ensures AsksOk(mailbox, tasks[k := t])
  {
    forall i | 0 <= i < |mailbox| && AskTag(mailbox[i]).Some? ensures AskOk(tasks[k := t], mailbox[i]) {
      assert AskOk(tasks, mailbox[i]);
    }
  }

  /** A task that waits for no id has asked for none. */
  lemma NotAsking(mailbox: seq<Mail>, tasks: map<nat, Task>, k: nat)
    requires AsksOk(mailbox, tasks) && (k in tasks ==> !tasks[k].waiting)
    ensures forall i :: 0 <= i < |mailbox| ==> AskTag(mailbox[i]) != Some(k)
  {
    forall i | 0 <= i < |mailbox| && AskTag(mailbox[i]).Some? ensures AskTag(mailbox[i]) != Some(k) {
      assert AskOk(tasks, mailbox[i]);
    }
  }

  lemma TasksSpawned(x: Node, q: Portal)
    requires TasksOk(x.p, x.tasks) && TasksOk(q, x.tasks) && x.mailbox != [] && x.mailbox[0].ImmaterializeMessage?
    requires q.log.spawned == x.p.log.spawned + (if x.p.channel.Open? then [Accepts(x.mailbox[0].job)] else [])
    requires q.channel == x.p.channel && q.log.replies == x.p.log.replies
    requires AsksOk(x.mailbox[1..], x.tasks)
    ensures TasksOk(q, Settle(x, q).tasks) && AsksOk(x.mailbox[1..], Settle(x, q).tasks)
  {
    var k := |x.p.log.spawned|;
    assert k in x.tasks ==> TaskOk(x.p, k, x.tasks[k]);
    if x.p.channel.Open? {
      var t := Task(Accepts(x.mailbox[0].job), [], false);
      assert Settle(x, q).tasks == x.tasks[k := t];
      assert TaskOk(q, k, t);
      NotAsking(x.mailbox[1..], x.tasks, k);
      AsksOther(x.mailbox[1..], x.tasks, k, t);
    }
  }

  lemma TasksPublished(x: Node, w: World)
    requires RegistriesOk(x.p) && x.mailbox != [] && x.mailbox[0].PublishActor? && w.uuid !in x.p.published
    requires TasksOk(x.p, x.tasks) && AsksOk(x.mailbox, x.tasks)
    requires var q := Turn(x.p, x.mailbox[0], w); TasksOk(q, x.tasks) && q.log.spawned == x.p.log.spawned
    requires AsksOk(x.mailbox[1..], x.tasks)
    ensures TasksOk(AfterTurn(x, w).p, AfterTurn(x, w).tasks) && AsksOk(x.mailbox[1..], AfterTurn(x, w).tasks)
  {
    var m, q := x.mailbox[0], Turn(x.p, x.mailbox[0], w);
    if AskTag(m).Some? {
      var k := AskTag(m).value;
      assert AskOk(x.tasks, m);
      PublishTurn(x.p, m, w);
      if m.reply.value !in w.dropped {
        TaskAnswered(x, q, k, Rid(x.p, IdOf(q.published, m.actor)));
      }
    } else {
      UserPublication(x.p, m, w);
      assert Route(x.tasks, x.p, q) == x.tasks;
    }
  }

  lemma TaskAnswered(x: Node, q: Portal, k: nat, id: RemoteId)
    requires x.mailbox != [] && AskTag(x.mailbox[0]) == Some(k) && q.log.spawned == x.p.log.spawned
    requires TasksOk(q, x.tasks) && AsksOk(x.mailbox, x.tasks) && AskOk(x.tasks, x.mailbox[0])
    requires q.log.replies == x.p.log.replies + [(TaskPort(k), Issued(id))]
    requires IsPublished(q.published, x.mailbox[0].actor) && q.channel.Open?
    requires id == Rid(q, IdOf(q.published, x.mailbox[0].actor))
    ensures TasksOk(q, Settle(x, q).tasks) && AsksOk(x.mailbox[1..], Settle(x, q).tasks)
  {
    var t := x.tasks[k].(ids := x.tasks[k].ids + [id], waiting := false);
    assert Settle(x, q).tasks == x.tasks[k := t];
    TaskGets(q, k, x.tasks[k], x.mailbox[0].actor, id);
    AsksRest(x.mailbox, x.tasks);
    AsksOther(x.mailbox[1..], x.tasks, k, t);
  }

  lemma UserPublication(p: Portal, m: Mail, w: World)
    requires m.PublishActor? && AskTag(m).None?
    ensures var q := Turn(p, m, w);
      |q.log.replies| == |p.log.replies| + 1 ==> q.log.replies[|p.log.replies|].0.UserPort?
  {
    FramePublish(p, m.actor, m.receiver, w);
  }

  /** The id a task is handed is the right one for the next reference of its job. */
  lemma TaskGets(q: Portal, k: nat, t: Task, actor: ActorId, id: RemoteId)
    requires TaskOk(q, k, t) && |t.ids| < |Addresses(t.job.value)|
    requires Addresses(t.job.value)[|t.ids|].Local? && Addresses(t.job.value)[|t.ids|].actor == actor
    requires IsPublished(q.published, actor) && id == Rid(q, IdOf(q.published, actor))
    ensures TaskOk(q, k, t.(ids := t.ids + [id], waiting := false))
  {
    var addrs, n := Addresses(t.job.value), |t.ids|;
    assert addrs[..n + 1] == addrs[..n] + [addrs[n]];
    assert IssuedIds(q, addrs[..n + 1]) == IssuedIds(q, addrs[..n]) + [id];
  }

  // ------------------------------------------------------------------------------------------------
  // The wire

  lemma SentAfterTurn(cx: Formats, p: Portal, peer: Portal, m: Mail, w: World)
    requires RegistriesOk(p) && w.uuid !in p.published
    requires SentSafe(cx, p, peer) && MailSafe(cx, p, peer, m)
    ensures SentSafe(cx, Turn(p, m, w), peer)
  {
    var q := Turn(p, m, w);
    TurnGrows(p, m, w);
    TurnKeepsRegistries(p, m, w);
    var sent := SentStep(p, m, w);
    if sent.Some? {
      MailStable(cx, p, q, peer, peer, m);
      SentIsSafe(cx, p, q, peer, m, sent.value);
    }
    SentSnoc(cx, p, q, peer, sent);
  }

  lemma SentIsSafe(cx: Formats, p: Portal, q: Portal, peer: Portal, m: Mail, msg: CrossPortal)
    requires SentFor(p, m, q, msg) && MailSafe(cx, q, peer, m)
    ensures PacketSafe(cx, q, peer, ContentPacket(Decoded(msg)))
  {
  }

  lemma SentSnoc(cx: Formats, p: Portal, q: Portal, peer: Portal, sent: Option<CrossPortal>)
    requires SentSafe(cx, p, peer) && Grows(p, q) && Injective(q.published)
    requires q.log.sent == p.log.sent + Appended(sent)
    requires sent.Some? ==> PacketSafe(cx, q, peer, ContentPacket(Decoded(sent.value)))
    ensures SentSafe(cx, q, peer)
  {
    forall i | 0 <= i < |q.log.sent| ensures PacketSafe(cx, q, peer, q.log.sent[i]) {
      if i < |p.log.sent| {
        assert q.log.sent[i] == p.log.sent[i];
        PacketStable(cx, p, q, peer, peer, p.log.sent[i]);
      }
    }
  }

  /** What a portal is about to handle was sent by its peer and is therefore safe. */
  lemma HeardIsSafe(cx: Formats, x: Node, y: Node)
    requires Wired(x, y) && SentSafe(cx, y.p, x.p) && x.mailbox != [] && x.mailbox[0].Content?
    ensures PacketSafe(cx, y.p, x.p, ContentPacket(x.mailbox[0].data))
  {
    assert x.mailbox == [x.mailbox[0]] + x.mailbox[1..];
    NextHeard(x, y, x.mailbox[0], x.mailbox[1..]);
  }

  // ------------------------------------------------------------------------------------------------
  // What arrives

  /** The peer decodes exactly the image of the job the message came from. */
  lemma ArrivesAsImage(cx: Formats, p: Portal, peer: Portal, target: RemoteId, payload: Payload)
    requires cx.RoundTrips() && MessageSafe(cx, p, peer, target, payload)
    requires JobTyped(peer, p.log.spawned[payload.tag])
    ensures Decode(cx, peer.published[target.id].receiver, payload.bytes)
         == Some(Image(p, p.log.spawned[payload.tag].value))
  {
    SerializedArrives(cx, p, p.log.spawned[payload.tag]);
  }

  lemma SerializedArrives(cx: Formats, p: Portal, job: Job)
    requires cx.RoundTrips() && JobOk(cx, job) && AllIssued(p, Addresses(job.value))
    requires |Serialized(cx, p, job)| < U64_LIMIT
    ensures Decode(cx, job.ty, Serialized(cx, p, job)) == Some(Image(p, job.value))
  {
    ImageTyped(cx, p, job.ty, job.value);
    RoundTrip(cx, job.ty, Image(p, job.value));
  }

  /** Without the type, anything can come out: a byte vector sent to an actor whose messages consist of one reference is
      delivered as a reference to whatever id the bytes spell, issued or not. */
  lemma MistypedForges(cx: Formats, id: RemoteId)
    requires cx.RoundTrips() && |cx.refEnc(id)| < U64_LIMIT
    ensures var sent := VBytes(cx.refEnc(id));
      && HasType(cx, TBytes, sent) && OnWire(sent)
      && Decode(cx, TRecord([TRef]), Encode(cx, TBytes, sent)) == Some(VRecord([VRef(Remote(id))]))
  {
    FramedBytes(cx, cx.refEnc(id));
    OneFieldRead(cx, TRef, cx.refEnc(id), VRef(Remote(id)));
  }

  lemma FramedBytes(cx: Formats, b: seq<byte>)
    ensures HasType(cx, TBytes, VBytes(b)) && OnWire(VBytes(b)) && Encode(cx, TBytes, VBytes(b)) == Frame(b)
  {
  }

  lemma OneFieldRead(cx: Formats, ty: Ty, b: seq<byte>, v: Val)
    requires |b| < U64_LIMIT && Decode(cx, ty, b) == Some(v)
    ensures Decode(cx, TRecord([ty]), Frame(b)) == Some(VRecord([v]))
  {
    UnframeFrame(b, []);
    assert Frame(b) + [] == Frame(b);
    OneField(cx, ty, Frame(b), b, v);
  }

  lemma OneField(cx: Formats, ty: Ty, data: seq<byte>, b: seq<byte>, v: Val)
    requires Unframe(data) == Some(Split(b, [])) && Decode(cx, ty, b) == Some(v)
    ensures DecodeFields(cx, [ty], data) == Some([v])
  {
    assert [ty][1..] == [] && [v] + [] == [v];
    assert DecodeFields(cx, [], []) == Some([]);
  }

  lemma {:induction false} RemotesOfIds(ids: seq<RemoteId>)
    ensures Remotes(ToAddresses(ids)) == ids
    decreases |ids|
  {
    if ids != [] {
      RemotesOfIds(ids[1..]);
      assert ToAddresses(ids)[1..] == ToAddresses(ids[1..]);
      assert ids == [ids[0]] + ids[1..];
    }
  }

  lemma ImageIdsIssued(cx: Formats, peer: Portal, ty: Ty, v: Val)
    requires HasType(cx, ty, v) && AllIssued(peer, Addresses(v))
    ensures forall id :: id in ToSet(Remotes(Addresses(Image(peer, v)))) ==> IssuedBy(peer, id)
  {
    ImageTyped(cx, peer, ty, v);
    RemotesOfIds(IssuedIds(peer, Addresses(v)));
  }

  /** A message that arrives is delivered, as its image if it has the type its receiver decodes. Otherwise it ends the
      portal, and only because its actor has stopped or because a mistyped payload cannot be decoded. */
  lemma ReceivedMessage(cx: Formats, p: Portal, peer: Portal, m: Mail, w: World)
    requires cx.RoundTrips() && IsSendMessage(m) && p.channel.Open? && p.status.Running?
    requires MessageSafe(cx, peer, p, m.data.msg.target, m.data.msg.payload)
    requires w.inbound == Decode(cx, p.published[m.data.msg.target.id].receiver, m.data.msg.payload.bytes)
    ensures var q, job := Turn(p, m, w), peer.log.spawned[m.data.msg.payload.tag];
      var actor := p.published[job.target.id].actor;
      && (JobTyped(p, job) ==> w.inbound == Some(Image(peer, job.value)))
      && q.log.complaints == p.log.complaints
      && (if w.inbound.None? then
            q.status == Failed(BadPayload) && q.log.delivered == p.log.delivered && q.log.learned == p.log.learned
          else if actor in w.gone then
            q.status == Failed(TargetStopped) && q.log.delivered == p.log.delivered && q.log.learned == p.log.learned
          else
            && q.status.Running?
            && q.log.delivered == p.log.delivered + [Delivery(actor, w.inbound.value, m.data.msg.payload.tag)]
            && q.log.learned == p.log.learned + ToSet(Remotes(Addresses(w.inbound.value)))
            && (forall id :: id in Remotes(Addresses(w.inbound.value)) ==> id in q.log.learned))
  {
    if JobTyped(p, peer.log.spawned[m.data.msg.payload.tag]) {
      ArrivesAsImage(cx, peer, p, m.data.msg.target, m.data.msg.payload);
    }
    assert Turn(p, m, w) == OnSendMessage(p, m.data.msg.target, m.data.msg.payload, w);
  }

  lemma {:induction false} StartedPairs(ids: seq<RemoteId>, proxies: seq<ActorId>)
    requires |ids| == |proxies|
    ensures |Started(ids, proxies)| == |ids|
    ensures forall i :: 0 <= i < |ids| ==> Started(ids, proxies)[i] == (ids[i], proxies[i])
    decreases |ids|
  {
    if ids != [] {
      StartedPairs(ids[1..], proxies[1..]);
    }
  }

  lemma StartedTurn(p: Portal, m: Mail, w: World)
    requires IsSendMessage(m) && p.channel.Open? && p.status.Running?
    requires m.data.msg.target.id in p.published && w.inbound.Some?
    ensures Turn(p, m, w).log.started == p.log.started + Started(Remotes(Addresses(w.inbound.value)), w.proxies)
  {
    assert Turn(p, m, w) == OnSendMessage(p, m.data.msg.target, m.data.msg.payload, w);
  }

  /** Each reference of an arriving message gets a proxy of its own, in order, for the id the peer issued for the actor at
      that place, even if the message can then not be delivered. */
  lemma ReceivedProxies(cx: Formats, p: Portal, peer: Portal, m: Mail, w: World)
    requires cx.RoundTrips() && IsSendMessage(m) && p.channel.Open? && p.status.Running?
    requires MessageSafe(cx, peer, p, m.data.msg.target, m.data.msg.payload)
    requires JobTyped(p, peer.log.spawned[m.data.msg.payload.tag])
    requires w.inbound == Decode(cx, p.published[m.data.msg.target.id].receiver, m.data.msg.payload.bytes)
    requires w.inbound.Some? ==> |w.proxies| == |Remotes(Addresses(w.inbound.value))|
    ensures var all, refs := Turn(p, m, w).log.started, Addresses(peer.log.spawned[m.data.msg.payload.tag].value);
      && |all| == |p.log.started| + |refs| && all[..|p.log.started|] == p.log.started
      && |w.proxies| == |refs|
      && forall i :: 0 <= i < |refs| ==>
           all[|p.log.started| + i] == (Rid(peer, IdOf(peer.published, refs[i].actor)), w.proxies[i])
  {
    var job := peer.log.spawned[m.data.msg.payload.tag];
    ArrivesAsImage(cx, peer, p, m.data.msg.target, m.data.msg.payload);
    ImageTyped(cx, peer, job.ty, job.value);
    RemotesOfIds(IssuedIds(peer, Addresses(job.value)));
    StartedPairs(IssuedIds(peer, Addresses(job.value)), w.proxies);
    StartedTurn(p, m, w);
  }

  ghost predicate ReceivedOk(cx: Formats, p: Portal, peer: Portal) {
    LearnedOk(p, peer) && DeliveriesOk(cx, p, peer) && Quiet(p, peer)
  }

  lemma ReceivedAfterTurn(cx: Formats, x: Node, y: Node, w: World)
    requires cx.RoundTrips() && WireInv(x, y) && WireInv(y, x) && IdInv(cx, x, y) && SentSafe(cx, y.p, x.p)
    requires x.p.status.Running? && x.mailbox != [] && WorldFits(cx, x, x.mailbox[0], w)
    ensures ReceivedOk(cx, Turn(x.p, x.mailbox[0], w), y.p)
  {
    var m, q := x.mailbox[0], Turn(x.p, x.mailbox[0], w);
    TurnGrows(x.p, m, w);
    if m.Content? {
      HeardIsSafe(cx, x, y);
      HeardInOrder(x, y, m);
    }
    if IsSendMessage(m) {
      AfterMessage(cx, x.p, y.p, m, w);
    } else {
      QuietTurn(x.p, m, w);
      TurnFramed(x.p, m, w);
      DeliveriesSame(cx, x.p, q, y.p);
      GrowsSelf(y.p);
      LearnedStable(cx, x.p, q, y.p, y.p);
      if IsResponse(m) {
        AfterResponse(cx, x.p, y.p, m, w);
      }
    }
  }

  lemma QuietTurn(p: Portal, m: Mail, w: World)
    requires p.status.Running? && !IsSendMessage(m)
    ensures Turn(p, m, w).status != Failed(BadPayload)
    ensures UnknownTarget in Turn(p, m, w).log.complaints ==> UnknownTarget in p.log.complaints
  {
    TurnEnds(p, m, w);
    TurnComplains(p, m, w);
  }

  lemma DeliveriesSame(cx: Formats, p: Portal, q: Portal, peer: Portal)
    requires DeliveriesOk(cx, p, peer) && Grows(p, q) && q.log.delivered == p.log.delivered && Injective(peer.published)
    ensures DeliveriesOk(cx, q, peer)
  {
    GrowsSelf(peer);
    forall i | 0 <= i < |q.log.delivered| ensures DeliveryOk(cx, q, peer, q.log.delivered[i]) {
      DeliveryStable(cx, p, q, peer, peer, p.log.delivered[i]);
    }
  }

  lemma AfterResponse(cx: Formats, p: Portal, peer: Portal, m: Mail, w: World)
    requires IsResponse(m) && p.channel.Open? && PacketSafe(cx, peer, p, ContentPacket(m.data))
    ensures forall id :: id in Turn(p, m, w).log.learned ==> id in p.log.learned || IssuedBy(peer, id)
  {
    var q := OnResponse(p, m.data.msg.id, m.data.msg.result, w);
    assert Turn(p, m, w) == q;
    assert q.log.learned <= p.log.learned + if m.data.msg.result.Found? then {m.data.msg.result.id} else {};
  }

  lemma AfterMessage(cx: Formats, p: Portal, peer: Portal, m: Mail, w: World)
    requires cx.RoundTrips() && ReceivedOk(cx, p, peer) && IsSendMessage(m) && p.channel.Open? && p.status.Running?
    requires PacketSafe(cx, peer, p, ContentPacket(m.data)) && Grows(p, Turn(p, m, w)) && Injective(peer.published)
    requires m.data.msg.target.id in p.published
      ==> w.inbound == Decode(cx, p.published[m.data.msg.target.id].receiver, m.data.msg.payload.bytes)
    ensures ReceivedOk(cx, Turn(p, m, w), peer)
  {
    var q, payload := Turn(p, m, w), m.data.msg.payload;
    assert MessageSafe(cx, peer, p, m.data.msg.target, payload);
    var job := peer.log.spawned[payload.tag];
    ReceivedMessage(cx, p, peer, m, w);
    TypedStable(cx, p, q, job);
    if q.log.delivered == p.log.delivered {
      DeliveriesSame(cx, p, q, peer);
      GrowsSelf(peer);
      LearnedStable(cx, p, q, peer, peer);
    } else {
      DeliveredMore(cx, p, q, peer, payload.tag, w.inbound.value);
      LearnedMore(cx, p, q, peer, payload.tag, w.inbound.value);
    }
  }

  lemma DeliveredMore(cx: Formats, p: Portal, q: Portal, peer: Portal, tag: nat, v: Val)
    requires DeliveriesOk(cx, p, peer) && Grows(p, q) && Injective(peer.published) && p.channel.Open?
    requires tag < |peer.log.spawned|
    requires var job := peer.log.spawned[tag];
      && JobSafe(cx, p, job) && AllIssued(peer, Addresses(job.value)) && |Serialized(cx, peer, job)| < U64_LIMIT
      && Decode(cx, p.published[job.target.id].receiver, Serialized(cx, peer, job)) == Some(v)
      && q.log.delivered == p.log.delivered + [Delivery(p.published[job.target.id].actor, v, tag)]
    ensures DeliveriesOk(cx, q, peer)
  {
    GrowsSelf(peer);
    forall i | 0 <= i < |q.log.delivered| ensures DeliveryOk(cx, q, peer, q.log.delivered[i]) {
      if i < |p.log.delivered| {
        assert q.log.delivered[i] == p.log.delivered[i];
        DeliveryStable(cx, p, q, peer, peer, p.log.delivered[i]);
      }
    }
  }

  lemma LearnedMore(cx: Formats, p: Portal, q: Portal, peer: Portal, tag: nat, v: Val)
    requires DeliveriesOk(cx, p, peer) && LearnedOk(p, peer) && Grows(p, q) && peer.channel.Open?
    requires tag < |peer.log.spawned| && JobSafe(cx, p, peer.log.spawned[tag])
    requires var job := peer.log.spawned[tag];
      && AllIssued(peer, Addresses(job.value)) && (JobTyped(p, job) ==> v == Image(peer, job.value))
      && q.log.delivered == p.log.delivered + [Delivery(p.published[job.target.id].actor, v, tag)]
    requires q.log.learned == p.log.learned + ToSet(Remotes(Addresses(v)))
    ensures LearnedOk(q, peer)
  {
    var job := peer.log.spawned[tag];
    GrowsSelf(peer);
    LearnedStable(cx, p, q, peer, peer);
    TypedStable(cx, p, q, job);
    if JobTyped(p, job) {
      ImageIdsIssued(cx, peer, job.ty, job.value);
    } else {
      forall id | id in ToSet(Remotes(Addresses(v))) ensures Forged(q, peer, id) {
        assert ForgedIn(q, peer, q.log.delivered[|p.log.delivered|], id);
      }
    }
  }

  // ------------------------------------------------------------------------------------------------
  // All actions

  lemma IdTurn(cx: Formats, x: Node, y: Node, w: World)
    requires cx.RoundTrips() && WireInv(x, y) && WireInv(y, x) && IdInv(cx, x, y) && SentSafe(cx, y.p, x.p)
    requires x.p.status.Running? && x.mailbox != [] && WorldFits(cx, x, x.mailbox[0], w)
    ensures IdInv(cx, AfterTurn(x, w), y)
  {
    var m, q := x.mailbox[0], Turn(x.p, x.mailbox[0], w);
    TurnGrows(x.p, m, w);
    TurnKeepsRegistries(x.p, m, w);
    JobsAfterTurn(cx, x.p, y.p, m, w);
    SentAfterTurn(cx, x.p, y.p, m, w);
    TasksAfterTurn(cx, x, w);
    ReceivedAfterTurn(cx, x, y, w);
    MailsStable(cx, x.p, q, y.p, y.p, x.mailbox);
  }

  lemma AsksExtended(rest: seq<Mail>, all: seq<Mail>, tasks: map<nat, Task>)
    requires AsksOk(rest, tasks) && rest <= all && forall i :: |rest| <= i < |all| ==> AskTag(all[i]).None?
    ensures AsksOk(all, tasks)
  {
    forall i | 0 <= i < |all| && AskTag(all[i]).Some? ensures AskOk(tasks, all[i]) {
      assert all[i] == rest[i];
    }
    forall i, j | 0 <= i < j < |all| && AskTag(all[i]).Some? ensures AskTag(all[i]) != AskTag(all[j]) {
      if j < |rest| {
        assert all[i] == rest[i] && all[j] == rest[j];
      }
    }
  }

  /** New mail that is safe and is no task's publication. */
  lemma IdMail(cx: Formats, x: Node, y: Node, m: Mail)
    requires IdInv(cx, x, y) && MailSafe(cx, x.p, y.p, m) && AskTag(m).None?
    ensures MailsSafe(cx, x.p, y.p, x.mailbox + [m]) && AsksOk(x.mailbox + [m], x.tasks)
  {
    AsksExtended(x.mailbox, x.mailbox + [m], x.tasks);
  }

  lemma IdAsk(cx: Formats, x: Node, y: Node, k: nat)
    requires IdInv(cx, x, y) && Enabled(cx, x, y, AskNext(k))
    ensures IdInv(cx, Apply(cx, x, y, AskNext(k)), y)
  {
    var t := x.tasks[k];
    var a := Addresses(t.job.value)[|t.ids|];
    var m := PublishActor(a.actor, a.message, Some(TaskPort(k)));
    var tasks := x.tasks[k := t.(waiting := true)];
    NotAsking(x.mailbox, x.tasks, k);
    AsksOther(x.mailbox, x.tasks, k, t.(waiting := true));
    AsksSnoc(x.mailbox, m, tasks);
    assert TaskOk(x.p, k, t);
    assert TasksOk(x.p, tasks);
  }

  lemma AsksSnoc(mailbox: seq<Mail>, m: Mail, tasks: map<nat, Task>)
    requires AsksOk(mailbox, tasks) && AskTag(m).Some? && AskOk(tasks, m)
    requires forall i :: 0 <= i < |mailbox| ==> AskTag(mailbox[i]) != AskTag(m)
    ensures AsksOk(mailbox + [m], tasks)
  {
  }

  lemma IdFinish(cx: Formats, x: Node, y: Node, k: nat)
    requires IdInv(cx, x, y) && Enabled(cx, x, y, Finish(k))
    ensures IdInv(cx, Apply(cx, x, y, Finish(k)), y)
  {
    var t := x.tasks[k];
    var m := TransmitMessage(t.job.target, Payload(Written(cx, t), k));
    assert TaskOk(x.p, k, t);
    FinishedIsSafe(cx, x, y, k);
    IdMail(cx, x, y, m);
    TaskRemoved(x, x.mailbox + [m], k);
  }

  lemma FinishedIsSafe(cx: Formats, x: Node, y: Node, k: nat)
    requires JobsSafe(cx, x.p, y.p) && Enabled(cx, x, y, Finish(k)) && TaskOk(x.p, k, x.tasks[k])
    ensures MessageSafe(cx, x.p, y.p, x.tasks[k].job.target, Payload(Written(cx, x.tasks[k]), k))
  {
    var t := x.tasks[k];
    assert JobSafe(cx, y.p, t.job);
    assert Addresses(t.job.value)[..|t.ids|] == Addresses(t.job.value);
  }

  /** A task that waits for nothing leaves no publication behind. */
  lemma TaskRemoved(x: Node, mailbox: seq<Mail>, k: nat)
    requires AsksOk(mailbox, x.tasks) && TasksOk(x.p, x.tasks) && k in x.tasks && !x.tasks[k].waiting
    ensures AsksOk(mailbox, x.tasks - {k}) && TasksOk(x.p, x.tasks - {k})
  {
    forall i | 0 <= i < |mailbox| && AskTag(mailbox[i]).Some? ensures AskOk(x.tasks - {k}, mailbox[i]) {
      assert AskOk(x.tasks, mailbox[i]);
    }
  }

  /** Mail that is safe and asks for no id, whoever put it there. */
  lemma IdMailed(cx: Formats, x: Node, y: Node, m: Mail, x': Node)
    requires IdInv(cx, x, y) && MailSafe(cx, x.p, y.p, m) && AskTag(m).None?
    requires x'.p == x.p && x'.mailbox == x.mailbox + [m] && x'.tasks == x.tasks
    ensures IdInv(cx, x', y)
  {
    IdMail(cx, x, y, m);
  }

  lemma IdLose(cx: Formats, x: Node, y: Node, k: nat)
    requires IdInv(cx, x, y) && Enabled(cx, x, y, Lose(k))
    ensures IdInv(cx, Apply(cx, x, y, Lose(k)), y)
  {
    TaskRemoved(x, x.mailbox, k);
  }

  /** The application sends through proxies for ids it received, with the type the target was published for. */
  lemma AppMailSafe(cx: Formats, x: Node, y: Node, m: Mail)
    requires LearnedOk(x.p, y.p) && AppMail(cx, x, y, m)
    ensures MailSafe(cx, x.p, y.p, m) && AskTag(m).None?
  {
  }

  lemma IdStep(cx: Formats, x: Node, y: Node, act: Action)
    requires cx.RoundTrips() && WireInv(x, y) && WireInv(y, x) && IdInv(cx, x, y) && SentSafe(cx, y.p, x.p)
    requires Enabled(cx, x, y, act)
    ensures IdInv(cx, Apply(cx, x, y, act), y)
  {
    match act
    case TakeTurn(w) => IdTurn(cx, x, y, w);
    case AskNext(k) => IdAsk(cx, x, y, k);
    case Finish(k) => IdFinish(cx, x, y, k);
    case Lose(k) => IdLose(cx, x, y, k);
    case Die(actor) =>
    case _ => IdCast(cx, x, y, act);
  }

  lemma IdCast(cx: Formats, x: Node, y: Node, act: Action)
    requires IdInv(cx, x, y) && Enabled(cx, x, y, act) && (act.Pull? || act.App? || act.Register? || act.Notice?)
    ensures IdInv(cx, Apply(cx, x, y, act), y)
  {
    var x' := Apply(cx, x, y, act);
    match act
    case Pull => IdMailed(cx, x, y, ToMail(y.p.log.sent[x.pulled]), x');
    case App(m) =>
      AppMailSafe(cx, x, y, m);
      IdMailed(cx, x, y, m, x');
    case Register => IdMailed(cx, x, y, RegisterProxy(x.unregistered[0].0, x.unregistered[0].1), x');
    case Notice(actor) => IdMailed(cx, x, y, LocalActorExited(actor), x');
  }
}
