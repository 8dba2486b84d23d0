/** Which ids and messages may be in circulation between two portals: every message carries the encoding of a job with its
    references replaced by their ids, and every id stands for the actor it was issued for, unless a message whose type is
    not the one its receiver decodes forged it. */
module LinkIds {
  import opened Bytes
  import opened Codec
  import opened Refs
  import opened Portal
  import opened PortalTheorems
  import opened PortalSends
  import opened Link

  // ------------------------------------------------------------------------------------------------
  // What a value becomes on the other side

  /** All references are local actors the portal has published. */
  ghost predicate AllIssued(p: Portal, addrs: seq<Address>) {
    && p.channel.Open?
    && forall i :: 0 <= i < |addrs| ==> addrs[i].Local? && IsPublished(p.published, addrs[i].actor)
  }

  ghost function IssuedIds(p: Portal, addrs: seq<Address>): (ids: seq<RemoteId>)
    requires AllIssued(p, addrs)
    ensures |ids| == |addrs|
    ensures forall i :: 0 <= i < |addrs| ==> ids[i] == Rid(p, IdOf(p.published, addrs[i].actor))
  {
    seq(|addrs|, i requires 0 <= i < |addrs| => Rid(p, IdOf(p.published, addrs[i].actor)))
  }

  /** The same tree with each local actor replaced by the id the portal's peer knows it under. */
  ghost function Image(p: Portal, v: Val): Val
    requires AllIssued(p, Addresses(v))
  {
    Fill(v, ToAddresses(IssuedIds(p, Addresses(v))))
  }

  lemma ImageTyped(cx: Formats, p: Portal, ty: Ty, v: Val)
    requires HasType(cx, ty, v) && AllIssued(p, Addresses(v))
    ensures HasType(cx, ty, Image(p, v)) && OnWire(Image(p, v))
    ensures Addresses(Image(p, v)) == ToAddresses(IssuedIds(p, Addresses(v)))
  {
    var subs := ToAddresses(IssuedIds(p, Addresses(v)));
    FillGoesOnWire(cx, ty, v, subs);
    FillRestores(v, subs);
  }

  ghost function Serialized(cx: Formats, p: Portal, job: Job): seq<byte>
    requires JobOk(cx, job) && AllIssued(p, Addresses(job.value))
  {
    ImageTyped(cx, p, job.ty, job.value);
    Encode(cx, job.ty, Image(p, job.value))
  }

  // ------------------------------------------------------------------------------------------------
  // Invariants

  /** The target is an actor `peer` published, for messages of whatever type. */
  predicate JobSafe(cx: Formats, peer: Portal, job: Job) {
    JobOk(cx, job) && peer.channel.Open? && job.target.id in peer.published
  }

  /** The message has the type its target was published for. */
  predicate JobTyped(peer: Portal, job: Job) {
    IssuedBy(peer, job.target) && peer.published[job.target.id].receiver == job.ty
  }

  predicate AllTyped(p: Portal, peer: Portal) {
    forall k :: 0 <= k < |p.log.spawned| ==> JobTyped(peer, p.log.spawned[k])
  }

  predicate JobsSafe(cx: Formats, p: Portal, peer: Portal) {
    && (p.log.spawned != [] ==> p.channel.Open?)
    && forall k :: 0 <= k < |p.log.spawned| ==> JobSafe(cx, peer, p.log.spawned[k])
  }

  /** A serialized message is the encoding of the image of one of the portal's jobs, sent to that job's target. */
  ghost predicate MessageSafe(cx: Formats, p: Portal, peer: Portal, target: RemoteId, payload: Payload) {
    && payload.tag < |p.log.spawned|
    && var job := p.log.spawned[payload.tag];
    && job.target == target && JobSafe(cx, peer, job) && AllIssued(p, Addresses(job.value))
    && payload.bytes == Serialized(cx, p, job) && |payload.bytes| < U64_LIMIT
  }

  ghost predicate PacketSafe(cx: Formats, p: Portal, peer: Portal, pk: Packet) {
    match pk
    case ContentPacket(Decoded(ResponseActorByName(_, result))) => result.Found? ==> IssuedBy(p, result.id)
    case ContentPacket(Decoded(ResponseActorById(_, _))) => false
    case ContentPacket(Decoded(ActorExited(who))) => IssuedBy(p, who)
    case ContentPacket(Decoded(SendMessage(target, payload))) => MessageSafe(cx, p, peer, target, payload)
    case _ => true
  }

  ghost predicate SentSafe(cx: Formats, p: Portal, peer: Portal) {
    forall i :: 0 <= i < |p.log.sent| ==> PacketSafe(cx, p, peer, p.log.sent[i])
  }

  ghost predicate MailSafe(cx: Formats, p: Portal, peer: Portal, m: Mail) {
    match m
    case ImmaterializeMessage(job) => JobSafe(cx, peer, job)
    case TransmitMessage(target, payload) => MessageSafe(cx, p, peer, target, payload)
    case _ => true
  }

  ghost predicate MailsSafe(cx: Formats, p: Portal, peer: Portal, mailbox: seq<Mail>) {
    forall i :: 0 <= i < |mailbox| ==> MailSafe(cx, p, peer, mailbox[i])
  }

  /** A task works on its own job and has the ids of that job's first references, in order. */
  ghost predicate TaskOk(p: Portal, k: nat, t: Task) {
    && k < |p.log.spawned| && t.job == p.log.spawned[k]
    && |t.ids| <= |Addresses(t.job.value)| && (t.waiting ==> |t.ids| < |Addresses(t.job.value)|)
    && AllIssued(p, Addresses(t.job.value)[..|t.ids|])
    && t.ids == IssuedIds(p, Addresses(t.job.value)[..|t.ids|])
  }

  ghost predicate TasksOk(p: Portal, tasks: map<nat, Task>) {
    forall k :: k in tasks ==> TaskOk(p, k, tasks[k])
  }

  /** The task a publication is for. */
  function AskTag(m: Mail): Option<nat> {
    match m
    case PublishActor(_, _, Some(TaskPort(k))) => Some(k)
    case _ => None
  }

  /** The publication is of the reference its task waits for. */
  predicate AskOk(tasks: map<nat, Task>, m: Mail)
    requires AskTag(m).Some?
  {
    var k := AskTag(m).value;
    && k in tasks && tasks[k].waiting && |tasks[k].ids| < |Addresses(tasks[k].job.value)|
    && var a := Addresses(tasks[k].job.value)[|tasks[k].ids|];
       a.Local? && a.actor == m.actor
  }

  /** Every task waits for one id at a time. */
  predicate AsksOk(mailbox: seq<Mail>, tasks: map<nat, Task>) {
    && (forall i :: 0 <= i < |mailbox| && AskTag(mailbox[i]).Some? ==> AskOk(tasks, mailbox[i]))
    && (forall i, j :: 0 <= i < j < |mailbox| && AskTag(mailbox[i]).Some? ==> AskTag(mailbox[i]) != AskTag(mailbox[j]))
  }

  /** The id was read out of a message that did not have the type its receiver decodes. */
  predicate Forged(p: Portal, peer: Portal, id: RemoteId) {
    exists i :: 0 <= i < |p.log.delivered| && ForgedIn(p, peer, p.log.delivered[i], id)
  }

  predicate ForgedIn(p: Portal, peer: Portal, d: Delivery, id: RemoteId) {
    && d.tag < |peer.log.spawned| && !JobTyped(p, peer.log.spawned[d.tag])
    && id in ToSet(Remotes(Addresses(d.value)))
  }

  /** Ids received are ids the peer issued, unless a mistyped message forged them. */
  predicate LearnedOk(p: Portal, peer: Portal) {
    && (p.log.learned != {} ==> peer.channel.Open?)
    && forall id :: id in p.log.learned ==> IssuedBy(peer, id) || Forged(p, peer, id)
  }

  /** A message was delivered to the actor published under its target id, and it is what that actor's rematerializer
      makes of the encoded image of the job it came from. */
  ghost predicate DeliveryOk(cx: Formats, p: Portal, peer: Portal, d: Delivery) {
    && p.channel.Open? && d.tag < |peer.log.spawned|
    && var job := peer.log.spawned[d.tag];
    && JobOk(cx, job) && AllIssued(peer, Addresses(job.value)) && |Serialized(cx, peer, job)| < U64_LIMIT
    && job.target.id in p.published && p.published[job.target.id].actor == d.actor
    && Decode(cx, p.published[job.target.id].receiver, Serialized(cx, peer, job)) == Some(d.value)
  }

  ghost predicate DeliveriesOk(cx: Formats, p: Portal, peer: Portal) {
    forall i :: 0 <= i < |p.log.delivered| ==> DeliveryOk(cx, p, peer, p.log.delivered[i])
  }

  /** Every target is found, and only a mistyped message can be undecodable. */
  predicate Quiet(p: Portal, peer: Portal) {
    UnknownTarget !in p.log.complaints && (p.status == Failed(BadPayload) ==> !AllTyped(peer, p))
  }

  ghost predicate IdInv(cx: Formats, x: Node, y: Node) {
    && JobsSafe(cx, x.p, y.p) && SentSafe(cx, x.p, y.p) && MailsSafe(cx, x.p, y.p, x.mailbox)
    && TasksOk(x.p, x.tasks) && AsksOk(x.mailbox, x.tasks)
    && LearnedOk(x.p, y.p) && DeliveriesOk(cx, x.p, y.p) && Quiet(x.p, y.p)
  }

  // ------------------------------------------------------------------------------------------------
  // Nothing that was safe becomes unsafe

  lemma IssuedStable(p: Portal, q: Portal, id: RemoteId)
    requires IssuedBy(p, id) && Grows(p, q)
    ensures IssuedBy(q, id) && q.published[id.id] == p.published[id.id]
  {
  }

  lemma AddressesStable(p: Portal, q: Portal, addrs: seq<Address>)
    requires AllIssued(p, addrs) && Grows(p, q) && Injective(q.published)
    ensures AllIssued(q, addrs) && IssuedIds(q, addrs) == IssuedIds(p, addrs)
  {
    forall i | 0 <= i < |addrs|
      ensures IsPublished(q.published, addrs[i].actor)
      ensures IdOf(q.published, addrs[i].actor) == IdOf(p.published, addrs[i].actor)
    {
      var k := IdOf(p.published, addrs[i].actor);
      assert k in q.published && q.published[k].actor == addrs[i].actor;
    }
  }

  lemma JobStable(cx: Formats, peer: Portal, peer': Portal, job: Job)
    requires JobSafe(cx, peer, job) && Grows(peer, peer')
    ensures JobSafe(cx, peer', job)
  {
  }

  /** What had a type for an earlier state of the registry has it for a later one, and the other way round. */
  lemma TypedStable(cx: Formats, peer: Portal, peer': Portal, job: Job)
    requires JobSafe(cx, peer, job) && Grows(peer, peer')
    ensures JobTyped(peer, job) <==> JobTyped(peer', job)
  {
  }

  lemma MessageStable(cx: Formats, p: Portal, p': Portal, peer: Portal, peer': Portal, target: RemoteId, payload: Payload)
    requires MessageSafe(cx, p, peer, target, payload)
    requires Grows(p, p') && Injective(p'.published) && Grows(peer, peer')
    ensures MessageSafe(cx, p', peer', target, payload)
  {
    var job := p.log.spawned[payload.tag];
    assert p'.log.spawned[payload.tag] == job;
    JobStable(cx, peer, peer', job);
    AddressesStable(p, p', Addresses(job.value));
  }

  lemma PacketStable(cx: Formats, p: Portal, p': Portal, peer: Portal, peer': Portal, pk: Packet)
    requires PacketSafe(cx, p, peer, pk)
    requires Grows(p, p') && Injective(p'.published) && Grows(peer, peer')
    ensures PacketSafe(cx, p', peer', pk)
  {
    match pk
    case ContentPacket(Decoded(ResponseActorByName(_, result))) =>
      if result.Found? { IssuedStable(p, p', result.id); }
    case ContentPacket(Decoded(ActorExited(who))) => IssuedStable(p, p', who);
    case ContentPacket(Decoded(SendMessage(target, payload))) => MessageStable(cx, p, p', peer, peer', target, payload);
    case _ =>
  }

  lemma MailStable(cx: Formats, p: Portal, p': Portal, peer: Portal, peer': Portal, m: Mail)
    requires MailSafe(cx, p, peer, m)
    requires Grows(p, p') && Injective(p'.published) && Grows(peer, peer')
    ensures MailSafe(cx, p', peer', m)
  {
    match m
    case ImmaterializeMessage(job) => JobStable(cx, peer, peer', job);
    case TransmitMessage(target, payload) => MessageStable(cx, p, p', peer, peer', target, payload);
    case _ =>
  }

  lemma MailsStable(cx: Formats, p: Portal, p': Portal, peer: Portal, peer': Portal, mailbox: seq<Mail>)
    requires MailsSafe(cx, p, peer, mailbox)
    requires Grows(p, p') && Injective(p'.published) && Grows(peer, peer')
    ensures MailsSafe(cx, p', peer', mailbox)
  {
    forall i | 0 <= i < |mailbox| ensures MailSafe(cx, p', peer', mailbox[i]) {
      MailStable(cx, p, p', peer, peer', mailbox[i]);
    }
  }

  lemma TaskStable(p: Portal, p': Portal, k: nat, t: Task)
    requires TaskOk(p, k, t) && Grows(p, p') && Injective(p'.published)
    ensures TaskOk(p', k, t)
  {
    AddressesStable(p, p', Addresses(t.job.value)[..|t.ids|]);
  }

  lemma TasksStable(p: Portal, p': Portal, tasks: map<nat, Task>)
    requires TasksOk(p, tasks) && Grows(p, p') && Injective(p'.published)
    ensures TasksOk(p', tasks)
  {
    forall k | k in tasks ensures TaskOk(p', k, tasks[k]) {
      TaskStable(p, p', k, tasks[k]);
    }
  }

  lemma DeliveryStable(cx: Formats, p: Portal, p': Portal, peer: Portal, peer': Portal, d: Delivery)
    requires DeliveryOk(cx, p, peer, d)
    requires Grows(p, p') && Grows(peer, peer') && Injective(peer'.published)
    ensures DeliveryOk(cx, p', peer', d)
  {
    var job := peer.log.spawned[d.tag];
    assert peer'.log.spawned[d.tag] == job;
    AddressesStable(peer, peer', Addresses(job.value));
  }

  /** A delivery still forges what it forged. */
  lemma ForgedStable(cx: Formats, p: Portal, p': Portal, peer: Portal, peer': Portal, id: RemoteId)
    requires Forged(p, peer, id) && DeliveriesOk(cx, p, peer) && Grows(p, p') && Grows(peer, peer')
    ensures Forged(p', peer', id)
  {
    var i :| 0 <= i < |p.log.delivered| && ForgedIn(p, peer, p.log.delivered[i], id);
    var d := p.log.delivered[i];
    assert DeliveryOk(cx, p, peer, d) && p'.log.delivered[i] == d;
    TypedStable(cx, p, p', peer.log.spawned[d.tag]);
    assert ForgedIn(p', peer', p'.log.delivered[i], id);
  }

  lemma LearnedStable(cx: Formats, p: Portal, p': Portal, peer: Portal, peer': Portal)
    requires LearnedOk(p, peer) && DeliveriesOk(cx, p, peer) && Grows(p, p') && Grows(peer, peer')
    ensures p.log.learned != {} ==> peer'.channel.Open?
    ensures forall id :: id in p.log.learned ==> IssuedBy(peer', id) || Forged(p', peer', id)
  {
    forall id | id in p.log.learned ensures IssuedBy(peer', id) || Forged(p', peer', id) {
      if IssuedBy(peer, id) {
        IssuedStable(peer, peer', id);
      } else {
        ForgedStable(cx, p, p', peer, peer', id);
      }
    }
  }

  lemma TypedBefore(p: Portal, p': Portal, peer: Portal)
    requires Grows(p, p') && AllTyped(p', peer)
    ensures AllTyped(p, peer)
  {
    forall k | 0 <= k < |p.log.spawned| ensures JobTyped(peer, p.log.spawned[k]) {
      assert p.log.spawned[k] == p'.log.spawned[k];
    }
  }

  /** The invariant of one side does not depend on how far the other one got. */
  lemma IdPeer(cx: Formats, x: Node, y: Node, y': Node)
    requires IdInv(cx, x, y) && RegistriesOk(x.p) && RegistriesOk(y'.p) && Grows(y.p, y'.p)
    ensures IdInv(cx, x, y')
  {
    forall k | 0 <= k < |x.p.log.spawned| ensures JobSafe(cx, y'.p, x.p.log.spawned[k]) {
      JobStable(cx, y.p, y'.p, x.p.log.spawned[k]);
    }
    forall i | 0 <= i < |x.p.log.sent| ensures PacketSafe(cx, x.p, y'.p, x.p.log.sent[i]) {
      PacketStable(cx, x.p, x.p, y.p, y'.p, x.p.log.sent[i]);
    }
    MailsStable(cx, x.p, x.p, y.p, y'.p, x.mailbox);
    GrowsSelf(x.p);
    LearnedStable(cx, x.p, x.p, y.p, y'.p);
    forall i | 0 <= i < |x.p.log.delivered| ensures DeliveryOk(cx, x.p, y'.p, x.p.log.delivered[i]) {
      DeliveryStable(cx, x.p, x.p, y.p, y'.p, x.p.log.delivered[i]);
    }
    if AllTyped(y'.p, x.p) {
      TypedBefore(y.p, y'.p, x.p);
    }
  }
}
