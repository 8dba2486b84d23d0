/** Exit notices: at most one per published actor, only for actors that stopped, and a proxy is stopped only after one. */
module LinkExits {
  import opened Bytes
  import opened Codec
  import opened Refs
  import opened Portal
  import opened PortalFrames
  import opened PortalTheorems
  import opened PortalSends
  import opened Link
  import opened LinkWire
  import opened LinkIds

  // ------------------------------------------------------------------------------------------------
  // Counting

  function NoticeOf(m: Mail, actor: ActorId): nat {
    if m == LocalActorExited(actor) then 1 else 0
  }

  /** Watcher reports about an actor that wait in a mailbox. */
  function Notices(mailbox: seq<Mail>, actor: ActorId): nat {
    if mailbox == [] then 0 else NoticeOf(mailbox[0], actor) + Notices(mailbox[1..], actor)
  }

  function ExitOf(pk: Packet, id: OpaqueId): nat {
    match pk
    case ContentPacket(Decoded(ActorExited(who))) => if who.id == id then 1 else 0
    case _ => 0
  }

  /** Exit notices about an opaque id in a stretch of traffic. */
  function Exits(s: seq<Packet>, id: OpaqueId): nat {
    if s == [] then 0 else Exits(s[..|s| - 1], id) + ExitOf(s[|s| - 1], id)
  }

  function WatcherOf(watching: set<ActorId>, actor: ActorId): nat {
    if actor in watching then 1 else 0
  }

  /** In how many places a published actor's exit is: watched for, reported to the portal, announced to the peer, or
      reported too early. */
  function ExitWeight(x: Node, id: OpaqueId): nat
    requires id in x.p.published
  {
    var actor := x.p.published[id].actor;
    WatcherOf(x.watching, actor) + Notices(x.mailbox, actor) + Exits(x.p.log.sent, id) + WatcherOf(x.missed, actor)
  }

  /** In one place at most, and in exactly one while the portal runs. */
  predicate ExitInPlace(x: Node, id: OpaqueId)
    requires id in x.p.published
  {
    ExitWeight(x, id) <= 1 && (x.p.status.Running? ==> ExitWeight(x, id) == 1)
  }

  ghost predicate UnpublishedSilent(x: Node) {
    forall a :: a in x.watching || Notices(x.mailbox, a) > 0 || a in x.missed ==> IsPublished(x.p.published, a)
  }

  /** Everyone reported or announced has stopped. */
  ghost predicate DeadOk(x: Node) {
    && (forall i :: 0 <= i < |x.mailbox| && x.mailbox[i].LocalActorExited? ==> x.mailbox[i].actor in x.dead)
    && (forall i :: 0 <= i < |x.p.log.sent| ==> AnnouncedDead(x.p, x.dead, x.p.log.sent[i]))
  }

  predicate AnnouncedDead(p: Portal, dead: set<ActorId>, pk: Packet) {
    match pk
    case ContentPacket(Decoded(ActorExited(who))) => who.id in p.published && p.published[who.id].actor in dead
    case _ => true
  }

  /** Every stopped proxy stood for an actor of the peer that has stopped. */
  predicate StoppedOk(p: Portal, y: Node) {
    forall i :: 0 <= i < |p.log.stopped| ==> StandsForDead(y, p.log.stopped[i].0)
  }

  predicate StandsForDead(y: Node, who: RemoteId) {
    IssuedBy(y.p, who) && y.p.published[who.id].actor in y.dead
  }

  ghost predicate ExitInv(x: Node, y: Node) {
    && (forall id :: id in x.p.published ==> ExitInPlace(x, id))
    && WatchersOk(x.p) && UnpublishedSilent(x) && DeadOk(x) && StoppedOk(x.p, y)
  }

  // ------------------------------------------------------------------------------------------------
  // Lists

  lemma {:induction false} NoticesAppend(a: seq<Mail>, b: seq<Mail>, actor: ActorId)
    ensures Notices(a + b, actor) == Notices(a, actor) + Notices(b, actor)
    decreases |a|
  {
    if a == [] {
      assert a + b == b;
    } else {
      assert (a + b)[0] == a[0] && (a + b)[1..] == a[1..] + b;
      NoticesAppend(a[1..], b, actor);
    }
  }

  lemma NoticesSnoc(a: seq<Mail>, m: Mail, actor: ActorId)
    ensures Notices(a + [m], actor) == Notices(a, actor) + NoticeOf(m, actor)
  {
    NoticesAppend(a, [m], actor);
    assert [m][1..] == [];
  }

  lemma ExitsSnoc(s: seq<Packet>, pk: Packet, id: OpaqueId)
    ensures Exits(s + [pk], id) == Exits(s, id) + ExitOf(pk, id)
  {
    assert (s + [pk])[..|s|] == s;
  }

  /** Only published actors are announced. */
  lemma {:induction false} UnknownNotAnnounced(cx: Formats, p: Portal, peer: Portal, s: seq<Packet>, id: OpaqueId)
    requires forall i :: 0 <= i < |s| ==> PacketSafe(cx, p, peer, s[i])
    requires id !in p.published
    ensures Exits(s, id) == 0
    decreases |s|
  {
    if s != [] {
      UnknownNotAnnounced(cx, p, peer, s[..|s| - 1], id);
      assert PacketSafe(cx, p, peer, s[|s| - 1]);
    }
  }

  // ------------------------------------------------------------------------------------------------
  // One turn

  /** A turn starts at most one watcher, for the actor it publishes for the first time. */
  lemma WatchStep(p: Portal, m: Mail, w: World) returns (added: Option<ActorId>)
    requires RegistriesOk(p) && w.uuid !in p.published
    ensures var q := Turn(p, m, w);
      && q.log.watched == p.log.watched + (if added.Some? then [added.value] else [])
      && (added.None? ==> q.published == p.published)
      && (added.Some? ==> !IsPublished(p.published, added.value) && w.uuid in q.published
                          && q.published == p.published[w.uuid := q.published[w.uuid]]
                          && q.published[w.uuid].actor == added.value && !m.LocalActorExited?)
  {
    RegistryAfter(p, m, w);
    var pub := Publication(p, m, w);
    if pub.Some? && !IsPublished(p.published, pub.value.actor) {
      added := Some(pub.value.actor);
    } else {
      added := None;
      assert p.log.watched + [] == p.log.watched;
    }
  }

  /** The exit of a published actor is announced to the peer under its id, unless the sink is broken. */
  lemma ExitAnnounced(p: Portal, id: OpaqueId, w: World)
    requires p.channel.Open? && RegistriesOk(p) && id in p.published
    ensures var q := Turn(p, LocalActorExited(p.published[id].actor), w);
      if w.sinkOk then
        && q.log.sent == p.log.sent + [ContentPacket(Decoded(ActorExited(RemoteId(p.channel.id, p.localId, id))))]
        && q.status == p.status
      else q.log.sent == p.log.sent && q.status == Failed(SinkBroken)
  {
    IdIsUnique(p.published, id);
  }

  /** Only a report about the actor of an id is announced under that id. */
  lemma ExitStep(p: Portal, m: Mail, w: World, id: OpaqueId)
    requires RegistriesOk(p) && w.uuid !in p.published
    ensures var q := Turn(p, m, w);
      && Exits(p.log.sent, id) <= Exits(q.log.sent, id) <= Exits(p.log.sent, id) + 1
      && (Exits(q.log.sent, id) > Exits(p.log.sent, id) ==>
            m.LocalActorExited? && p.channel.Open? && id in q.published && q.published[id].actor == m.actor)
  {
    var sent := SentStep(p, m, w);
    if sent.Some? {
      ExitsSnoc(p.log.sent, ContentPacket(Decoded(sent.value)), id);
    } else {
      assert p.log.sent + [] == p.log.sent;
    }
  }

  /** And a portal that goes on running has announced it. */
  lemma ExitCounted(p: Portal, m: Mail, w: World, id: OpaqueId)
    requires RegistriesOk(p) && p.channel.Open? && id in p.published && m == LocalActorExited(p.published[id].actor)
    requires Turn(p, m, w).status.Running?
    ensures Exits(Turn(p, m, w).log.sent, id) == Exits(p.log.sent, id) + 1
  {
    ExitAnnounced(p, id, w);
    ExitsSnoc(p.log.sent, ContentPacket(Decoded(ActorExited(RemoteId(p.channel.id, p.localId, id)))), id);
  }

  /** An actor published before keeps its place. */
  lemma WeightKept(x: Node, w: World, id: OpaqueId)
    requires RegistriesOk(x.p) && x.p.status.Running? && x.mailbox != [] && w.uuid !in x.p.published
    requires id in x.p.published && ExitInPlace(x, id)
    ensures id in AfterTurn(x, w).p.published && ExitInPlace(AfterTurn(x, w), id)
  {
    var m, q, actor := x.mailbox[0], Turn(x.p, x.mailbox[0], w), x.p.published[id].actor;
    TurnKeepsRegistries(x.p, m, w);
    SameWatch(x, w, id);
    ExitStep(x.p, m, w, id);
    if m == LocalActorExited(actor) && x.p.channel.Open? && q.status.Running? {
      ExitCounted(x.p, m, w, id);
    }
    PlaceKept(x, AfterTurn(x, w), m, id);
  }

  lemma SameWatch(x: Node, w: World, id: OpaqueId)
    requires RegistriesOk(x.p) && x.mailbox != [] && w.uuid !in x.p.published && id in x.p.published
    ensures x.p.published[id].actor in AfterTurn(x, w).watching <==> x.p.published[id].actor in x.watching
  {
    var actor := x.p.published[id].actor;
    var added := WatchStep(x.p, x.mailbox[0], w);
    assert IsPublished(x.p.published, actor);
  }

  lemma PlaceKept(x: Node, x': Node, m: Mail, id: OpaqueId)
    requires id in x.p.published && id in x'.p.published && x'.p.published[id] == x.p.published[id]
    requires x.p.status.Running? && ExitInPlace(x, id) && x.mailbox != [] && m == x.mailbox[0]
    requires x'.mailbox == x.mailbox[1..] && x'.missed == x.missed + Misses(x.p, m)
    requires x.p.published[id].actor in x'.watching <==> x.p.published[id].actor in x.watching
    requires Exits(x.p.log.sent, id) <= Exits(x'.p.log.sent, id) <= Exits(x.p.log.sent, id) + 1
    requires Exits(x'.p.log.sent, id) > Exits(x.p.log.sent, id) ==>
      m == LocalActorExited(x.p.published[id].actor) && x.p.channel.Open?
    requires m == LocalActorExited(x.p.published[id].actor) && x.p.channel.Open? && x'.p.status.Running? ==>
      Exits(x'.p.log.sent, id) == Exits(x.p.log.sent, id) + 1
    ensures ExitInPlace(x', id)
  {
  }

  /** An actor published in this turn is watched, and no more. */
  lemma WeightNew(cx: Formats, x: Node, y: Node, w: World, id: OpaqueId)
    requires RegistriesOk(x.p) && WatchersOk(x.p) && x.mailbox != [] && w.uuid !in x.p.published
    requires SentSafe(cx, x.p, y.p) && UnpublishedSilent(x)
    requires id in Turn(x.p, x.mailbox[0], w).published && id !in x.p.published
    ensures ExitInPlace(AfterTurn(x, w), id)
  {
    var m, q := x.mailbox[0], Turn(x.p, x.mailbox[0], w);
    var added := WatchStep(x.p, m, w);
    ExitStep(x.p, m, w, id);
    UnknownNotAnnounced(cx, x.p, y.p, x.p.log.sent, id);
    NewlyWatched(x, q, q.published[id].actor);
    PlaceNew(AfterTurn(x, w), x, id, m);
  }

  lemma PlaceNew(x': Node, x: Node, id: OpaqueId, m: Mail)
    requires id in x'.p.published && x.mailbox != [] && m == x.mailbox[0] && x'.mailbox == x.mailbox[1..]
    requires x'.missed == x.missed + Misses(x.p, m) && !m.LocalActorExited? && Exits(x'.p.log.sent, id) == 0
    requires var actor := x'.p.published[id].actor;
      actor in x'.watching && Notices(x.mailbox, actor) == 0 && actor !in x.missed
    ensures ExitInPlace(x', id)
  {
  }

  lemma NewlyWatched(x: Node, q: Portal, actor: ActorId)
    requires WatchersOk(x.p) && UnpublishedSilent(x) && !IsPublished(x.p.published, actor)
    requires q.log.watched == x.p.log.watched + [actor]
    ensures actor in Watch(x.watching, x.p, q) && Notices(x.mailbox, actor) == 0 && actor !in x.missed
  {
    assert multiset(x.p.log.watched)[actor] == 0;
  }

  lemma SilentAfterTurn(x: Node, w: World)
    requires RegistriesOk(x.p) && x.mailbox != [] && w.uuid !in x.p.published && UnpublishedSilent(x)
    ensures UnpublishedSilent(AfterTurn(x, w))
  {
    var m, q, x' := x.mailbox[0], Turn(x.p, x.mailbox[0], w), AfterTurn(x, w);
    var added := WatchStep(x.p, m, w);
    forall a | a in x'.watching || Notices(x'.mailbox, a) > 0 || a in x'.missed ensures IsPublished(q.published, a) {
      if a in x.watching || Notices(x.mailbox, a) > 0 || a in x.missed {
        var k := IdOf(x.p.published, a);
        assert k in q.published && q.published[k].actor == a;
      } else {
        assert added == Some(a);
        assert q.published[w.uuid].actor == a;
      }
    }
  }

  lemma DeadAfterTurn(x: Node, w: World)
    requires RegistriesOk(x.p) && x.mailbox != [] && w.uuid !in x.p.published && DeadOk(x)
    ensures DeadOk(AfterTurn(x, w))
  {
    var m, q, x' := x.mailbox[0], Turn(x.p, x.mailbox[0], w), AfterTurn(x, w);
    TurnGrows(x.p, m, w);
    var sent := SentStep(x.p, m, w);
    forall i | 0 <= i < |q.log.sent| ensures AnnouncedDead(q, x.dead, q.log.sent[i]) {
      if i < |x.p.log.sent| {
        assert q.log.sent[i] == x.p.log.sent[i] && AnnouncedDead(x.p, x.dead, x.p.log.sent[i]);
      }
    }
    forall i | 0 <= i < |x'.mailbox| && x'.mailbox[i].LocalActorExited? ensures x'.mailbox[i].actor in x.dead {
      assert x'.mailbox[i] == x.mailbox[i + 1];
    }
  }

  lemma StopTurn(p: Portal, m: Mail, w: World)
    ensures var q := Turn(p, m, w);
      q.log.stopped == p.log.stopped
      || (IsExitNotice(m) && p.channel.Open? && m.data.msg.who in p.proxies
          && q.log.stopped == p.log.stopped + [(m.data.msg.who, p.proxies[m.data.msg.who])])
  {
    TurnFramed(p, m, w);
    if m.RegisterProxy? || IsExitNotice(m) {
      StopTurnOf(p, m, w);
    }
  }

  lemma StopTurnOf(p: Portal, m: Mail, w: World)
    requires m.RegisterProxy? || IsExitNotice(m)
    ensures var q := Turn(p, m, w);
      q.log.stopped == p.log.stopped
      || (IsExitNotice(m) && p.channel.Open? && m.data.msg.who in p.proxies
          && q.log.stopped == p.log.stopped + [(m.data.msg.who, p.proxies[m.data.msg.who])])
  {
  }

  lemma StoppedAfterTurn(cx: Formats, x: Node, y: Node, w: World)
    requires Wired(x, y) && SentSafe(cx, y.p, x.p) && DeadOk(y) && StoppedOk(x.p, y) && x.mailbox != []
    ensures StoppedOk(Turn(x.p, x.mailbox[0], w), y)
  {
    var m := x.mailbox[0];
    StopTurn(x.p, m, w);
    if IsExitNotice(m) {
      assert x.mailbox == [m] + x.mailbox[1..];
      NextHeard(x, y, m, x.mailbox[1..]);
      var pk := y.p.log.sent[|x.heard|];
      assert PacketSafe(cx, y.p, x.p, pk) && AnnouncedDead(y.p, y.dead, pk);
    }
  }

  lemma ExitTurn(cx: Formats, x: Node, y: Node, w: World)
    requires RegistriesOk(x.p) && Wired(x, y) && SentSafe(cx, x.p, y.p) && SentSafe(cx, y.p, x.p)
    requires ExitInv(x, y) && DeadOk(y) && x.p.status.Running? && x.mailbox != [] && w.uuid !in x.p.published
    ensures ExitInv(AfterTurn(x, w), y)
  {
    var x' := AfterTurn(x, w);
    forall id | id in x'.p.published ensures ExitInPlace(x', id) {
      if id in x.p.published {
        WeightKept(x, w, id);
      } else {
        WeightNew(cx, x, y, w, id);
      }
    }
    TurnKeepsWatchers(x.p, x.mailbox[0], w);
    SilentAfterTurn(x, w);
    DeadAfterTurn(x, w);
    StoppedAfterTurn(cx, x, y, w);
  }

  // ------------------------------------------------------------------------------------------------
  // All actions

  /** Mail that reports no exit. */
  lemma ExitMail(x: Node, y: Node, m: Mail, x': Node)
    requires ExitInv(x, y) && !m.LocalActorExited?
    requires x'.p == x.p && x'.mailbox == x.mailbox + [m] && x'.watching == x.watching && x'.dead == x.dead
    requires x'.missed == x.missed
    ensures ExitInv(x', y)
  {
    forall a ensures Notices(x'.mailbox, a) == Notices(x.mailbox, a) {
      NoticesSnoc(x.mailbox, m, a);
    }
    forall id | id in x'.p.published ensures ExitInPlace(x', id) {
      assert ExitInPlace(x, id);
    }
  }

  lemma ExitNotice(x: Node, y: Node, actor: ActorId, x': Node)
    requires ExitInv(x, y) && actor in x.watching && actor in x.dead && RegistriesOk(x.p)
    requires x' == x.(mailbox := x.mailbox + [LocalActorExited(actor)], watching := x.watching - {actor})
    ensures ExitInv(x', y)
  {
    forall a ensures Notices(x'.mailbox, a) == Notices(x.mailbox, a) + (if a == actor then 1 else 0) {
      NoticesSnoc(x.mailbox, LocalActorExited(actor), a);
    }
    forall id | id in x'.p.published ensures ExitInPlace(x', id) {
      assert ExitInPlace(x, id);
    }
  }

  lemma ExitDeath(x: Node, y: Node, actor: ActorId)
    requires ExitInv(x, y)
    ensures ExitInv(x.(dead := x.dead + {actor}), y)
  {
    var x' := x.(dead := x.dead + {actor});
    forall id | id in x'.p.published ensures ExitInPlace(x', id) {
      assert ExitInPlace(x, id);
    }
    forall i | 0 <= i < |x.p.log.sent| ensures AnnouncedDead(x'.p, x'.dead, x'.p.log.sent[i]) {
      assert AnnouncedDead(x.p, x.dead, x.p.log.sent[i]);
    }
  }

  lemma ExitTasks(x: Node, y: Node, x': Node)
    requires ExitInv(x, y)
    requires x'.p == x.p && x'.mailbox == x.mailbox && x'.watching == x.watching && x'.dead == x.dead
    requires x'.missed == x.missed
    ensures ExitInv(x', y)
  {
    forall id | id in x'.p.published ensures ExitInPlace(x', id) {
      assert ExitInPlace(x, id);
    }
  }

  lemma ExitsStep(cx: Formats, x: Node, y: Node, act: Action)
    requires WireInv(x, y) && SentSafe(cx, x.p, y.p) && SentSafe(cx, y.p, x.p) && ExitInv(x, y) && DeadOk(y)
    requires Enabled(cx, x, y, act)
    ensures ExitInv(Apply(cx, x, y, act), y)
  {
    var x' := Apply(cx, x, y, act);
    match act
    case TakeTurn(w) => ExitTurn(cx, x, y, w);
    case Pull => ExitMail(x, y, ToMail(y.p.log.sent[x.pulled]), x');
    case App(m) => ExitMail(x, y, m, x');
    case Register => ExitMail(x, y, RegisterProxy(x.unregistered[0].0, x.unregistered[0].1), x');
    case AskNext(k) =>
      var a := Addresses(x.tasks[k].job.value)[|x.tasks[k].ids|];
      ExitMail(x, y, PublishActor(a.actor, a.message, Some(TaskPort(k))), x');
    case Finish(k) =>
      ExitMail(x, y, TransmitMessage(x.tasks[k].job.target, Payload(Written(cx, x.tasks[k]), k)), x');
    case Lose(k) => ExitTasks(x, y, x');
    case Die(actor) => ExitDeath(x, y, actor);
    case Notice(actor) => ExitNotice(x, y, actor, x');
  }

  lemma ExitPeer(x: Node, y: Node, y': Node)
    requires ExitInv(x, y) && Grows(y.p, y'.p) && y.dead <= y'.dead
    ensures ExitInv(x, y')
  {
    forall i | 0 <= i < |x.p.log.stopped| ensures StandsForDead(y', x.p.log.stopped[i].0) {
      assert StandsForDead(y, x.p.log.stopped[i].0);
      IssuedStable(y.p, y'.p, x.p.log.stopped[i].0);
    }
  }

  // ------------------------------------------------------------------------------------------------
  // Theorems

  /** A report is missed only when it is handled before the handshake; then the portal complains and goes on. */
  lemma MissedBeforeHandshake(cx: Formats, x: Node, y: Node, act: Action)
    requires Enabled(cx, x, y, act) && Apply(cx, x, y, act).missed != x.missed
    ensures act.TakeTurn? && x.p.channel.Opening? && x.mailbox[0].LocalActorExited?
    ensures Apply(cx, x, y, act).missed == x.missed + {x.mailbox[0].actor}
    ensures Apply(cx, x, y, act).p == Complain(x.p, BeforeHandshake)
  {
  }

  /** At most one exit notice is ever sent for an opaque id. */
  lemma AtMostOneNotice(cx: Formats, x: Node, y: Node, id: OpaqueId)
    requires SentSafe(cx, x.p, y.p) && ExitInv(x, y)
    ensures Exits(x.p.log.sent, id) <= 1
  {
    if id in x.p.published {
      assert ExitInPlace(x, id);
    } else {
      UnknownNotAnnounced(cx, x.p, y.p, x.p.log.sent, id);
    }
  }

  /** Neither a registration nor an exit notice for `remote`. */
  predicate LeavesProxy(m: Mail, remote: RemoteId) {
    && (m.RegisterProxy? ==> m.remote != remote)
    && (IsExitNotice(m) ==> m.data.msg.who != remote)
  }

  lemma ProxyKept(p: Portal, m: Mail, w: World, remote: RemoteId)
    requires LeavesProxy(m, remote) && remote in p.proxies && p.channel.Open?
    ensures var q := Turn(p, m, w);
      remote in q.proxies && q.proxies[remote] == p.proxies[remote] && q.channel == p.channel
  {
    TurnFramed(p, m, w);
    if m.Handshake? {
      HandshakeChannel(p, m, w);
    }
  }

  lemma {:induction false} ProxyStays(p: Portal, turns: seq<(Mail, World)>, remote: RemoteId)
    requires forall i :: 0 <= i < |turns| ==> LeavesProxy(turns[i].0, remote)
    requires remote in p.proxies && p.channel.Open?
    ensures var q := Live(p, turns);
      remote in q.proxies && q.proxies[remote] == p.proxies[remote] && q.channel == p.channel
    decreases |turns|
  {
    if turns != [] && p.status.Running? {
      ProxyKept(p, turns[0].0, turns[0].1, remote);
      ProxyStays(Turn(p, turns[0].0, turns[0].1), turns[1..], remote);
    }
  }

  lemma NoticeTurn(q: Portal, remote: RemoteId, w: World)
    requires q.channel.Open? && remote in q.proxies
    ensures Turn(q, Content(Decoded(ActorExited(remote))), w)
         == q.(proxies := q.proxies - {remote},
               log := q.log.(stopped := q.log.stopped + [(remote, q.proxies[remote])]))
  {
  }

  lemma LateNotice(q: Portal, remote: RemoteId, w: World)
    requires q.channel.Open? && remote !in q.proxies
    ensures Turn(q, Content(Decoded(ActorExited(remote))), w) == Complain(q, UnknownProxy)
  {
  }

  /** The notice stops the proxy registered last for its id, whatever else the portal handled in between, and forgets it:
      a second notice stops nothing. */
  lemma {:induction false} NoticeStopsLatest(p: Portal, remote: RemoteId, proxy: ActorId, turns: seq<(Mail, World)>,
                                             w: World, w': World)
    requires p.channel.Open? && forall i :: 0 <= i < |turns| ==> LeavesProxy(turns[i].0, remote)
    ensures var q := Live(Turn(p, RegisterProxy(remote, proxy), w), turns);
      var r := Turn(q, Content(Decoded(ActorExited(remote))), w');
      && r == q.(proxies := q.proxies - {remote}, log := q.log.(stopped := q.log.stopped + [(remote, proxy)]))
      && Turn(r, Content(Decoded(ActorExited(remote))), w') == Complain(r, UnknownProxy)
  {
    var q0 := Turn(p, RegisterProxy(remote, proxy), w);
    assert q0 == p.(proxies := p.proxies[remote := proxy]);
    ProxyStays(q0, turns, remote);
    NoticeTurn(Live(q0, turns), remote, w');
    LateNotice(Turn(Live(q0, turns), Content(Decoded(ActorExited(remote))), w'), remote, w');
  }
}
