/** Reply ports in runs of two portals: the ports rebuilt from what arrives, the answers given to them, and what the caller
    at the other end receives. */
module RpcLink {
  import opened Bytes
  import opened Codec
  import opened Refs
  import opened Portal
  import opened PortalFrames
  import opened PortalTheorems
  import opened PortalSends
  import opened Link
  import opened LinkWire
  import opened LinkIds
  import opened LinkMeaning
  import opened LinkRuns
  import opened RpcProxy

  // ------------------------------------------------------------------------------------------------
  // Runs with reply ports

  /** The ids of the reply ports in a message, in order. */
  function PortIds(v: Val): seq<RemoteId>
    decreases v, 0
  {
    match v
    case VSome(x) => PortIds(x)
    case VOk(x) => PortIds(x)
    case VErr(x) => PortIds(x)
    case VVec(vs) => AllPortIds(vs)
    case VRecord(vs) => AllPortIds(vs)
    case VCase(_, vs) => AllPortIds(vs)
    case VPort(Remote(id), _) => [id]
    case _ => []
  }

  function AllPortIds(vs: seq<Val>): seq<RemoteId>
    decreases vs, 0
  {
    if vs == [] then [] else PortIds(vs[0]) + AllPortIds(vs[1..])
  }

  /** The ids of the reply ports in everything delivered. */
  function ArrivedPorts(ds: seq<Delivery>): seq<RemoteId> {
    if ds == [] then [] else PortIds(ds[0].value) + ArrivedPorts(ds[1..])
  }

  /** A port rebuilt for the stand-in `target`, and what happened to it since. */
  datatype RebuiltPort = RebuiltPort(target: RemoteId, events: seq<PortEvent>)

  function JustRebuilt(ids: seq<RemoteId>): seq<RebuiltPort> {
    seq(|ids|, i requires 0 <= i < |ids| => RebuiltPort(ids[i], []))
  }

  /** Two portals, and on each side the reply ports rebuilt there. */
  datatype Talk = Talk(link: Link, left: seq<RebuiltPort>, right: seq<RebuiltPort>)

  /** The actors that stand in for reply ports, on each side. */
  datatype Reserved = Reserved(left: iset<ActorId>, right: iset<ActorId>)

  /** A move of the link, or something happens to the `i`-th port of a side, whose messages have type `ty`. */
  datatype Deed = Ordinary(move: Move) | OnPort(side: Side, i: nat, e: PortEvent, ty: Ty)

  function Other(side: Side): Side {
    if side.Left? then Right else Left
  }

  function Ports(t: Talk, side: Side): seq<RebuiltPort> {
    if side.Left? then t.left else t.right
  }

  function StandIns(reserved: Reserved, side: Side): iset<ActorId> {
    if side.Left? then reserved.left else reserved.right
  }

  function WithPorts(t: Talk, side: Side, link: Link, ports: seq<RebuiltPort>): Talk {
    if side.Left? then Talk(link, ports, t.right) else Talk(link, t.left, ports)
  }

  /** The id stands for an actor in `standIns`. */
  predicate ToStandIn(p: Portal, standIns: iset<ActorId>, id: RemoteId) {
    id.id in p.published && p.published[id.id].actor in standIns
  }

  /** The task of this port has an answer to forward. */
  predicate Forwards(port: RebuiltPort, e: PortEvent) {
    e.Forwarded? && RebuiltLife(port.events).held.Some?
  }

  /** The answer, as a message to the stand-in. */
  function ReplyJob(port: RebuiltPort, ty: Ty): Job
    requires RebuiltLife(port.events).held.Some?
  {
    Job(port.target, ty, VRecord([RebuiltLife(port.events).held.value]))
  }

  /** Nobody holds an actor reference to a stand-in: only the ports rebuilt for it send to it. */
  ghost predicate Possible(cx: Formats, reserved: Reserved, t: Talk, deed: Deed) {
    match deed
    case Ordinary(move) =>
      && LinkEnabled(cx, t.link, move.side, move.act)
      && (move.act.App? && move.act.mail.ImmaterializeMessage? ==>
            !ToStandIn(Far(t.link, move.side).p, StandIns(reserved, Other(move.side)), move.act.mail.job.target))
    case OnPort(side, i, e, ty) =>
      && i < |Ports(t, side)|
      && (Forwards(Ports(t, side)[i], e) ==>
            LinkEnabled(cx, t.link, side, App(ImmaterializeMessage(ReplyJob(Ports(t, side)[i], ty)))))
  }

  function EventAt(ports: seq<RebuiltPort>, i: nat, e: PortEvent): seq<RebuiltPort>
    requires i < |ports|
  {
    ports[i := ports[i].(events := ports[i].events + [e])]
  }

  /** What was delivered from one state to the next. */
  function NewlyDelivered(p: Portal, q: Portal): seq<Delivery> {
    if |p.log.delivered| <= |q.log.delivered| then q.log.delivered[|p.log.delivered|..] else []
  }

  ghost function Happens(cx: Formats, reserved: Reserved, t: Talk, deed: Deed): Talk
    requires Possible(cx, reserved, t, deed)
  {
    match deed
    case Ordinary(move) =>
      var link := LinkStep(cx, t.link, move.side, move.act);
      var added := ArrivedPorts(NewlyDelivered(Near(t.link, move.side).p, Near(link, move.side).p));
      WithPorts(t, move.side, link, Ports(t, move.side) + JustRebuilt(added))
    case OnPort(side, i, e, ty) =>
      var port := Ports(t, side)[i];
      var link :=
        if Forwards(port, e) then LinkStep(cx, t.link, side, App(ImmaterializeMessage(ReplyJob(port, ty)))) else t.link;
      WithPorts(t, side, link, EventAt(Ports(t, side), i, e))
  }

  ghost predicate CanTalk(cx: Formats, reserved: Reserved, t: Talk, deeds: seq<Deed>)
    decreases deeds
  {
    deeds == []
    || (Possible(cx, reserved, t, deeds[0]) && CanTalk(cx, reserved, Happens(cx, reserved, t, deeds[0]), deeds[1..]))
  }

  ghost function TalkOn(cx: Formats, reserved: Reserved, t: Talk, deeds: seq<Deed>): Talk
    requires CanTalk(cx, reserved, t, deeds)
    decreases deeds
  {
    if deeds == [] then t else TalkOn(cx, reserved, Happens(cx, reserved, t, deeds[0]), deeds[1..])
  }

  function Silence(s: Setup): Talk {
    Talk(Begin(s), [], [])
  }

  // ------------------------------------------------------------------------------------------------
  // They are runs

  ghost function MovesOf(t: Talk, deed: Deed): seq<Move> {
    match deed
    case Ordinary(move) => [move]
    case OnPort(side, i, e, ty) =>
      if i < |Ports(t, side)| && Forwards(Ports(t, side)[i], e)
      then [Move(side, App(ImmaterializeMessage(ReplyJob(Ports(t, side)[i], ty))))] else []
  }

  lemma DeedIsMoves(cx: Formats, reserved: Reserved, t: Talk, deed: Deed, rest: seq<Move>)
    requires Possible(cx, reserved, t, deed) && CanRun(cx, Happens(cx, reserved, t, deed).link, rest)
    ensures CanRun(cx, t.link, MovesOf(t, deed) + rest)
    ensures Run(cx, t.link, MovesOf(t, deed) + rest) == Run(cx, Happens(cx, reserved, t, deed).link, rest)
  {
    var moves := MovesOf(t, deed);
    if moves == [] {
      assert moves + rest == rest;
    } else {
      RunCons(cx, t.link, moves[0], rest);
    }
  }

  /** What the two portals do in a run with reply ports is a run of theirs, of which all that holds for runs holds. */
  lemma {:induction false} TalkIsRun(cx: Formats, reserved: Reserved, t: Talk, deeds: seq<Deed>) returns (moves: seq<Move>)
    requires CanTalk(cx, reserved, t, deeds)
    ensures CanRun(cx, t.link, moves) && Run(cx, t.link, moves) == TalkOn(cx, reserved, t, deeds).link
    decreases |deeds|
  {
    if deeds == [] {
      moves := [];
    } else {
      var rest := TalkIsRun(cx, reserved, Happens(cx, reserved, t, deeds[0]), deeds[1..]);
      DeedIsMoves(cx, reserved, t, deeds[0], rest);
      moves := MovesOf(t, deeds[0]) + rest;
    }
  }

  /** What happened to port `i` of a side in these deeds. */
  function EventsOf(deeds: seq<Deed>, side: Side, i: nat): seq<PortEvent> {
    if deeds == [] then [] else EventOf(deeds[0], side, i) + EventsOf(deeds[1..], side, i)
  }

  function EventOf(deed: Deed, side: Side, i: nat): seq<PortEvent> {
    if deed.OnPort? && deed.side == side && deed.i == i then [deed.e] else []
  }

  function EventsSoFar(ports: seq<RebuiltPort>, i: nat): seq<PortEvent> {
    if i < |ports| then ports[i].events else []
  }

  /** A deed adds its own event to its own port, and no other event to any. */
  lemma DeedEvents(cx: Formats, reserved: Reserved, t: Talk, deed: Deed, side: Side, i: nat)
    requires Possible(cx, reserved, t, deed)
    ensures var before, after := Ports(t, side), Ports(Happens(cx, reserved, t, deed), side);
      && |before| <= |after|
      && EventsSoFar(after, i)
         == EventsSoFar(before, i) + EventOf(deed, side, i)
  {
  }

  /** The events of a port are what the deeds of the run did to it. */
  lemma {:induction false} EventsAreDeeds(cx: Formats, reserved: Reserved, t: Talk, deeds: seq<Deed>, side: Side, i: nat)
    requires CanTalk(cx, reserved, t, deeds)
    ensures EventsSoFar(Ports(TalkOn(cx, reserved, t, deeds), side), i)
         == EventsSoFar(Ports(t, side), i) + EventsOf(deeds, side, i)
    decreases |deeds|
  {
    if deeds == [] {
      assert EventsSoFar(Ports(t, side), i) + [] == EventsSoFar(Ports(t, side), i);
    } else {
      DeedEvents(cx, reserved, t, deeds[0], side, i);
      EventsAreDeeds(cx, reserved, Happens(cx, reserved, t, deeds[0]), deeds[1..], side, i);
      EventsGroup(EventsSoFar(Ports(t, side), i), EventOf(deeds[0], side, i), EventsOf(deeds[1..], side, i));
    }
  }

  lemma EventsGroup(a: seq<PortEvent>, b: seq<PortEvent>, c: seq<PortEvent>)
    ensures a + b + c == a + (b + c)
  {
  }

  // ------------------------------------------------------------------------------------------------
  // What is sent to a stand-in

  /** The job is the one message of this port. */
  predicate ForwardedBy(port: RebuiltPort, job: Job) {
    job.target == port.target && RebuiltLife(port.events).messages == [job.value]
  }

  /** The job is that message, with timeouts filled in when the portal took it. */
  predicate AcceptedBy(port: RebuiltPort, job: Job) {
    var sent := RebuiltLife(port.events).messages;
    job.target == port.target && |sent| == 1 && job.value == WithTimeouts(sent[0], DEFAULT_RPC_PORT_TIMEOUT)
  }

  predicate SomeForwarded(ports: seq<RebuiltPort>, job: Job) {
    exists i :: 0 <= i < |ports| && ForwardedBy(ports[i], job)
  }

  predicate SomeAccepted(ports: seq<RebuiltPort>, job: Job) {
    exists i :: 0 <= i < |ports| && AcceptedBy(ports[i], job)
  }

  /** Everything a side sends to stand-ins of its peer comes from ports it rebuilt. */
  predicate PortsSend(x: Node, p: Portal, standIns: iset<ActorId>, ports: seq<RebuiltPort>) {
    && (forall k :: 0 <= k < |x.p.log.spawned| && ToStandIn(p, standIns, x.p.log.spawned[k].target) ==>
          SomeAccepted(ports, x.p.log.spawned[k]))
    && (forall j :: 0 <= j < |x.mailbox| && x.mailbox[j].ImmaterializeMessage? ==>
          ToStandIn(p, standIns, x.mailbox[j].job.target) ==> SomeForwarded(ports, x.mailbox[j].job))
  }

  /** The ports rebuilt are those that arrived. */
  predicate PortsArrived(p: Portal, ports: seq<RebuiltPort>) {
    && |ports| == |ArrivedPorts(p.log.delivered)|
    && forall i :: 0 <= i < |ports| ==> ports[i].target == ArrivedPorts(p.log.delivered)[i]
  }

  /** Each port has an id that was received. */
  predicate PortsKnown(p: Portal, ports: seq<RebuiltPort>) {
    forall i :: 0 <= i < |ports| ==> ports[i].target in p.log.learned
  }

  ghost predicate SideInv(x: Node, y: Node, standIns: iset<ActorId>, ports: seq<RebuiltPort>) {
    PortsSend(x, y.p, standIns, ports) && PortsArrived(x.p, ports) && PortsKnown(x.p, ports)
  }

  ghost predicate TalkInv(cx: Formats, reserved: Reserved, t: Talk) {
    && LinkInv(cx, t.link)
    && SideInv(t.link.left, t.link.right, reserved.right, t.left)
    && SideInv(t.link.right, t.link.left, reserved.left, t.right)
  }

  // ------------------------------------------------------------------------------------------------
  // Steps

  /** Ports that did at least what they did before. */
  predicate Later(ports: seq<RebuiltPort>, ports': seq<RebuiltPort>) {
    && |ports| <= |ports'|
    && forall i :: 0 <= i < |ports| ==> ports'[i].target == ports[i].target && ports[i].events <= ports'[i].events
  }

  /** A port that forwarded its message does nothing more. */
  lemma {:induction false} MessageStays(events: seq<PortEvent>, more: seq<PortEvent>)
    requires RebuiltLife(events).messages != [] && events <= more
    ensures RebuiltLife(more).messages == RebuiltLife(events).messages
    decreases |more|
  {
    if events != more {
      MessageStays(events, more[..|more| - 1]);
      OneMessage(more[..|more| - 1]);
    }
  }

  lemma AcceptedLater(ports: seq<RebuiltPort>, ports': seq<RebuiltPort>, job: Job)
    requires Later(ports, ports') && SomeAccepted(ports, job)
    ensures SomeAccepted(ports', job)
  {
    var i :| 0 <= i < |ports| && AcceptedBy(ports[i], job);
    MessageStays(ports[i].events, ports'[i].events);
    assert AcceptedBy(ports'[i], job);
  }

  lemma ForwardedLater(ports: seq<RebuiltPort>, ports': seq<RebuiltPort>, job: Job)
    requires Later(ports, ports') && SomeForwarded(ports, job)
    ensures SomeForwarded(ports', job)
  {
    var i :| 0 <= i < |ports| && ForwardedBy(ports[i], job);
    MessageStays(ports[i].events, ports'[i].events);
    assert ForwardedBy(ports'[i], job);
  }

  /** When the portal takes a forwarded message, it fills in the timeouts. */
  lemma AcceptedForwarded(ports: seq<RebuiltPort>, job: Job)
    requires SomeForwarded(ports, job)
    ensures SomeAccepted(ports, Accepts(job))
  {
    var i :| 0 <= i < |ports| && ForwardedBy(ports[i], job);
    assert AcceptedBy(ports[i], Accepts(job));
  }

  /** New mail, and nothing accepted. */
  lemma PortsSendMail(x: Node, x': Node, p: Portal, standIns: iset<ActorId>, ports: seq<RebuiltPort>,
                      ports': seq<RebuiltPort>, m: Mail)
    requires PortsSend(x, p, standIns, ports) && Later(ports, ports')
    requires x'.p.log.spawned == x.p.log.spawned && x'.mailbox == x.mailbox + [m]
    requires m.ImmaterializeMessage? && ToStandIn(p, standIns, m.job.target) ==> SomeForwarded(ports', m.job)
    ensures PortsSend(x', p, standIns, ports')
  {
    PortsSendSame(x, x, p, standIns, ports, ports');
  }

  lemma PortsSendSame(x: Node, x': Node, p: Portal, standIns: iset<ActorId>, ports: seq<RebuiltPort>,
                      ports': seq<RebuiltPort>)
    requires PortsSend(x, p, standIns, ports) && Later(ports, ports')
    requires x'.p.log.spawned == x.p.log.spawned && x'.mailbox == x.mailbox
    ensures PortsSend(x', p, standIns, ports')
  {
    forall k | 0 <= k < |x.p.log.spawned| && ToStandIn(p, standIns, x.p.log.spawned[k].target)
      ensures SomeAccepted(ports', x.p.log.spawned[k])
    {
      AcceptedLater(ports, ports', x.p.log.spawned[k]);
    }
    forall j | 0 <= j < |x.mailbox| && x.mailbox[j].ImmaterializeMessage? && ToStandIn(p, standIns, x.mailbox[j].job.target)
      ensures SomeForwarded(ports', x.mailbox[j].job)
    {
      ForwardedLater(ports, ports', x.mailbox[j].job);
    }
  }

  lemma PortsSendTurn(x: Node, x': Node, p: Portal, standIns: iset<ActorId>, ports: seq<RebuiltPort>,
                      ports': seq<RebuiltPort>, job: Option<Job>)
    requires PortsSend(x, p, standIns, ports) && Later(ports, ports') && x.mailbox != []
    requires x'.mailbox == x.mailbox[1..]
    requires job.Some? ==> x.mailbox[0] == ImmaterializeMessage(job.value)
    requires x'.p.log.spawned == x.p.log.spawned + (if job.Some? then [Accepts(job.value)] else [])
    ensures PortsSend(x', p, standIns, ports')
  {
    PortsSendSame(x, x, p, standIns, ports, ports');
    if job.Some? && ToStandIn(p, standIns, job.value.target) {
      AcceptedForwarded(ports', job.value);
    }
    assert forall j :: 0 <= j < |x'.mailbox| ==> x'.mailbox[j] == x.mailbox[j + 1];
  }

  lemma {:induction false} ArrivedAppend(a: seq<Delivery>, b: seq<Delivery>)
    ensures ArrivedPorts(a + b) == ArrivedPorts(a) + ArrivedPorts(b)
    decreases |a|
  {
    if a == [] {
      assert a + b == b;
    } else {
      assert (a + b)[0] == a[0] && (a + b)[1..] == a[1..] + b;
      ArrivedAppend(a[1..], b);
    }
  }

  lemma {:induction false} RemotesAppend(a: seq<Address>, b: seq<Address>)
    ensures Remotes(a + b) == Remotes(a) + Remotes(b)
    decreases |a|
  {
    if a == [] {
      assert a + b == b;
    } else {
      assert (a + b)[0] == a[0] && (a + b)[1..] == a[1..] + b;
      RemotesAppend(a[1..], b);
    }
  }

  /** The ports of a message are among its references. */
  lemma {:induction false} PortIdsAmong(v: Val)
    ensures forall id :: id in PortIds(v) ==> id in Remotes(Addresses(v))
    decreases v, 0
  {
    match v
    case VSome(x) => PortIdsAmong(x);
    case VOk(x) => PortIdsAmong(x);
    case VErr(x) => PortIdsAmong(x);
    case VVec(vs) => AllPortIdsAmong(vs);
    case VRecord(vs) => AllPortIdsAmong(vs);
    case VCase(_, vs) => AllPortIdsAmong(vs);
    case _ =>
  }

  lemma {:induction false} AllPortIdsAmong(vs: seq<Val>)
    ensures forall id :: id in AllPortIds(vs) ==> id in Remotes(AllAddresses(vs))
    decreases vs, 0
  {
    if vs != [] {
      PortIdsAmong(vs[0]);
      AllPortIdsAmong(vs[1..]);
      RemotesAppend(Addresses(vs[0]), AllAddresses(vs[1..]));
    }
  }

  /** Every reply port of a message from the wire is listed. */
  lemma {:induction false} PortsListed(v: Val)
    requires OnWire(v)
    ensures |PortIds(v)| == |PortTimeouts(v)|
    decreases v, 0
  {
    match v
    case VSome(x) => PortsListed(x);
    case VOk(x) => PortsListed(x);
    case VErr(x) => PortsListed(x);
    case VVec(vs) => AllPortsListed(vs);
    case VRecord(vs) => AllPortsListed(vs);
    case VCase(_, vs) => AllPortsListed(vs);
    case _ =>
  }

  lemma {:induction false} AllPortsListed(vs: seq<Val>)
    requires AllOnWire(vs)
    ensures |AllPortIds(vs)| == |AllPortTimeouts(vs)|
    decreases vs, 0
  {
    if vs != [] {
      PortsListed(vs[0]);
      AllPortsListed(vs[1..]);
    }
  }

  /** All references of a delivered message are received ids. */
  lemma DeliveredIsLearned(p: Portal, m: Mail, w: World)
    ensures var q := Turn(p, m, w);
      forall id :: id in ArrivedPorts(NewlyDelivered(p, q)) ==> id in q.log.learned
  {
    TurnFramed(p, m, w);
    var q := Turn(p, m, w);
    if IsSendMessage(m) && p.channel.Open? {
      assert q == OnSendMessage(p, m.data.msg.target, m.data.msg.payload, w);
      MessageIsLearned(p, m.data.msg.target, m.data.msg.payload, w);
    } else if IsSendMessage(m) {
      assert q == p.(status := ProtocolViolation);
    }
  }

  lemma MessageIsLearned(p: Portal, target: RemoteId, payload: Payload, w: World)
    ensures var q := OnSendMessage(p, target, payload, w);
      forall id :: id in ArrivedPorts(NewlyDelivered(p, q)) ==> id in q.log.learned
  {
    var q := OnSendMessage(p, target, payload, w);
    if q.log.delivered != p.log.delivered {
      var v := w.inbound.value;
      var d := Delivery(p.published[target.id].actor, v, payload.tag);
      assert NewlyDelivered(p, q) == [d];
      OneArrived(d);
      PortIdsAmong(v);
    }
  }

  lemma OneArrived(d: Delivery)
    ensures ArrivedPorts([d]) == PortIds(d.value)
  {
    assert [d][1..] == [];
    assert PortIds(d.value) + [] == PortIds(d.value);
  }

  lemma ArrivedMore(p: Portal, q: Portal, ports: seq<RebuiltPort>)
    requires PortsArrived(p, ports) && p.log.delivered <= q.log.delivered
    requires PortsKnown(p, ports) && p.log.learned <= q.log.learned
    requires forall id :: id in ArrivedPorts(NewlyDelivered(p, q)) ==> id in q.log.learned
    ensures PortsArrived(q, PortsAfter(p, q, ports)) && PortsKnown(q, PortsAfter(p, q, ports))
  {
    assert q.log.delivered == p.log.delivered + NewlyDelivered(p, q);
    ArrivedAppend(p.log.delivered, NewlyDelivered(p, q));
  }

  lemma LaterAppended(ports: seq<RebuiltPort>, more: seq<RebuiltPort>)
    ensures Later(ports, ports + more)
  {
  }

  /** The side that makes an ordinary move. */
  lemma ActingPorts(cx: Formats, x: Node, y: Node, act: Action, standIns: iset<ActorId>, ports: seq<RebuiltPort>)
    requires Basics(x.p) && Enabled(cx, x, y, act) && SideInv(x, y, standIns, ports)
    requires act.App? && act.mail.ImmaterializeMessage? ==> !ToStandIn(y.p, standIns, act.mail.job.target)
    ensures var x' := Apply(cx, x, y, act);
      SideInv(x', y, standIns, PortsAfter(x.p, x'.p, ports))
  {
    var x' := Apply(cx, x, y, act);
    var more := JustRebuilt(ArrivedPorts(NewlyDelivered(x.p, x'.p)));
    ActGrows(cx, x, y, act);
    LaterAppended(ports, more);
    if act.TakeTurn? {
      DeliveredIsLearned(x.p, x.mailbox[0], act.w);
      var job := TakenJob(x.p, x.mailbox[0], act.w);
      PortsSendTurn(x, x', y.p, standIns, ports, ports + more, job);
    } else {
      SamePortal(cx, x, y, act);
      MailAdded(cx, x, y, act);
      var m := MailOf(cx, x, y, act);
      if m.Some? {
        PortsSendMail(x, x', y.p, standIns, ports, ports + more, m.value);
      } else {
        assert x.mailbox + [] == x.mailbox;
        PortsSendSame(x, x', y.p, standIns, ports, ports + more);
      }
    }
    ArrivedMore(x.p, x'.p, ports);
  }

  /** The other side: what the ids of its messages stand for stays. */
  lemma WaitingPorts(cx: Formats, x: Node, y: Node, y': Node, standIns: iset<ActorId>, ports: seq<RebuiltPort>)
    requires IdInv(cx, x, y) && Grows(y.p, y'.p) && SideInv(x, y, standIns, ports)
    ensures SideInv(x, y', standIns, ports)
  {
    forall k | 0 <= k < |x.p.log.spawned| && ToStandIn(y'.p, standIns, x.p.log.spawned[k].target)
      ensures SomeAccepted(ports, x.p.log.spawned[k])
    {
      assert JobSafe(cx, y.p, x.p.log.spawned[k]);
    }
    forall j | 0 <= j < |x.mailbox| && x.mailbox[j].ImmaterializeMessage?
               && ToStandIn(y'.p, standIns, x.mailbox[j].job.target)
      ensures SomeForwarded(ports, x.mailbox[j].job)
    {
      assert MailSafe(cx, x.p, y.p, x.mailbox[j]);
    }
  }

  /** Something happens to a port. */
  lemma PortEventKeeps(x: Node, x': Node, y: Node, standIns: iset<ActorId>, ports: seq<RebuiltPort>, i: nat, e: PortEvent,
                       ty: Ty)
    requires SideInv(x, y, standIns, ports) && i < |ports| && x'.p == x.p
    requires x'.mailbox
          == x.mailbox + (if Forwards(ports[i], e) then [ImmaterializeMessage(ReplyJob(ports[i], ty))] else [])
    ensures SideInv(x', y, standIns, EventAt(ports, i, e))
  {
    var ports' := EventAt(ports, i, e);
    var port := ports'[i];
    assert port.events[..|port.events| - 1] == ports[i].events;
    if Forwards(ports[i], e) {
      OneMessage(ports[i].events);
      assert ForwardedBy(ports'[i], ReplyJob(ports[i], ty));
      PortsSendMail(x, x', y.p, standIns, ports, ports', ImmaterializeMessage(ReplyJob(ports[i], ty)));
    } else {
      assert x.mailbox + [] == x.mailbox;
      PortsSendSame(x, x', y.p, standIns, ports, ports');
    }
  }

  /** The ports of the side that made a move, afterwards. */
  ghost function PortsAfter(p: Portal, q: Portal, ports: seq<RebuiltPort>): seq<RebuiltPort> {
    ports + JustRebuilt(ArrivedPorts(NewlyDelivered(p, q)))
  }

  lemma LeftMoves(cx: Formats, reserved: Reserved, t: Talk, act: Action)
    requires Possible(cx, reserved, t, Ordinary(Move(Left, act)))
    ensures var x, y := t.link.left, t.link.right;
      && Enabled(cx, x, y, act)
      && (act.App? && act.mail.ImmaterializeMessage? ==> !ToStandIn(y.p, reserved.right, act.mail.job.target))
      && var x' := Apply(cx, x, y, act);
         Happens(cx, reserved, t, Ordinary(Move(Left, act))) == Talk(Link(x', y), PortsAfter(x.p, x'.p, t.left), t.right)
  {
  }

  lemma RightMoves(cx: Formats, reserved: Reserved, t: Talk, act: Action)
    requires Possible(cx, reserved, t, Ordinary(Move(Right, act)))
    ensures var x, y := t.link.right, t.link.left;
      && Enabled(cx, x, y, act)
      && (act.App? && act.mail.ImmaterializeMessage? ==> !ToStandIn(y.p, reserved.left, act.mail.job.target))
      && var x' := Apply(cx, x, y, act);
         Happens(cx, reserved, t, Ordinary(Move(Right, act))) == Talk(Link(y, x'), t.left, PortsAfter(x.p, x'.p, t.right))
  {
  }

  lemma OrdinaryKeeps(cx: Formats, reserved: Reserved, t: Talk, move: Move)
    requires cx.RoundTrips() && TalkInv(cx, reserved, t) && Possible(cx, reserved, t, Ordinary(move))
    ensures TalkInv(cx, reserved, Happens(cx, reserved, t, Ordinary(move)))
  {
    var l := t.link;
    if move.side.Left? {
      LeftMoves(cx, reserved, t, move.act);
      PairKeeps(cx, l.left, l.right, move.act, reserved.right, t.left, reserved.left, t.right);
    } else {
      RightMoves(cx, reserved, t, move.act);
      PairKeeps(cx, l.right, l.left, move.act, reserved.left, t.right, reserved.right, t.left);
    }
  }

  lemma PairKeeps(cx: Formats, x: Node, y: Node, act: Action, yStandIns: iset<ActorId>, xPorts: seq<RebuiltPort>,
                  xStandIns: iset<ActorId>, yPorts: seq<RebuiltPort>)
    requires cx.RoundTrips() && NodeInv(cx, x, y) && NodeInv(cx, y, x) && Enabled(cx, x, y, act)
    requires SideInv(x, y, yStandIns, xPorts) && SideInv(y, x, xStandIns, yPorts)
    requires act.App? && act.mail.ImmaterializeMessage? ==> !ToStandIn(y.p, yStandIns, act.mail.job.target)
    ensures var x' := Apply(cx, x, y, act);
      && NodeInv(cx, x', y) && NodeInv(cx, y, x')
      && SideInv(x', y, yStandIns, PortsAfter(x.p, x'.p, xPorts)) && SideInv(y, x', xStandIns, yPorts)
  {
    ActingSide(cx, x, y, act);
    OtherSide(cx, x, y, act);
    ActGrows(cx, x, y, act);
    ActingPorts(cx, x, y, act, yStandIns, xPorts);
    WaitingPorts(cx, y, x, Apply(cx, x, y, act), xStandIns, yPorts);
  }

  /** What happens to a port of `x`, as far as the ports of both sides are concerned. */
  lemma PortKeeps(x: Node, x': Node, y: Node, i: nat, e: PortEvent, ty: Ty, yStandIns: iset<ActorId>,
                  xPorts: seq<RebuiltPort>, xStandIns: iset<ActorId>, yPorts: seq<RebuiltPort>)
    requires i < |xPorts| && SideInv(x, y, yStandIns, xPorts) && SideInv(y, x, xStandIns, yPorts)
    requires x'.p == x.p
    requires if Forwards(xPorts[i], e) then x'.mailbox == x.mailbox + [ImmaterializeMessage(ReplyJob(xPorts[i], ty))]
      else x'.mailbox == x.mailbox
    ensures SideInv(x', y, yStandIns, EventAt(xPorts, i, e)) && SideInv(y, x', xStandIns, yPorts)
  {
    assert x.mailbox + [] == x.mailbox;
    PortEventKeeps(x, x', y, yStandIns, xPorts, i, e, ty);
    PeerUntouched(y, x, x', xStandIns, yPorts);
  }

  lemma PeerUntouched(y: Node, x: Node, x': Node, xStandIns: iset<ActorId>, yPorts: seq<RebuiltPort>)
    requires SideInv(y, x, xStandIns, yPorts) && x'.p == x.p
    ensures SideInv(y, x', xStandIns, yPorts)
  {
  }

  lemma ReplyMailed(cx: Formats, x: Node, y: Node, m: Mail)
    requires cx.RoundTrips() && NodeInv(cx, x, y) && NodeInv(cx, y, x) && Enabled(cx, x, y, App(m))
    ensures var x' := Apply(cx, x, y, App(m));
      NodeInv(cx, x', y) && NodeInv(cx, y, x') && x'.p == x.p && x'.mailbox == x.mailbox + [m]
  {
    ActingSide(cx, x, y, App(m));
    OtherSide(cx, x, y, App(m));
  }

  lemma OnPortKeeps(cx: Formats, reserved: Reserved, t: Talk, side: Side, i: nat, e: PortEvent, ty: Ty)
    requires cx.RoundTrips() && TalkInv(cx, reserved, t) && Possible(cx, reserved, t, OnPort(side, i, e, ty))
    ensures TalkInv(cx, reserved, Happens(cx, reserved, t, OnPort(side, i, e, ty)))
  {
    var l, ports := t.link, Ports(t, side);
    var l' := Happens(cx, reserved, t, OnPort(side, i, e, ty)).link;
    if Forwards(ports[i], e) {
      ReplyMailed(cx, Near(l, side), Far(l, side), ImmaterializeMessage(ReplyJob(ports[i], ty)));
    }
    if side.Left? {
      PortKeeps(l.left, l'.left, l.right, i, e, ty, reserved.right, t.left, reserved.left, t.right);
    } else {
      PortKeeps(l.right, l'.right, l.left, i, e, ty, reserved.left, t.right, reserved.right, t.left);
    }
  }

  lemma {:induction false} TalkKeeps(cx: Formats, reserved: Reserved, t: Talk, deeds: seq<Deed>)
    requires cx.RoundTrips() && TalkInv(cx, reserved, t) && CanTalk(cx, reserved, t, deeds)
    ensures TalkInv(cx, reserved, TalkOn(cx, reserved, t, deeds))
    decreases |deeds|
  {
    if deeds != [] {
      match deeds[0] {
        case Ordinary(move) => OrdinaryKeeps(cx, reserved, t, move);
        case OnPort(side, i, e, ty) => OnPortKeeps(cx, reserved, t, side, i, e, ty);
      }
      TalkKeeps(cx, reserved, Happens(cx, reserved, t, deeds[0]), deeds[1..]);
    }
  }

  lemma Talked(cx: Formats, reserved: Reserved, s: Setup, deeds: seq<Deed>)
    requires cx.RoundTrips() && CanTalk(cx, reserved, Silence(s), deeds)
    ensures TalkInv(cx, reserved, TalkOn(cx, reserved, Silence(s), deeds))
  {
    SilenceOk(cx, reserved, s);
    TalkKeeps(cx, reserved, Silence(s), deeds);
  }

  lemma SilenceOk(cx: Formats, reserved: Reserved, s: Setup)
    ensures TalkInv(cx, reserved, Silence(s))
  {
    StartOk(cx, s.leftId, s.leftPart, s.rightId, s.rightPart);
    StartOk(cx, s.rightId, s.rightPart, s.leftId, s.leftPart);
  }

  // ------------------------------------------------------------------------------------------------
  // Theorems

  /** A port that was answered can forward the answer as long as its portal runs, unless its id was forged. */
  lemma AnswerCanGo(cx: Formats, reserved: Reserved, s: Setup, deeds: seq<Deed>, side: Side, i: nat, ty: Ty)
    requires cx.RoundTrips() && CanTalk(cx, reserved, Silence(s), deeds)
    requires var t := TalkOn(cx, reserved, Silence(s), deeds);
      && i < |Ports(t, side)| && Forwards(Ports(t, side)[i], PortEvent.Forwarded)
      && JobOk(cx, ReplyJob(Ports(t, side)[i], ty)) && Near(t.link, side).p.status.Running?
      && !Forged(Near(t.link, side).p, Far(t.link, side).p, Ports(t, side)[i].target)
    ensures Possible(cx, reserved, TalkOn(cx, reserved, Silence(s), deeds), OnPort(side, i, PortEvent.Forwarded, ty))
  {
    Talked(cx, reserved, s, deeds);
    MayForward(cx, reserved, TalkOn(cx, reserved, Silence(s), deeds), side, i, ty);
  }

  lemma MayForward(cx: Formats, reserved: Reserved, t: Talk, side: Side, i: nat, ty: Ty)
    requires TalkInv(cx, reserved, t) && i < |Ports(t, side)| && Forwards(Ports(t, side)[i], PortEvent.Forwarded)
    requires JobOk(cx, ReplyJob(Ports(t, side)[i], ty)) && Near(t.link, side).p.status.Running?
    requires !Forged(Near(t.link, side).p, Far(t.link, side).p, Ports(t, side)[i].target)
    ensures Possible(cx, reserved, t, OnPort(side, i, PortEvent.Forwarded, ty))
  {
    KnownId(cx, reserved, t, side, i);
    MayMail(cx, Near(t.link, side), Far(t.link, side), ReplyJob(Ports(t, side)[i], ty));
  }

  lemma MayMail(cx: Formats, x: Node, y: Node, job: Job)
    requires x.p.status.Running? && JobOk(cx, job) && job.target in x.p.log.learned && IssuedBy(y.p, job.target)
    ensures Enabled(cx, x, y, App(ImmaterializeMessage(job)))
  {
  }

  lemma KnownId(cx: Formats, reserved: Reserved, t: Talk, side: Side, i: nat)
    requires TalkInv(cx, reserved, t) && i < |Ports(t, side)|
    ensures Ports(t, side)[i].target in Near(t.link, side).p.log.learned
    ensures IssuedBy(Far(t.link, side).p, Ports(t, side)[i].target)
         || Forged(Near(t.link, side).p, Far(t.link, side).p, Ports(t, side)[i].target)
  {
  }

  /** A port was rebuilt for each port that arrived, in order, and everything sent to a stand-in is the answer given to one
      of them. */
  predicate OnlyAnswers(near: Portal, far: Portal, standIns: iset<ActorId>, ports: seq<RebuiltPort>) {
    && PortsArrived(far, ports)
    && forall k :: 0 <= k < |far.log.spawned| && ToStandIn(near, standIns, far.log.spawned[k].target) ==>
         SomeAnswer(ports, far.log.spawned[k])
  }

  predicate SomeAnswer(ports: seq<RebuiltPort>, job: Job) {
    exists i :: 0 <= i < |ports| && AnswerSent(ports[i], job)
  }

  lemma OnlyPortsReply(cx: Formats, reserved: Reserved, s: Setup, deeds: seq<Deed>, side: Side)
    requires cx.RoundTrips() && CanTalk(cx, reserved, Silence(s), deeds)
    ensures var t := TalkOn(cx, reserved, Silence(s), deeds);
      OnlyAnswers(Near(t.link, side).p, Far(t.link, side).p, StandIns(reserved, side), Ports(t, Other(side)))
  {
    Talked(cx, reserved, s, deeds);
    var t := TalkOn(cx, reserved, Silence(s), deeds);
    FarSide(cx, reserved, t, side);
    SentAreAnswers(Far(t.link, side), Near(t.link, side), StandIns(reserved, side), Ports(t, Other(side)));
  }

  lemma FarSide(cx: Formats, reserved: Reserved, t: Talk, side: Side)
    requires TalkInv(cx, reserved, t)
    ensures SideInv(Far(t.link, side), Near(t.link, side), StandIns(reserved, side), Ports(t, Other(side)))
  {
  }

  lemma SentAreAnswers(x: Node, y: Node, standIns: iset<ActorId>, ports: seq<RebuiltPort>)
    requires SideInv(x, y, standIns, ports)
    ensures OnlyAnswers(y.p, x.p, standIns, ports)
  {
    forall k | 0 <= k < |x.p.log.spawned| && ToStandIn(y.p, standIns, x.p.log.spawned[k].target)
      ensures SomeAnswer(ports, x.p.log.spawned[k])
    {
      var i :| 0 <= i < |ports| && AcceptedBy(ports[i], x.p.log.spawned[k]);
      AcceptedIsAnswer(ports[i], x.p.log.spawned[k]);
    }
  }

  /** The job wraps the first answer given to the port. */
  predicate AnswerSent(port: RebuiltPort, job: Job) {
    && job.target == port.target && FirstAnswer(port.events).Some?
    && job.value == VRecord([WithTimeouts(FirstAnswer(port.events).value, DEFAULT_RPC_PORT_TIMEOUT)])
  }

  lemma AcceptedIsAnswer(port: RebuiltPort, job: Job)
    requires AcceptedBy(port, job)
    ensures AnswerSent(port, job)
  {
    OneMessage(port.events);
    var first := FirstAnswer(port.events).value;
    WrappedWithTimeouts(first, DEFAULT_RPC_PORT_TIMEOUT);
    assert RebuiltLife(port.events).messages == [VRecord([first])];
  }

  /** What the caller got is what its stand-in decoded from the first answer given to this port, which it carries if
      the answer had the type of the replies the caller asked for. */
  ghost predicate AnswersCaller(cx: Formats, ty: Ty, near: Portal, far: Portal, port: RebuiltPort, id: OpaqueId, got: Val) {
    && port.target.id == id && id in near.published && FirstAnswer(port.events).Some?
    && (exists k :: 0 <= k < |far.log.spawned| && AnswerSent(port, far.log.spawned[k])
          && ReplyOf(cx, ty, near, near.published[id].actor, far, got, k)
          && (JobTyped(near, far.log.spawned[k]) ==> Carries(far, FirstAnswer(port.events).value, got)))
  }

  /** End to end, in every run: the caller whose port crossed under `id` receives at most one value, and it is the first
      answer given to a port that was rebuilt for `id` on the other side. */
  lemma CallerGetsFirstAnswer(cx: Formats, reserved: Reserved, s: Setup, deeds: seq<Deed>, side: Side, id: OpaqueId,
                              port: nat, ty: Ty, events: seq<RpcEvent>)
    requires cx.RoundTrips() && CanTalk(cx, reserved, Silence(s), deeds)
    requires var near := Near(TalkOn(cx, reserved, Silence(s), deeds).link, side).p;
      && id in near.published && near.published[id] == Published(near.published[id].actor, TRecord([ty]))
      && near.published[id].actor in StandIns(reserved, side)
      && RpcProxy.Replies(events) <= Values(PassedTo(near.log.delivered, near.published[id].actor))
    ensures var t, got := TalkOn(cx, reserved, Silence(s), deeds), RpcLife(RpcProxy.Fresh(port), events).received;
      var near, far, ports := Near(t.link, side).p, Far(t.link, side).p, Ports(t, Other(side));
      got == []
      || (|got| == 1 && got[0].0 == port
          && exists i :: 0 <= i < |ports| && AnswersCaller(cx, ty, near, far, ports[i], id, got[0].1))
  {
    FirstEventDecides(port, events);
    if RpcLife(RpcProxy.Fresh(port), events).received != [] {
      var t := TalkOn(cx, reserved, Silence(s), deeds);
      Talked(cx, reserved, s, deeds);
      OnlyPortsReply(cx, reserved, s, deeds, side);
      AnswerOfSomePort(cx, ty, Near(t.link, side), Far(t.link, side), Ports(t, Other(side)), StandIns(reserved, side), id,
                       events);
    }
  }

  lemma AnswerOfSomePort(cx: Formats, ty: Ty, near: Node, far: Node, ports: seq<RebuiltPort>, standIns: iset<ActorId>,
                         id: OpaqueId, events: seq<RpcEvent>)
    requires cx.RoundTrips() && DeliveriesOk(cx, near.p, far.p) && RegistriesOk(near.p) && id in near.p.published
    requires near.p.published[id] == Published(near.p.published[id].actor, TRecord([ty]))
    requires near.p.published[id].actor in standIns && events != [] && events[0].Reply?
    requires RpcProxy.Replies(events) <= Values(PassedTo(near.p.log.delivered, near.p.published[id].actor))
    requires OnlyAnswers(near.p, far.p, standIns, ports)
    ensures exists i :: 0 <= i < |ports| && AnswersCaller(cx, ty, near.p, far.p, ports[i], id, events[0].data)
  {
    var k := FirstIsFaithful(cx, near, far, near.p.published[id].actor, ty, events);
    assert ToStandIn(near.p, standIns, far.p.log.spawned[k].target);
    var i :| 0 <= i < |ports| && AnswerSent(ports[i], far.p.log.spawned[k]);
    ReplyIsAnswer(cx, ty, near.p, far.p, ports[i], id, events[0].data, k);
  }

  lemma ReplyIsAnswer(cx: Formats, ty: Ty, near: Portal, far: Portal, port: RebuiltPort, id: OpaqueId, got: Val, k: nat)
    requires id in near.published && RegistriesOk(near) && ReplyOf(cx, ty, near, near.published[id].actor, far, got, k)
    requires AnswerSent(port, far.log.spawned[k])
    ensures AnswersCaller(cx, ty, near, far, port, id, got)
  {
    if JobTyped(near, far.log.spawned[k]) {
      ImageCarries(far, FirstAnswer(port.events).value);
    }
  }
}
