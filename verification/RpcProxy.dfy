/** Reply ports across a conduit: the actor that stands in for the original port, the port rebuilt on the other side, and
    what the stand-in can receive. */
module RpcProxy {
  import opened Bytes
  import opened Codec
  import opened Refs
  import opened Portal
  import opened PortalTheorems
  import opened Link
  import opened LinkIds
  import opened LinkCrossing
  import opened LinkMeaning
  import opened LinkRuns

  // ------------------------------------------------------------------------------------------------
  // The stand-in

  /** The reply port it still holds, whether it is linked to its portal, whether it stopped, and what the port's receiver
      got so far. */
  datatype StandIn = StandIn(port: Option<nat>, linked: bool, stopped: bool, received: seq<(nat, Val)>)

  /** A message arrives (its receiver may have lost interest), or the timeout kills the actor. */
  datatype RpcEvent = Reply(data: Val, receiverGone: bool) | Timeout

  function Fresh(port: nat): StandIn {
    StandIn(Some(port), true, false, [])
  }

  /** A stopped actor handles nothing any more. */
  function RpcStep(s: StandIn, e: RpcEvent): StandIn {
    if s.stopped then s
    else
      match e
      case Timeout => s.(stopped := true)
      case Reply(data, gone) =>
        s.(port := None, linked := false, stopped := true,
           received := if s.port.Some? && !gone then s.received + [(s.port.value, data)] else s.received)
  }

  function RpcLife(s: StandIn, events: seq<RpcEvent>): StandIn {
    if events == [] then s else RpcStep(RpcLife(s, events[..|events| - 1]), events[|events| - 1])
  }

  class RpcProxyActor {
    var rpcReplyPort: Option<nat>
    var linked: bool
    var stopped: bool
    var received: seq<(nat, Val)>

    ghost function View(): StandIn
      reads this
    {
      StandIn(rpcReplyPort, linked, stopped, received)
    }

    constructor (port: nat)
      ensures View() == Fresh(port)
    {
      rpcReplyPort, linked, stopped, received := Some(port), true, false, [];
    }

    /** Takes the port, so that a second message would find none; a failed send is only logged. */
    method Handle(data: Val, receiverGone: bool)
      requires !stopped
      modifies this
      ensures View() == RpcStep(old(View()), Reply(data, receiverGone))
    {
      var taken := rpcReplyPort;
      rpcReplyPort := None;
      if taken.Some? {
        if !receiverGone {
          received := received + [(taken.value, data)];
        }
      }
      if linked {
        linked := false;
      }
      stopped := true;
    }

    /** `kill_after`. */
    method Kill()
      modifies this`stopped
      ensures View() == RpcStep(old(View()), Timeout)
    {
      stopped := true;
    }
  }

  /** The port receives exactly what the first event brings, if that is a reply it still waits for; repeated replies and
      late timeouts change nothing. */
  lemma {:induction false} FirstEventDecides(port: nat, events: seq<RpcEvent>)
    ensures RpcLife(Fresh(port), events).received
         == if events != [] && events[0].Reply? && !events[0].receiverGone then [(port, events[0].data)] else []
    ensures RpcLife(Fresh(port), events).stopped <==> events != []
    ensures var used := events != [] && events[0].Reply?;
      var s := RpcLife(Fresh(port), events);
      s.port == (if used then None else Some(port)) && s.linked == !used
    decreases |events|
  {
    if events != [] {
      FirstEventDecides(port, events[..|events| - 1]);
    }
  }

  // ------------------------------------------------------------------------------------------------
  // The port rebuilt on the other side

  /** The application answers, or drops the port; then the task that waits for it forwards the value as a message. */
  datatype PortEvent = Answered(data: Val) | DroppedPort | Forwarded

  datatype Rebuilt = Rebuilt(open: bool, held: Option<Val>, messages: seq<Val>)

  function RebuiltStep(r: Rebuilt, e: PortEvent): Rebuilt {
    match e
    case Answered(data) => if r.open then r.(open := false, held := Some(data)) else r
    case DroppedPort => r.(open := false)
    case Forwarded => if r.held.Some? then r.(held := None, messages := r.messages + [VRecord([r.held.value])]) else r
  }

  function RebuiltLife(events: seq<PortEvent>): Rebuilt {
    if events == [] then Rebuilt(true, None, [])
    else RebuiltStep(RebuiltLife(events[..|events| - 1]), events[|events| - 1])
  }

  /** The first answer given before the port was dropped. */
  function FirstAnswer(events: seq<PortEvent>): Option<Val> {
    if events == [] then None
    else
      match events[0]
      case Answered(data) => Some(data)
      case DroppedPort => None
      case Forwarded => FirstAnswer(events[1..])
  }

  lemma {:induction false} FirstAnswerSnoc(events: seq<PortEvent>, e: PortEvent)
    ensures FirstAnswer(events + [e])
         == if FirstAnswer(events).Some? then FirstAnswer(events)
            else if e.Answered? && DroppedPort !in events then Some(e.data) else None
    decreases |events|
  {
    if events == [] {
      assert [e][1..] == [];
    } else {
      assert (events + [e])[1..] == events[1..] + [e];
      FirstAnswerSnoc(events[1..], e);
    }
  }

  /** The task that waits for the port ran after it was answered. */
  predicate ForwardDue(events: seq<PortEvent>) {
    exists i :: 0 <= i < |events| && events[i].Forwarded? && FirstAnswer(events[..i]).Some?
  }

  lemma ForwardDueSnoc(events: seq<PortEvent>, e: PortEvent)
    ensures ForwardDue(events + [e]) <==> ForwardDue(events) || (e.Forwarded? && FirstAnswer(events).Some?)
  {
    var all := events + [e];
    assert all[..|events|] == events;
    assert forall i :: 0 <= i < |events| ==> all[..i] == events[..i] && all[i] == events[i];
    if ForwardDue(events) {
      var i :| 0 <= i < |events| && events[i].Forwarded? && FirstAnswer(events[..i]).Some?;
      assert all[i].Forwarded? && FirstAnswer(all[..i]).Some?;
    }
    if e.Forwarded? && FirstAnswer(events).Some? {
      assert all[|events|].Forwarded? && FirstAnswer(all[..|events|]).Some?;
    }
  }

  /** A rebuilt port sends one message as soon as its task runs after the first answer, it wraps that answer, and there is
      never another. */
  lemma {:induction false} OneMessage(events: seq<PortEvent>)
    ensures var r, first := RebuiltLife(events), FirstAnswer(events);
      && (r.open <==> first.None? && DroppedPort !in events)
      && (first.None? ==> r.held.None? && r.messages == [])
      && (first.Some? ==> (r.held == first && r.messages == []) || (r.held.None? && r.messages == [VRecord([first.value])]))
      && (r.messages != [] <==> ForwardDue(events))
    decreases |events|
  {
    if events != [] {
      var rest, e := events[..|events| - 1], events[|events| - 1];
      assert events == rest + [e];
      OneMessage(rest);
      FirstAnswerSnoc(rest, e);
      ForwardDueSnoc(rest, e);
    }
  }

  // ------------------------------------------------------------------------------------------------
  // Across the conduit

  /** What the portal passed to one actor. */
  function PassedTo(ds: seq<Delivery>, actor: ActorId): seq<Delivery> {
    if ds == [] then []
    else PassedTo(ds[..|ds| - 1], actor) + (if ds[|ds| - 1].actor == actor then [ds[|ds| - 1]] else [])
  }

  lemma {:induction false} PassedAmong(ds: seq<Delivery>, actor: ActorId)
    ensures forall i :: 0 <= i < |PassedTo(ds, actor)| ==>
      PassedTo(ds, actor)[i] in ds && PassedTo(ds, actor)[i].actor == actor
    decreases |ds|
  {
    if ds != [] {
      PassedAmong(ds[..|ds| - 1], actor);
    }
  }

  function Replies(events: seq<RpcEvent>): seq<Val> {
    if events == [] then []
    else
      var e := events[|events| - 1];
      Replies(events[..|events| - 1]) + (if e.Reply? then [VRecord([e.data])] else [])
  }

  function Values(ds: seq<Delivery>): seq<Val> {
    if ds == [] then [] else Values(ds[..|ds| - 1]) + [ds[|ds| - 1].value]
  }

  lemma {:induction false} ValuesAt(ds: seq<Delivery>)
    ensures |Values(ds)| == |ds| && forall i :: 0 <= i < |ds| ==> Values(ds)[i] == ds[i].value
    decreases |ds|
  {
    if ds != [] {
      ValuesAt(ds[..|ds| - 1]);
    }
  }

  lemma {:induction false} FirstReply(events: seq<RpcEvent>)
    requires events != [] && events[0].Reply?
    ensures Replies(events) != [] && Replies(events)[0] == VRecord([events[0].data])
    decreases |events|
  {
    if |events| == 1 {
      assert events[..0] == [];
    } else {
      FirstReply(events[..|events| - 1]);
    }
  }

  /** Job `k` of `peer` went to the stand-in `actor` of `p`, which decoded `got` out of it; and if the job was a wrapped
      reply of type `ty`, `got` is that reply with its references replaced by the ids `peer` issued for them. */
  ghost predicate ReplyOf(cx: Formats, ty: Ty, p: Portal, actor: ActorId, peer: Portal, got: Val, k: nat) {
    && k < |peer.log.spawned|
    && var job := peer.log.spawned[k];
    && job.target.id in p.published && p.published[job.target.id].actor == actor
    && JobOk(cx, job) && AllIssued(peer, Addresses(job.value))
    && Decode(cx, TRecord([ty]), Serialized(cx, peer, job)) == Some(VRecord([got]))
    && (JobTyped(p, job) ==> WrappedReply(cx, ty, peer, job.value, got))
  }

  ghost predicate WrappedReply(cx: Formats, ty: Ty, peer: Portal, v: Val, got: Val) {
    && v.VRecord? && |v.fields| == 1
    && var reply := v.fields[0];
    && v == VRecord([reply]) && HasType(cx, ty, reply) && AllIssued(peer, Addresses(reply)) && got == Image(peer, reply)
  }

  ghost predicate IsReply(cx: Formats, ty: Ty, p: Portal, actor: ActorId, peer: Portal, got: Val) {
    exists k :: ReplyOf(cx, ty, p, actor, peer, got, k)
  }

  /** The actor is published for replies of type `ty`. */
  predicate PublishedForReplies(p: Portal, actor: ActorId, ty: Ty) {
    forall id :: id in p.published && p.published[id].actor == actor ==> p.published[id].receiver == TRecord([ty])
  }

  /** In every run of two portals, whatever else they do: a stand-in on one side, published for replies of type `ty`, whose
      mailbox is fed by its portal and which may be killed at any time, passes at most one value to its port, and that
      value is decoded from what the other side sent to this stand-in: the image of the reply, if that had type `ty`. */
  lemma RepliesAtMostOnceAndFaithful(cx: Formats, s: Setup, moves: seq<Move>, side: Side, actor: ActorId, port: nat,
                                     ty: Ty, events: seq<RpcEvent>)
    requires cx.RoundTrips() && CanRun(cx, Begin(s), moves)
    requires PublishedForReplies(Near(Run(cx, Begin(s), moves), side).p, actor, ty)
    requires Replies(events) <= Values(PassedTo(Near(Run(cx, Begin(s), moves), side).p.log.delivered, actor))
    ensures var got, l := RpcLife(Fresh(port), events).received, Run(cx, Begin(s), moves);
      got == [] || (|got| == 1 && got[0].0 == port && IsReply(cx, ty, Near(l, side).p, actor, Far(l, side).p, got[0].1))
  {
    FirstEventDecides(port, events);
    if RpcLife(Fresh(port), events).received != [] {
      SidesOk(cx, s, moves, side);
      var l := Run(cx, Begin(s), moves);
      var k := FirstIsFaithful(cx, Near(l, side), Far(l, side), actor, ty, events);
    }
  }

  lemma SidesOk(cx: Formats, s: Setup, moves: seq<Move>, side: Side)
    requires cx.RoundTrips() && CanRun(cx, Begin(s), moves)
    ensures var l := Run(cx, Begin(s), moves);
      DeliveriesOk(cx, Near(l, side).p, Far(l, side).p) && RegistriesOk(Near(l, side).p)
  {
    Reached(cx, s, moves);
  }

  lemma FirstIsFaithful(cx: Formats, x: Node, y: Node, actor: ActorId, ty: Ty, events: seq<RpcEvent>) returns (k: nat)
    requires cx.RoundTrips() && DeliveriesOk(cx, x.p, y.p) && PublishedForReplies(x.p, actor, ty)
    requires Replies(events) <= Values(PassedTo(x.p.log.delivered, actor)) && events != [] && events[0].Reply?
    ensures ReplyOf(cx, ty, x.p, actor, y.p, events[0].data, k)
  {
    FirstReply(events);
    var ds := PassedTo(x.p.log.delivered, actor);
    ValuesAt(ds);
    PassedAmong(x.p.log.delivered, actor);
    assert ds[0].value == VRecord([events[0].data]);
    DeliveredReply(cx, x, y, ds[0], ty, events[0].data);
    k := ds[0].tag;
  }

  lemma DeliveredReply(cx: Formats, x: Node, y: Node, d: Delivery, ty: Ty, got: Val)
    requires cx.RoundTrips() && DeliveriesOk(cx, x.p, y.p) && d in x.p.log.delivered
    requires PublishedForReplies(x.p, d.actor, ty) && d.value == VRecord([got])
    ensures ReplyOf(cx, ty, x.p, d.actor, y.p, got, d.tag)
  {
    var i :| 0 <= i < |x.p.log.delivered| && x.p.log.delivered[i] == d;
    assert DeliveryOk(cx, x.p, y.p, x.p.log.delivered[i]);
    var job := y.p.log.spawned[d.tag];
    if JobTyped(x.p, job) {
      SerializedArrives(cx, y.p, job);
      Unwrapped(cx, y.p, ty, job.value);
    }
  }

  lemma WrappedWithTimeouts(v: Val, default: nat)
    ensures WithTimeouts(VRecord([v]), default) == VRecord([WithTimeouts(v, default)])
  {
    assert [v][1..] == [];
    assert AllWithTimeouts([v], default) == [WithTimeouts(v, default)];
  }

  /** A wrapped reply is one field, and its image is the wrapped image. */
  lemma Unwrapped(cx: Formats, p: Portal, ty: Ty, v: Val)
    requires HasType(cx, TRecord([ty]), v) && AllIssued(p, Addresses(v))
    ensures |v.fields| == 1 && v == VRecord([v.fields[0]]) && HasType(cx, ty, v.fields[0])
    ensures Addresses(v) == Addresses(v.fields[0])
    ensures AllIssued(p, Addresses(v.fields[0])) && Image(p, v) == VRecord([Image(p, v.fields[0])])
  {
    ArityMatches(cx, [ty], v.fields);
    var inner := v.fields[0];
    assert v.fields == [inner] && [inner][1..] == [];
    assert AllAddresses([inner]) == Addresses(inner) + AllAddresses([]);
    assert Addresses(inner) + [] == Addresses(inner);
    var subs := ToAddresses(IssuedIds(p, Addresses(inner)));
    assert subs[..|subs|] == subs;
    assert FillAll([inner], subs) == [Fill(inner, subs)];
  }
}
