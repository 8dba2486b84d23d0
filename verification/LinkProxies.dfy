/** Every reference that arrives gets a proxy: over a whole run, the proxies a portal started while rematerializing are for
    the ids in the messages it delivered, one each, in order. */
module LinkProxies {
  import opened Codec
  import opened Refs
  import opened Portal
  import opened PortalFrames
  import opened Link
  import opened LinkWire
  import opened LinkCrossing

  /** The ids proxies were started for. */
  function Targets(started: seq<(RemoteId, ActorId)>): seq<RemoteId> {
    if started == [] then [] else Targets(started[..|started| - 1]) + [started[|started| - 1].0]
  }

  /** The ids in the messages delivered, in order. */
  function Arrived(ds: seq<Delivery>): seq<RemoteId> {
    if ds == [] then [] else Arrived(ds[..|ds| - 1]) + Remotes(Addresses(ds[|ds| - 1].value))
  }

  /** Proxies were started for the references delivered, and at the end for those of a message whose target had stopped. */
  ghost predicate ProxiesOk(p: Portal) {
    && Arrived(p.log.delivered) <= Targets(p.log.started)
    && (p.status != Failed(TargetStopped) ==> Targets(p.log.started) == Arrived(p.log.delivered))
  }

  lemma {:induction false} TargetsAppend(a: seq<(RemoteId, ActorId)>, b: seq<(RemoteId, ActorId)>)
    ensures Targets(a + b) == Targets(a) + Targets(b)
    decreases |b|
  {
    if b == [] {
      assert a + b == a;
    } else {
      assert (a + b)[..|a + b| - 1] == a + b[..|b| - 1];
      TargetsAppend(a, b[..|b| - 1]);
    }
  }

  lemma {:induction false} TargetsOfPairs(started: seq<(RemoteId, ActorId)>, ids: seq<RemoteId>)
    requires |started| == |ids| && forall i :: 0 <= i < |ids| ==> started[i].0 == ids[i]
    ensures Targets(started) == ids
    decreases |ids|
  {
    if ids != [] {
      TargetsOfPairs(started[..|ids| - 1], ids[..|ids| - 1]);
      assert ids == ids[..|ids| - 1] + [ids[|ids| - 1]];
    }
  }

  lemma ProxiesAfterTurn(cx: Formats, x: Node, w: World)
    requires ProxiesOk(x.p) && x.p.status.Running? && x.mailbox != [] && WorldFits(cx, x, x.mailbox[0], w)
    ensures ProxiesOk(Turn(x.p, x.mailbox[0], w))
  {
    var m := x.mailbox[0];
    if IsSendMessage(m) {
      ProxiesAfterMessage(x.p, m, w);
    } else {
      TurnFramed(x.p, m, w);
    }
  }

  lemma ProxiesAfterMessage(p: Portal, m: Mail, w: World)
    requires ProxiesOk(p) && p.status.Running? && IsSendMessage(m)
    requires m.data.msg.target.id in p.published && w.inbound.Some? ==> |w.proxies| == |Remotes(Addresses(w.inbound.value))|
    ensures ProxiesOk(Turn(p, m, w))
  {
    if p.channel.Opening? {
      assert Turn(p, m, w) == p.(status := ProtocolViolation);
    } else {
      assert Turn(p, m, w) == OnSendMessage(p, m.data.msg.target, m.data.msg.payload, w);
      ProxiesOnMessage(p, m.data.msg.target, m.data.msg.payload, w);
    }
  }

  lemma ProxiesOnMessage(p: Portal, target: RemoteId, payload: Payload, w: World)
    requires ProxiesOk(p) && p.status.Running?
    requires target.id in p.published && w.inbound.Some? ==> |w.proxies| == |Remotes(Addresses(w.inbound.value))|
    ensures ProxiesOk(OnSendMessage(p, target, payload, w))
  {
    if target.id in p.published && w.inbound.Some? {
      TargetsAfter(p.log.started, Remotes(Addresses(w.inbound.value)), w.proxies);
      ArrivedAfter(p.log.delivered, Delivery(p.published[target.id].actor, w.inbound.value, payload.tag));
    }
  }

  lemma TargetsAfter(started: seq<(RemoteId, ActorId)>, ids: seq<RemoteId>, proxies: seq<ActorId>)
    requires |ids| == |proxies|
    ensures Targets(started + Started(ids, proxies)) == Targets(started) + ids
  {
    StartedPairs(ids, proxies);
    TargetsOfPairs(Started(ids, proxies), ids);
    TargetsAppend(started, Started(ids, proxies));
  }

  lemma ArrivedAfter(ds: seq<Delivery>, d: Delivery)
    ensures Arrived(ds + [d]) == Arrived(ds) + Remotes(Addresses(d.value))
  {
    assert (ds + [d])[..|ds|] == ds;
  }

  lemma ProxiesStep(cx: Formats, x: Node, y: Node, act: Action)
    requires ProxiesOk(x.p) && Enabled(cx, x, y, act)
    ensures ProxiesOk(Apply(cx, x, y, act).p)
  {
    if act.TakeTurn? {
      ProxiesAfterTurn(cx, x, act.w);
    } else {
      SamePortal(cx, x, y, act);
    }
  }
}
