/** Every interleaving keeps the wire in order: what one portal has handled and what waits in its mailbox is a prefix of
    what the other sent, which is one handshake and then only content. */
module LinkWire {
  import opened Bytes
  import opened Codec
  import opened Refs
  import opened Portal
  import opened PortalFrames
  import opened PortalTheorems
  import opened PortalSends
  import opened PortalEnds
  import opened Link

  predicate IsIntro(pk: Packet) {
    pk.HandshakePacket? && pk.text.Intro?
  }

  predicate IsDecoded(pk: Packet) {
    pk.ContentPacket? && pk.data.Decoded?
  }

  /** One handshake, then only content; nothing but the handshake before the portal is open. */
  predicate Shape(p: Portal) {
    && |p.log.sent| >= 1 && IsIntro(p.log.sent[0])
    && (forall i :: 1 <= i < |p.log.sent| ==> IsDecoded(p.log.sent[i]))
    && (p.channel.Opening? ==> |p.log.sent| == 1 && p.channel.intro == p.log.sent[0].text.intro)
  }

  function Own(p: Portal): Uuid
    requires Shape(p)
  {
    p.log.sent[0].text.intro.contribution
  }

  ghost predicate Basics(p: Portal) {
    RegistriesOk(p) && NamesOk(p) && Shape(p)
  }

  /** The FIFO contract of the transport. */
  predicate Wired(x: Node, y: Node) {
    x.pulled <= |y.p.log.sent| && x.heard + Packets(x.mailbox) == y.p.log.sent[..x.pulled]
  }

  /** A portal is open exactly after it heard the peer's introduction, with the id both sides compute. */
  predicate Shaken(x: Node, y: Node)
    requires Shape(x.p) && Shape(y.p)
  {
    && (x.p.channel.Opening? ==> x.heard == [])
    && (x.p.channel.Open? ==> x.heard != [] && x.p.channel.id == ConduitId(Own(x.p), Own(y.p)))
  }

  /** Nothing the peer sent ended this portal as a protocol violation or as unreadable. */
  predicate Peaceful(p: Portal) {
    p.status !in {ProtocolViolation, Failed(BadHandshake), Failed(BadContent)}
  }

  ghost predicate WireInv(x: Node, y: Node) {
    Basics(x.p) && Basics(y.p) && Wired(x, y) && Shaken(x, y) && Peaceful(x.p)
  }

  // ------------------------------------------------------------------------------------------------
  // Mailboxes

  lemma {:induction false} PacketsAppend(a: seq<Mail>, b: seq<Mail>)
    ensures Packets(a + b) == Packets(a) + Packets(b)
    decreases |a|
  {
    if a == [] {
      assert a + b == b;
    } else {
      assert (a + b)[0] == a[0] && (a + b)[1..] == a[1..] + b;
      PacketsAppend(a[1..], b);
      assert Heard(a[0]) + (Packets(a[1..]) + Packets(b)) == Heard(a[0]) + Packets(a[1..]) + Packets(b);
    }
  }

  lemma PacketsOfOne(m: Mail)
    ensures Packets([m]) == Heard(m)
  {
    assert [m][1..] == [];
    assert Heard(m) + [] == Heard(m);
  }

  /** The packet a portal handles is the next one of the peer's output. */
  lemma NextHeard(x: Node, y: Node, m: Mail, rest: seq<Mail>)
    requires Wired(x, y) && x.mailbox == [m] + rest && ToPacket(m).Some?
    ensures |x.heard| < x.pulled && y.p.log.sent[|x.heard|] == ToPacket(m).value
  {
    assert x.mailbox[1..] == rest;
    assert x.heard + Packets(x.mailbox) == x.heard + ([ToPacket(m).value] + Packets(rest));
    assert y.p.log.sent[..x.pulled][|x.heard|] == ToPacket(m).value;
  }

  lemma HeardIsPrefix(x: Node, y: Node)
    requires Wired(x, y)
    ensures x.heard <= y.p.log.sent
  {
    assert x.heard <= y.p.log.sent[..x.pulled];
  }

  // ------------------------------------------------------------------------------------------------
  // The acting side

  lemma ShapeAfterTurn(p: Portal, m: Mail, w: World)
    requires Basics(p) && w.uuid !in p.published
    ensures Shape(Turn(p, m, w)) && Own(Turn(p, m, w)) == Own(p)
  {
    var sent := SentStep(p, m, w);
    TurnFramed(p, m, w);
    if m.Handshake? {
      HandshakeChannel(p, m, w);
    }
  }

  lemma HandshakeChannel(p: Portal, m: Mail, w: World)
    requires m.Handshake?
    ensures Turn(p, m, w).channel
         == if p.channel.Opening? && m.text.Intro?
            then Open(ConduitId(p.channel.intro.contribution, m.text.intro.contribution)) else p.channel
  {
  }

  lemma BasicsAfterTurn(p: Portal, m: Mail, w: World)
    requires Basics(p) && w.uuid !in p.published
    ensures Basics(Turn(p, m, w))
  {
    TurnKeepsRegistries(p, m, w);
    TurnKeepsNames(p, m, w);
    ShapeAfterTurn(p, m, w);
  }

  lemma WiredAfterTurn(x: Node, y: Node, q: Portal)
    requires Wired(x, y) && x.mailbox != []
    ensures Wired(Settle(x, q), y)
  {
    var m, rest := x.mailbox[0], x.mailbox[1..];
    assert x.heard + (Heard(m) + Packets(rest)) == x.heard + Heard(m) + Packets(rest);
  }

  lemma ShakenAfterTurn(x: Node, y: Node, w: World)
    requires WireInv(x, y) && x.mailbox != [] && x.p.status.Running? && w.uuid !in x.p.published
    ensures Shape(AfterTurn(x, w).p) && Shaken(AfterTurn(x, w), y) && Peaceful(AfterTurn(x, w).p)
  {
    var m, q := x.mailbox[0], Turn(x.p, x.mailbox[0], w);
    ShapeAfterTurn(x.p, m, w);
    HeardInOrder(x, y, m);
    PeacefulAfterTurn(x.p, m, w);
    if m.Handshake? {
      HandshakeChannel(x.p, m, w);
    } else {
      TurnFramed(x.p, m, w);
    }
  }

  /** The handshake comes first and only once, and everything can be read. */
  lemma HeardInOrder(x: Node, y: Node, m: Mail)
    requires WireInv(x, y) && x.mailbox != [] && m == x.mailbox[0]
    ensures m.Handshake? ==> x.heard == [] && x.p.channel.Opening? && m.text == Intro(y.p.log.sent[0].text.intro)
    ensures m.Content? ==> x.heard != [] && x.p.channel.Open? && m.data.Decoded?
  {
    if ToPacket(m).Some? {
      assert x.mailbox == [m] + x.mailbox[1..];
      NextHeard(x, y, m, x.mailbox[1..]);
    }
  }

  lemma PeacefulAfterTurn(p: Portal, m: Mail, w: World)
    requires p.status.Running? && (m.Handshake? ==> p.channel.Opening? && m.text.Intro?)
    requires m.Content? ==> p.channel.Open? && m.data.Decoded?
    ensures Peaceful(Turn(p, m, w))
  {
    TurnEnds(p, m, w);
  }

  lemma WiredAfterMail(x: Node, y: Node, m: Mail, x': Node)
    requires Wired(x, y) && ToPacket(m).None?
    requires x'.mailbox == x.mailbox + [m] && x'.pulled == x.pulled && x'.heard == x.heard
    ensures Wired(x', y)
  {
    PacketsAppend(x.mailbox, [m]);
    PacketsOfOne(m);
    assert Packets(x.mailbox) + [] == Packets(x.mailbox);
  }

  lemma WiredAfterPull(x: Node, y: Node, x': Node)
    requires Wired(x, y) && x.pulled < |y.p.log.sent|
    requires x' == x.(mailbox := x.mailbox + [ToMail(y.p.log.sent[x.pulled])], pulled := x.pulled + 1)
    ensures Wired(x', y)
  {
    var pk := y.p.log.sent[x.pulled];
    PacketsAppend(x.mailbox, [ToMail(pk)]);
    PacketsOfOne(ToMail(pk));
    assert Heard(ToMail(pk)) == [pk];
    assert x.heard + (Packets(x.mailbox) + [pk]) == y.p.log.sent[..x.pulled] + [pk] == y.p.log.sent[..x.pulled + 1];
  }

  /** The portal only changes in its own turns. */
  lemma SamePortal(cx: Formats, x: Node, y: Node, act: Action)
    requires Enabled(cx, x, y, act) && !act.TakeTurn?
    ensures Apply(cx, x, y, act).p == x.p && Apply(cx, x, y, act).heard == x.heard
  {
  }

  /** Only a pull takes something off the wire; everything else that puts mail into the mailbox adds no packet. */
  lemma WiredAfterAction(cx: Formats, x: Node, y: Node, act: Action)
    requires Wired(x, y) && Enabled(cx, x, y, act) && !act.TakeTurn?
    ensures Wired(Apply(cx, x, y, act), y)
  {
    var x' := Apply(cx, x, y, act);
    match act
    case Pull => WiredAfterPull(x, y, x');
    case App(m) => WiredAfterMail(x, y, m, x');
    case Register => WiredAfterMail(x, y, RegisterProxy(x.unregistered[0].0, x.unregistered[0].1), x');
    case AskNext(k) =>
      var a := Addresses(x.tasks[k].job.value)[|x.tasks[k].ids|];
      WiredAfterMail(x, y, PublishActor(a.actor, a.message, Some(TaskPort(k))), x');
    case Finish(k) =>
      WiredAfterMail(x, y, TransmitMessage(x.tasks[k].job.target, Payload(Written(cx, x.tasks[k]), k)), x');
    case Notice(actor) => WiredAfterMail(x, y, LocalActorExited(actor), x');
    case _ =>
  }

  lemma WireStep(cx: Formats, x: Node, y: Node, act: Action)
    requires WireInv(x, y) && Enabled(cx, x, y, act)
    ensures WireInv(Apply(cx, x, y, act), y)
  {
    if act.TakeTurn? {
      WireTurn(x, y, act.w);
    } else {
      SamePortal(cx, x, y, act);
      WiredAfterAction(cx, x, y, act);
    }
  }

  lemma WireTurn(x: Node, y: Node, w: World)
    requires WireInv(x, y) && x.mailbox != [] && x.p.status.Running? && w.uuid !in x.p.published
    ensures WireInv(AfterTurn(x, w), y)
  {
    BasicsAfterTurn(x.p, x.mailbox[0], w);
    WiredAfterTurn(x, y, Turn(x.p, x.mailbox[0], w));
    ShakenAfterTurn(x, y, w);
  }

  // ------------------------------------------------------------------------------------------------
  // The other side

  /** A portal and its surroundings after any action of its own. */
  lemma ActGrows(cx: Formats, x: Node, y: Node, act: Action)
    requires Basics(x.p) && Enabled(cx, x, y, act)
    ensures Grows(x.p, Apply(cx, x, y, act).p) && x.dead <= Apply(cx, x, y, act).dead
  {
    if act.TakeTurn? {
      TurnGrows(x.p, x.mailbox[0], act.w);
    } else {
      SamePortal(cx, x, y, act);
    }
  }

  lemma WirePeer(x: Node, y: Node, y': Node)
    requires WireInv(x, y) && Basics(y'.p) && Grows(y.p, y'.p)
    ensures WireInv(x, y')
  {
    assert y'.p.log.sent[..x.pulled] == y.p.log.sent[..x.pulled];
    assert Own(y'.p) == Own(y.p);
  }
}
