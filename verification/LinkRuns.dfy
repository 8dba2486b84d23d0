/** Safety of two portals over whole runs, under every interleaving of their turns, tasks, watchers and deliveries. */
module LinkRuns {
  import opened Bytes
  import opened Codec
  import opened Refs
  import opened Portal
  import opened ConduitIds
  import opened PortalTheorems
  import opened PortalSends
  import opened Link
  import opened LinkWire
  import opened LinkLookups
  import opened LinkIds
  import opened LinkCrossing
  import opened LinkMeaning
  import opened LinkMessages
  import opened LinkExits
  import opened LinkProxies
  import opened LinkProgress

  // ------------------------------------------------------------------------------------------------
  // The invariant

  ghost predicate NodeInv(cx: Formats, x: Node, y: Node) {
    && WireInv(x, y) && LookupInv(x) && IdInv(cx, x, y) && KeptInv(x) && HandledInv(x) && ExitInv(x, y)
    && ProxiesOk(x.p) && ProgressInv(x)
  }

  ghost predicate LinkInv(cx: Formats, l: Link) {
    NodeInv(cx, l.left, l.right) && NodeInv(cx, l.right, l.left)
  }

  lemma ActingSide(cx: Formats, x: Node, y: Node, act: Action)
    requires cx.RoundTrips() && NodeInv(cx, x, y) && NodeInv(cx, y, x) && Enabled(cx, x, y, act)
    ensures NodeInv(cx, Apply(cx, x, y, act), y)
  {
    WireStep(cx, x, y, act);
    LookupStep(cx, x, y, act);
    IdStep(cx, x, y, act);
    KeptStep(cx, x, y, act);
    HandledStep(cx, x, y, act);
    ExitsStep(cx, x, y, act);
    ProxiesStep(cx, x, y, act);
    ProgressStep(cx, x, y, act);
  }

  lemma OtherSide(cx: Formats, x: Node, y: Node, act: Action)
    requires cx.RoundTrips() && NodeInv(cx, x, y) && NodeInv(cx, y, x) && Enabled(cx, x, y, act)
    ensures NodeInv(cx, y, Apply(cx, x, y, act))
  {
    WireStep(cx, x, y, act);
    ActGrows(cx, x, y, act);
    WirePeer(y, x, Apply(cx, x, y, act));
    IdPeer(cx, y, x, Apply(cx, x, y, act));
    ExitPeer(y, x, Apply(cx, x, y, act));
  }

  lemma StepKeeps(cx: Formats, l: Link, side: Side, act: Action)
    requires cx.RoundTrips() && LinkInv(cx, l) && LinkEnabled(cx, l, side, act)
    ensures LinkInv(cx, LinkStep(cx, l, side, act))
  {
    if side.Left? {
      ActingSide(cx, l.left, l.right, act);
      OtherSide(cx, l.left, l.right, act);
    } else {
      ActingSide(cx, l.right, l.left, act);
      OtherSide(cx, l.right, l.left, act);
    }
  }

  lemma StartWired(x: Node, y: Node, xId: nat, xPart: Uuid, yId: nat, yPart: Uuid)
    requires x == Start(Initial(xId, xPart)) && y == Start(Initial(yId, yPart))
    ensures WireInv(x, y)
  {
    InitialOk(xId, xPart);
    InitialOk(yId, yPart);
    assert y.p.log.sent[..0] == [];
  }

  lemma StartCounts(x: Node, id: nat, part: Uuid)
    requires x == Start(Initial(id, part))
    ensures LookupInv(x) && KeptInv(x) && HandledInv(x)
  {
    var pk := x.p.log.sent[0];
    assert x.p.log.sent == [] + [pk];
    SentTagsSnoc([], pk);
    LookupsSnoc([], pk);
  }

  lemma StartSafe(cx: Formats, x: Node, y: Node, xId: nat, xPart: Uuid, yId: nat, yPart: Uuid)
    requires x == Start(Initial(xId, xPart)) && y == Start(Initial(yId, yPart))
    ensures IdInv(cx, x, y) && ExitInv(x, y)
  {
    InitialOk(xId, xPart);
  }

  lemma StartOk(cx: Formats, xId: nat, xPart: Uuid, yId: nat, yPart: Uuid)
    ensures NodeInv(cx, Start(Initial(xId, xPart)), Start(Initial(yId, yPart)))
  {
    var x, y := Start(Initial(xId, xPart)), Start(Initial(yId, yPart));
    StartWired(x, y, xId, xPart, yId, yPart);
    StartCounts(x, xId, xPart);
    StartSafe(cx, x, y, xId, xPart, yId, yPart);
  }

  lemma {:induction false} RunKeeps(cx: Formats, l: Link, moves: seq<Move>)
    requires cx.RoundTrips() && LinkInv(cx, l) && CanRun(cx, l, moves)
    ensures LinkInv(cx, Run(cx, l, moves))
    decreases |moves|
  {
    if moves != [] {
      StepKeeps(cx, l, moves[0].side, moves[0].act);
      RunKeeps(cx, LinkStep(cx, l, moves[0].side, moves[0].act), moves[1..]);
    }
  }

  ghost predicate LinkGrows(l: Link, l': Link) {
    Grows(l.left.p, l'.left.p) && Grows(l.right.p, l'.right.p)
  }

  lemma ActBasics(cx: Formats, x: Node, y: Node, act: Action)
    requires Basics(x.p) && Enabled(cx, x, y, act)
    ensures Basics(Apply(cx, x, y, act).p) && Grows(x.p, Apply(cx, x, y, act).p)
  {
    ActGrows(cx, x, y, act);
    if act.TakeTurn? {
      BasicsAfterTurn(x.p, x.mailbox[0], act.w);
    } else {
      SamePortal(cx, x, y, act);
    }
  }

  lemma StepGrows(cx: Formats, l: Link, side: Side, act: Action)
    requires Basics(l.left.p) && Basics(l.right.p) && LinkEnabled(cx, l, side, act)
    ensures var next := LinkStep(cx, l, side, act);
      LinkGrows(l, next) && Basics(next.left.p) && Basics(next.right.p)
  {
    GrowsSelf(l.left.p);
    GrowsSelf(l.right.p);
    if side.Left? {
      ActBasics(cx, l.left, l.right, act);
    } else {
      ActBasics(cx, l.right, l.left, act);
    }
  }

  lemma LinkGrowsOn(l: Link, next: Link, last: Link)
    requires LinkGrows(l, next) && LinkGrows(next, last)
    ensures LinkGrows(l, last)
  {
    GrowsTransitive(l.left.p, next.left.p, last.left.p);
    GrowsTransitive(l.right.p, next.right.p, last.right.p);
  }

  /** Both portals only ever gain: what they issued, sent and delivered stays. */
  lemma {:induction false} RunGrows(cx: Formats, l: Link, moves: seq<Move>)
    requires Basics(l.left.p) && Basics(l.right.p) && CanRun(cx, l, moves)
    ensures LinkGrows(l, Run(cx, l, moves))
    decreases |moves|
  {
    if moves == [] {
      GrowsSelf(l.left.p);
      GrowsSelf(l.right.p);
    } else {
      var next := LinkStep(cx, l, moves[0].side, moves[0].act);
      StepGrows(cx, l, moves[0].side, moves[0].act);
      RunGrows(cx, next, moves[1..]);
      LinkGrowsOn(l, next, Run(cx, next, moves[1..]));
    }
  }

  // ------------------------------------------------------------------------------------------------
  // Runs from the start

  /** What the two operators brought: each side's number and random contribution. */
  datatype Setup = Setup(leftId: nat, leftPart: Uuid, rightId: nat, rightPart: Uuid)

  function Begin(s: Setup): Link {
    InitialLink(s.leftId, s.leftPart, s.rightId, s.rightPart)
  }

  lemma Reached(cx: Formats, s: Setup, moves: seq<Move>)
    requires cx.RoundTrips() && CanRun(cx, Begin(s), moves)
    ensures LinkInv(cx, Run(cx, Begin(s), moves))
  {
    StartOk(cx, s.leftId, s.leftPart, s.rightId, s.rightPart);
    StartOk(cx, s.rightId, s.rightPart, s.leftId, s.leftPart);
    RunKeeps(cx, Begin(s), moves);
  }

  // ------------------------------------------------------------------------------------------------
  // Protocol

  /** One handshake, then only content the peer can read. */
  predicate WellSpoken(p: Portal) {
    && |p.log.sent| >= 1 && IsIntro(p.log.sent[0])
    && forall i :: 1 <= i < |p.log.sent| ==> IsDecoded(p.log.sent[i])
  }

  /** The reasons for which a portal ended, if it did, are the environment's, or that the other side sent a message of
      another type than its target's. */
  predicate EndedByEnvironment(p: Portal, peer: Portal) {
    || p.status in {Running, Closed, Failed(TargetStopped), Failed(ReplyDropped), Failed(SinkBroken), Failed(NexusGone),
                    Failed(CounterOverflow)}
    || (p.status == Failed(BadPayload) && !AllTyped(peer, p))
  }

  /** Every message of the peer found the request or the actor it was for. */
  predicate NothingMisdirected(p: Portal) {
    UnknownRequest !in p.log.complaints && UnknownTarget !in p.log.complaints
  }

  /** Neither side ever sees a protocol violation, or anything it cannot place; and what it cannot decode is a message of
      another type than its target's. */
  lemma NoViolation(cx: Formats, s: Setup, moves: seq<Move>)
    requires cx.RoundTrips() && CanRun(cx, Begin(s), moves)
    ensures var l := Run(cx, Begin(s), moves);
      && WellSpoken(l.left.p) && EndedByEnvironment(l.left.p, l.right.p) && NothingMisdirected(l.left.p)
      && WellSpoken(l.right.p) && EndedByEnvironment(l.right.p, l.left.p) && NothingMisdirected(l.right.p)
  {
    Reached(cx, s, moves);
    var l := Run(cx, Begin(s), moves);
    Environment(cx, l.left, l.right);
    Environment(cx, l.right, l.left);
  }

  lemma Environment(cx: Formats, x: Node, y: Node)
    requires NodeInv(cx, x, y)
    ensures WellSpoken(x.p) && EndedByEnvironment(x.p, y.p) && NothingMisdirected(x.p)
  {
    match x.p.status
    case Failed(cause) =>
      assert cause != BadHandshake && cause != BadContent;
    case _ =>
  }

  /** The id was issued by a side with this number, on the conduit of these contributions, for an actor of its own. */
  predicate AddressOf(key: nat, side: nat, p: Portal, id: RemoteId) {
    id.key == key && id.side == side && id.id in p.published
  }

  /** An open portal computed the conduit id from both contributions, and every id it issues carries it and its own side:
      two open portals agree on addresses. The only other ids are those forged by mistyped messages. */
  lemma AddressesAgree(cx: Formats, s: Setup, moves: seq<Move>)
    requires cx.RoundTrips() && CanRun(cx, Begin(s), moves)
    ensures var l := Run(cx, Begin(s), moves);
      && (l.left.p.channel.Open? ==> l.left.p.channel.id == ConduitId(s.leftPart, s.rightPart))
      && (l.right.p.channel.Open? ==> l.right.p.channel.id == ConduitId(s.leftPart, s.rightPart))
      && (forall id :: id in l.left.p.log.learned ==>
            || AddressOf(ConduitId(s.leftPart, s.rightPart), s.rightId, l.right.p, id)
            || Forged(l.left.p, l.right.p, id))
      && (forall id :: id in l.right.p.log.learned ==>
            || AddressOf(ConduitId(s.leftPart, s.rightPart), s.leftId, l.left.p, id)
            || Forged(l.right.p, l.left.p, id))
  {
    Contributions(cx, s, moves);
    var l := Run(cx, Begin(s), moves);
    SideAddresses(cx, l.left, l.right);
    SideAddresses(cx, l.right, l.left);
    ConduitIdAgrees(s.leftPart, s.rightPart);
  }

  /** Each side keeps its number and contribution. */
  lemma Contributions(cx: Formats, s: Setup, moves: seq<Move>)
    requires cx.RoundTrips() && CanRun(cx, Begin(s), moves)
    ensures var l := Run(cx, Begin(s), moves);
      && LinkInv(cx, l) && Own(l.left.p) == s.leftPart && Own(l.right.p) == s.rightPart
      && l.left.p.localId == s.leftId && l.right.p.localId == s.rightId
  {
    Reached(cx, s, moves);
    Reached(cx, s, []);
    RunGrows(cx, Begin(s), moves);
    assert Begin(s).left.p.log.sent[0] == Run(cx, Begin(s), moves).left.p.log.sent[0];
    assert Begin(s).right.p.log.sent[0] == Run(cx, Begin(s), moves).right.p.log.sent[0];
  }

  lemma SideAddresses(cx: Formats, x: Node, y: Node)
    requires NodeInv(cx, x, y) && NodeInv(cx, y, x)
    ensures x.p.channel.Open? ==> x.p.channel.id == ConduitId(Own(x.p), Own(y.p))
    ensures forall id :: id in x.p.log.learned ==>
      AddressOf(ConduitId(Own(y.p), Own(x.p)), y.p.localId, y.p, id) || Forged(x.p, y.p, id)
  {
  }

  /** The id stands for the same actor in both states of a portal. */
  predicate SameMeaning(p: Portal, q: Portal, id: RemoteId) {
    IssuedBy(p, id) && IssuedBy(q, id) && q.published[id.id] == p.published[id.id]
  }

  /** An id either side received stands for the same actor after whatever else happens, unless a mistyped message forged
      it; and it was not forged if no message was mistyped. */
  lemma IdsKeepMeaning(cx: Formats, s: Setup, moves: seq<Move>, more: seq<Move>)
    requires cx.RoundTrips() && CanRun(cx, Begin(s), moves) && CanRun(cx, Run(cx, Begin(s), moves), more)
    ensures var l := Run(cx, Begin(s), moves);
      var l' := Run(cx, l, more);
      && (forall id :: id in l.right.p.log.learned ==>
            SameMeaning(l.left.p, l'.left.p, id) || Forged(l.right.p, l.left.p, id))
      && (forall id :: id in l.left.p.log.learned ==>
            SameMeaning(l.right.p, l'.right.p, id) || Forged(l.left.p, l.right.p, id))
      && (forall id :: AllTyped(l.left.p, l.right.p) ==> !Forged(l.right.p, l.left.p, id))
      && (forall id :: AllTyped(l.right.p, l.left.p) ==> !Forged(l.left.p, l.right.p, id))
  {
    Reached(cx, s, moves);
    RunGrows(cx, Run(cx, Begin(s), moves), more);
    var l := Run(cx, Begin(s), moves);
    var l' := Run(cx, l, more);
    KeptMeaning(cx, l.left, l.right, l'.right.p);
    KeptMeaning(cx, l.right, l.left, l'.left.p);
  }

  lemma KeptMeaning(cx: Formats, x: Node, y: Node, q: Portal)
    requires NodeInv(cx, x, y) && Grows(y.p, q)
    ensures forall id :: id in x.p.log.learned ==> SameMeaning(y.p, q, id) || Forged(x.p, y.p, id)
    ensures forall id :: AllTyped(y.p, x.p) ==> !Forged(x.p, y.p, id)
  {
    forall id | id in x.p.log.learned ensures SameMeaning(y.p, q, id) || Forged(x.p, y.p, id) {
      if IssuedBy(y.p, id) {
        IssuedStable(y.p, q, id);
      }
    }
  }

  // ------------------------------------------------------------------------------------------------
  // The handshake can complete

  /** Nothing unusual outside: the nexus knows no names and everything works. */
  const CALM: World := World(0, Some(map[]), {}, {}, true, None, [])

  function HearOther(side: Side): seq<Move> {
    [Move(side, Pull), Move(side, TakeTurn(CALM))]
  }

  lemma HearsIntroduction(cx: Formats, x: Node, y: Node, intro: Introduction)
    requires x.p.status.Running? && x.p.channel.Opening? && x.mailbox == [] && x.pulled == 0 && x.dead == {}
    requires x.p.published == map[] && |y.p.log.sent| > 0 && y.p.log.sent[0] == HandshakePacket(Intro(intro))
    ensures Enabled(cx, x, y, Pull)
    ensures var x1 := Apply(cx, x, y, Pull);
      && Enabled(cx, x1, y, TakeTurn(CALM))
      && var x2 := Apply(cx, x1, y, TakeTurn(CALM));
         x2.p.channel.Open? && x2.p.status.Running? && x2.p.log.sent == x.p.log.sent
  {
    var x1 := Apply(cx, x, y, Pull);
    assert x1.mailbox == [Handshake(Intro(intro))];
  }

  /** After both sides heard each other, both are open and run. */
  lemma HandshakeCompletes(cx: Formats, s: Setup)
    ensures var moves := HearOther(Left) + HearOther(Right);
      && CanRun(cx, Begin(s), moves)
      && var l := Run(cx, Begin(s), moves);
         l.left.p.channel.Open? && l.left.p.status.Running? && l.right.p.channel.Open? && l.right.p.status.Running?
  {
    var l := Begin(s);
    HearsIntroduction(cx, l.left, l.right, Introduction(s.rightPart, s.rightId));
    var left := Apply(cx, Apply(cx, l.left, l.right, Pull), l.right, TakeTurn(CALM));
    HearsIntroduction(cx, l.right, left, Introduction(s.leftPart, s.leftId));
    var half := Link(left, l.right);
    RunTwo(cx, half, Move(Right, Pull), Move(Right, TakeTurn(CALM)), []);
    RunTwo(cx, l, Move(Left, Pull), Move(Left, TakeTurn(CALM)), HearOther(Right));
    assert HearOther(Left) + HearOther(Right)
        == [Move(Left, Pull), Move(Left, TakeTurn(CALM))] + HearOther(Right);
    assert HearOther(Right) == [Move(Right, Pull), Move(Right, TakeTurn(CALM))] + [];
  }

  lemma RunCons(cx: Formats, l: Link, a: Move, rest: seq<Move>)
    requires LinkEnabled(cx, l, a.side, a.act) && CanRun(cx, LinkStep(cx, l, a.side, a.act), rest)
    ensures CanRun(cx, l, [a] + rest) && Run(cx, l, [a] + rest) == Run(cx, LinkStep(cx, l, a.side, a.act), rest)
  {
    assert ([a] + rest)[1..] == rest;
  }

  lemma RunTwo(cx: Formats, l: Link, a: Move, b: Move, rest: seq<Move>)
    requires LinkEnabled(cx, l, a.side, a.act)
    requires LinkEnabled(cx, LinkStep(cx, l, a.side, a.act), b.side, b.act)
    requires CanRun(cx, LinkStep(cx, LinkStep(cx, l, a.side, a.act), b.side, b.act), rest)
    ensures CanRun(cx, l, [a, b] + rest)
    ensures Run(cx, l, [a, b] + rest) == Run(cx, LinkStep(cx, LinkStep(cx, l, a.side, a.act), b.side, b.act), rest)
  {
    RunCons(cx, LinkStep(cx, l, a.side, a.act), b, rest);
    RunCons(cx, l, a, [b] + rest);
    assert [a, b] + rest == [a] + ([b] + rest);
  }

  // ------------------------------------------------------------------------------------------------
  // Lookups

  /** Open requests are the disjoint union of the requests on their way and the answers on their way, and every answer
      handed out went to the port of the request with its number, once. */
  ghost predicate LookupsInOnePlace(x: Node, y: Node)
    requires Wired(x, y) && Wired(y, x)
  {
    && multiset(x.p.openRequests.Keys)
       == multiset(RequestIds(RequestsInFlight(x, y))) + multiset(AnswerIds(AnswersInFlight(x, y)))
    && (forall id :: id in x.p.openRequests ==> 0 < id < x.p.nextRequestId)
    && |x.p.log.answered| + |x.p.openRequests| == |x.p.log.asked|
    && (forall i :: 0 <= i < |x.p.log.answered| ==> x.p.log.answered[i].0 == x.p.log.asked[i].1)
  }

  lemma EveryLookupInOnePlace(cx: Formats, s: Setup, moves: seq<Move>)
    requires cx.RoundTrips() && CanRun(cx, Begin(s), moves)
    requires var l := Run(cx, Begin(s), moves); l.left.p.status.Running? && l.right.p.status.Running?
    ensures var l := Run(cx, Begin(s), moves);
      && Wired(l.left, l.right) && Wired(l.right, l.left)
      && LookupsInOnePlace(l.left, l.right) && LookupsInOnePlace(l.right, l.left)
  {
    Reached(cx, s, moves);
    var l := Run(cx, Begin(s), moves);
    InOnePlace(l.left, l.right);
    InOnePlace(l.right, l.left);
  }

  lemma InOnePlace(x: Node, y: Node)
    requires WireInv(x, y) && WireInv(y, x) && LookupInv(x) && LookupInv(y)
    requires x.p.status.Running? && y.p.status.Running?
    ensures LookupsInOnePlace(x, y)
  {
    LookupsConserved(x, y);
    OpenCount(x.p.openRequests, x.p.log.asked, |Resps(x.heard)|);
  }

  lemma {:induction false} OpenCount(open: map<nat, Port>, asked: seq<(string, Port)>, m: nat)
    requires OpenOk(open, asked, m)
    ensures |open| == |asked| - m
    decreases |asked| - m
  {
    if m == |asked| {
      assert open.Keys == {};
    } else {
      OpenAnswered(open, asked, m);
      OpenCount(open - {m + 1}, asked, m + 1);
      assert open.Keys == (open - {m + 1}).Keys + {m + 1};
    }
  }

  // ------------------------------------------------------------------------------------------------
  // Messages

  /** Every accepted message is in one place: a task, the failures, the mailbox, the wire, or handled by the peer. */
  ghost predicate MessagesInOnePlace(x: Node, y: Node)
    requires Wired(y, x)
  {
    Accepted(x.p)
    == Numbers(x.tasks) + multiset(x.lost) + TransmitTags(x.mailbox)
     + multiset(MessagesInFlight(x, y)) + multiset(DeliveredTags(y.p.log.delivered))
  }

  lemma EveryMessageInOnePlace(cx: Formats, s: Setup, moves: seq<Move>)
    requires cx.RoundTrips() && CanRun(cx, Begin(s), moves)
    requires var l := Run(cx, Begin(s), moves); l.left.p.status.Running? && l.right.p.status.Running?
    ensures var l := Run(cx, Begin(s), moves);
      && Wired(l.left, l.right) && Wired(l.right, l.left)
      && MessagesInOnePlace(l.left, l.right) && MessagesInOnePlace(l.right, l.left)
  {
    Reached(cx, s, moves);
    var l := Run(cx, Begin(s), moves);
    MessagesConserved(l.left, l.right);
    MessagesConserved(l.right, l.left);
  }

  /** Even when a portal has ended, no message was delivered twice and none that was not sent. */
  lemma NothingDeliveredTwice(cx: Formats, s: Setup, moves: seq<Move>)
    requires cx.RoundTrips() && CanRun(cx, Begin(s), moves)
    ensures var l := Run(cx, Begin(s), moves);
      && multiset(DeliveredTags(l.right.p.log.delivered)) <= Accepted(l.left.p)
      && multiset(DeliveredTags(l.left.p.log.delivered)) <= Accepted(l.right.p)
  {
    Reached(cx, s, moves);
    var l := Run(cx, Begin(s), moves);
    DeliveredOnce(l.left, l.right);
    DeliveredOnce(l.right, l.left);
  }

  /** In every run, a task of a portal that runs can ask for its next id, or hand its message over, or waits for an answer to
      a question that is in the mailbox. */
  ghost predicate TasksGoOn(cx: Formats, x: Node, y: Node) {
    x.p.status.Running? ==>
      forall k :: k in x.tasks ==>
        if x.tasks[k].waiting then Asked(x.mailbox, k) else Enabled(cx, x, y, AskNext(k)) || Complete(cx, x.tasks[k])
  }

  lemma NoTaskIsStuck(cx: Formats, s: Setup, moves: seq<Move>)
    requires cx.RoundTrips() && CanRun(cx, Begin(s), moves)
    ensures var l := Run(cx, Begin(s), moves); TasksGoOn(cx, l.left, l.right) && TasksGoOn(cx, l.right, l.left)
  {
    Reached(cx, s, moves);
    var l := Run(cx, Begin(s), moves);
    TasksOfSide(cx, l.left, l.right);
    TasksOfSide(cx, l.right, l.left);
  }

  lemma TasksOfSide(cx: Formats, x: Node, y: Node)
    requires NodeInv(cx, x, y)
    ensures TasksGoOn(cx, x, y)
  {
    forall k | x.p.status.Running? && k in x.tasks
      ensures if x.tasks[k].waiting then Asked(x.mailbox, k) else Enabled(cx, x, y, AskNext(k)) || Complete(cx, x.tasks[k])
    {
      NoTaskStuck(cx, x, y, k);
    }
  }

  /** `d`, delivered at `p`, means what the job it came from meant at `peer`: the same tree, in which the reference at
      each place is an id `peer` issued for the actor at that place, delivered to the actor `p` issued the target for. */
  ghost predicate MeansTheSame(p: Portal, peer: Portal, d: Delivery) {
    && d.tag < |peer.log.spawned|
    && var job := peer.log.spawned[d.tag];
    && var refs, ids := Addresses(job.value), Addresses(d.value);
    && IssuedBy(p, job.target) && d.actor == p.published[job.target.id].actor
    && |ids| == |refs| && Fill(d.value, refs) == job.value
    && (forall i :: 0 <= i < |ids| ==>
          && ids[i].Remote? && refs[i].Local? && IssuedBy(peer, ids[i].id)
          && peer.published[ids[i].id.id].actor == refs[i].actor)
    && (forall i, j :: 0 <= i < |ids| && 0 <= j < |ids| ==> (ids[i] == ids[j] <==> refs[i].actor == refs[j].actor))
  }

  /** `d` went to the actor its target id was issued for, and means what was sent if that had the target's type. */
  ghost predicate Crossed(p: Portal, peer: Portal, d: Delivery) {
    && d.tag < |peer.log.spawned|
    && var job := peer.log.spawned[d.tag];
    && job.target.id in p.published && d.actor == p.published[job.target.id].actor
    && (JobTyped(p, job) ==> MeansTheSame(p, peer, d))
  }

  /** The application of `side` handed in a message for this very actor, and what was delivered carries it if it had the
      type the actor decodes. */
  ghost predicate FromApplication(moves: seq<Move>, side: Side, p: Portal, peer: Portal, d: Delivery) {
    exists job :: Handed(moves, side, job) && DeliveredAs(p, peer, job, d)
  }

  predicate DeliveredAs(p: Portal, peer: Portal, job: Job, d: Delivery) {
    && job.target.id in p.published && d.actor == p.published[job.target.id].actor
    && (JobTyped(p, job) ==> Carries(peer, job.value, d.value))
  }

  lemma CrossingKeepsMeaning(cx: Formats, s: Setup, moves: seq<Move>)
    requires cx.RoundTrips() && CanRun(cx, Begin(s), moves)
    ensures var l := Run(cx, Begin(s), moves);
      && (forall d :: d in l.right.p.log.delivered ==>
            Crossed(l.right.p, l.left.p, d) && FromApplication(moves, Left, l.right.p, l.left.p, d))
      && (forall d :: d in l.left.p.log.delivered ==>
            Crossed(l.left.p, l.right.p, d) && FromApplication(moves, Right, l.left.p, l.right.p, d))
  {
    Reached(cx, s, moves);
    var l := Run(cx, Begin(s), moves);
    RunJobs(cx, Begin(s), moves, Left);
    RunJobs(cx, Begin(s), moves, Right);
    AllCrossed(cx, l.right.p, l.left, Begin(s).left, moves, Left);
    AllCrossed(cx, l.left.p, l.right, Begin(s).right, moves, Right);
  }

  lemma AllCrossed(cx: Formats, p: Portal, y: Node, y0: Node, moves: seq<Move>, side: Side)
    requires cx.RoundTrips() && DeliveriesOk(cx, p, y.p) && RegistriesOk(y.p)
    requires y0.mailbox == [] && y0.p.log.spawned == [] && JobsKnown(y0, moves, side, y)
    ensures forall d :: d in p.log.delivered ==> Crossed(p, y.p, d) && FromApplication(moves, side, p, y.p, d)
  {
    forall d | d in p.log.delivered ensures Crossed(p, y.p, d) && FromApplication(moves, side, p, y.p, d) {
      DeliveredMeaning(cx, p, y.p, d);
      assert SomeKnown(y0, moves, side, y.p.log.spawned[d.tag]);
      var job :| Known(y0, moves, side, job) && y.p.log.spawned[d.tag] == Accepts(job);
      DeliveredCarries(cx, p, y.p, d, job);
    }
  }

  lemma DeliveredCarries(cx: Formats, p: Portal, peer: Portal, d: Delivery, job: Job)
    requires cx.RoundTrips() && DeliveriesOk(cx, p, peer) && d in p.log.delivered
    requires d.tag < |peer.log.spawned| && peer.log.spawned[d.tag] == Accepts(job)
    ensures DeliveredAs(p, peer, job, d)
  {
    var i :| 0 <= i < |p.log.delivered| && p.log.delivered[i] == d;
    assert DeliveryOk(cx, p, peer, p.log.delivered[i]);
    if JobTyped(p, job) {
      SerializedArrives(cx, peer, Accepts(job));
      ImageCarries(peer, job.value);
    }
  }

  lemma DeliveredMeaning(cx: Formats, p: Portal, peer: Portal, d: Delivery)
    requires cx.RoundTrips() && DeliveriesOk(cx, p, peer) && RegistriesOk(peer) && d in p.log.delivered
    ensures Crossed(p, peer, d)
  {
    var i :| 0 <= i < |p.log.delivered| && p.log.delivered[i] == d;
    assert DeliveryOk(cx, p, peer, p.log.delivered[i]);
    var job := peer.log.spawned[d.tag];
    if JobTyped(p, job) {
      SerializedArrives(cx, peer, job);
      FillRestores(job.value, ToAddresses(IssuedIds(peer, Addresses(job.value))));
    }
  }

  /** In every run, the proxies started for incoming references are for the ids in the messages delivered, one each and
      in order; a portal that ended because a message could not be handed over has also started those of that message. They
      announce themselves in that order, each once. */
  lemma EveryReferenceHasItsProxy(cx: Formats, s: Setup, moves: seq<Move>)
    requires cx.RoundTrips() && CanRun(cx, Begin(s), moves)
    ensures var l := Run(cx, Begin(s), moves);
      && ProxiesOk(l.left.p) && ProxiesOk(l.right.p)
      && LastUnregistered(l.left) && LastUnregistered(l.right)
  {
    Reached(cx, s, moves);
  }

  // ------------------------------------------------------------------------------------------------
  // Exits

  /** The exit of every published actor is in one place while the portal runs: watched for, reported, announced, or reported
      before the handshake. At most one exit notice is sent per opaque id; every notice is about an actor that stopped; and
      every proxy a portal stopped stood for an actor of the peer that had stopped. */
  lemma ExitNoticesAreExact(cx: Formats, s: Setup, moves: seq<Move>)
    requires cx.RoundTrips() && CanRun(cx, Begin(s), moves)
    ensures var l := Run(cx, Begin(s), moves);
      && (forall id :: id in l.left.p.published ==> ExitInPlace(l.left, id))
      && (forall id :: id in l.right.p.published ==> ExitInPlace(l.right, id))
      && (forall id :: Exits(l.left.p.log.sent, id) <= 1 && Exits(l.right.p.log.sent, id) <= 1)
      && (forall pk :: pk in l.left.p.log.sent ==> AnnouncedDead(l.left.p, l.left.dead, pk))
      && (forall pk :: pk in l.right.p.log.sent ==> AnnouncedDead(l.right.p, l.right.dead, pk))
      && StoppedOk(l.left.p, l.right) && StoppedOk(l.right.p, l.left)
  {
    Reached(cx, s, moves);
    var l := Run(cx, Begin(s), moves);
    forall id ensures Exits(l.left.p.log.sent, id) <= 1 && Exits(l.right.p.log.sent, id) <= 1 {
      AtMostOneNotice(cx, l.left, l.right, id);
      AtMostOneNotice(cx, l.right, l.left, id);
    }
  }
}
