/** A run in which everything happens once: the handshake, a lookup that is answered, a message with a reference that is
    delivered, a proxy that is registered, and an exit notice that stops it. */
module LinkWitness {
  import opened Bytes
  import opened Codec
  import opened Refs
  import opened Portal
  import opened ConduitIds
  import opened PortalTheorems
  import opened Link
  import opened LinkMeaning
  import opened LinkRuns

  // ------------------------------------------------------------------------------------------------
  // Chaining

  ghost predicate Reaches(cx: Formats, l: Link, l': Link) {
    exists moves :: CanRun(cx, l, moves) && Run(cx, l, moves) == l'
  }

  lemma {:induction false} RunOn(cx: Formats, l: Link, a: seq<Move>, b: seq<Move>)
    requires CanRun(cx, l, a) && CanRun(cx, Run(cx, l, a), b)
    ensures CanRun(cx, l, a + b) && Run(cx, l, a + b) == Run(cx, Run(cx, l, a), b)
    decreases |a|
  {
    if a == [] {
      assert a + b == b;
    } else {
      RunOn(cx, LinkStep(cx, l, a[0].side, a[0].act), a[1..], b);
      RunFirst(cx, l, a, b);
    }
  }

  lemma RunFirst(cx: Formats, l: Link, a: seq<Move>, b: seq<Move>)
    requires a != [] && LinkEnabled(cx, l, a[0].side, a[0].act)
    requires CanRun(cx, LinkStep(cx, l, a[0].side, a[0].act), a[1..] + b)
    ensures CanRun(cx, l, a + b) && Run(cx, l, a + b) == Run(cx, LinkStep(cx, l, a[0].side, a[0].act), a[1..] + b)
  {
    FirstOfBoth(a, b);
    RunCons(cx, l, a[0], a[1..] + b);
  }

  lemma FirstOfBoth(a: seq<Move>, b: seq<Move>)
    requires a != []
    ensures a + b == [a[0]] + (a[1..] + b)
  {
  }

  lemma ReachesOn(cx: Formats, l: Link, l1: Link, l2: Link)
    requires Reaches(cx, l, l1) && Reaches(cx, l1, l2)
    ensures Reaches(cx, l, l2)
  {
    var a :| CanRun(cx, l, a) && Run(cx, l, a) == l1;
    var b :| CanRun(cx, l1, b) && Run(cx, l1, b) == l2;
    RunOn(cx, l, a, b);
  }

  function Replaced(l: Link, side: Side, x: Node): Link {
    if side.Left? then l.(left := x) else l.(right := x)
  }

  lemma Acts(cx: Formats, l: Link, side: Side, act: Action)
    requires Enabled(cx, Near(l, side), Far(l, side), act)
    ensures Reaches(cx, l, Replaced(l, side, Apply(cx, Near(l, side), Far(l, side), act)))
  {
    RunOne(cx, l, Move(side, act));
  }

  lemma RunOne(cx: Formats, l: Link, move: Move)
    requires LinkEnabled(cx, l, move.side, move.act)
    ensures CanRun(cx, l, [move]) && Run(cx, l, [move]) == LinkStep(cx, l, move.side, move.act)
  {
    RunCons(cx, l, move, []);
    assert [move] + [] == [move];
  }

  lemma ActsTwice(cx: Formats, l: Link, side: Side, a: Action, b: Action, x': Node)
    requires Enabled(cx, Near(l, side), Far(l, side), a)
    requires var x1 := Apply(cx, Near(l, side), Far(l, side), a);
      Enabled(cx, x1, Far(l, side), b) && Apply(cx, x1, Far(l, side), b) == x'
    ensures Reaches(cx, l, Replaced(l, side, x'))
  {
    var l1 := Replaced(l, side, Apply(cx, Near(l, side), Far(l, side), a));
    Acts(cx, l, side, a);
    Acts(cx, l1, side, b);
    ReachesOn(cx, l, l1, Replaced(l, side, x'));
  }

  // ------------------------------------------------------------------------------------------------
  // Two moves at a time

  predicate Idle(x: Node) {
    x.p.status.Running? && x.mailbox == []
  }

  /** What is around a portal that went from `x.p` to `q` and handled one mail. */
  function Around(x: Node, q: Portal, heard: seq<Packet>): Node {
    var started := if |q.log.started| >= |x.p.log.started| then q.log.started[|x.p.log.started|..] else [];
    x.(p := q, heard := x.heard + heard, unregistered := x.unregistered + started,
       tasks := Spawn(Route(x.tasks, x.p, q), x.p, q), watching := Watch(x.watching, x.p, q))
  }

  /** Nothing changed but the portal. */
  lemma AroundQuiet(x: Node, q: Portal, heard: seq<Packet>)
    requires q.log.started == x.p.log.started && q.log.spawned == x.p.log.spawned && q.log.watched == x.p.log.watched
    requires q.log.replies == x.p.log.replies
    ensures Around(x, q, heard) == x.(p := q, heard := x.heard + heard)
  {
    assert x.unregistered + [] == x.unregistered;
  }

  lemma SettledAround(x: Node, m: Mail, q: Portal)
    requires x.mailbox == [m] && Misses(x.p, m) == {}
    ensures Settle(x, q) == Around(x.(mailbox := []), q, Heard(m))
  {
    assert x.missed + {} == x.missed;
    assert [m][1..] == [];
  }

  /** A mail of the application, and its turn. */
  lemma AppTurn(cx: Formats, l: Link, side: Side, m: Mail, w: World, q: Portal)
    requires Idle(Near(l, side)) && AppMail(cx, Near(l, side), Far(l, side), m)
    requires WorldFits(cx, Near(l, side), m, w) && q == Turn(Near(l, side).p, m, w)
    requires ToPacket(m).None?
    ensures Reaches(cx, l, Replaced(l, side, Around(Near(l, side), q, [])))
  {
    var x := Near(l, side);
    var x1 := x.(mailbox := [m]);
    assert x.mailbox + [m] == [m];
    SettledAround(x1, m, q);
    assert Around(x1.(mailbox := []), q, Heard(m)) == Around(x, q, []);
    ActsTwice(cx, l, side, App(m), TakeTurn(w), Around(x, q, []));
  }

  /** The next packet of the peer, and its turn. */
  lemma PullTurn(cx: Formats, l: Link, side: Side, w: World, q: Portal)
    requires Idle(Near(l, side)) && Near(l, side).pulled < |Far(l, side).p.log.sent|
    requires var x, m := Near(l, side), ToMail(Far(l, side).p.log.sent[Near(l, side).pulled]);
      WorldFits(cx, x, m, w) && q == Turn(x.p, m, w)
    ensures var x, pk := Near(l, side), Far(l, side).p.log.sent[Near(l, side).pulled];
      Reaches(cx, l, Replaced(l, side, Around(x.(pulled := x.pulled + 1), q, [pk])))
  {
    var x, pk := Near(l, side), Far(l, side).p.log.sent[Near(l, side).pulled];
    var m := ToMail(pk);
    var x1 := x.(mailbox := [m], pulled := x.pulled + 1);
    assert x.mailbox + [m] == [m] && Heard(m) == [pk];
    SettledAround(x1, m, q);
    assert x1.(mailbox := []) == x.(pulled := x.pulled + 1);
    ActsTwice(cx, l, side, Pull, TakeTurn(w), Around(x.(pulled := x.pulled + 1), q, [pk]));
  }

  // ------------------------------------------------------------------------------------------------
  // The two portals, stage by stage

  const ECHO: string := "echo"
  const CALLER: Port := UserPort(0)

  function Outside(uuid: nat, gone: set<ActorId>, inbound: Option<Val>, proxies: seq<ActorId>): World {
    World(uuid, Some(map[]), {}, gone, true, inbound, proxies)
  }

  function Key(s: Setup): nat {
    ConduitId(s.leftPart, s.rightPart)
  }

  /** Actor 1 on the left, under id 5; actor 7 on the right, under id 9. */
  function Echo(s: Setup): RemoteId {
    RemoteId(Key(s), s.leftId, 5)
  }

  function Friend(s: Setup): RemoteId {
    RemoteId(Key(s), s.rightId, 9)
  }

  function TheJob(s: Setup): Job {
    Job(Echo(s), TRef, VRef(Local(7, TUnit)))
  }

  function Left0(s: Setup): Portal {
    Initial(s.leftId, s.leftPart).(channel := Open(Key(s)))
  }

  function Right0(s: Setup): Portal {
    Initial(s.rightId, s.rightPart).(channel := Open(Key(s)))
  }

  /** `echo` is published. */
  function Left1(s: Setup): Portal {
    var p := Left0(s);
    p.(published := map[5 := Published(1, TRef)], named := map[ECHO := 5],
       log := p.log.(watched := [1], named := [(ECHO, 1)]))
  }

  function Sent(p: Portal, msg: CrossPortal): Portal {
    p.(log := p.log.(sent := p.log.sent + [ContentPacket(Decoded(msg))]))
  }

  /** `echo` is asked for. */
  function Right1(s: Setup): Portal {
    var p := Right0(s);
    Sent(p.(nextRequestId := 2, openRequests := map[1 := CALLER], log := p.log.(asked := [(ECHO, CALLER)])),
         RequestActorByName(1, ECHO))
  }

  function Left2(s: Setup): Portal {
    Sent(Left1(s), ResponseActorByName(1, Found(Echo(s))))
  }

  function Right2(s: Setup): Portal {
    var p := Right1(s);
    p.(openRequests := map[], log := p.log.(answered := [(CALLER, Found(Echo(s)))], learned := {Echo(s)}))
  }

  /** A message to `echo` that refers to actor 7 is accepted, the actor published, the message sent. */
  function Right3(s: Setup): Portal {
    var p := Right2(s);
    p.(log := p.log.(spawned := [TheJob(s)]))
  }

  function Right4(s: Setup): Portal {
    var p := Right3(s);
    p.(published := map[9 := Published(7, TUnit)],
       log := p.log.(watched := [7], replies := [(TaskPort(0), Issued(Friend(s)))]))
  }

  function Right5(cx: Formats, s: Setup): Portal {
    Sent(Right4(s), SendMessage(Echo(s), Payload(cx.refEnc(Friend(s)), 0)))
  }

  /** It is delivered, and its proxy registered. */
  function Left3(s: Setup): Portal {
    var p := Left2(s);
    p.(log := p.log.(delivered := [Delivery(1, VRef(Remote(Friend(s))), 0)], started := [(Friend(s), 20)],
                     learned := {Friend(s)}))
  }

  function Left4(s: Setup): Portal {
    Left3(s).(proxies := map[Friend(s) := 20])
  }

  /** Actor 7 stops, and so does its proxy. */
  function Right6(cx: Formats, s: Setup): Portal {
    Sent(Right5(cx, s), ActorExited(Friend(s)))
  }

  function Left5(s: Setup): Portal {
    var p := Left4(s);
    p.(proxies := map[], log := p.log.(stopped := [(Friend(s), 20)]))
  }

  // ------------------------------------------------------------------------------------------------
  // The turns

  lemma TurnHandshake(p: Portal, intro: Introduction)
    requires p.channel.Opening? && p.waiting == []
    ensures Turn(p, Handshake(Intro(intro)), CALM)
         == p.(channel := Open(ConduitId(p.channel.intro.contribution, intro.contribution)))
  {
    assert p.log.replies + [] == p.log.replies;
  }

  lemma TurnPublish(s: Setup)
    ensures Turn(Left0(s), PublishNamedActor(ECHO, 1, TRef, None), Outside(5, {}, None, [])) == Left1(s)
  {
    var p, w := Left0(s), Outside(5, {}, None, []);
    PublishKeeps(p, 1, TRef, w);
    IdIsUnique(Publish(p, 1, TRef, w).published, 5);
  }

  lemma TurnAsk(s: Setup)
    ensures Turn(Right0(s), QueryNamedRemoteActor(ECHO, CALLER), Outside(0, {}, None, [])) == Right1(s)
  {
  }

  lemma TurnAnswer(s: Setup)
    ensures Turn(Left1(s), Content(Decoded(RequestActorByName(1, ECHO))), Outside(0, {}, None, [])) == Left2(s)
  {
  }

  lemma TurnHear(s: Setup)
    ensures Turn(Right1(s), Content(Decoded(ResponseActorByName(1, Found(Echo(s))))), Outside(0, {}, None, [])) == Right2(s)
  {
    assert Right1(s).openRequests - {1} == map[];
  }

  lemma TurnAccept(s: Setup)
    ensures Turn(Right2(s), ImmaterializeMessage(TheJob(s)), Outside(0, {}, None, [])) == Right3(s)
  {
  }

  lemma TurnIssue(s: Setup)
    ensures Turn(Right3(s), PublishActor(7, TUnit, Some(TaskPort(0))), Outside(9, {}, None, [])) == Right4(s)
  {
    var p, w := Right3(s), Outside(9, {}, None, []);
    PublishKeeps(p, 7, TUnit, w);
    IdIsUnique(Publish(p, 7, TUnit, w).published, 9);
  }

  lemma TurnTransmit(cx: Formats, s: Setup)
    ensures Turn(Right4(s), TransmitMessage(Echo(s), Payload(cx.refEnc(Friend(s)), 0)), Outside(0, {}, None, []))
         == Right5(cx, s)
  {
  }

  function Arrival(s: Setup): World {
    Outside(0, {}, Some(VRef(Remote(Friend(s)))), [20])
  }

  lemma OneReference(id: RemoteId)
    ensures Remotes(Addresses(VRef(Remote(id)))) == [id]
  {
    assert [Remote(id)][1..] == [];
  }

  lemma TurnDeliver(cx: Formats, s: Setup)
    ensures Turn(Left2(s), Content(Decoded(SendMessage(Echo(s), Payload(cx.refEnc(Friend(s)), 0)))), Arrival(s)) == Left3(s)
  {
    OneReference(Friend(s));
    assert [Friend(s)][1..] == [] && Started([Friend(s)], [20]) == [(Friend(s), 20)];
    assert ToSet([Friend(s)]) == {Friend(s)};
  }

  lemma TurnRegister(s: Setup)
    ensures Turn(Left3(s), RegisterProxy(Friend(s), 20), Outside(0, {}, None, [])) == Left4(s)
  {
  }

  lemma TurnExit(cx: Formats, s: Setup)
    ensures Turn(Right5(cx, s), LocalActorExited(7), Outside(0, {7}, None, [])) == Right6(cx, s)
  {
    IdIsUnique(Right5(cx, s).published, 9);
  }

  lemma TurnStop(s: Setup)
    ensures Turn(Left4(s), Content(Decoded(ActorExited(Friend(s)))), Outside(0, {}, None, [])) == Left5(s)
  {
    assert Left4(s).proxies - {Friend(s)} == map[];
  }

  // ------------------------------------------------------------------------------------------------
  // The stages

  function LeftNode(p: Portal, pulled: nat, heard: seq<Packet>, unregistered: seq<(RemoteId, ActorId)>,
                    watching: set<ActorId>): Node
  {
    Node(p, [], pulled, heard, unregistered, map[], {}, watching, {}, {})
  }

  function RightNode(p: Portal, pulled: nat, heard: seq<Packet>, tasks: map<nat, Task>, watching: set<ActorId>,
                     dead: set<ActorId>): Node
  {
    Node(p, [], pulled, heard, [], tasks, {}, watching, dead, {})
  }

  /** The first `n` packets of a portal. */
  function First(p: Portal, n: nat): seq<Packet> {
    if n <= |p.log.sent| then p.log.sent[..n] else p.log.sent
  }

  function Calm(): World {
    Outside(0, {}, None, [])
  }

  function Stage0(s: Setup): Link {
    Link(LeftNode(Left0(s), 1, First(Right0(s), 1), [], {}), RightNode(Right0(s), 1, First(Left0(s), 1), map[], {}, {}))
  }

  lemma ToStage0(cx: Formats, s: Setup)
    ensures Reaches(cx, Begin(s), Stage0(s))
  {
    var l := Begin(s);
    TurnHandshake(l.left.p, Introduction(s.rightPart, s.rightId));
    PullTurn(cx, l, Left, CALM, Left0(s));
    AroundQuiet(l.left.(pulled := 1), Left0(s), First(Right0(s), 1));
    var l1 := Link(LeftNode(Left0(s), 1, First(Right0(s), 1), [], {}), l.right);
    assert l.left.heard + First(Right0(s), 1) == First(Right0(s), 1);
    assert Reaches(cx, l, l1);
    ConduitIdAgrees(s.leftPart, s.rightPart);
    TurnHandshake(l.right.p, Introduction(s.leftPart, s.leftId));
    PullTurn(cx, l1, Right, CALM, Right0(s));
    AroundQuiet(l.right.(pulled := 1), Right0(s), First(Left0(s), 1));
    assert l.right.heard + First(Left0(s), 1) == First(Left0(s), 1);
    ReachesOn(cx, l, l1, Stage0(s));
  }

  function Stage1(s: Setup): Link {
    Link(LeftNode(Left1(s), 1, First(Right0(s), 1), [], {1}), Stage0(s).right)
  }

  lemma Around1(s: Setup)
    ensures Around(Stage0(s).left, Left1(s), []) == Stage1(s).left
  {
    var x := Stage0(s).left;
    assert x.heard + [] == x.heard && x.unregistered + [] == x.unregistered && Watch({}, x.p, Left1(s)) == {1};
  }

  lemma ToStage1(cx: Formats, s: Setup)
    ensures Reaches(cx, Stage0(s), Stage1(s))
  {
    TurnPublish(s);
    AppTurn(cx, Stage0(s), Left, PublishNamedActor(ECHO, 1, TRef, None), Outside(5, {}, None, []), Left1(s));
    Around1(s);
  }

  function Stage2(s: Setup): Link {
    Link(Stage1(s).left, RightNode(Right1(s), 1, First(Left0(s), 1), map[], {}, {}))
  }

  lemma ToStage2(cx: Formats, s: Setup)
    ensures Reaches(cx, Stage1(s), Stage2(s))
  {
    TurnAsk(s);
    AppTurn(cx, Stage1(s), Right, QueryNamedRemoteActor(ECHO, CALLER), Calm(), Right1(s));
    AroundQuiet(Stage1(s).right, Right1(s), []);
    assert Stage1(s).right.heard + [] == Stage1(s).right.heard;
  }

  function Stage3(s: Setup): Link {
    Link(LeftNode(Left2(s), 2, First(Right1(s), 2), [], {1}), Stage2(s).right)
  }

  lemma ToStage3(cx: Formats, s: Setup)
    ensures Reaches(cx, Stage2(s), Stage3(s))
  {
    TurnAnswer(s);
    PullTurn(cx, Stage2(s), Left, Calm(), Left2(s));
    AroundQuiet(Stage2(s).left.(pulled := 2), Left2(s), [Right1(s).log.sent[1]]);
    assert First(Right0(s), 1) + [Right1(s).log.sent[1]] == First(Right1(s), 2);
  }

  function Stage4(s: Setup): Link {
    Link(Stage3(s).left, RightNode(Right2(s), 2, First(Left2(s), 2), map[], {}, {}))
  }

  lemma ToStage4(cx: Formats, s: Setup)
    ensures Reaches(cx, Stage3(s), Stage4(s))
  {
    TurnHear(s);
    PullTurn(cx, Stage3(s), Right, Calm(), Right2(s));
    AroundQuiet(Stage3(s).right.(pulled := 2), Right2(s), [Left2(s).log.sent[1]]);
    assert First(Left0(s), 1) + [Left2(s).log.sent[1]] == First(Left2(s), 2);
  }

  function Stage5(s: Setup): Link {
    Link(Stage3(s).left, RightNode(Right3(s), 2, First(Left2(s), 2), map[0 := Task(TheJob(s), [], false)], {}, {}))
  }

  lemma Around5(s: Setup)
    ensures Around(Stage4(s).right, Right3(s), []) == Stage5(s).right
  {
    var x := Stage4(s).right;
    assert x.heard + [] == x.heard && x.unregistered + [] == x.unregistered && Watch({}, x.p, Right3(s)) == {};
  }

  lemma MayAccept(cx: Formats, s: Setup)
    ensures AppMail(cx, Stage4(s).right, Stage4(s).left, ImmaterializeMessage(TheJob(s)))
    ensures WorldFits(cx, Stage4(s).right, ImmaterializeMessage(TheJob(s)), Calm())
  {
  }

  lemma ToStage5(cx: Formats, s: Setup)
    ensures Reaches(cx, Stage4(s), Stage5(s))
  {
    TurnAccept(s);
    MayAccept(cx, s);
    AppTurn(cx, Stage4(s), Right, ImmaterializeMessage(TheJob(s)), Calm(), Right3(s));
    Around5(s);
  }

  function Stage6(s: Setup): Link {
    Link(Stage3(s).left,
         RightNode(Right4(s), 2, First(Left2(s), 2), map[0 := Task(TheJob(s), [Friend(s)], false)], {7}, {}))
  }

  /** The right side while the task waits for the id of actor 7. */
  function Asking(s: Setup): Node {
    Stage5(s).right.(mailbox := [PublishActor(7, TUnit, Some(TaskPort(0)))], tasks := map[0 := Task(TheJob(s), [], true)])
  }

  lemma Asked(cx: Formats, s: Setup)
    ensures Enabled(cx, Stage5(s).right, Stage5(s).left, AskNext(0))
    ensures Apply(cx, Stage5(s).right, Stage5(s).left, AskNext(0)) == Asking(s)
  {
  }

  lemma TaskRouted(s: Setup)
    ensures Route(Asking(s).tasks, Right3(s), Right4(s)) == map[0 := Task(TheJob(s), [Friend(s)], false)]
  {
    assert [] + [Friend(s)] == [Friend(s)];
  }

  lemma NobodySpawned(s: Setup)
    ensures var tasks := map[0 := Task(TheJob(s), [Friend(s)], false)]; Spawn(tasks, Right3(s), Right4(s)) == tasks
    ensures Watch({}, Right3(s), Right4(s)) == {7}
  {
  }

  lemma Settled6(s: Setup)
    ensures Settle(Asking(s), Right4(s)) == Stage6(s).right
  {
    var x := Asking(s);
    SettledAround(x, x.mailbox[0], Right4(s));
    TaskRouted(s);
    NobodySpawned(s);
    assert x.heard + [] == x.heard && x.unregistered + [] == x.unregistered;
  }

  lemma ToStage6(cx: Formats, s: Setup)
    ensures Reaches(cx, Stage5(s), Stage6(s))
  {
    Asked(cx, s);
    TurnIssue(s);
    Settled6(s);
    ActsTwice(cx, Stage5(s), Right, AskNext(0), TakeTurn(Outside(9, {}, None, [])), Stage6(s).right);
  }

  function Stage7(cx: Formats, s: Setup): Link {
    Link(Stage3(s).left, RightNode(Right5(cx, s), 2, First(Left2(s), 2), map[], {7}, {}))
  }

  lemma JobWritten(cx: Formats, s: Setup)
    ensures var t := Task(TheJob(s), [Friend(s)], false);
      Complete(cx, t) && Written(cx, t) == cx.refEnc(Friend(s))
  {
    assert ToAddresses([Friend(s)]) == [Remote(Friend(s))];
  }

  /** The right side when the task has handed its message over. */
  function HandedOver(cx: Formats, s: Setup): Node {
    Stage6(s).right.(mailbox := [TransmitMessage(Echo(s), Payload(cx.refEnc(Friend(s)), 0))], tasks := map[])
  }

  lemma Finished(cx: Formats, s: Setup)
    requires |cx.refEnc(Friend(s))| < U64_LIMIT
    ensures Enabled(cx, Stage6(s).right, Stage6(s).left, Finish(0))
    ensures Apply(cx, Stage6(s).right, Stage6(s).left, Finish(0)) == HandedOver(cx, s)
  {
    JobWritten(cx, s);
    assert Stage6(s).right.tasks - {0} == map[];
  }

  lemma Settled7(cx: Formats, s: Setup)
    ensures Settle(HandedOver(cx, s), Right5(cx, s)) == Stage7(cx, s).right
  {
    var x := HandedOver(cx, s);
    SettledAround(x, x.mailbox[0], Right5(cx, s));
    AroundQuiet(x.(mailbox := []), Right5(cx, s), []);
    assert x.heard + [] == x.heard;
  }

  lemma ToStage7(cx: Formats, s: Setup)
    requires |cx.refEnc(Friend(s))| < U64_LIMIT
    ensures Reaches(cx, Stage6(s), Stage7(cx, s))
  {
    Finished(cx, s);
    TurnTransmit(cx, s);
    Settled7(cx, s);
    ActsTwice(cx, Stage6(s), Right, Finish(0), TakeTurn(Calm()), Stage7(cx, s).right);
  }

  function Stage8(cx: Formats, s: Setup): Link {
    Link(LeftNode(Left3(s), 3, First(Right5(cx, s), 3), [(Friend(s), 20)], {1}), Stage7(cx, s).right)
  }

  lemma Around8(cx: Formats, s: Setup)
    ensures var x, pk := Stage7(cx, s).left, Right5(cx, s).log.sent[2];
      Around(x.(pulled := 3), Left3(s), [pk]) == Stage8(cx, s).left
  {
    assert First(Right1(s), 2) + [Right5(cx, s).log.sent[2]] == First(Right5(cx, s), 3);
    assert Watch({1}, Left2(s), Left3(s)) == {1} && [] + [(Friend(s), 20)] == [(Friend(s), 20)];
  }

  lemma ReferenceRead(cx: Formats, id: RemoteId)
    requires cx.RoundTrips()
    ensures Decode(cx, TRef, cx.refEnc(id)) == Some(VRef(Remote(id)))
  {
  }

  lemma Fits8(cx: Formats, s: Setup)
    requires cx.RoundTrips()
    ensures WorldFits(cx, Stage7(cx, s).left, ToMail(Right5(cx, s).log.sent[2]), Arrival(s))
  {
    OneReference(Friend(s));
    ReferenceRead(cx, Friend(s));
    assert ToMail(Right5(cx, s).log.sent[2]) == Content(Decoded(SendMessage(Echo(s), Payload(cx.refEnc(Friend(s)), 0))));
    assert Left2(s).published == map[5 := Published(1, TRef)];
  }

  lemma ToStage8(cx: Formats, s: Setup)
    requires cx.RoundTrips()
    ensures Reaches(cx, Stage7(cx, s), Stage8(cx, s))
  {
    TurnDeliver(cx, s);
    Fits8(cx, s);
    PullTurn(cx, Stage7(cx, s), Left, Arrival(s), Left3(s));
    Around8(cx, s);
  }

  function Stage9(cx: Formats, s: Setup): Link {
    Link(LeftNode(Left4(s), 3, First(Right5(cx, s), 3), [], {1}), Stage7(cx, s).right)
  }

  /** The left side when the proxy has announced itself. */
  function Announced(cx: Formats, s: Setup): Node {
    Stage8(cx, s).left.(mailbox := [RegisterProxy(Friend(s), 20)], unregistered := [])
  }

  lemma Settled9(cx: Formats, s: Setup)
    ensures Settle(Announced(cx, s), Left4(s)) == Stage9(cx, s).left
  {
    var x := Announced(cx, s);
    SettledAround(x, x.mailbox[0], Left4(s));
    AroundQuiet(x.(mailbox := []), Left4(s), []);
    assert x.heard + [] == x.heard;
  }

  lemma ToStage9(cx: Formats, s: Setup)
    ensures Reaches(cx, Stage8(cx, s), Stage9(cx, s))
  {
    assert Stage8(cx, s).left.unregistered[1..] == [];
    assert Apply(cx, Stage8(cx, s).left, Stage8(cx, s).right, Register) == Announced(cx, s);
    TurnRegister(s);
    Settled9(cx, s);
    ActsTwice(cx, Stage8(cx, s), Left, Register, TakeTurn(Calm()), Stage9(cx, s).left);
  }

  function Stage10(cx: Formats, s: Setup): Link {
    Link(Stage9(cx, s).left, RightNode(Right6(cx, s), 2, First(Left2(s), 2), map[], {}, {7}))
  }

  lemma ToStage10(cx: Formats, s: Setup)
    ensures Reaches(cx, Stage9(cx, s), Stage10(cx, s))
  {
    var l := Stage9(cx, s);
    Acts(cx, l, Right, Die(7));
    var x := l.right.(dead := {7});
    var l1 := l.(right := x);
    assert l.right.dead + {7} == {7};
    assert Reaches(cx, l, l1);
    var m := LocalActorExited(7);
    var x1 := x.(mailbox := [m], watching := {});
    assert {7} - {7} == {};
    assert Apply(cx, x, l.left, Notice(7)) == x1;
    TurnExit(cx, s);
    SettledAround(x1, m, Right6(cx, s));
    AroundQuiet(x1.(mailbox := []), Right6(cx, s), []);
    assert x.heard + [] == x.heard;
    ActsTwice(cx, l1, Right, Notice(7), TakeTurn(Outside(0, {7}, None, [])), Stage10(cx, s).right);
    ReachesOn(cx, l, l1, Stage10(cx, s));
  }

  function Stage11(cx: Formats, s: Setup): Link {
    Link(LeftNode(Left5(s), 4, First(Right6(cx, s), 4), [], {1}), Stage10(cx, s).right)
  }

  lemma Around11(cx: Formats, s: Setup)
    ensures Around(Stage10(cx, s).left.(pulled := 4), Left5(s), [Right6(cx, s).log.sent[3]]) == Stage11(cx, s).left
  {
    AroundQuiet(Stage10(cx, s).left.(pulled := 4), Left5(s), [Right6(cx, s).log.sent[3]]);
    assert First(Right5(cx, s), 3) + [Right6(cx, s).log.sent[3]] == First(Right6(cx, s), 4);
  }

  lemma ToStage11(cx: Formats, s: Setup)
    ensures Reaches(cx, Stage10(cx, s), Stage11(cx, s))
  {
    TurnStop(s);
    PullTurn(cx, Stage10(cx, s), Left, Calm(), Left5(s));
    Around11(cx, s);
  }

  lemma ToLookup(cx: Formats, s: Setup)
    ensures Reaches(cx, Begin(s), Stage4(s))
  {
    ToStage0(cx, s);
    ToStage1(cx, s);
    ReachesOn(cx, Begin(s), Stage0(s), Stage1(s));
    ToStage2(cx, s);
    ReachesOn(cx, Begin(s), Stage1(s), Stage2(s));
    ToStage3(cx, s);
    ReachesOn(cx, Begin(s), Stage2(s), Stage3(s));
    ToStage4(cx, s);
    ReachesOn(cx, Begin(s), Stage3(s), Stage4(s));
  }

  lemma ToDelivery(cx: Formats, s: Setup)
    requires cx.RoundTrips() && |cx.refEnc(Friend(s))| < U64_LIMIT
    ensures Reaches(cx, Stage4(s), Stage8(cx, s))
  {
    ToStage5(cx, s);
    ToStage6(cx, s);
    ReachesOn(cx, Stage4(s), Stage5(s), Stage6(s));
    ToStage7(cx, s);
    ReachesOn(cx, Stage4(s), Stage6(s), Stage7(cx, s));
    ToStage8(cx, s);
    ReachesOn(cx, Stage4(s), Stage7(cx, s), Stage8(cx, s));
  }

  lemma ToEnd(cx: Formats, s: Setup)
    requires cx.RoundTrips() && |cx.refEnc(Friend(s))| < U64_LIMIT
    ensures Reaches(cx, Begin(s), Stage11(cx, s))
  {
    ToLookup(cx, s);
    ToDelivery(cx, s);
    ReachesOn(cx, Begin(s), Stage4(s), Stage8(cx, s));
    ToStage9(cx, s);
    ReachesOn(cx, Begin(s), Stage8(cx, s), Stage9(cx, s));
    ToStage10(cx, s);
    ReachesOn(cx, Begin(s), Stage9(cx, s), Stage10(cx, s));
    ToStage11(cx, s);
    ReachesOn(cx, Begin(s), Stage10(cx, s), Stage11(cx, s));
  }

  /** There is such a run, whatever the two sides contributed: afterwards the lookup is answered with an id that stands for
      the published actor, the message is delivered to that actor with the id of the actor it referred to, that actor has
      stopped, and its proxy was started and stopped. Both portals still run. */
  lemma EverythingHappens(cx: Formats, s: Setup) returns (moves: seq<Move>)
    requires cx.RoundTrips() && |cx.refEnc(Friend(s))| < U64_LIMIT
    ensures CanRun(cx, Begin(s), moves)
    ensures var l := Run(cx, Begin(s), moves);
      && l.left.p.status.Running? && l.right.p.status.Running?
      && l.right.p.log.answered == [(CALLER, Found(Echo(s)))] && IdFor(l.left.p, Echo(s), 1)
      && l.left.p.log.delivered == [Delivery(1, VRef(Remote(Friend(s))), 0)] && IdFor(l.right.p, Friend(s), 7)
      && l.left.p.log.started == l.left.p.log.stopped == [(Friend(s), 20)] && 7 in l.right.dead
  {
    ToEnd(cx, s);
    moves :| CanRun(cx, Begin(s), moves) && Run(cx, Begin(s), moves) == Stage11(cx, s);
  }
}
