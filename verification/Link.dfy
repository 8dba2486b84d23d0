/** Two portals and the conduit between them, with their mailboxes, serialization tasks and exit watchers: every
    interleaving is a sequence of actions. */
module Link {
  import opened Bytes
  import opened Codec
  import opened Refs
  import opened Portal

  /** A detached task serializing one job: the ids it got for the job's references so far, and whether it waits for one. */
  datatype Task = Task(job: Job, ids: seq<RemoteId>, waiting: bool)

  /** A portal with everything that can put mail into its mailbox. `pulled` packets of the peer's output have been taken
      off the wire; `heard` are those the portal has handled. Of the proxies started, those in `unregistered` have not
      announced themselves yet: other mail can get in between. Exits of the actors in `missed` were reported before the
      handshake, when the portal could only complain. */
  datatype Node = Node(
    p: Portal, mailbox: seq<Mail>, pulled: nat, heard: seq<Packet>, unregistered: seq<(RemoteId, ActorId)>,
    tasks: map<nat, Task>, lost: set<nat>, watching: set<ActorId>, dead: set<ActorId>, missed: set<ActorId>)

  datatype Action =
    | TakeTurn(w: World)       // the portal handles its oldest mail
    | Pull                     // the receive loop casts the next packet of the peer
    | App(mail: Mail)          // the application, or the end of the connection
    | Register                 // the next started proxy announces itself
    | AskNext(k: nat)          // a task asks for the id of the next reference
    | Finish(k: nat)           // a task has all ids and hands in the bytes
    | Lose(k: nat)             // a task fails to serialize
    | Die(actor: ActorId)      // a local actor stops
    | Notice(actor: ActorId)   // its watcher reports it

  function ToMail(pk: Packet): Mail {
    match pk
    case HandshakePacket(text) => Handshake(text)
    case ContentPacket(data) => Content(data)
  }

  function ToPacket(m: Mail): Option<Packet> {
    match m
    case Handshake(text) => Some(HandshakePacket(text))
    case Content(data) => Some(ContentPacket(data))
    case _ => None
  }

  function Heard(m: Mail): seq<Packet> {
    if ToPacket(m).Some? then [ToPacket(m).value] else []
  }

  /** The packets waiting in a mailbox. */
  function Packets(mailbox: seq<Mail>): seq<Packet> {
    if mailbox == [] then [] else Heard(mailbox[0]) + Packets(mailbox[1..])
  }

  /** A new job becomes a task. */
  function Spawn(tasks: map<nat, Task>, p: Portal, q: Portal): map<nat, Task> {
    if |q.log.spawned| > |p.log.spawned|
    then tasks[|p.log.spawned| := Task(q.log.spawned[|p.log.spawned|], [], false)]
    else tasks
  }

  /** An id issued to a task's reply port reaches the task. */
  function Route(tasks: map<nat, Task>, p: Portal, q: Portal): map<nat, Task> {
    if |q.log.replies| != |p.log.replies| + 1 then tasks
    else
      var (port, answer) := q.log.replies[|p.log.replies|];
      if port.TaskPort? && port.tag in tasks && answer.Issued?
      then tasks[port.tag := tasks[port.tag].(ids := tasks[port.tag].ids + [answer.id], waiting := false)]
      else tasks
  }

  function Watch(watching: set<ActorId>, p: Portal, q: Portal): set<ActorId> {
    watching + set a | a in q.log.watched && a !in p.log.watched
  }

  /** A report that comes before the handshake is not passed on, and not repeated. */
  function Misses(p: Portal, m: Mail): set<ActorId> {
    if m.LocalActorExited? && p.channel.Opening? then {m.actor} else {}
  }

  /** The surroundings of a portal that went from `x.p` to `q` by handling its oldest mail. */
  function Settle(x: Node, q: Portal): Node
    requires x.mailbox != []
  {
    var started := if |q.log.started| >= |x.p.log.started| then q.log.started[|x.p.log.started|..] else [];
    Node(q, x.mailbox[1..], x.pulled, x.heard + Heard(x.mailbox[0]), x.unregistered + started,
         Spawn(Route(x.tasks, x.p, q), x.p, q), x.lost, Watch(x.watching, x.p, q), x.dead,
         x.missed + Misses(x.p, x.mailbox[0]))
  }

  ghost function AfterTurn(x: Node, w: World): Node
    requires x.mailbox != []
  {
    Settle(x, Turn(x.p, x.mailbox[0], w))
  }

  /** What a task sends when it is done: the encoding of the job with its references replaced by the ids it got. */
  function ToAddresses(ids: seq<RemoteId>): (a: seq<Address>)
    ensures |a| == |ids|
    ensures forall i :: 0 <= i < |a| ==> a[i] == Remote(ids[i])
  {
    seq(|ids|, i requires 0 <= i < |ids| => Remote(ids[i]))
  }

  /** All references of a value are local actors. */
  predicate AllLocal(addrs: seq<Address>) {
    forall i :: 0 <= i < |addrs| ==> addrs[i].Local?
  }

  predicate JobOk(cx: Formats, job: Job) {
    HasType(cx, job.ty, job.value) && AllLocal(Addresses(job.value))
  }

  /** The job can be encoded once every reference has its id. */
  predicate Complete(cx: Formats, t: Task) {
    && JobOk(cx, t.job) && |t.ids| == |Addresses(t.job.value)|
    && HasType(cx, t.job.ty, Fill(t.job.value, ToAddresses(t.ids))) && OnWire(Fill(t.job.value, ToAddresses(t.ids)))
  }

  function Written(cx: Formats, t: Task): seq<byte>
    requires Complete(cx, t)
  {
    Encode(cx, t.job.ty, Fill(t.job.value, ToAddresses(t.ids)))
  }

  // ------------------------------------------------------------------------------------------------
  // Steps

  /** What the application may put into the mailbox. It sends through proxies for ids it received, with messages of any
      type; reply channels are its own. */
  predicate AppMail(cx: Formats, x: Node, y: Node, m: Mail) {
    match m
    case Handshake(_) => false
    case Content(_) => false
    case TransmitMessage(_, _) => false
    case LocalActorExited(_) => false
    case Close => true
    case ImmaterializeMessage(job) =>
      JobOk(cx, job) && job.target in x.p.log.learned && job.target.id in y.p.published
    case PublishNamedActor(_, _, _, reply) => reply.Some? ==> reply.value.UserPort?
    case PublishActor(_, _, reply) => reply.Some? ==> reply.value.UserPort?
    case RegisterProxy(remote, _) => remote in x.p.log.learned
    case QueryNamedRemoteActor(_, port) => port.UserPort?
    case WaitForHandshake(port) => port.UserPort?
  }

  /** The circumstances of a turn fit the state: uuids are new, tasks keep their reply channels, the stopped actors are
      those that died, and the payload is decoded with the rematerializer stored for its target. */
  predicate WorldFits(cx: Formats, x: Node, m: Mail, w: World) {
    && w.uuid !in x.p.published
    && (forall port :: port in w.dropped ==> port.UserPort?)
    && w.gone == x.dead
    && (match m
        case Content(Decoded(SendMessage(target, payload))) =>
          target.id in x.p.published ==>
            && w.inbound == Decode(cx, x.p.published[target.id].receiver, payload.bytes)
            && (w.inbound.Some? ==> |w.proxies| == |Remotes(Addresses(w.inbound.value))|)
        case _ => true)
  }

  /** `x` can do this while `y` is its peer. */
  predicate Enabled(cx: Formats, x: Node, y: Node, act: Action) {
    match act
    case TakeTurn(w) => x.p.status.Running? && x.mailbox != [] && WorldFits(cx, x, x.mailbox[0], w)
    case Pull => x.p.status.Running? && x.pulled < |y.p.log.sent|
    case App(m) => x.p.status.Running? && AppMail(cx, x, y, m)
    case Register => x.p.status.Running? && x.unregistered != []
    case AskNext(k) =>
      && x.p.status.Running? && k in x.tasks && !x.tasks[k].waiting
      && |x.tasks[k].ids| < |Addresses(x.tasks[k].job.value)|
      && Addresses(x.tasks[k].job.value)[|x.tasks[k].ids|].Local?
    case Finish(k) =>
      && x.p.status.Running? && k in x.tasks && Complete(cx, x.tasks[k])
      && |Written(cx, x.tasks[k])| < U64_LIMIT
    case Lose(k) => k in x.tasks && !x.tasks[k].waiting
    case Die(_) => true
    case Notice(actor) => x.p.status.Running? && actor in x.watching && actor in x.dead
  }

  ghost function Apply(cx: Formats, x: Node, y: Node, act: Action): Node
    requires Enabled(cx, x, y, act)
  {
    match act
    case TakeTurn(w) => AfterTurn(x, w)
    case Pull => x.(mailbox := x.mailbox + [ToMail(y.p.log.sent[x.pulled])], pulled := x.pulled + 1)
    case App(m) => x.(mailbox := x.mailbox + [m])
    case Register =>
      x.(mailbox := x.mailbox + [RegisterProxy(x.unregistered[0].0, x.unregistered[0].1)],
         unregistered := x.unregistered[1..])
    case AskNext(k) =>
      var t := x.tasks[k];
      var a := Addresses(t.job.value)[|t.ids|];
      x.(mailbox := x.mailbox + [PublishActor(a.actor, a.message, Some(TaskPort(k)))],
         tasks := x.tasks[k := t.(waiting := true)])
    case Finish(k) =>
      x.(mailbox := x.mailbox + [TransmitMessage(x.tasks[k].job.target, Payload(Written(cx, x.tasks[k]), k))],
         tasks := x.tasks - {k})
    case Lose(k) => x.(tasks := x.tasks - {k}, lost := x.lost + {k})
    case Die(actor) => x.(dead := x.dead + {actor})
    case Notice(actor) => x.(mailbox := x.mailbox + [LocalActorExited(actor)], watching := x.watching - {actor})
  }

  datatype Side = Left | Right

  datatype Link = Link(left: Node, right: Node)

  ghost predicate LinkEnabled(cx: Formats, l: Link, side: Side, act: Action) {
    if side.Left? then Enabled(cx, l.left, l.right, act) else Enabled(cx, l.right, l.left, act)
  }

  ghost function LinkStep(cx: Formats, l: Link, side: Side, act: Action): Link
    requires LinkEnabled(cx, l, side, act)
  {
    if side.Left? then Link(Apply(cx, l.left, l.right, act), l.right) else Link(l.left, Apply(cx, l.right, l.left, act))
  }

  function Start(p: Portal): Node {
    Node(p, [], 0, [], [], map[], {}, {}, {}, {})
  }

  /** Both portals have just sent their introduction. */
  function InitialLink(leftId: nat, leftPart: Uuid, rightId: nat, rightPart: Uuid): Link {
    Link(Start(Initial(leftId, leftPart)), Start(Initial(rightId, rightPart)))
  }

  datatype Move = Move(side: Side, act: Action)

  /** The moves can be made one after the other. */
  ghost predicate CanRun(cx: Formats, l: Link, moves: seq<Move>)
    decreases moves
  {
    moves == []
    || (LinkEnabled(cx, l, moves[0].side, moves[0].act)
        && CanRun(cx, LinkStep(cx, l, moves[0].side, moves[0].act), moves[1..]))
  }

  ghost function Run(cx: Formats, l: Link, moves: seq<Move>): Link
    requires CanRun(cx, l, moves)
    decreases moves
  {
    if moves == [] then l else Run(cx, LinkStep(cx, l, moves[0].side, moves[0].act), moves[1..])
  }
}
