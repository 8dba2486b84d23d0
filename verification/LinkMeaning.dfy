/** From the message an application hands to a proxy to the message the actor at the other end receives: the same tree, in
    which each actor became an id that stands for it, and each reply port kept its timeout or got the default. */
module LinkMeaning {
  import opened Bytes
  import opened Codec
  import opened Refs
  import opened Portal
  import opened PortalFrames
  import opened PortalSends
  import opened Link
  import opened LinkWire
  import opened LinkIds
  import opened LinkCrossing

  // ------------------------------------------------------------------------------------------------
  // Trees

  /** The id is one that `p` issued for the actor. */
  predicate StandsFor(p: Portal, a: Address, b: Address) {
    a.Local? && b.Remote? && IssuedBy(p, b.id) && p.published[b.id.id].actor == a.actor
  }

  /** `got` is what `sent` means on the other side of `p`. */
  predicate Carries(p: Portal, sent: Val, got: Val)
    decreases sent, 0
  {
    match sent
    case VSome(x) => got.VSome? && Carries(p, x, got.v)
    case VOk(x) => got.VOk? && Carries(p, x, got.v)
    case VErr(x) => got.VErr? && Carries(p, x, got.v)
    case VVec(vs) => got.VVec? && CarriesAll(p, vs, got.elems)
    case VRecord(vs) => got.VRecord? && CarriesAll(p, vs, got.fields)
    case VCase(name, vs) => got.VCase? && got.name == name && CarriesAll(p, vs, got.fields)
    case VRef(a) => got.VRef? && StandsFor(p, a, got.addr)
    case VPort(a, timeout) =>
      && got.VPort? && StandsFor(p, a, got.addr)
      && got.timeout == if timeout.Some? then timeout else Some(DEFAULT_RPC_PORT_TIMEOUT)
    case _ => got == sent
  }

  predicate CarriesAll(p: Portal, sent: seq<Val>, got: seq<Val>)
    decreases sent, 0
  {
    |sent| == |got| && (sent == [] || (Carries(p, sent[0], got[0]) && CarriesAll(p, sent[1..], got[1..])))
  }

  predicate StandForAll(p: Portal, addrs: seq<Address>, subs: seq<Address>) {
    |addrs| == |subs| && forall i :: 0 <= i < |addrs| ==> StandsFor(p, addrs[i], subs[i])
  }

  /** Timeouts filled in, then references replaced. */
  lemma {:induction false} FilledCarries(p: Portal, v: Val, subs: seq<Address>)
    requires StandForAll(p, Addresses(v), subs)
    ensures |Addresses(WithTimeouts(v, DEFAULT_RPC_PORT_TIMEOUT))| == |subs|
    ensures Carries(p, v, Fill(WithTimeouts(v, DEFAULT_RPC_PORT_TIMEOUT), subs))
    decreases v, 0
  {
    OnlyMissingTimeouts(v, DEFAULT_RPC_PORT_TIMEOUT);
    match v
    case VSome(x) => FilledCarries(p, x, subs);
    case VOk(x) => FilledCarries(p, x, subs);
    case VErr(x) => FilledCarries(p, x, subs);
    case VVec(vs) => AllFilledCarry(p, vs, subs);
    case VRecord(vs) => AllFilledCarry(p, vs, subs);
    case VCase(_, vs) => AllFilledCarry(p, vs, subs);
    case VRef(a) => assert StandsFor(p, Addresses(v)[0], subs[0]);
    case VPort(a, _) => assert StandsFor(p, Addresses(v)[0], subs[0]);
    case _ =>
  }

  lemma {:induction false} AllFilledCarry(p: Portal, vs: seq<Val>, subs: seq<Address>)
    requires StandForAll(p, AllAddresses(vs), subs)
    ensures |AllAddresses(AllWithTimeouts(vs, DEFAULT_RPC_PORT_TIMEOUT))| == |subs|
    ensures CarriesAll(p, vs, FillAll(AllWithTimeouts(vs, DEFAULT_RPC_PORT_TIMEOUT), subs))
    decreases vs, 0
  {
    AllOnlyMissingTimeouts(vs, DEFAULT_RPC_PORT_TIMEOUT);
    if vs != [] {
      var n := |Addresses(vs[0])|;
      StandForParts(p, Addresses(vs[0]), AllAddresses(vs[1..]), subs);
      FilledCarries(p, vs[0], subs[..n]);
      AllFilledCarry(p, vs[1..], subs[n..]);
      FirstAndRest(vs, subs, n);
    }
  }

  lemma FirstAndRest(vs: seq<Val>, subs: seq<Address>, n: nat)
    requires vs != [] && n <= |subs|
    requires var ws := AllWithTimeouts(vs, DEFAULT_RPC_PORT_TIMEOUT);
      |AllAddresses(ws)| == |subs| && |Addresses(ws[0])| == n
    ensures var ws := AllWithTimeouts(vs, DEFAULT_RPC_PORT_TIMEOUT);
      && ws[0] == WithTimeouts(vs[0], DEFAULT_RPC_PORT_TIMEOUT)
      && ws[1..] == AllWithTimeouts(vs[1..], DEFAULT_RPC_PORT_TIMEOUT)
      && |AllAddresses(ws[1..])| == |subs[n..]|
      && FillAll(ws, subs) == [Fill(ws[0], subs[..n])] + FillAll(ws[1..], subs[n..])
  {
  }

  lemma StandForParts(p: Portal, a: seq<Address>, b: seq<Address>, subs: seq<Address>)
    requires StandForAll(p, a + b, subs)
    ensures StandForAll(p, a, subs[..|a|]) && StandForAll(p, b, subs[|a|..])
  {
    forall i | 0 <= i < |a| ensures StandsFor(p, a[i], subs[..|a|][i]) {
      assert (a + b)[i] == a[i];
    }
    forall i | 0 <= i < |b| ensures StandsFor(p, b[i], subs[|a|..][i]) {
      assert (a + b)[|a| + i] == b[i];
    }
  }

  /** The image of a message whose timeouts were filled in carries the message. */
  lemma ImageCarries(p: Portal, v: Val)
    requires AllIssued(p, Addresses(WithTimeouts(v, DEFAULT_RPC_PORT_TIMEOUT)))
    ensures Carries(p, v, Image(p, WithTimeouts(v, DEFAULT_RPC_PORT_TIMEOUT)))
  {
    OnlyMissingTimeouts(v, DEFAULT_RPC_PORT_TIMEOUT);
    FilledCarries(p, v, ToAddresses(IssuedIds(p, Addresses(v))));
  }

  // ------------------------------------------------------------------------------------------------
  // Jobs

  /** The application of this side handed the job to its proxy. */
  predicate Handed(moves: seq<Move>, side: Side, job: Job) {
    exists i :: 0 <= i < |moves| && moves[i] == Move(side, App(ImmaterializeMessage(job)))
  }

  function Near(l: Link, side: Side): Node {
    if side.Left? then l.left else l.right
  }

  function Far(l: Link, side: Side): Node {
    if side.Left? then l.right else l.left
  }

  /** The mail was in the mailbox, or was put there by the application. */
  predicate Known(x: Node, moves: seq<Move>, side: Side, job: Job) {
    ImmaterializeMessage(job) in x.mailbox || Handed(moves, side, job)
  }

  lemma TakenJob(p: Portal, m: Mail, w: World) returns (job: Option<Job>)
    ensures job.Some? ==> m == ImmaterializeMessage(job.value)
    ensures Turn(p, m, w).log.spawned == p.log.spawned + (if job.Some? then [Accepts(job.value)] else [])
  {
    TurnFramed(p, m, w);
    if m.ImmaterializeMessage? {
      SpawnTurn(p, m, w);
    }
    job := if m.ImmaterializeMessage? && p.channel.Open? then Some(m.job) else None;
    assert p.log.spawned + [] == p.log.spawned;
  }

  /** The mail an action other than a turn puts into its own mailbox. */
  ghost function MailOf(cx: Formats, x: Node, y: Node, act: Action): Option<Mail>
    requires Enabled(cx, x, y, act)
  {
    var after := Apply(cx, x, y, act).mailbox;
    if !act.TakeTurn? && |after| == |x.mailbox| + 1 then Some(after[|x.mailbox|]) else None
  }

  lemma MailAdded(cx: Formats, x: Node, y: Node, act: Action)
    requires Enabled(cx, x, y, act) && !act.TakeTurn?
    ensures var m := MailOf(cx, x, y, act);
      && Apply(cx, x, y, act).mailbox == x.mailbox + (if m.Some? then [m.value] else [])
      && (m.Some? && m.value.ImmaterializeMessage? ==> act == App(m.value))
  {
  }

  /** What one action does to the jobs of its side. */
  ghost predicate JobStep(x: Node, q: Node, taken: Option<Job>, handed: Option<Job>) {
    && (taken.Some? ==> ImmaterializeMessage(taken.value) in x.mailbox)
    && q.p.log.spawned == x.p.log.spawned + (if taken.Some? then [Accepts(taken.value)] else [])
    && forall job :: ImmaterializeMessage(job) in q.mailbox ==> ImmaterializeMessage(job) in x.mailbox || handed == Some(job)
  }

  function HandedBy(act: Action): Option<Job> {
    match act
    case App(ImmaterializeMessage(job)) => Some(job)
    case _ => None
  }

  lemma ActJobs(cx: Formats, x: Node, y: Node, act: Action) returns (taken: Option<Job>)
    requires Enabled(cx, x, y, act)
    ensures JobStep(x, Apply(cx, x, y, act), taken, HandedBy(act))
  {
    if act.TakeTurn? {
      taken := TakenJob(x.p, x.mailbox[0], act.w);
    } else {
      taken := None;
      SamePortal(cx, x, y, act);
      MailAdded(cx, x, y, act);
      assert x.p.log.spawned + [] == x.p.log.spawned;
    }
  }

  /** The jobs of `q` are those of `x`, followed by accepted ones that were known; and so are those still to be accepted. */
  ghost predicate JobsKnown(x: Node, moves: seq<Move>, side: Side, q: Node) {
    && x.p.log.spawned <= q.p.log.spawned
    && (forall k :: |x.p.log.spawned| <= k < |q.p.log.spawned| ==> SomeKnown(x, moves, side, q.p.log.spawned[k]))
    && (forall job :: ImmaterializeMessage(job) in q.mailbox ==> Known(x, moves, side, job))
  }

  ghost predicate SomeKnown(x: Node, moves: seq<Move>, side: Side, accepted: Job) {
    exists job :: Known(x, moves, side, job) && accepted == Accepts(job)
  }

  lemma HandedLater(moves: seq<Move>, side: Side, job: Job)
    requires moves != [] && Handed(moves[1..], side, job)
    ensures Handed(moves, side, job)
  {
    var i :| 0 <= i < |moves[1..]| && moves[1..][i] == Move(side, App(ImmaterializeMessage(job)));
    assert moves[i + 1] == Move(side, App(ImmaterializeMessage(job)));
  }

  lemma KnownBefore(x: Node, x1: Node, moves: seq<Move>, side: Side, taken: Option<Job>, job: Job)
    requires moves != [] && moves[0].side == side && JobStep(x, x1, taken, HandedBy(moves[0].act))
    requires Known(x1, moves[1..], side, job)
    ensures Known(x, moves, side, job)
  {
    if Handed(moves[1..], side, job) {
      HandedLater(moves, side, job);
    } else if ImmaterializeMessage(job) !in x.mailbox {
      assert moves[0] == Move(side, App(ImmaterializeMessage(job)));
    }
  }

  /** After one move of this side and the rest. */
  lemma JobsKnownOn(x: Node, x1: Node, moves: seq<Move>, side: Side, taken: Option<Job>, q: Node)
    requires moves != [] && moves[0].side == side && JobStep(x, x1, taken, HandedBy(moves[0].act))
    requires JobsKnown(x1, moves[1..], side, q)
    ensures JobsKnown(x, moves, side, q)
  {
    forall job | Known(x1, moves[1..], side, job) ensures Known(x, moves, side, job) {
      KnownBefore(x, x1, moves, side, taken, job);
    }
    forall k | |x.p.log.spawned| <= k < |q.p.log.spawned| ensures SomeKnown(x, moves, side, q.p.log.spawned[k]) {
      if k < |x1.p.log.spawned| {
        assert q.p.log.spawned[k] == x1.p.log.spawned[k] == Accepts(taken.value);
        assert Known(x, moves, side, taken.value);
      } else {
        assert SomeKnown(x1, moves[1..], side, q.p.log.spawned[k]);
      }
    }
  }

  /** After a move of the other side and the rest. */
  lemma JobsKnownOff(x: Node, moves: seq<Move>, side: Side, q: Node)
    requires moves != [] && JobsKnown(x, moves[1..], side, q)
    ensures JobsKnown(x, moves, side, q)
  {
    forall job | Known(x, moves[1..], side, job) ensures Known(x, moves, side, job) {
      if Handed(moves[1..], side, job) {
        HandedLater(moves, side, job);
      }
    }
    forall k | |x.p.log.spawned| <= k < |q.p.log.spawned| ensures SomeKnown(x, moves, side, q.p.log.spawned[k]) {
      assert SomeKnown(x, moves[1..], side, q.p.log.spawned[k]);
    }
  }

  /** Over a run, every job a side accepts is one its application handed to a proxy. */
  lemma {:induction false} RunJobs(cx: Formats, l: Link, moves: seq<Move>, side: Side)
    requires CanRun(cx, l, moves)
    ensures JobsKnown(Near(l, side), moves, side, Near(Run(cx, l, moves), side))
    decreases |moves|
  {
    if moves != [] {
      var next := LinkStep(cx, l, moves[0].side, moves[0].act);
      RunJobs(cx, next, moves[1..], side);
      var taken := StepJobs(cx, l, moves[0], side);
      if moves[0].side == side {
        JobsKnownOn(Near(l, side), Near(next, side), moves, side, taken, Near(Run(cx, next, moves[1..]), side));
      } else {
        JobsKnownOff(Near(l, side), moves, side, Near(Run(cx, next, moves[1..]), side));
      }
    }
  }

  lemma StepJobs(cx: Formats, l: Link, move: Move, side: Side) returns (taken: Option<Job>)
    requires LinkEnabled(cx, l, move.side, move.act)
    ensures var next := LinkStep(cx, l, move.side, move.act);
      if move.side == side then JobStep(Near(l, side), Near(next, side), taken, HandedBy(move.act))
      else Near(next, side) == Near(l, side)
  {
    if move.side.Left? {
      taken := ActJobs(cx, l.left, l.right, move.act);
    } else {
      taken := ActJobs(cx, l.right, l.left, move.act);
    }
  }
}
