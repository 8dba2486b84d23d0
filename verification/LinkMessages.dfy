/** Conservation of messages: each message accepted from a proxy is in exactly one place, in every interleaving. */
module LinkMessages {
  import opened Bytes
  import opened Codec
  import opened Refs
  import opened Portal
  import opened PortalFrames
  import opened PortalTheorems
  import opened PortalSends
  import opened Link
  import opened LinkWire
  import opened LinkIds
  import opened LinkCrossing

  // ------------------------------------------------------------------------------------------------
  // Places

  function TransmitTag(m: Mail): multiset<nat> {
    if m.TransmitMessage? then multiset{m.payload.tag} else multiset{}
  }

  /** Serialized messages waiting in a mailbox, by the number of their job. */
  function TransmitTags(mailbox: seq<Mail>): multiset<nat> {
    if mailbox == [] then multiset{} else TransmitTag(mailbox[0]) + TransmitTags(mailbox[1..])
  }

  function SentTag(pk: Packet): seq<nat> {
    match pk
    case ContentPacket(Decoded(SendMessage(_, payload))) => [payload.tag]
    case _ => []
  }

  /** Messages in a stretch of traffic. */
  function SentTags(s: seq<Packet>): seq<nat> {
    if s == [] then [] else SentTags(s[..|s| - 1]) + SentTag(s[|s| - 1])
  }

  function DeliveredTags(ds: seq<Delivery>): seq<nat> {
    if ds == [] then [] else DeliveredTags(ds[..|ds| - 1]) + [ds[|ds| - 1].tag]
  }

  function UpTo(n: nat): (s: set<nat>)
    ensures forall k: nat :: k in s <==> k < n
  {
    if n == 0 then {} else UpTo(n - 1) + {n - 1}
  }

  /** The numbers of the jobs accepted so far, each once. */
  function Accepted(p: Portal): multiset<nat> {
    multiset(UpTo(|p.log.spawned|))
  }

  /** Jobs being serialized. */
  function Numbers(tasks: map<nat, Task>): multiset<nat> {
    multiset(tasks.Keys)
  }

  /** Where the messages of `x` are on its own side, counting everything it sent as one place. */
  function Placed(x: Node): multiset<nat> {
    Numbers(x.tasks) + multiset(x.lost) + TransmitTags(x.mailbox) + multiset(SentTags(x.p.log.sent))
  }

  /** No message is in two places, and while the portal runs each is in one. */
  ghost predicate KeptInv(x: Node) {
    Placed(x) <= Accepted(x.p) && (x.p.status.Running? ==> Placed(x) == Accepted(x.p))
  }

  /** What was delivered is what was heard, in order; a portal that ended may have missed the last one. */
  ghost predicate HandledInv(x: Node) {
    && DeliveredTags(x.p.log.delivered) <= SentTags(x.heard)
    && (x.p.status.Running? ==> DeliveredTags(x.p.log.delivered) == SentTags(x.heard))
  }

  // ------------------------------------------------------------------------------------------------
  // Lists of tags

  lemma {:induction false} TransmitAppend(a: seq<Mail>, b: seq<Mail>)
    ensures TransmitTags(a + b) == TransmitTags(a) + TransmitTags(b)
    decreases |a|
  {
    if a == [] {
      assert a + b == b;
    } else {
      assert (a + b)[0] == a[0] && (a + b)[1..] == a[1..] + b;
      TransmitAppend(a[1..], b);
    }
  }

  lemma TransmitSnoc(a: seq<Mail>, m: Mail)
    ensures TransmitTags(a + [m]) == TransmitTags(a) + TransmitTag(m)
  {
    TransmitAppend(a, [m]);
    assert [m][1..] == [];
  }

  lemma SentTagsSnoc(s: seq<Packet>, pk: Packet)
    ensures SentTags(s + [pk]) == SentTags(s) + SentTag(pk)
  {
    assert (s + [pk])[..|s|] == s;
  }

  lemma {:induction false} SentTagsPrefix(s: seq<Packet>, t: seq<Packet>)
    requires s <= t
    ensures SentTags(s) <= SentTags(t)
    decreases |t|
  {
    if s != t {
      SentTagsPrefix(s, t[..|t| - 1]);
    }
  }

  lemma UpToNext(n: nat)
    ensures multiset(UpTo(n + 1)) == multiset(UpTo(n)) + multiset{n}
  {
    assert UpTo(n + 1) == UpTo(n) + {n};
  }

  // ------------------------------------------------------------------------------------------------
  // Sending side

  /** What one turn sends, by tag. */
  lemma SentTagStep(p: Portal, m: Mail, w: World)
    requires RegistriesOk(p) && w.uuid !in p.published && p.status.Running?
    requires m.TransmitMessage? ==> p.channel.Open?
    ensures var before, after := SentTags(p.log.sent), SentTags(Turn(p, m, w).log.sent);
      && multiset(after) <= multiset(before) + TransmitTag(m)
      && (Turn(p, m, w).status.Running? ==> multiset(after) == multiset(before) + TransmitTag(m))
  {
    var sent := SentStep(p, m, w);
    if sent.Some? {
      SentTagsSnoc(p.log.sent, ContentPacket(Decoded(sent.value)));
    } else {
      assert p.log.sent + [] == p.log.sent;
    }
  }

  lemma SettledTasks(x: Node, q: Portal, job: Option<Job>)
    requires TasksOk(x.p, x.tasks) && x.mailbox != []
    requires q.log.spawned == x.p.log.spawned + (if job.Some? then [job.value] else [])
    ensures Numbers(Settle(x, q).tasks)
         == Numbers(x.tasks) + (if job.Some? then multiset{|x.p.log.spawned|} else multiset{})
  {
    var n, routed := |x.p.log.spawned|, Route(x.tasks, x.p, q);
    assert routed.Keys == x.tasks.Keys;
    assert n in x.tasks ==> TaskOk(x.p, n, x.tasks[n]);
    if job.Some? {
      NumbersWith(routed, n, Task(q.log.spawned[n], [], false));
    }
  }

  lemma NumbersWith(tasks: map<nat, Task>, n: nat, t: Task)
    requires n !in tasks
    ensures Numbers(tasks[n := t]) == Numbers(tasks) + multiset{n}
  {
    assert tasks[n := t].Keys == tasks.Keys + {n};
  }

  lemma JobOfTurn(p: Portal, m: Mail, w: World) returns (job: Option<Job>)
    ensures Turn(p, m, w).log.spawned == p.log.spawned + (if job.Some? then [job.value] else [])
  {
    TurnFramed(p, m, w);
    if m.ImmaterializeMessage? && p.channel.Open? {
      SpawnTurn(p, m, w);
      job := Some(Accepts(m.job));
    } else {
      if m.ImmaterializeMessage? { SpawnTurn(p, m, w); }
      job := None;
      assert p.log.spawned + [] == p.log.spawned;
    }
  }

  lemma AcceptedStep(p: Portal, q: Portal, job: Option<Job>)
    requires q.log.spawned == p.log.spawned + (if job.Some? then [job.value] else [])
    ensures Accepted(q) == Accepted(p) + (if job.Some? then multiset{|p.log.spawned|} else multiset{})
  {
    UpToNext(|p.log.spawned|);
  }

  lemma TurnSum(tasks: multiset<nat>, lost: multiset<nat>, rest: multiset<nat>, sent: multiset<nat>,
                head: multiset<nat>, job: multiset<nat>, sent': multiset<nat>)
    requires sent' <= sent + head
    ensures (tasks + job) + lost + rest + sent' <= (tasks + lost + (head + rest) + sent) + job
    ensures sent' == sent + head ==> (tasks + job) + lost + rest + sent' == (tasks + lost + (head + rest) + sent) + job
  {
  }

  lemma KeptTurn(cx: Formats, x: Node, y: Node, w: World)
    requires Basics(x.p) && IdInv(cx, x, y) && KeptInv(x)
    requires x.p.status.Running? && x.mailbox != [] && w.uuid !in x.p.published
    ensures KeptInv(AfterTurn(x, w))
  {
    var m, q := x.mailbox[0], Turn(x.p, x.mailbox[0], w);
    assert MailSafe(cx, x.p, y.p, m);
    SentTagStep(x.p, m, w);
    var job := JobOfTurn(x.p, m, w);
    SettledTasks(x, q, job);
    AcceptedStep(x.p, q, job);
    TurnSum(Numbers(x.tasks), multiset(x.lost), TransmitTags(Settle(x, q).mailbox), multiset(SentTags(x.p.log.sent)),
            TransmitTag(m), if job.Some? then multiset{|x.p.log.spawned|} else multiset{}, multiset(SentTags(q.log.sent)));
  }

  lemma KeptStep(cx: Formats, x: Node, y: Node, act: Action)
    requires Basics(x.p) && IdInv(cx, x, y) && KeptInv(x) && Enabled(cx, x, y, act)
    ensures KeptInv(Apply(cx, x, y, act))
  {
    match act
    case TakeTurn(w) => KeptTurn(cx, x, y, w);
    case Pull => KeptMail(x, ToMail(y.p.log.sent[x.pulled]));
    case App(m) => KeptMail(x, m);
    case Register => KeptMail(x, RegisterProxy(x.unregistered[0].0, x.unregistered[0].1));
    case AskNext(k) => KeptAsk(cx, x, y, k);
    case Finish(k) => KeptFinish(cx, x, y, k);
    case Lose(k) => KeptLose(cx, x, y, k);
    case Die(actor) =>
    case Notice(actor) => KeptMail(x, LocalActorExited(actor));
  }

  lemma KeptMail(x: Node, m: Mail)
    requires KeptInv(x) && !m.TransmitMessage?
    ensures TransmitTags(x.mailbox + [m]) == TransmitTags(x.mailbox)
  {
    TransmitSnoc(x.mailbox, m);
  }

  lemma KeptAsk(cx: Formats, x: Node, y: Node, k: nat)
    requires KeptInv(x) && Enabled(cx, x, y, AskNext(k))
    ensures KeptInv(Apply(cx, x, y, AskNext(k)))
  {
    var x' := Apply(cx, x, y, AskNext(k));
    var a := Addresses(x.tasks[k].job.value)[|x.tasks[k].ids|];
    KeptMail(x, PublishActor(a.actor, a.message, Some(TaskPort(k))));
    assert x'.tasks.Keys == x.tasks.Keys;
  }

  lemma KeptFinish(cx: Formats, x: Node, y: Node, k: nat)
    requires KeptInv(x) && Enabled(cx, x, y, Finish(k))
    ensures KeptInv(Apply(cx, x, y, Finish(k)))
  {
    var x' := Apply(cx, x, y, Finish(k));
    TransmitSnoc(x.mailbox, TransmitMessage(x.tasks[k].job.target, Payload(Written(cx, x.tasks[k]), k)));
    NumbersWithout(x.tasks, k);
    TaskSent(Numbers(x'.tasks), multiset{k}, multiset(x.lost), TransmitTags(x.mailbox), multiset(SentTags(x.p.log.sent)));
  }

  lemma NumbersWithout(tasks: map<nat, Task>, k: nat)
    requires k in tasks
    ensures Numbers(tasks) == Numbers(tasks - {k}) + multiset{k}
  {
    assert (tasks - {k}).Keys == tasks.Keys - {k};
  }

  lemma TaskSent(tasks: multiset<nat>, k: multiset<nat>, lost: multiset<nat>, mail: multiset<nat>, sent: multiset<nat>)
    ensures (tasks + k) + lost + mail + sent == tasks + lost + (mail + k) + sent
  {
  }

  lemma TaskLost(tasks: multiset<nat>, k: multiset<nat>, lost: multiset<nat>, mail: multiset<nat>, sent: multiset<nat>)
    ensures (tasks + k) + lost + mail + sent == tasks + (lost + k) + mail + sent
  {
  }

  lemma KeptLose(cx: Formats, x: Node, y: Node, k: nat)
    requires KeptInv(x) && Enabled(cx, x, y, Lose(k))
    ensures KeptInv(Apply(cx, x, y, Lose(k)))
  {
    var x' := Apply(cx, x, y, Lose(k));
    NumbersWithout(x.tasks, k);
    NotLostYet(x, k);
    assert multiset(x'.lost) == multiset(x.lost) + multiset{k};
    TaskLost(Numbers(x'.tasks), multiset{k}, multiset(x.lost), TransmitTags(x.mailbox), multiset(SentTags(x.p.log.sent)));
  }

  /** A message being serialized is nowhere else. */
  lemma NotLostYet(x: Node, k: nat)
    requires KeptInv(x) && k in x.tasks
    ensures k !in x.lost
  {
    assert Placed(x)[k] <= Accepted(x.p)[k] <= 1;
    assert Numbers(x.tasks)[k] == 1;
  }

  // ------------------------------------------------------------------------------------------------
  // Receiving side

  lemma HandledTurn(cx: Formats, x: Node, y: Node, w: World)
    requires cx.RoundTrips() && WireInv(x, y) && SentSafe(cx, y.p, x.p) && HandledInv(x)
    requires x.p.status.Running? && x.mailbox != [] && WorldFits(cx, x, x.mailbox[0], w)
    ensures HandledInv(AfterTurn(x, w))
  {
    var m := x.mailbox[0];
    HeardTags(x.heard, m);
    if IsSendMessage(m) {
      HeardIsSafe(cx, x, y);
      HeardInOrder(x, y, m);
      MessageHandled(cx, x.p, y.p, m, w);
    } else {
      TurnFramed(x.p, m, w);
    }
  }

  lemma HeardTags(heard: seq<Packet>, m: Mail)
    ensures SentTags(heard + Heard(m)) == SentTags(heard) + (if IsSendMessage(m) then [m.data.msg.payload.tag] else [])
  {
    if ToPacket(m).Some? {
      SentTagsSnoc(heard, ToPacket(m).value);
    } else {
      assert heard + [] == heard && SentTags(heard) + [] == SentTags(heard);
    }
  }

  lemma MessageHandled(cx: Formats, p: Portal, peer: Portal, m: Mail, w: World)
    requires cx.RoundTrips() && IsSendMessage(m) && p.channel.Open? && p.status.Running?
    requires MessageSafe(cx, peer, p, m.data.msg.target, m.data.msg.payload)
    requires w.inbound == Decode(cx, p.published[m.data.msg.target.id].receiver, m.data.msg.payload.bytes)
    ensures var before, after := DeliveredTags(p.log.delivered), DeliveredTags(Turn(p, m, w).log.delivered);
      && (after == before || after == before + [m.data.msg.payload.tag])
      && (Turn(p, m, w).status.Running? ==> after == before + [m.data.msg.payload.tag])
  {
    ReceivedMessage(cx, p, peer, m, w);
    var ds := Turn(p, m, w).log.delivered;
    if |ds| > |p.log.delivered| {
      assert ds[..|ds| - 1] == p.log.delivered;
    }
  }

  lemma HandledStep(cx: Formats, x: Node, y: Node, act: Action)
    requires cx.RoundTrips() && WireInv(x, y) && SentSafe(cx, y.p, x.p) && HandledInv(x) && Enabled(cx, x, y, act)
    ensures HandledInv(Apply(cx, x, y, act))
  {
    if act.TakeTurn? {
      HandledTurn(cx, x, y, act.w);
    } else {
      SamePortal(cx, x, y, act);
    }
  }

  // ------------------------------------------------------------------------------------------------
  // Conservation

  /** Messages `x` has sent that `y` has not handled: on the wire or in the mailbox of `y`. */
  function MessagesInFlight(x: Node, y: Node): seq<nat>
    requires Wired(y, x)
  {
    HeardIsPrefix(y, x);
    SentTagsPrefix(y.heard, x.p.log.sent);
    SentTags(x.p.log.sent)[|SentTags(y.heard)|..]
  }

  lemma SentIsHeardOrInFlight(x: Node, y: Node)
    requires Wired(y, x)
    ensures multiset(SentTags(x.p.log.sent)) == multiset(SentTags(y.heard)) + multiset(MessagesInFlight(x, y))
  {
    HeardIsPrefix(y, x);
    SentTagsPrefix(y.heard, x.p.log.sent);
    PrefixSplits(SentTags(y.heard), SentTags(x.p.log.sent));
  }

  /** While both portals run, each message `x` accepted is being serialized, failed to serialize, waits to be sent, is on
      its way, or has been delivered; it is in one place only, and there are no others. */
  lemma MessagesConserved(x: Node, y: Node)
    requires Wired(y, x) && KeptInv(x) && HandledInv(y) && x.p.status.Running? && y.p.status.Running?
    ensures Accepted(x.p)
         == Numbers(x.tasks) + multiset(x.lost) + TransmitTags(x.mailbox)
          + multiset(MessagesInFlight(x, y)) + multiset(DeliveredTags(y.p.log.delivered))
  {
    SentIsHeardOrInFlight(x, y);
    Regroup(Numbers(x.tasks), multiset(x.lost), TransmitTags(x.mailbox), multiset(SentTags(y.heard)),
            multiset(MessagesInFlight(x, y)));
  }

  lemma Regroup(tasks: multiset<nat>, lost: multiset<nat>, mail: multiset<nat>, heard: multiset<nat>,
                flight: multiset<nat>)
    ensures tasks + lost + mail + (heard + flight) == tasks + lost + mail + flight + heard
  {
  }

  lemma PrefixSplits(a: seq<nat>, b: seq<nat>)
    requires a <= b
    ensures multiset(b) == multiset(a) + multiset(b[|a|..])
  {
    assert b == a + b[|a|..];
  }

  /** Whatever ended, nothing is delivered twice and nothing is delivered that was not accepted. */
  lemma DeliveredOnce(x: Node, y: Node)
    requires WireInv(y, x) && KeptInv(x) && HandledInv(y)
    ensures multiset(DeliveredTags(y.p.log.delivered)) <= Accepted(x.p)
  {
    HeardIsPrefix(y, x);
    SentTagsPrefix(y.heard, x.p.log.sent);
    PrefixSplits(DeliveredTags(y.p.log.delivered), SentTags(x.p.log.sent));
  }
}
