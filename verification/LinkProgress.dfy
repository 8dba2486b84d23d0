/** Nothing waits in vain: a serialization task that waits has its question in the mailbox, and the proxies that have not
    announced themselves yet are the last ones started. */
module LinkProgress {
  import opened Bytes
  import opened Codec
  import opened Refs
  import opened Portal
  import opened PortalFrames
  import opened PortalTheorems
  import opened Link
  import opened LinkIds
  import opened LinkCrossing

  predicate Asked(mailbox: seq<Mail>, k: nat) {
    exists i :: 0 <= i < |mailbox| && AskTag(mailbox[i]) == Some(k)
  }

  /** The portal has the question of every task that waits. */
  predicate WaitersAsked(x: Node) {
    x.p.status.Running? ==> forall k :: k in x.tasks && x.tasks[k].waiting ==> Asked(x.mailbox, k)
  }

  /** The proxies still to announce themselves are the last ones started, in order. */
  predicate LastUnregistered(x: Node) {
    |x.unregistered| <= |x.p.log.started| && x.unregistered == x.p.log.started[|x.p.log.started| - |x.unregistered|..]
  }

  ghost predicate ProgressInv(x: Node) {
    WaitersAsked(x) && LastUnregistered(x)
  }

  // ------------------------------------------------------------------------------------------------
  // One turn

  /** A task's question is answered: it has one more id, for the actor it asked about, and waits no longer. */
  lemma TaskServed(x: Node, w: World, k: nat)
    requires RegistriesOk(x.p) && x.p.channel.Open? && w.uuid !in x.p.published && TaskPort(k) !in w.dropped
    requires x.mailbox != [] && AskTag(x.mailbox[0]) == Some(k) && k in x.tasks
    ensures var m, q := x.mailbox[0], AfterTurn(x, w).p;
      && q.status == x.p.status && IsPublished(q.published, m.actor)
      && AfterTurn(x, w).tasks
         == x.tasks[k := Task(x.tasks[k].job, x.tasks[k].ids + [Rid(q, IdOf(q.published, m.actor))], false)]
  {
    var m := x.mailbox[0];
    PublishTurn(x.p, m, w);
    PublishStatus(x.p, m, w);
    TurnFramed(x.p, m, w);
  }

  lemma PublishStatus(p: Portal, m: Mail, w: World)
    requires m.PublishActor? && m.reply.Some? && m.reply.value !in w.dropped
    ensures Turn(p, m, w).status == p.status
  {
    FramePublish(p, m.actor, m.receiver, w);
  }

  lemma AskedRest(mailbox: seq<Mail>, k: nat)
    requires mailbox != [] && Asked(mailbox, k) && AskTag(mailbox[0]) != Some(k)
    ensures Asked(mailbox[1..], k)
  {
    var i :| 0 <= i < |mailbox| && AskTag(mailbox[i]) == Some(k);
    assert mailbox[1..][i - 1] == mailbox[i];
  }

  lemma AskedMore(mailbox: seq<Mail>, m: Mail, k: nat)
    requires Asked(mailbox, k) || AskTag(m) == Some(k)
    ensures Asked(mailbox + [m], k)
  {
    if Asked(mailbox, k) {
      var i :| 0 <= i < |mailbox| && AskTag(mailbox[i]) == Some(k);
      assert (mailbox + [m])[i] == mailbox[i];
    } else {
      assert (mailbox + [m])[|mailbox|] == m;
    }
  }

  /** Tasks other than the one whose question is handled wait as before; a new one does not wait. */
  lemma OthersWait(x: Node, w: World, k: nat)
    requires TasksOk(x.p, x.tasks) && x.mailbox != [] && k in AfterTurn(x, w).tasks && AfterTurn(x, w).tasks[k].waiting
    ensures k in x.tasks && x.tasks[k].waiting
  {
  }

  lemma WaitersAfterTurn(x: Node, w: World)
    requires RegistriesOk(x.p) && w.uuid !in x.p.published && x.mailbox != [] && x.p.status.Running?
    requires (forall port :: port in w.dropped ==> port.UserPort?) && TasksOk(x.p, x.tasks) && WaitersAsked(x)
    requires x.tasks != map[] ==> x.p.channel.Open?
    ensures WaitersAsked(AfterTurn(x, w))
  {
    var q := AfterTurn(x, w);
    forall k | q.p.status.Running? && k in q.tasks && q.tasks[k].waiting ensures Asked(q.mailbox, k) {
      OthersWait(x, w, k);
      if AskTag(x.mailbox[0]) == Some(k) {
        TaskServed(x, w, k);
        assert false;
      }
      AskedRest(x.mailbox, k);
    }
  }

  lemma UnregisteredAfterTurn(x: Node, w: World)
    requires RegistriesOk(x.p) && w.uuid !in x.p.published && x.mailbox != [] && LastUnregistered(x)
    ensures LastUnregistered(AfterTurn(x, w))
  {
    TurnGrows(x.p, x.mailbox[0], w);
    UnregisteredSettled(x, Turn(x.p, x.mailbox[0], w));
  }

  lemma UnregisteredSettled(x: Node, q: Portal)
    requires x.mailbox != [] && LastUnregistered(x) && x.p.log.started <= q.log.started
    ensures LastUnregistered(Settle(x, q))
  {
    LastTwo(x.p.log.started, q.log.started, x.unregistered);
  }

  lemma LastTwo<T>(before: seq<T>, after: seq<T>, last: seq<T>)
    requires before <= after && |last| <= |before| && last == before[|before| - |last|..]
    ensures var more := last + after[|before|..];
      |more| <= |after| && more == after[|after| - |more|..]
  {
  }

  // ------------------------------------------------------------------------------------------------
  // All actions

  /** New mail, and no task that did not wait before waits for anything but it. */
  lemma ProgressMail(x: Node, x': Node, m: Mail)
    requires ProgressInv(x) && x'.p == x.p && x'.mailbox == x.mailbox + [m] && LastUnregistered(x')
    requires forall k :: k in x'.tasks && x'.tasks[k].waiting ==>
      (k in x.tasks && x.tasks[k].waiting) || AskTag(m) == Some(k)
    ensures ProgressInv(x')
  {
    forall k | x.p.status.Running? && k in x'.tasks && x'.tasks[k].waiting ensures Asked(x'.mailbox, k) {
      AskedMore(x.mailbox, m, k);
    }
  }

  lemma ProgressStep(cx: Formats, x: Node, y: Node, act: Action)
    requires RegistriesOk(x.p) && IdInv(cx, x, y) && ProgressInv(x) && Enabled(cx, x, y, act)
    ensures ProgressInv(Apply(cx, x, y, act))
  {
    match act
    case TakeTurn(w) => ProgressTurn(cx, x, y, w);
    case AskNext(k) => ProgressAsk(cx, x, y, k);
    case Finish(k) => ProgressFinish(cx, x, y, k);
    case Register => ProgressRegister(cx, x, y);
    case _ => ProgressOther(cx, x, y, act);
  }

  lemma ProgressAsk(cx: Formats, x: Node, y: Node, k: nat)
    requires ProgressInv(x) && Enabled(cx, x, y, AskNext(k))
    ensures ProgressInv(Apply(cx, x, y, AskNext(k)))
  {
    var a := Addresses(x.tasks[k].job.value)[|x.tasks[k].ids|];
    ProgressMail(x, Apply(cx, x, y, AskNext(k)), PublishActor(a.actor, a.message, Some(TaskPort(k))));
  }

  lemma ProgressFinish(cx: Formats, x: Node, y: Node, k: nat)
    requires ProgressInv(x) && Enabled(cx, x, y, Finish(k))
    ensures ProgressInv(Apply(cx, x, y, Finish(k)))
  {
    ProgressMail(x, Apply(cx, x, y, Finish(k)),
                 TransmitMessage(x.tasks[k].job.target, Payload(Written(cx, x.tasks[k]), k)));
  }

  lemma ProgressRegister(cx: Formats, x: Node, y: Node)
    requires ProgressInv(x) && Enabled(cx, x, y, Register)
    ensures ProgressInv(Apply(cx, x, y, Register))
  {
    ProgressMail(x, Apply(cx, x, y, Register), RegisterProxy(x.unregistered[0].0, x.unregistered[0].1));
  }

  lemma ProgressOther(cx: Formats, x: Node, y: Node, act: Action)
    requires ProgressInv(x) && Enabled(cx, x, y, act) && (act.Pull? || act.App? || act.Lose? || act.Die? || act.Notice?)
    ensures ProgressInv(Apply(cx, x, y, act))
  {
    var x' := Apply(cx, x, y, act);
    match act
    case Pull => ProgressMail(x, x', ToMail(y.p.log.sent[x.pulled]));
    case App(m) => ProgressMail(x, x', m);
    case Notice(actor) => ProgressMail(x, x', LocalActorExited(actor));
    case _ =>
  }

  lemma ProgressTurn(cx: Formats, x: Node, y: Node, w: World)
    requires RegistriesOk(x.p) && IdInv(cx, x, y) && ProgressInv(x) && Enabled(cx, x, y, TakeTurn(w))
    ensures ProgressInv(AfterTurn(x, w))
  {
    forall k | k in x.tasks ensures x.p.channel.Open? {
      assert TaskOk(x.p, k, x.tasks[k]);
    }
    WaitersAfterTurn(x, w);
    UnregisteredAfterTurn(x, w);
  }

  /** A proxy that announces itself leaves the list, and the others stay on it. */
  lemma AnnouncedOnce(cx: Formats, x: Node, y: Node)
    requires Enabled(cx, x, y, Register)
    ensures var x' := Apply(cx, x, y, Register);
      && |x'.mailbox| == |x.mailbox| + 1 && x'.mailbox[..|x.mailbox|] == x.mailbox
      && x'.mailbox[|x.mailbox|].RegisterProxy?
      && x.unregistered == [(x'.mailbox[|x.mailbox|].remote, x'.mailbox[|x.mailbox|].proxy)] + x'.unregistered
  {
  }

  // ------------------------------------------------------------------------------------------------
  // Theorem

  /** While the portal runs, a task that does not wait can ask for its next id or is ready to hand its message over; and if
      the mailbox is empty no task waits. */
  lemma NoTaskStuck(cx: Formats, x: Node, y: Node, k: nat)
    requires IdInv(cx, x, y) && ProgressInv(x) && x.p.status.Running? && k in x.tasks
    ensures x.tasks[k].waiting ==> Asked(x.mailbox, k)
    ensures !x.tasks[k].waiting ==> Enabled(cx, x, y, AskNext(k)) || Complete(cx, x.tasks[k])
  {
    var t := x.tasks[k];
    assert TaskOk(x.p, k, t) && JobSafe(cx, y.p, t.job);
    if |t.ids| == |Addresses(t.job.value)| {
      assert Addresses(t.job.value)[..|t.ids|] == Addresses(t.job.value);
      ImageTyped(cx, x.p, t.job.ty, t.job.value);
    }
  }

  /** There is always a uuid nobody has. */
  lemma {:induction false} FreshUuid(r: Registry) returns (uuid: OpaqueId)
    ensures forall id :: id in r ==> id < uuid
    decreases |r|
  {
    if r == map[] {
      uuid := 0;
    } else {
      var id :| id in r;
      assert (r - {id}).Keys == r.Keys - {id} && |(r - {id}).Keys| < |r.Keys|;
      var rest := FreshUuid(r - {id});
      uuid := if id < rest then rest else id + 1;
      assert forall k :: k in r ==> k == id || k in r - {id};
    }
  }

  /** Nothing is held back while a portal runs: a packet on the wire can be taken off, the oldest mail handled, a started
      proxy can announce itself, and a watcher can report its actor once that has stopped. */
  lemma NothingHeldBack(cx: Formats, x: Node, y: Node) returns (w: World)
    requires x.p.status.Running?
    ensures x.pulled < |y.p.log.sent| ==> Enabled(cx, x, y, Pull)
    ensures x.mailbox != [] ==> Enabled(cx, x, y, TakeTurn(w))
    ensures x.unregistered != [] ==> Enabled(cx, x, y, Register)
    ensures forall a :: a in x.watching && a in x.dead ==> Enabled(cx, x, y, Notice(a))
  {
    var uuid := FreshUuid(x.p.published);
    var inbound := if x.mailbox != [] then Inbound(cx, x.p, x.mailbox[0]) else None;
    w := World(uuid, None, {}, x.dead, true, inbound,
               seq(if inbound.Some? then |Remotes(Addresses(inbound.value))| else 0, _ => 0));
  }

  function Inbound(cx: Formats, p: Portal, m: Mail): Option<Val> {
    if IsSendMessage(m) && m.data.msg.target.id in p.published
    then Decode(cx, p.published[m.data.msg.target.id].receiver, m.data.msg.payload.bytes) else None
  }
}
