/** A nexus with any number of portals, each fed whatever its peer cares to send: what a peer can reach through its portal
    was made available on that portal. */
module Confinement {
  import opened Bytes
  import opened Portal
  import opened PortalFrames
  import opened PortalTheorems
  import opened Nexus

  datatype System = System(nexus: NexusState, portals: map<PortalId, Portal>)

  datatype Event =
    | ToNexus(mail: NexusMail, localId: nat, contribution: Uuid)  // with what a new portal introduces itself with
    | Reported(event: SupervisionEvent)
    | ToPortal(id: PortalId, m: Mail, w: World)

  function Empty(): System {
    System(NexusState(map[], map[], false), map[])
  }

  /** The nexus answers a portal's question within the turn that asks it. */
  function Asked(s: System, w: World): World {
    w.(nexus := if s.nexus.failed then None else Some(s.nexus.named))
  }

  predicate Possible(s: System, e: Event) {
    match e
    case ToNexus(mail, _, _) =>
      !s.nexus.failed && (mail.Connected? && mail.spawned.Some? ==> mail.spawned.value !in s.portals)
    case Reported(_) => !s.nexus.failed
    case ToPortal(id, _, w) =>
      id in s.portals && s.portals[id].status.Running? && w.uuid !in s.portals[id].published
  }

  ghost function Happen(s: System, e: Event): System
    requires Possible(s, e)
  {
    match e
    case ToNexus(mail, localId, contribution) =>
      System(NexusTurn(s.nexus, mail),
             if mail.Connected? && mail.spawned.Some?
             then s.portals[mail.spawned.value := Initial(localId, contribution)] else s.portals)
    case Reported(event) => s.(nexus := Supervised(s.nexus, event))
    case ToPortal(id, m, w) => s.(portals := s.portals[id := Turn(s.portals[id], m, Asked(s, w))])
  }

  ghost predicate CanHappen(h: seq<Event>)
    decreases |h|, 0
  {
    h == [] || (CanHappen(h[..|h| - 1]) && Possible(After(h[..|h| - 1]), h[|h| - 1]))
  }

  /** The system after a history. */
  ghost function After(h: seq<Event>): System
    requires CanHappen(h)
    decreases |h|, 1
  {
    if h == [] then Empty() else Happen(After(h[..|h| - 1]), h[|h| - 1])
  }

  // ------------------------------------------------------------------------------------------------
  // Names on the nexus

  /** The actor published last under a name on the nexus. */
  function LastOnNexus(h: seq<Event>, name: string): Option<ActorId> {
    if h == [] then None
    else
      match h[|h| - 1]
      case ToNexus(PublishOnNexus(n, cell), _, _) =>
        if n == name then Some(cell.actor) else LastOnNexus(h[..|h| - 1], name)
      case _ => LastOnNexus(h[..|h| - 1], name)
  }

  /** What the nexus files under a name: what was given with the publication that last changed the actor. */
  function LastCellOnNexus(h: seq<Event>, name: string): Option<Published> {
    if h == [] then None
    else
      match h[|h| - 1]
      case ToNexus(PublishOnNexus(n, cell), _, _) =>
        if n != name || LastOnNexus(h[..|h| - 1], name) == Some(cell.actor) then LastCellOnNexus(h[..|h| - 1], name)
        else Some(cell)
      case _ => LastCellOnNexus(h[..|h| - 1], name)
  }

  function NexusCellOf(s: System, name: string): Option<Published> {
    if name in s.nexus.named then Some(s.nexus.named[name]) else None
  }

  function NexusActorOf(s: System, name: string): Option<ActorId> {
    if name in s.nexus.named then Some(s.nexus.named[name].actor) else None
  }

  /** The nexus registry is the fold of its publications. */
  lemma {:induction false} NexusNames(h: seq<Event>, name: string)
    requires CanHappen(h)
    ensures NexusActorOf(After(h), name) == LastOnNexus(h, name)
    ensures NexusCellOf(After(h), name) == LastCellOnNexus(h, name)
    decreases |h|
  {
    if h != [] {
      NexusNames(h[..|h| - 1], name);
      NexusNameAfter(After(h[..|h| - 1]), h[|h| - 1], name);
    }
  }

  lemma NexusNameAfter(s: System, e: Event, name: string)
    requires Possible(s, e)
    ensures NexusActorOf(Happen(s, e), name)
         == (if e.ToNexus? && e.mail.PublishOnNexus? && e.mail.name == name then Some(e.mail.cell.actor)
             else NexusActorOf(s, name))
    ensures NexusCellOf(Happen(s, e), name)
         == (if e.ToNexus? && e.mail.PublishOnNexus? && e.mail.name == name
                && NexusActorOf(s, name) != Some(e.mail.cell.actor)
             then Some(e.mail.cell) else NexusCellOf(s, name))
  {
  }

  /** The actor published last under a name on one portal. */
  function LastOnPortal(h: seq<Event>, id: PortalId, name: string): Option<ActorId> {
    if h == [] then None
    else
      match h[|h| - 1]
      case ToPortal(i, PublishNamedActor(n, actor, _, _), _) =>
        if i == id && n == name then Some(actor) else LastOnPortal(h[..|h| - 1], id, name)
      case _ => LastOnPortal(h[..|h| - 1], id, name)
  }

  ghost predicate NamedAsPublished(h: seq<Event>, id: PortalId, name: string, s: System) {
    if id in s.portals then
      && RegistriesOk(s.portals[id]) && NamesOk(s.portals[id])
      && LastNamed(s.portals[id].log.named, name) == LastOnPortal(h, id, name)
    else LastOnPortal(h, id, name).None?
  }

  lemma NamedTurn(p: Portal, m: Mail, w: World, name: string)
    requires RegistriesOk(p) && NamesOk(p) && w.uuid !in p.published
    ensures RegistriesOk(Turn(p, m, w)) && NamesOk(Turn(p, m, w))
    ensures LastNamed(Turn(p, m, w).log.named, name)
         == if m.PublishNamedActor? && m.name == name then Some(m.actor) else LastNamed(p.log.named, name)
  {
    TurnKeepsRegistries(p, m, w);
    TurnKeepsNames(p, m, w);
    if m.PublishNamedActor? {
      RegistryAfterNamed(p, m, w);
      assert (p.log.named + [(m.name, m.actor)])[..|p.log.named|] == p.log.named;
    } else {
      NamesOnlyByPublish(p, m, w);
    }
  }

  /** Every portal's registries are in order, and its names are the fold of its publications. */
  lemma {:induction false} PortalNames(h: seq<Event>, id: PortalId, name: string)
    requires CanHappen(h)
    ensures NamedAsPublished(h, id, name, After(h))
    decreases |h|
  {
    if h != [] {
      var before, e := h[..|h| - 1], h[|h| - 1];
      PortalNames(before, id, name);
      if e.ToPortal? && e.id == id {
        NamedTurn(After(before).portals[id], e.m, Asked(After(before), e.w), name);
      } else if e.ToNexus? {
        InitialOk(e.localId, e.contribution);
      }
    }
  }

  /** What a name on portal `id` stands for after a history: the actor published last under it on that portal, else the
      one published last on the nexus, else none. */
  function FoundBy(h: seq<Event>, id: PortalId, name: string): Option<ActorId> {
    if LastOnPortal(h, id, name).Some? then LastOnPortal(h, id, name) else LastOnNexus(h, name)
  }

  /** The event asks portal `id` for a name, and the portal is in a position to answer. */
  ghost predicate Asks(h: seq<Event>, e: Event, id: PortalId, request: nat, name: string)
    requires CanHappen(h)
  {
    && e.ToPortal? && e.id == id && e.m == Content(Decoded(RequestActorByName(request, name))) && e.w.sinkOk
    && Possible(After(h), e) && After(h).portals[id].channel.Open? && !After(h).nexus.failed
  }

  /** What the peer of portal `id` learns when it asks for a name after history `h`. */
  lemma LookupIsFoldOfHistory(h: seq<Event>, e: Event, id: PortalId, request: nat, name: string) returns (answer: Lookup)
    requires CanHappen(h) && Asks(h, e, id, request, name)
    ensures var p, q := After(h).portals[id], Happen(After(h), e).portals[id];
      && q.log.sent == p.log.sent + [ContentPacket(Decoded(ResponseActorByName(request, answer)))]
      && Means(q, answer, FoundBy(h, id, name))
  {
    PortalNames(h, id, name);
    NexusNames(h, name);
    answer := RequestAnswered(After(h).portals[id], request, name, Asked(After(h), e.w));
  }

  lemma PrefixCanHappen(h: seq<Event>, i: nat)
    requires CanHappen(h) && i <= |h|
    ensures CanHappen(h[..i])
    decreases |h|
  {
    if i < |h| {
      PrefixCanHappen(h[..|h| - 1], i);
      assert h[..|h| - 1][..i] == h[..i];
    } else {
      assert h[..i] == h;
    }
  }

  /** Once a portal exists it stays, and only ever gains. */
  lemma {:induction false} HistoryGrows(h: seq<Event>, i: nat, id: PortalId)
    requires CanHappen(h) && i <= |h| && CanHappen(h[..i]) && id in After(h[..i]).portals
    ensures id in After(h).portals && Grows(After(h[..i]).portals[id], After(h).portals[id])
    decreases |h|
  {
    if i == |h| {
      assert h[..i] == h;
      GrowsSelf(After(h).portals[id]);
    } else {
      var before, e := h[..|h| - 1], h[|h| - 1];
      assert before[..i] == h[..i];
      HistoryGrows(before, i, id);
      GrowsSelf(After(before).portals[id]);
      if e.ToPortal? && e.id == id {
        PortalNames(before, id, "");
        TurnGrows(After(before).portals[id], e.m, Asked(After(before), e.w));
      }
      GrowsTransitive(After(h[..i]).portals[id], After(before).portals[id], After(h).portals[id]);
    }
  }

  /** The `i`-th event of the history was answered over portal `id` with `answer`, which means `actor`. */
  ghost predicate AnsweredAt(h: seq<Event>, i: nat, id: PortalId, request: nat, answer: Lookup, actor: Option<ActorId>)
    requires CanHappen(h) && i < |h|
  {
    && CanHappen(h[..i]) && CanHappen(h[..i + 1]) && id in After(h[..i]).portals && id in After(h[..i + 1]).portals
    && After(h[..i + 1]).portals[id].log.sent
       == After(h[..i]).portals[id].log.sent + [ContentPacket(Decoded(ResponseActorByName(request, answer)))]
    && Means(After(h[..i + 1]).portals[id], answer, actor)
  }

  lemma LookupAt(h: seq<Event>, i: nat, id: PortalId, request: nat, name: string) returns (answer: Lookup)
    requires CanHappen(h) && i < |h| && CanHappen(h[..i]) && Asks(h[..i], h[i], id, request, name)
    ensures AnsweredAt(h, i, id, request, answer, FoundBy(h[..i], id, name))
  {
    answer := LookupIsFoldOfHistory(h[..i], h[i], id, request, name);
    StepIsPrefix(h, i);
  }

  /** Two lookups over one portal, at any two moments of any history: the two answers are the same if and only if both
      names stood for the same actor, or both for none. */
  lemma LookupsRepeatInHistory(h: seq<Event>, i: nat, j: nat, id: PortalId, n1: nat, name1: string, n2: nat, name2: string)
      returns (first: Lookup, second: Lookup)
    requires CanHappen(h) && i < j < |h| && CanHappen(h[..i]) && CanHappen(h[..j])
    requires Asks(h[..i], h[i], id, n1, name1) && Asks(h[..j], h[j], id, n2, name2)
    ensures AnsweredAt(h, i, id, n1, first, FoundBy(h[..i], id, name1))
    ensures AnsweredAt(h, j, id, n2, second, FoundBy(h[..j], id, name2))
    ensures first == second <==> FoundBy(h[..i], id, name1) == FoundBy(h[..j], id, name2)
  {
    first := LookupAt(h, i, id, n1, name1);
    second := LookupAt(h, j, id, n2, name2);
    AnswersRepeat(h, i, j, id, n1, first, FoundBy(h[..i], id, name1), n2, second, FoundBy(h[..j], id, name2));
  }

  lemma AnswersRepeat(h: seq<Event>, i: nat, j: nat, id: PortalId, n1: nat, a: Lookup, x: Option<ActorId>,
                      n2: nat, b: Lookup, y: Option<ActorId>)
    requires CanHappen(h) && i < j < |h| && AnsweredAt(h, i, id, n1, a, x) && AnsweredAt(h, j, id, n2, b, y)
    ensures a == b <==> x == y
  {
    assert h[..j + 1][..i + 1] == h[..i + 1];
    HistoryGrows(h[..j + 1], i + 1, id);
    PortalNames(h[..j + 1], id, "");
    AnswersAgree(After(h[..i + 1]).portals[id], After(h[..j + 1]).portals[id], a, x, b, y);
  }

  lemma StepIsPrefix(h: seq<Event>, i: nat)
    requires CanHappen(h) && i < |h|
    ensures CanHappen(h[..i]) && CanHappen(h[..i + 1]) && Possible(After(h[..i]), h[i])
    ensures After(h[..i + 1]) == Happen(After(h[..i]), h[i])
  {
    PrefixCanHappen(h, i);
    PrefixCanHappen(h, i + 1);
    assert h[..i + 1][..i] == h[..i];
  }

  /** The identifier the portal was connected under, if the nexus started it and it has not been reported as ended since. */
  function UpAs(h: seq<Event>, id: PortalId): Option<string> {
    if h == [] then None
    else
      match h[|h| - 1]
      case ToNexus(Connected(identifier, spawned, _, _), _, _) =>
        if spawned == Some(id) then Some(identifier) else UpAs(h[..|h| - 1], id)
      case Reported(ActorTerminated(actor)) => if actor == id then None else UpAs(h[..|h| - 1], id)
      case Reported(ActorFailed(actor)) => if actor == id then None else UpAs(h[..|h| - 1], id)
      case _ => UpAs(h[..|h| - 1], id)
  }

  function ListedAs(s: System, id: PortalId): Option<string> {
    if id in s.nexus.portals then Some(s.nexus.portals[id]) else None
  }

  /** The nexus lists exactly the connected portals, under their identifiers, and each of them exists. */
  lemma {:induction false} NexusLists(h: seq<Event>, id: PortalId)
    requires CanHappen(h)
    ensures ListedAs(After(h), id) == UpAs(h, id)
    ensures UpAs(h, id).Some? ==> id in After(h).portals
    decreases |h|
  {
    if h != [] {
      NexusLists(h[..|h| - 1], id);
    }
  }

  // ------------------------------------------------------------------------------------------------
  // What a portal may reach

  /** The event makes an actor, with this rematerializer, available on portal `id`: this side publishes it there (by name,
      or because a message sent over the portal refers to it), or the peer asks for a name under which it is what the nexus
      publishes. */
  predicate Grants(before: seq<Event>, e: Event, id: PortalId, cell: Published) {
    e.ToPortal? && e.id == id &&
    match e.m
    case PublishNamedActor(_, actor, receiver, _) => cell == Published(actor, receiver)
    case PublishActor(actor, receiver, _) => cell == Published(actor, receiver)
    case Content(Decoded(RequestActorByName(_, name))) => LastCellOnNexus(before, name) == Some(cell)
    case _ => false
  }

  predicate Granted(h: seq<Event>, id: PortalId, cell: Published) {
    h != [] && (Grants(h[..|h| - 1], h[|h| - 1], id, cell) || Granted(h[..|h| - 1], id, cell))
  }

  ghost predicate GrantedActor(h: seq<Event>, id: PortalId, actor: ActorId) {
    exists receiver :: Granted(h, id, Published(actor, receiver))
  }

  /** Everything an incoming message could be, and was, passed on to. */
  ghost predicate Confined(h: seq<Event>, id: PortalId, p: Portal) {
    && (forall k :: k in p.published ==> Granted(h, id, p.published[k]))
    && (forall i :: 0 <= i < |p.log.delivered| ==> GrantedActor(h, id, p.log.delivered[i].actor))
  }

  /** From `p` to `q`, at most one message was delivered, to the actor published under the id it names. */
  predicate DeliversOnly(p: Portal, q: Portal, m: Mail) {
    q.log.delivered == p.log.delivered
    || (IsSendMessage(m) && m.data.msg.target.id in p.published && |q.log.delivered| == |p.log.delivered| + 1
        && q.log.delivered[..|p.log.delivered|] == p.log.delivered
        && q.log.delivered[|p.log.delivered|].actor == p.published[m.data.msg.target.id].actor)
  }

  lemma DeliveredTurn(p: Portal, m: Mail, w: World)
    ensures DeliversOnly(p, Turn(p, m, w), m)
  {
    TurnFramed(p, m, w);
    if IsSendMessage(m) {
      if p.channel.Open? {
        assert Turn(p, m, w) == OnSendMessage(p, m.data.msg.target, m.data.msg.payload, w);
      } else {
        assert Turn(p, m, w) == p.(status := ProtocolViolation);
      }
    }
  }

  lemma PublicationGranted(before: seq<Event>, id: PortalId, m: Mail, w: World, s: System)
    requires CanHappen(before) && s == After(before) && id in s.portals
    requires Publication(s.portals[id], m, Asked(s, w)).Some?
    ensures Grants(before, ToPortal(id, m, w), id, Publication(s.portals[id], m, Asked(s, w)).value)
  {
    if IsRequest(m) {
      NexusNames(before, m.data.msg.name);
    }
  }

  lemma ConfinedTurn(before: seq<Event>, e: Event, p: Portal)
    requires CanHappen(before + [e]) && e.ToPortal? && e.id in After(before).portals && p == After(before).portals[e.id]
    requires Confined(before, e.id, p)
    ensures Confined(before + [e], e.id, Turn(p, e.m, Asked(After(before), e.w)))
  {
    var w := Asked(After(before), e.w);
    var q := Turn(p, e.m, w);
    assert (before + [e])[..|before|] == before;
    PublishedConfined(before, e, p, w);
    DeliveredTurn(p, e.m, w);
    DeliveredConfined(before, e, p, q);
  }

  lemma DeliveredConfined(before: seq<Event>, e: Event, p: Portal, q: Portal)
    requires e.ToPortal? && Confined(before, e.id, p) && DeliversOnly(p, q, e.m)
    ensures forall i :: 0 <= i < |q.log.delivered| ==> GrantedActor(before + [e], e.id, q.log.delivered[i].actor)
  {
    forall i | 0 <= i < |q.log.delivered| ensures GrantedActor(before + [e], e.id, q.log.delivered[i].actor) {
      if i < |p.log.delivered| {
        assert q.log.delivered[i] == p.log.delivered[i];
        GrantedLonger(before, e, e.id, q.log.delivered[i].actor);
      } else {
        var cell := p.published[e.m.data.msg.target.id];
        assert Granted(before, e.id, Published(cell.actor, cell.receiver));
        GrantedLonger(before, e, e.id, cell.actor);
      }
    }
  }

  lemma GrantedLonger(before: seq<Event>, e: Event, id: PortalId, actor: ActorId)
    requires GrantedActor(before, id, actor)
    ensures GrantedActor(before + [e], id, actor)
  {
    assert (before + [e])[..|before|] == before;
    var receiver :| Granted(before, id, Published(actor, receiver));
    assert Granted(before + [e], id, Published(actor, receiver));
  }

  lemma PublishedConfined(before: seq<Event>, e: Event, p: Portal, w: World)
    requires CanHappen(before) && e.ToPortal? && e.id in After(before).portals && p == After(before).portals[e.id]
    requires Confined(before, e.id, p) && w == Asked(After(before), e.w)
    ensures forall k :: k in Turn(p, e.m, w).published ==> Granted(before + [e], e.id, Turn(p, e.m, w).published[k])
  {
    var q := Turn(p, e.m, w);
    assert (before + [e])[..|before|] == before;
    RegistryAfter(p, e.m, w);
    if Publication(p, e.m, w).Some? {
      PublicationGranted(before, e.id, e.m, e.w, After(before));
    }
    forall k | k in q.published ensures Granted(before + [e], e.id, q.published[k]) {
      if k in p.published && q.published[k] == p.published[k] {
        assert Granted(before, e.id, p.published[k]);
      }
    }
  }

  lemma ConfinedLonger(before: seq<Event>, e: Event, id: PortalId, p: Portal)
    requires Confined(before, id, p)
    ensures Confined(before + [e], id, p)
  {
    assert (before + [e])[..|before|] == before;
    forall i | 0 <= i < |p.log.delivered| ensures GrantedActor(before + [e], id, p.log.delivered[i].actor) {
      GrantedLonger(before, e, id, p.log.delivered[i].actor);
    }
  }

  /** In every history, whatever the peers send: a portal delivers only to actors made available on that portal. */
  lemma {:induction false} PeersAreConfined(h: seq<Event>)
    requires CanHappen(h)
    ensures forall id :: id in After(h).portals ==> Confined(h, id, After(h).portals[id])
    decreases |h|
  {
    if h != [] {
      var before, e := h[..|h| - 1], h[|h| - 1];
      assert h == before + [e];
      PeersAreConfined(before);
      forall id | id in After(h).portals ensures Confined(h, id, After(h).portals[id]) {
        if e.ToPortal? && e.id == id {
          ConfinedTurn(before, e, After(before).portals[id]);
        } else if id in After(before).portals {
          ConfinedLonger(before, e, id, After(before).portals[id]);
        }
      }
    }
  }

  // ------------------------------------------------------------------------------------------------
  // Portals do not disturb each other

  /** The event is about another portal: what it handled, or that it ended. */
  predicate Elsewhere(e: Event, id: PortalId) {
    match e
    case ToPortal(i, _, _) => i != id
    case Reported(ActorTerminated(actor)) => actor != id
    case Reported(ActorFailed(actor)) => actor != id
    case _ => false
  }

  /** The history without what is about other portals. */
  function Alone(h: seq<Event>, id: PortalId): seq<Event> {
    if h == [] then []
    else if Elsewhere(h[|h| - 1], id) then Alone(h[..|h| - 1], id)
    else Alone(h[..|h| - 1], id) + [h[|h| - 1]]
  }

  /** Equal as far as portal `id` and whoever asks the nexus for names can tell. */
  predicate SameFor(id: PortalId, s: System, t: System) {
    && s.nexus.named == t.nexus.named && s.nexus.failed == t.nexus.failed
    && (id in s.nexus.portals <==> id in t.nexus.portals)
    && s.portals.Keys == t.portals.Keys && (id in s.portals ==> s.portals[id] == t.portals[id])
  }

  lemma KeptEvent(id: PortalId, s: System, t: System, e: Event)
    requires SameFor(id, s, t) && Possible(s, e) && !Elsewhere(e, id)
    ensures Possible(t, e) && SameFor(id, Happen(s, e), Happen(t, e))
  {
  }

  lemma DroppedEvent(id: PortalId, s: System, t: System, e: Event)
    requires SameFor(id, s, t) && Possible(s, e) && Elsewhere(e, id)
    ensures SameFor(id, Happen(s, e), t)
  {
  }

  /** A portal's state, its place in the list of the nexus, and the names and the life of the nexus are what they would be
      had the other portals neither handled anything nor ended. */
  lemma {:induction false} OthersDoNotMatter(h: seq<Event>, id: PortalId)
    requires CanHappen(h)
    ensures CanHappen(Alone(h, id)) && SameFor(id, After(h), After(Alone(h, id)))
    decreases |h|
  {
    if h != [] {
      var before, e := h[..|h| - 1], h[|h| - 1];
      OthersDoNotMatter(before, id);
      if Elsewhere(e, id) {
        DroppedEvent(id, After(before), After(Alone(before, id)), e);
      } else {
        KeptEvent(id, After(before), After(Alone(before, id)), e);
        assert Alone(h, id)[..|Alone(h, id)| - 1] == Alone(before, id);
      }
    }
  }

  /** A portal that cannot start, or a callback or reply nobody receives. */
  predicate EndsNexus(mail: NexusMail) {
    match mail
    case Connected(_, spawned, callbackGone, replyGone) => spawned.None? || callbackGone || replyGone
    case GetAllPortals(replyGone) => replyGone
    case PublishOnNexus(_, _) => false
    case QueryNamedActor(_, replyGone) => replyGone
  }

  /** The nexus ends by its own messages only: nothing a portal handles, and no end of a portal, ends it. */
  lemma {:induction false} NexusEndsByItself(h: seq<Event>)
    requires CanHappen(h)
    ensures After(h).nexus.failed <==> exists i :: 0 <= i < |h| && h[i].ToNexus? && EndsNexus(h[i].mail)
    decreases |h|
  {
    if h != [] {
      var before, e := h[..|h| - 1], h[|h| - 1];
      NexusEndsByItself(before);
      assert forall i :: 0 <= i < |before| ==> h[i] == before[i];
      if e.ToNexus? && EndsNexus(e.mail) {
        assert h[|h| - 1].ToNexus? && EndsNexus(h[|h| - 1].mail);
      }
    }
  }
}
