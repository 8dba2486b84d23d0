/** The nexus: the portals it supervises and the actors published for all of them. */
module Nexus {
  import opened Bytes
  import opened Portal

  type PortalId = nat

  datatype NexusMail =
    | Connected(identifier: string, spawned: Option<PortalId>, callbackGone: bool, replyGone: bool)
    | GetAllPortals(replyGone: bool)
    | PublishOnNexus(name: string, cell: Published)
    | QueryNamedActor(name: string, replyGone: bool)

  datatype SupervisionEvent = ActorTerminated(actor: PortalId) | ActorFailed(actor: PortalId) | OtherEvent

  datatype NexusState = NexusState(portals: map<PortalId, string>, named: map<string, Published>, failed: bool)

  /** One message: a portal that cannot start, or a reply or callback nobody receives, ends the nexus. */
  function NexusTurn(s: NexusState, m: NexusMail): NexusState {
    match m
    case Connected(identifier, spawned, callbackGone, replyGone) =>
      if spawned.None? then s.(failed := true)
      else s.(portals := s.portals[spawned.value := identifier], failed := callbackGone || replyGone)
    case GetAllPortals(replyGone) => s.(failed := replyGone)
    case PublishOnNexus(name, cell) =>
      if name in s.named && s.named[name].actor == cell.actor then s else s.(named := s.named[name := cell])
    case QueryNamedActor(_, replyGone) => s.(failed := replyGone)
  }

  function Supervised(s: NexusState, event: SupervisionEvent): NexusState {
    match event
    case ActorTerminated(actor) => s.(portals := s.portals - {actor})
    case ActorFailed(actor) => s.(portals := s.portals - {actor})
    case OtherEvent => s
  }

  // ------------------------------------------------------------------------------------------------
  // The actor

  class NexusActor {
    var portals: map<PortalId, string>
    var namedActors: map<string, Published>
    var failed: bool

    ghost function View(): NexusState
      reads this
    {
      NexusState(portals, namedActors, failed)
    }

    constructor ()
      ensures View() == NexusState(map[], map[], false)
    {
      portals, namedActors, failed := map[], map[], false;
    }

    method Connected(identifier: string, spawned: Option<PortalId>, callbackGone: bool, replyGone: bool)
      requires !failed
      modifies this
      ensures View() == NexusTurn(old(View()), NexusMail.Connected(identifier, spawned, callbackGone, replyGone))
    {
      if spawned.None? {
        failed := true;
        return;
      }
      portals := portals[spawned.value := identifier];
      if callbackGone {
        failed := true;
        return;
      }
      failed := replyGone;
    }

    /** The values of the map in some order: each portal once. */
    method GetAllPortals(replyGone: bool) returns (all: seq<PortalId>)
      requires !failed
      modifies this`failed
      ensures View() == NexusTurn(old(View()), NexusMail.GetAllPortals(replyGone))
      ensures multiset(all) == multiset(portals.Keys)
    {
      all := [];
      var rest := portals.Keys;
      while rest != {}
        invariant rest <= portals.Keys
        invariant multiset(all) + multiset(rest) == multiset(portals.Keys)
        decreases rest
      {
        var id :| id in rest;
        all := all + [id];
        rest := rest - {id};
      }
      failed := replyGone;
    }

    /** Publishing the same actor again returns early, with the rematerializer it had. */
    method PublishNamedActor(name: string, cell: Published)
      requires !failed
      modifies this`namedActors
      ensures View() == NexusTurn(old(View()), PublishOnNexus(name, cell))
    {
      if name in namedActors {
        var existing := namedActors[name];
        if existing.actor == cell.actor {
          return;
        }
      }
      namedActors := namedActors[name := cell];
    }

    method QueryNamedActor(name: string, replyGone: bool) returns (result: Option<Published>)
      requires !failed
      modifies this`failed
      ensures View() == NexusTurn(old(View()), NexusMail.QueryNamedActor(name, replyGone))
      ensures result == if name in namedActors then Some(namedActors[name]) else None
    {
      if name in namedActors {
        result := Some(namedActors[name]);
      } else {
        result := None;
      }
      failed := replyGone;
    }

    method HandleSupervisorEvt(event: SupervisionEvent)
      modifies this`portals
      ensures View() == Supervised(old(View()), event)
    {
      match event {
        case ActorTerminated(actor) => portals := portals - {actor};
        case ActorFailed(actor) => portals := portals - {actor};
        case OtherEvent =>
      }
    }
  }
}
