/**
 * The borg chassis event relay: an event raised on a borg chassis is raised
 * again on every module entity held in the chassis's module container, in
 * container order, inside one shared wrapper event.
 *
 * The entity event bus is modelled as a class `EventBus` whose
 * `RaiseLocalEvent` runs an abstract, possibly stateful handler on the
 * wrapper and records which module received which payload. The relays are
 * proved against two specification functions: `Fold`, the state the handlers
 * leave behind, and `Trace`, the list of deliveries they receive.
 */
module BorgRelay {
  import opened Wrappers

  type EntityUid = nat

  /** The by-ref wrapper struct raised on each module; its one field is mutable. */
  datatype BorgModuleRelayedEvent<TEvent> = BorgModuleRelayedEvent(Args: TEvent)

  /** One raised event: the module it was raised on and the payload that module received. */
  datatype Delivery<TEvent> = Delivery(target: EntityUid, received: TEvent)

  /**
   * A module's handler for the relayed event: it takes the game state `W` and
   * the wrapper by reference, and gives back the new game state and wrapper.
   */
  type Handler<!W, !TEvent> =
    (W, EntityUid, BorgModuleRelayedEvent<TEvent>) -> (W, BorgModuleRelayedEvent<TEvent>)

  /** The game state together with the payload currently held by the wrapper. */
  datatype RelayState<W, TEvent> = RelayState(world: W, args: TEvent)

  /** Raising the wrapper holding `s.args` on `target`. */
  function Step<W, T>(h: Handler<W, T>, s: RelayState<W, T>, target: EntityUid): RelayState<W, T>
  {
    var (w, ev) := h(s.world, target, BorgModuleRelayedEvent(s.args));
    RelayState(w, ev.Args)
  }

  /** Left fold of the module handlers over `modules`, first module first. */
  function Fold<W, T>(h: Handler<W, T>, s: RelayState<W, T>, modules: seq<EntityUid>): RelayState<W, T>
    decreases |modules|
  {
    if modules == [] then s else Fold(h, Step(h, s, modules[0]), modules[1..])
  }

  /** The deliveries made while folding: each module with the payload it was handed. */
  function Trace<W, T>(h: Handler<W, T>, s: RelayState<W, T>, modules: seq<EntityUid>): seq<Delivery<T>>
    decreases |modules|
  {
    if modules == [] then []
    else [Delivery(modules[0], s.args)] + Trace(h, Step(h, s, modules[0]), modules[1..])
  }

  /** Relaying over a concatenation is relaying over the first part, then over the second from where it left off. */
  lemma {:induction false} FoldAppend<W, T>(h: Handler<W, T>, s: RelayState<W, T>, a: seq<EntityUid>, b: seq<EntityUid>)
    ensures Fold(h, s, a + b) == Fold(h, Fold(h, s, a), b)
    decreases |a|
  {
    if a != [] {
      assert (a + b)[0] == a[0] && (a + b)[1..] == a[1..] + b;
      FoldAppend(h, Step(h, s, a[0]), a[1..], b);
    } else {
      assert a + b == b;
    }
  }

  /** One more module: the loop step of both relays. */
  lemma FoldSnoc<W, T>(h: Handler<W, T>, s: RelayState<W, T>, modules: seq<EntityUid>, m: EntityUid)
    ensures Fold(h, s, modules + [m]) == Step(h, Fold(h, s, modules), m)
  {
    FoldAppend(h, s, modules, [m]);
  }

  /** One more module adds exactly one delivery, carrying the payload left by the modules before it. */
  lemma {:induction false} TraceSnoc<W, T>(h: Handler<W, T>, s: RelayState<W, T>, modules: seq<EntityUid>, m: EntityUid)
    ensures Trace(h, s, modules + [m]) == Trace(h, s, modules) + [Delivery(m, Fold(h, s, modules).args)]
    decreases |modules|
  {
    if modules != [] {
      assert (modules + [m])[1..] == modules[1..] + [m];
      TraceSnoc(h, Step(h, s, modules[0]), modules[1..], m);
    }
  }

  /**
   * Exactly one event per contained module, in container order, and the i-th
   * module receives the payload as the modules before it left it.
   */
  lemma {:induction false} TraceDeliversInOrder<W, T>(h: Handler<W, T>, s: RelayState<W, T>, modules: seq<EntityUid>)
    ensures |Trace(h, s, modules)| == |modules|
    ensures forall i :: 0 <= i < |modules| ==>
      Trace(h, s, modules)[i].target == modules[i] &&
      Trace(h, s, modules)[i].received == Fold(h, s, modules[..i]).args
    decreases |modules|
  {
    if modules != [] {
      var s' := Step(h, s, modules[0]);
      TraceDeliversInOrder(h, s', modules[1..]);
      forall i | 0 <= i < |modules|
        ensures Trace(h, s, modules)[i].target == modules[i]
        ensures Trace(h, s, modules)[i].received == Fold(h, s, modules[..i]).args
      {
        if i > 0 {
          assert modules[..i][1..] == modules[1..][..i - 1];
        }
      }
    }
  }

  /** Module i+1 is handed exactly the payload module i's handler left in the wrapper. */
  lemma NextModuleSeesPreviousChange<W, T>(h: Handler<W, T>, s: RelayState<W, T>, modules: seq<EntityUid>, i: nat)
    requires i + 1 < |modules|
    ensures |Trace(h, s, modules)| == |modules|
    ensures Trace(h, s, modules)[i + 1].received ==
      h(Fold(h, s, modules[..i]).world, modules[i], BorgModuleRelayedEvent(Trace(h, s, modules)[i].received)).1.Args
  {
    TraceDeliversInOrder(h, s, modules);
    assert modules[..i + 1] == modules[..i] + [modules[i]];
    FoldSnoc(h, s, modules[..i], modules[i]);
  }

  /** The relay does not commute: with two different handlers, container order decides the outcome. */
  lemma OrderMatters()
    ensures var h: Handler<(), int> := (w, m, ev: BorgModuleRelayedEvent<int>) =>
              (w, BorgModuleRelayedEvent(if m == 0 then ev.Args * 2 else ev.Args + 1));
            Fold(h, RelayState((), 1), [0, 1]).args == 3 &&
            Fold(h, RelayState((), 1), [1, 0]).args == 4
  {
  }

  /** The entity event bus: runs the handler and records each raised event. */
  class EventBus<W, T> {
    const handler: Handler<W, T>
    var world: W
    var log: seq<Delivery<T>>

    constructor (handler: Handler<W, T>, world: W)
      ensures this.handler == handler && this.world == world && log == []
    {
      this.handler := handler;
      this.world := world;
      log := [];
    }

    /** RaiseLocalEvent(target, ref ev). */
    method RaiseLocalEvent(target: EntityUid, ev: BorgModuleRelayedEvent<T>) returns (evAfter: BorgModuleRelayedEvent<T>)
      modifies this
      ensures log == old(log) + [Delivery(target, ev.Args)]
      ensures (world, evAfter) == handler(old(world), target, ev)
    {
      log := log + [Delivery(target, ev.Args)];
      var (w, e) := handler(world, target, ev);
      world := w;
      evAfter := e;
    }
  }

  /** The chassis component; `moduleContainer` is its container's ContainedEntities, in order. */
  class BorgChassisComponent {
    var moduleContainer: seq<EntityUid>

    constructor (modules: seq<EntityUid>)
      ensures moduleContainer == modules
    {
      moduleContainer := modules;
    }
  }

  /** The component types and event types the relay subscribes on. */
  datatype ComponentType = BorgChassis
  datatype EventType = DamageModifyEvent | BorgModuleInsertAttemptEvent

  /** Whether the subscribed handler takes its event by value or by reference. */
  datatype RelayMode = ByValue | ByRef

  datatype Subscription = Subscription(component: ComponentType, event: EventType, mode: RelayMode)

  /** The subscriptions InitializeRelay adds, in order. */
  function RelaySubscriptions(): (r: seq<Subscription>)
    ensures forall i :: 0 <= i < |r| ==> r[i].component == BorgChassis
    ensures forall i, j :: 0 <= i < j < |r| ==> r[i].event != r[j].event
    ensures forall i :: 0 <= i < |r| ==> (r[i].mode == ByRef <==> r[i].event == BorgModuleInsertAttemptEvent)
    ensures exists i :: 0 <= i < |r| && r[i].event == DamageModifyEvent
    ensures exists i :: 0 <= i < |r| && r[i].event == BorgModuleInsertAttemptEvent
  {
    var r := [Subscription(BorgChassis, DamageModifyEvent, ByValue),
              Subscription(BorgChassis, BorgModuleInsertAttemptEvent, ByRef)];
    assert r[0].event == DamageModifyEvent && r[1].event == BorgModuleInsertAttemptEvent;
    r
  }

  /** The relay mode of the first subscription for the pair, if any. */
  function ModeFor(subs: seq<Subscription>, component: ComponentType, event: EventType): (r: Option<RelayMode>)
    ensures r.None? <==> forall i :: 0 <= i < |subs| ==> !(subs[i].component == component && subs[i].event == event)
    ensures r.Some? ==> exists i :: 0 <= i < |subs| && subs[i] == Subscription(component, event, r.value) &&
                          (forall j :: 0 <= j < i ==> !(subs[j].component == component && subs[j].event == event))
    decreases |subs|
  {
    if subs == [] then None
    else if subs[0].component == component && subs[0].event == event then Some(subs[0].mode)
    else
      var r := ModeFor(subs[1..], component, event);
      assert forall i :: 1 <= i < |subs| ==> subs[i] == subs[1..][i - 1];
      r
  }

  /** After InitializeRelay on an empty table, damage is relayed by value and insert attempts by reference. */
  lemma RelayTable()
    ensures ModeFor(RelaySubscriptions(), BorgChassis, DamageModifyEvent) == Some(ByValue)
    ensures ModeFor(RelaySubscriptions(), BorgChassis, BorgModuleInsertAttemptEvent) == Some(ByRef)
  {
  }

  /** The borg system: its subscription table and the two relays. */
  class BorgSystem {
    var subscriptions: seq<Subscription>

    constructor ()
      ensures subscriptions == []
    {
      subscriptions := [];
    }

    method InitializeRelay()
      modifies this
      ensures subscriptions == old(subscriptions) + RelaySubscriptions()
    {
      subscriptions := subscriptions + [Subscription(BorgChassis, DamageModifyEvent, ByValue)];
      subscriptions := subscriptions + [Subscription(BorgChassis, BorgModuleInsertAttemptEvent, ByRef)];
    }

    /**
     * RelayToModule: one wrapper, built from `args` before the loop, is raised
     * by reference on each module in turn; the payload it ends with is dropped.
     */
    method RelayToModule<W, T>(bus: EventBus<W, T>, uid: EntityUid, component: BorgChassisComponent, args: T)
      modifies bus
      ensures bus.log == old(bus.log) + Trace(bus.handler, RelayState(old(bus.world), args), component.moduleContainer)
      ensures bus.world == Fold(bus.handler, RelayState(old(bus.world), args), component.moduleContainer).world
    {
      var ev := BorgModuleRelayedEvent(args);
      var modules := component.moduleContainer;
      ghost var s0 := RelayState(bus.world, args);
      for i := 0 to |modules|
        invariant RelayState(bus.world, ev.Args) == Fold(bus.handler, s0, modules[..i])
        invariant bus.log == old(bus.log) + Trace(bus.handler, s0, modules[..i])
      {
        FoldSnoc(bus.handler, s0, modules[..i], modules[i]);
        TraceSnoc(bus.handler, s0, modules[..i], modules[i]);
        assert modules[..i + 1] == modules[..i] + [modules[i]];
        ev := bus.RaiseLocalEvent(modules[i], ev);
      }
      assert modules[..|modules|] == modules;
    }

    /**
     * RelayRefToModule: like RelayToModule, but after each module the
     * wrapper's payload is written back into the caller's `ref args`.
     */
    method RelayRefToModule<W, T>(bus: EventBus<W, T>, uid: EntityUid, component: BorgChassisComponent, args: T)
      returns (argsAfter: T)
      modifies bus
      ensures RelayState(bus.world, argsAfter) ==
        Fold(bus.handler, RelayState(old(bus.world), args), component.moduleContainer)
      ensures bus.log == old(bus.log) + Trace(bus.handler, RelayState(old(bus.world), args), component.moduleContainer)
      ensures component.moduleContainer == [] ==>
        argsAfter == args && bus.world == old(bus.world) && bus.log == old(bus.log)
    {
      argsAfter := args;
      var ev := BorgModuleRelayedEvent(args);
      var modules := component.moduleContainer;
      ghost var s0 := RelayState(bus.world, args);
      for i := 0 to |modules|
        invariant ev.Args == argsAfter
        invariant RelayState(bus.world, argsAfter) == Fold(bus.handler, s0, modules[..i])
        invariant bus.log == old(bus.log) + Trace(bus.handler, s0, modules[..i])
      {
        FoldSnoc(bus.handler, s0, modules[..i], modules[i]);
        TraceSnoc(bus.handler, s0, modules[..i], modules[i]);
        assert modules[..i + 1] == modules[..i] + [modules[i]];
        ev := bus.RaiseLocalEvent(modules[i], ev);
        argsAfter := ev.Args;
      }
      assert modules[..|modules|] == modules;
    }

    /**
     * The bus raising `event` on a chassis: the subscription found for it
     * picks the relay, and `argsAfter` is what the raiser's own variable holds
     * afterwards (a by-value subscription receives a copy of the raiser's
     * variable, a by-ref one receives the variable itself).
     */
    method Dispatch<W, T>(bus: EventBus<W, T>, uid: EntityUid, component: BorgChassisComponent, event: EventType, args: T)
      returns (argsAfter: T)
      modifies bus
      ensures ModeFor(subscriptions, BorgChassis, event).None? ==>
        argsAfter == args && bus.world == old(bus.world) && bus.log == old(bus.log)
      ensures ModeFor(subscriptions, BorgChassis, event).Some? ==>
        bus.log == old(bus.log) + Trace(bus.handler, RelayState(old(bus.world), args), component.moduleContainer) &&
        bus.world == Fold(bus.handler, RelayState(old(bus.world), args), component.moduleContainer).world
      ensures ModeFor(subscriptions, BorgChassis, event) == Some(ByValue) ==> argsAfter == args
      ensures ModeFor(subscriptions, BorgChassis, event) == Some(ByRef) ==>
        argsAfter == Fold(bus.handler, RelayState(old(bus.world), args), component.moduleContainer).args
    {
      match ModeFor(subscriptions, BorgChassis, event)
      case None =>
        argsAfter := args;
      case Some(ByValue) =>
        RelayToModule(bus, uid, component, args);
        argsAfter := args;
      case Some(ByRef) =>
        argsAfter := RelayRefToModule(bus, uid, component, args);
    }
  }

  /** Three modules that each add one to a counter starting at 0: the counter ends at 3, raised on A, B, C in order. */
  method CounterScenario() returns (counter: int, log: seq<Delivery<int>>)
    ensures counter == 3
    ensures log == [Delivery(10, 0), Delivery(11, 1), Delivery(12, 2)]
  {
    var bus := new EventBus<(), int>((w, m, ev: BorgModuleRelayedEvent<int>) => (w, BorgModuleRelayedEvent(ev.Args + 1)), ());
    var chassis := new BorgChassisComponent([10, 11, 12]);
    var system := new BorgSystem();
    counter := system.RelayRefToModule(bus, 1, chassis, 0);
    log := bus.log;
  }
}
