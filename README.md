# Borg module event relay and rules popup gate

This project models two pieces of a multiplayer game server's entity-component-system layer.

**Borg chassis to module relay** (`BorgRelay`, borg_relay.dfy). An event raised on a borg chassis is raised again on every module entity in the chassis's module container, in container order. Every module gets the same `BorgModuleRelayedEvent` wrapper, built once from the event before the loop.
- The by-value relay (`RelayToModule`) never copies the wrapper's payload back into the caller's event.
- The by-ref relay (`RelayRefToModule`) writes the payload back into the caller's `ref args` after each module.

The subscription table made by `InitializeRelay` decides which relay the bus runs for each event type. The entity event bus is the class `EventBus`. Its `RaiseLocalEvent` applies an abstract handler `(world, module, wrapper) -> (world, wrapper)` and logs each delivery. `world` stands for all game state a handler may change. Both relays are proved against two specification functions:
- `Fold`: the left fold of the handlers over the modules;
- `Trace`: the deliveries, meaning each module with the payload it received.

Lemmas about `Fold` and `Trace` give the ordering and hand-over properties.

**Rules popup gate** (`Rules`, rules_manager.dfy). When a player connects, the server sends a message saying whether to show the rules. They are not shown when either of these holds:
- the connection is from a loopback address and the `RulesExemptLocal` flag is set;
- the player accepted the rules less than 60 days ago.

Accepting the rules records the current time. A flagged acceptance from a player with a live session writes an admin log entry. `DateTime` is an integer count of 100 ns ticks. The clock, the database record, the loopback test, the config values and the session lookup are all parameters.

A by-value event might be expected to give each module its own copy of the payload. The code (Content.Shared/Silicons/Borgs/SharedBorgSystem.Relay.cs:19-24) builds one wrapper and passes it by reference to every module in turn, so module i+1 sees module i's changes even in the by-value relay. The model follows the code.

## Model

| member | source | states |
|---|---|---|
| BorgRelay.EventBus.RaiseLocalEvent | Content.Shared/Silicons/Borgs/SharedBorgSystem.Relay.cs:23 | raising the wrapper on a module logs exactly that module with the payload it received, and the new game state and wrapper are what that module's handler returns |
| BorgRelay.FoldAppend | Content.Shared/Silicons/Borgs/SharedBorgSystem.Relay.cs:31-35 | relaying over a concatenation of module lists is relaying over the second list from where the first left off, so the relay is a left fold in container order |
| BorgRelay.FoldSnoc | Content.Shared/Silicons/Borgs/SharedBorgSystem.Relay.cs:31-35 | handling one more module applies that module's handler to the state left by the modules before it |
| BorgRelay.TraceSnoc | Content.Shared/Silicons/Borgs/SharedBorgSystem.Relay.cs:31-35 | one more module adds exactly one event, raised on that module and carrying the payload the earlier modules left |
| BorgRelay.TraceDeliversInOrder | Content.Shared/Silicons/Borgs/SharedBorgSystem.Relay.cs:21-35 | exactly one event per contained module, the i-th raised on the i-th module, which receives the fold of the first i modules; the first module receives the original args |
| BorgRelay.NextModuleSeesPreviousChange | Content.Shared/Silicons/Borgs/SharedBorgSystem.Relay.cs:19-24 | because one wrapper is shared, module i+1 receives exactly the Args that module i's handler left in it |
| BorgRelay.OrderMatters | Content.Shared/Silicons/Borgs/SharedBorgSystem.Relay.cs:31-35 | with a doubling handler and an incrementing handler, the two container orders give different results (3 and 4), so container order is significant |
| BorgRelay.RelaySubscriptions | Content.Shared/Silicons/Borgs/SharedBorgSystem.Relay.cs:11-14 | every relay subscription is keyed on the chassis component, no event is subscribed twice, both DamageModifyEvent and BorgModuleInsertAttemptEvent are subscribed, and only the insert attempt is by reference |
| BorgRelay.ModeFor | Content.Shared/Silicons/Borgs/SharedBorgSystem.Relay.cs:11-14 | the subscription lookup finds nothing exactly when no subscription has the component and event; a found mode belongs to the first such subscription |
| BorgRelay.RelayTable | Content.Shared/Silicons/Borgs/SharedBorgSystem.Relay.cs:11-14 | on BorgChassisComponent, DamageModifyEvent is relayed by value and BorgModuleInsertAttemptEvent by reference |
| BorgRelay.BorgSystem.InitializeRelay | Content.Shared/Silicons/Borgs/SharedBorgSystem.Relay.cs:9-15 | adds the two chassis subscriptions, by-value damage then by-ref insert attempt, and nothing else |
| BorgRelay.BorgSystem.RelayToModule | Content.Shared/Silicons/Borgs/SharedBorgSystem.Relay.cs:17-25 | the bus's log grows by the trace over the contained modules and the game state is the fold's; only the bus changes, never the chassis or the system |
| BorgRelay.BorgSystem.RelayRefToModule | Content.Shared/Silicons/Borgs/SharedBorgSystem.Relay.cs:27-36 | the caller's args and the game state end as the left fold over the modules, and the log grows by the trace; with no modules, args, state and log are unchanged; proved by the loop invariant "after k modules, args is the fold of the first k" |
| BorgRelay.BorgSystem.Dispatch | Content.Shared/Silicons/Borgs/SharedBorgSystem.Relay.cs:11-27 | with no subscription nothing is raised; a by-value subscription leaves the raiser's args unchanged whatever the modules do; a by-ref one leaves the fold's payload |
| BorgRelay.CounterScenario | Content.Shared/Silicons/Borgs/SharedBorgSystem.Relay.cs:27-36 | three modules each adding one to a by-ref counter from 0 leave 3, raised on the modules in container order receiving 0, 1, 2 |
| Rules.LastValidReadTime | Content.Server/Info/RulesManager.cs:21 | the cut-off read time lies strictly before now, exactly 60 whole days (of 100 ns ticks) back |
| Rules.LocalhostExemption | Content.Server/Info/RulesManager.cs:32-33 | a loopback connection with the RulesExemptLocal flag set is never shown the rules; when either is missing, the rules are shown exactly when there is no cooldown, so a player with no recorded read is shown them |
| Rules.HasCooldown | Content.Server/Info/RulesManager.cs:36 | cooldown holds exactly when a read is recorded and fewer than 60 days of ticks have passed since it |
| Rules.ConnectMessage | Content.Server/Info/RulesManager.cs:38-42 | the rules are shown exactly when the player is not localhost-exempt and has no read in the last 60 days; an exempt player is never shown them; popup time and rules file come from the config |
| Rules.CooldownBoundary | Content.Server/Info/RulesManager.cs:21 | a read exactly 60 days before now gives no cooldown; one tick later it does |
| Rules.CooldownMonotoneInLastRead | Content.Server/Info/RulesManager.cs:36 | moving the recorded read later never removes a cooldown |
| Rules.CooldownExpiresOverTime | Content.Server/Info/RulesManager.cs:21 | connecting later never creates a cooldown that an earlier connect did not have |
| Rules.FuckRulesLogEntry | Content.Server/Info/RulesManager.cs:51-52 | the admin log entry exists exactly when the message flag is set and a session is found; it is a Connection entry of Extreme impact |
| Rules.RulesManager.OnConnected | Content.Server/Info/RulesManager.cs:30-45 | exactly one message is sent, to the connecting channel, carrying the decision for the player's stored read time; the database and the admin log are unchanged |
| Rules.RulesManager.OnRulesAccepted | Content.Server/Info/RulesManager.cs:47-53 | the player's read time becomes now and no other record changes; the admin log grows by the fuckrules entry exactly when one is due |
| Rules.AcceptThenConnect | Content.Server/Info/RulesManager.cs:49-50 | accepting at t and then connecting at t' with t' minus 60 days before t records t and sends a message that does not show the rules |

## Left out

- Handler failures: an exception thrown by a module's handler, which stops the remaining modules, is not modelled. Every handler here is total.
- Event objects by reference: `RelayToModule` takes `EntityEventArgs`, a class. The payload in the model is the reference. Changes a handler makes to the referenced object's fields belong to the abstract game state `world`.
- Container changes during the relay: in the source nothing stops a module's handler from inserting or ejecting a module while the `foreach` over the container runs. The model reads the container once before the loop and gives handlers no access to it, so it does not capture what the enumeration does when the container changes under it.
- Duplicate subscriptions: the bus rejects a second subscription for the same component and event. The bus is not part of this model, so `InitializeRelay` only appends, and `ModeFor` takes the first match.
- The `uid` parameter of both relays is carried but, as in the source, not used.
- Async handlers: `OnConnected` and `OnRulesAccepted` await the database. Other handlers running between their steps are not modelled. Each handler is one atomic state update.
- `GetLastReadRules` and `SetLastReadRules` are a map from user to read time. The database return type is not part of this model. A player with no record gets no value, and no value never counts as a recent read.
- `IPAddress.IsLoopback`, the config variables, `DateTime.UtcNow` and `TryGetSessionById` are inputs. Net message registration in `Initialize` is left out: it only wires handlers.
- The admin log message is written out literally. The session is represented by the name it prints as.
- MindContainerComponent, ComponentBorgModuleComponent, TriggerOnRotComponent and BeginRottingEvent are data declarations with no logic and are not modelled.
