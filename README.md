# Mediator and Command patterns, modelled in Dafny

This project models two small C# console programs from the
`ChainsOfResponsebilityPattern` solution and proves what they print.

**Mediator** (`MediatorPattern/Program.cs`). Three components report every
action to a `ConcreteMediator` as a one-letter event name:

- Component1 has `DoA` and `DoB`.
- Component2 has `DoC` and `DoD`.
- Component3 has `DoA` and `DoB`.

The mediator runs three independent checks on the name:

- on A it runs `Component2.DoC`;
- on D it runs `Component1.DoB` and then `Component2.DoC`;
- on B it runs `Component3.DoA`.

Any other name, "C" included, does nothing. Triggered actions notify the
mediator in turn, so one client call prints a cascade. The model proves:

- the cascade always ends: every triggered action reports an event of strictly lower rank, D > B > A > C;
- `Notify` is exactly a reading of its routing table;
- the exact 21-line output of the client program.

**Command** (`CommandPattern/Program.cs`). `InvokerOne` has three optional
command slots: start, middle and finish. `DoSomethingImportant` prints four
fixed announcements and runs each slot that is not null.

- `WaiterOne` prints its payload.
- `WaiterTwo` and `WaiterThree` print a header, then call a `Receiver` twice.

The model proves:

- the four announcements appear on every run, in order, whatever the slots hold;
- apart from them, the output is exactly the present commands' output, in slot order;
- each present command runs once, and only once;
- the exact 11-line output of the client program.

How the programs are represented:

- **Console.** Both programs write to a `ConsoleLog.Console`, an append-only log of abstract lines.
- **Output as functions.** The output of every operation is stated as a function of its inputs: `NotifyTrace`, `ActionTrace`, `ExecuteTrace` and `InvokeTrace`.
- **Methods.** The imperative methods are proved to append exactly that function's value to the log.
- **Properties.** The properties are proved as lemmas about those functions.

Files:

- `console.dfy` holds the console and the `Filter` helpers.
- `mediator.dfy` holds the Mediator program.
- `command.dfy` holds the Command program.

## Model

| member | source | states |
|---|---|---|
| MediatorPattern.Parse | ChainsOfResponsebilityPattern/MediatorPattern/Program.cs:34-52 | the string `Notify` compares is one of the four letters exactly when it parses to that letter's event; any other string is kept unchanged as `Other`; the result is always canonical, so every string has exactly one event |
| MediatorPattern.ParseName | ChainsOfResponsebilityPattern/MediatorPattern/Program.cs:34-52 | writing a canonical event's name and reading it back gives the same event |
| MediatorPattern.NameParse | ChainsOfResponsebilityPattern/MediatorPattern/Program.cs:34-52 | reading any string as an event and writing it back gives the same string |
| MediatorPattern.NotifyTrace | ChainsOfResponsebilityPattern/MediatorPattern/Program.cs:34-52 | for every canonical event, `Notify` prints something exactly when the event is routed (A, B or D), and then its first line is the mediator's reaction to that event |
| MediatorPattern.ActionTrace | ChainsOfResponsebilityPattern/MediatorPattern/Program.cs:75-124 | every component action prints its own line first |
| MediatorPattern.NotifyCases | ChainsOfResponsebilityPattern/MediatorPattern/Program.cs:36-51 | the three checks exclude each other: the output is one branch's reaction and triggered actions, or nothing |
| MediatorPattern.RunSteps | ChainsOfResponsebilityPattern/MediatorPattern/Program.cs:39-50 | running a list of triggered actions prints at least one line per action |
| MediatorPattern.NotifyFollowsRoutes | ChainsOfResponsebilityPattern/MediatorPattern/Program.cs:34-52 | for a routed event, `Notify` prints the reaction and then runs that event's route in declaration order; for any other event it prints nothing |
| MediatorPattern.NotifyByName | ChainsOfResponsebilityPattern/MediatorPattern/Program.cs:34-52 | for any string, the mediator reacts if and only if the string is "A", "B" or "D" |
| MediatorPattern.NotifyTraceShape | ChainsOfResponsebilityPattern/MediatorPattern/Program.cs:34-52 | everything `Notify` prints names only actions the components declare and reactions only to routed events; every action triggered at any depth reports an event of strictly lower rank, so the mutual recursion terminates |
| MediatorPattern.ActionTraceShape | ChainsOfResponsebilityPattern/MediatorPattern/Program.cs:75-124 | an action's whole cascade is well formed, and no action in it reports an event ranked above the action's own |
| MediatorPattern.ActionNotifiesOwnName | ChainsOfResponsebilityPattern/MediatorPattern/Program.cs:75-124 | when an action's own letter is routed, the line right after the action's own line is the mediator's reaction to that letter; when it is not (C), the action prints only its own line |
| MediatorPattern.RoutedTraces | ChainsOfResponsebilityPattern/MediatorPattern/Program.cs:34-124 | the complete cascade for each of the events C, A, B and D |
| MediatorPattern.DemoActionTraces | ChainsOfResponsebilityPattern/MediatorPattern/Program.cs:134-145 | the complete cascades of the client's three calls, `Component1.DoA`, `Component2.DoD` and `Component3.DoB` |
| MediatorPattern.DemoOutputExact | ChainsOfResponsebilityPattern/MediatorPattern/Program.cs:127-148 | the client program prints exactly 21 lines, listed one by one |
| MediatorPattern.Component.constructor | ChainsOfResponsebilityPattern/MediatorPattern/Program.cs:61-64 | a new component has its class and the given mediator, which may be null |
| MediatorPattern.Component.SetMediator | ChainsOfResponsebilityPattern/MediatorPattern/Program.cs:66-69 | the component's mediator becomes the given one |
| MediatorPattern.Component.Do | ChainsOfResponsebilityPattern/MediatorPattern/Program.cs:77-123 | a declared action on a component bound to a wired mediator appends exactly that action's cascade to the console |
| MediatorPattern.ConcreteMediator.constructor | ChainsOfResponsebilityPattern/MediatorPattern/Program.cs:24-32 | the mediator stores the three components and binds each one to itself, leaving a wired mediator |
| MediatorPattern.ConcreteMediator.Notify | ChainsOfResponsebilityPattern/MediatorPattern/Program.cs:34-52 | on a wired mediator and a canonical event, appends exactly `NotifyTrace(ev)` to the console |
| MediatorPattern.RunClient | ChainsOfResponsebilityPattern/MediatorPattern/Program.cs:134-145 | the client's three requests on a wired mediator print exactly the demo output |
| MediatorPattern.Demo | ChainsOfResponsebilityPattern/MediatorPattern/Program.cs:127-148 | creating the components and mediator and running the client prints exactly the demo output |
| CommandPattern.Receiver.DoSomething | ChainsOfResponsebilityPattern/CommandPattern/Program.cs:91-94 | appends one line naming its argument |
| CommandPattern.Receiver.DoSomethingElse | ChainsOfResponsebilityPattern/CommandPattern/Program.cs:96-99 | appends one line naming its argument |
| CommandPattern.ExecuteTrace | ChainsOfResponsebilityPattern/CommandPattern/Program.cs:15-84 | every command's output is non-empty and starts with a command header |
| CommandPattern.Command.Execute | ChainsOfResponsebilityPattern/CommandPattern/Program.cs:15-84 | executing a command appends exactly its `ExecuteTrace` |
| CommandPattern.ExecuteCalls | ChainsOfResponsebilityPattern/CommandPattern/Program.cs:24-83 | each command prints exactly one header; `WaiterOne` prints only its payload and calls no receiver; `WaiterTwo` and `WaiterThree` have the receiver work on `a` and then on `b`, once each |
| CommandPattern.HeadersOfRunAll | ChainsOfResponsebilityPattern/CommandPattern/Program.cs:24-83 | running a list of commands prints exactly one header per command |
| CommandPattern.Present | ChainsOfResponsebilityPattern/CommandPattern/Program.cs:131-148 | the commands that run are exactly those of the non-null slots: one per non-null slot, every non-null slot's command among them, and each one held by some slot |
| CommandPattern.RunSlot | ChainsOfResponsebilityPattern/CommandPattern/Program.cs:131-134 | a null slot prints nothing; a filled slot prints its command's output |
| CommandPattern.SlotTraceIsCommandOutput | ChainsOfResponsebilityPattern/CommandPattern/Program.cs:131-148 | a slot never prints an invoker announcement |
| CommandPattern.InvokerOne.constructor | ChainsOfResponsebilityPattern/CommandPattern/Program.cs:104-108 | a new invoker has all three slots null |
| CommandPattern.InvokerOne.SetOnStart | ChainsOfResponsebilityPattern/CommandPattern/Program.cs:111-114 | sets the start slot and leaves the other two unchanged |
| CommandPattern.InvokerOne.SetOnMiddle | ChainsOfResponsebilityPattern/CommandPattern/Program.cs:116-119 | sets the middle slot and leaves the other two unchanged |
| CommandPattern.InvokerOne.SetOnFinish | ChainsOfResponsebilityPattern/CommandPattern/Program.cs:121-124 | sets the finish slot and leaves the other two unchanged |
| CommandPattern.InvokerOne.DoSomethingImportant | ChainsOfResponsebilityPattern/CommandPattern/Program.cs:128-149 | appends exactly `InvokeTrace` of the current slots: the four announcements with each slot's output at its point |
| CommandPattern.AnnouncementsAlwaysPrinted | ChainsOfResponsebilityPattern/CommandPattern/Program.cs:128-149 | for every combination of slots, the invoker's announcements are exactly the four, in their fixed order |
| CommandPattern.CommandsRunInSlotOrder | ChainsOfResponsebilityPattern/CommandPattern/Program.cs:128-149 | for every combination of slots, the non-announcement output is exactly the present commands' outputs in start, middle, finish order |
| CommandPattern.RunThreeSlots | ChainsOfResponsebilityPattern/CommandPattern/Program.cs:131-148 | running the present commands of the three slots prints the three slots' outputs in order |
| CommandPattern.EachPresentCommandOnce | ChainsOfResponsebilityPattern/CommandPattern/Program.cs:128-149 | a run prints exactly as many command headers as there are non-null slots (`CountSome`), so each present command runs exactly once |
| CommandPattern.Demo | ChainsOfResponsebilityPattern/CommandPattern/Program.cs:154-168 | the client program prints exactly 11 lines, listed one by one |

## Left out

- **Text.** Console text is abstracted to one `Line` constructor per kind of line. The wording, the interpolation formats and the spelling slips in the messages are not modelled. Examples of slips: "triggets", "folowing", "opeartion", "somthing", and the missing full stop after "Client triggers opeartion B".
- **Input.** The final `Console.ReadLine()` of each program only waits for input, so it is not modelled.
- **Sender.** The `sender` argument of `Notify` is never read by the mediator, so it is not modelled.
- **Open types.** `IMediator` and `ICommand` are open interfaces, and the components inherit from `BaseComponent`. The model closes both sets:
  - a `Kind` field names the component class;
  - a `Command` datatype has one constructor per command class.

  Other mediator or command implementations are not modelled.
- **Event names.** The mediator compares event-name strings; the model uses an `Event` datatype. `Parse`, `ParseName` and `NameParse` relate the two, and `NotifyByName` states the mediator's behaviour for every string.
- MediatorPattern.ConcreteMediator.Notify: requires a `Canonical` event, one whose `Other` case never holds one of the four letters. Every string has exactly one canonical event (`Parse`), so no string the source can pass is excluded; the requirement only rules out a second spelling of the same name.
- MediatorPattern.Component.Do: requires the component's mediator to be bound and wired. The source calls `Notify` on a null mediator without a check, which raises `NullReferenceException`. That happens, for example, when an action runs before the `ConcreteMediator` is built. The code has no such check, so the model follows the code and makes the binding a precondition.
- MediatorPattern.Component.Do: one method, parameterised by the action, stands for the two action methods of each component class. Its `Owns` precondition stands for the C# type rules that reject calling an action a class does not declare.
- MediatorPattern.ConcreteMediator.constructor: takes non-null components. In the source, passing null for a component throws `NullReferenceException` when the constructor calls `SetMediator` on it (line 27 for the first component). The model does not capture that failure.
- MediatorPattern.ConcreteMediator.constructor: the source stores and binds each component in turn; the model stores all three first and then binds them. Nothing runs in between, so the final state is the same.
- MediatorPattern.RunClient: requires an empty console, so its result can be stated as the demo output itself. `Demo` supplies a fresh console.
- **Recursion depth.** The source has no guard against deep recursion between `Notify` and the components. The model instead proves that the cascade terminates (`NotifyTraceShape`), so no bound is needed.
- CommandPattern.Command.Execute: a `WaiterTwo` or `WaiterThree` always holds a non-null receiver. In the source, a command built with a null receiver prints its header and then throws `NullReferenceException` on the first receiver call (lines 54 and 81). The model does not capture that failure.
- **Receiver identity.** Which `Receiver` object a command holds does not show in the output, and no property depends on it. `WaiterTwo` and `WaiterThree` behave identically, as in the source.
- **Null slots.** A null command slot is `None`. Because `Command` is closed, the `is ICommand` test is exactly a null test.
