/** The Mediator program: three components that report each action to a
    concrete mediator, which reacts to some event names by triggering
    further component actions. Console output is an abstract log. */
module MediatorPattern {
  import opened ConsoleLog

  /** Which of the three concrete component classes an object is. */
  datatype Kind = Component1 | Component2 | Component3

  /** The action methods the components offer. */
  datatype Action = DoA | DoB | DoC | DoD

  /** An event name passed to `Notify`: one of the four names the
      components send, or any other string. */
  datatype Event = A | B | C | D | Other(name: string)

  /** One console line of the program. */
  datatype Line =
    | Did(who: Kind, act: Action)      // a component reports the action it does
    | Reacts(ev: Event)                // the mediator announces its reaction to an event
    | ClientTriggers(op: Event)        // the client announces the operation it starts
    | Blank                            // an empty line

  /** One entry of a route: an action to run on a component. */
  datatype Step = Step(who: Kind, act: Action)

  /** The string an event stands for. */
  function Name(ev: Event): string
  {
    match ev
    case A => "A"
    case B => "B"
    case C => "C"
    case D => "D"
    case Other(name) => name
  }

  /** An event in canonical form: `Other` never holds one of the four
      letters, which have events of their own. */
  predicate Canonical(ev: Event)
  {
    ev.Other? ==> ev.name !in {"A", "B", "C", "D"}
  }

  /** Reads an event-name string: the four letters become their events,
      every other string is `Other`. */
  function Parse(name: string): (ev: Event)
    ensures Canonical(ev)
    ensures ev.Other? <==> name !in {"A", "B", "C", "D"}
    ensures ev.Other? ==> ev.name == name
  {
    if name == "A" then A
    else if name == "B" then B
    else if name == "C" then C
    else if name == "D" then D
    else Other(name)
  }

  /** Writing an event and reading it back gives the event again, for every
      event whose `Other` name is not one of the four letters. */
  lemma ParseName(ev: Event)
    requires Canonical(ev)
    ensures Parse(Name(ev)) == ev
  {
  }

  /** Reading a string and writing it back gives the string again. */
  lemma NameParse(name: string)
    ensures Name(Parse(name)) == name
  {
  }

  /** The actions each component class declares: Component1 and Component3
      have DoA and DoB, Component2 has DoC and DoD. */
  predicate Owns(who: Kind, act: Action)
  {
    match who
    case Component1 => act == DoA || act == DoB
    case Component2 => act == DoC || act == DoD
    case Component3 => act == DoA || act == DoB
  }

  /** The event an action reports to the mediator: its own letter. */
  function EventOf(act: Action): Event
  {
    match act
    case DoA => A
    case DoB => B
    case DoC => C
    case DoD => D
  }

  /** The mediator's routing table, in declaration order. Events without a
      route (C and every other name) trigger nothing. */
  function Route(ev: Event): seq<Step>
  {
    match ev
    case A => [Step(Component2, DoC)]
    case D => [Step(Component1, DoB), Step(Component2, DoC)]
    case B => [Step(Component3, DoA)]
    case _ => []
  }

  /** The events the mediator reacts to. */
  predicate Routed(ev: Event)
  {
    Route(ev) != []
  }

  /** A rank under which every route goes strictly downwards:
      C (and every other name) < A < B < D. */
  function Rank(ev: Event): nat
  {
    match ev
    case D => 3
    case B => 2
    case A => 1
    case _ => 0
  }

  /** Every action in `t` is one its component declares. */
  predicate WellTyped(t: seq<Line>)
  {
    forall l | l in t :: l.Did? ==> Owns(l.who, l.act)
  }

  /** Every event the mediator reacts to in `t` is a routed one. */
  predicate ReactsOnlyToRouted(t: seq<Line>)
  {
    forall l | l in t :: l.Reacts? ==> Routed(l.ev)
  }

  /** Every action in `t` reports an event ranked at most `bound`. */
  predicate ActionsRankedAtMost(t: seq<Line>, bound: nat)
  {
    forall l | l in t :: l.Did? ==> Rank(EventOf(l.act)) <= bound
  }

  /** The lines printed by `Notify(sender, ev)`: the three checks on the
      unmodified `ev`, run one after the other. */
  function NotifyTrace(ev: Event): (r: seq<Line>)
    requires Canonical(ev)
    decreases Rank(ev), 0
    ensures r != [] <==> Routed(ev)
    ensures r != [] ==> r[0] == Reacts(ev)
  {
    (if ev == A then [Reacts(A)] + ActionTrace(Component2, DoC) else [])
    + (if ev == D then [Reacts(D)] + ActionTrace(Component1, DoB) + ActionTrace(Component2, DoC) else [])
    + (if ev == B then [Reacts(B)] + ActionTrace(Component3, DoA) else [])
  }

  /** The lines printed by running action `act` of a component of kind
      `who`: it announces itself, then notifies its own event name. */
  function ActionTrace(who: Kind, act: Action): (r: seq<Line>)
    requires Owns(who, act)
    decreases Rank(EventOf(act)), 1
    ensures |r| >= 1 && r[0] == Did(who, act)
  {
    [Did(who, act)] + NotifyTrace(EventOf(act))
  }

  /** Everything `Notify` prints is well formed, and routing is acyclic:
      every action it triggers, however deep, reports an event ranked
      strictly below `ev`, so the recursion terminates. */
  lemma {:induction false} NotifyTraceShape(ev: Event)
    requires Canonical(ev)
    decreases Rank(ev), 0
    ensures WellTyped(NotifyTrace(ev)) && ReactsOnlyToRouted(NotifyTrace(ev))
    ensures Routed(ev) ==> ActionsRankedAtMost(NotifyTrace(ev), Rank(ev) - 1)
  {
    match ev
    case A =>
      ActionTraceShape(Component2, DoC);
      assert NotifyTrace(A) == [Reacts(A)] + ActionTrace(Component2, DoC);
    case D =>
      ActionTraceShape(Component1, DoB);
      ActionTraceShape(Component2, DoC);
      assert NotifyTrace(D) == [Reacts(D)] + ActionTrace(Component1, DoB) + ActionTrace(Component2, DoC);
    case B =>
      ActionTraceShape(Component3, DoA);
      assert NotifyTrace(B) == [Reacts(B)] + ActionTrace(Component3, DoA);
    case C =>
    case Other(_) =>
  }

  /** Everything an action prints is well formed, and every action in it
      reports an event ranked no higher than the action's own. */
  lemma {:induction false} ActionTraceShape(who: Kind, act: Action)
    requires Owns(who, act)
    decreases Rank(EventOf(act)), 1
    ensures WellTyped(ActionTrace(who, act)) && ReactsOnlyToRouted(ActionTrace(who, act))
    ensures ActionsRankedAtMost(ActionTrace(who, act), Rank(EventOf(act)))
  {
    NotifyTraceShape(EventOf(act));
    assert ActionTrace(who, act) == [Did(who, act)] + NotifyTrace(EventOf(act));
  }

  /** The lines printed by running the steps of a route one after another. */
  function RunSteps(steps: seq<Step>): (r: seq<Line>)
    requires forall i | 0 <= i < |steps| :: Owns(steps[i].who, steps[i].act)
    ensures |r| >= |steps|
  {
    if steps == [] then []
    else ActionTrace(steps[0].who, steps[0].act) + RunSteps(steps[1..])
  }

  /** The three checks of `Notify` are mutually exclusive: the trace is the
      one branch that fires, or nothing. */
  lemma NotifyCases(ev: Event)
    requires Canonical(ev)
    ensures ev == A ==> NotifyTrace(ev) == [Reacts(A)] + ActionTrace(Component2, DoC)
    ensures ev == D ==> NotifyTrace(ev) == [Reacts(D)] + ActionTrace(Component1, DoB) + ActionTrace(Component2, DoC)
    ensures ev == B ==> NotifyTrace(ev) == [Reacts(B)] + ActionTrace(Component3, DoA)
    ensures ev != A && ev != D && ev != B ==> NotifyTrace(ev) == []
  {
    if ev == A {
      assert NotifyTrace(ev) == [Reacts(A)] + ActionTrace(Component2, DoC) + [] + [];
    } else if ev == D {
      assert NotifyTrace(ev) == [] + ([Reacts(D)] + ActionTrace(Component1, DoB) + ActionTrace(Component2, DoC)) + [];
    } else if ev == B {
      assert NotifyTrace(ev) == [] + [] + ([Reacts(B)] + ActionTrace(Component3, DoA));
    } else {
      assert NotifyTrace(ev) == [] + [] + [];
    }
  }

  /** Running a route of one step prints that step's action trace. */
  lemma RunOneStep(st: Step)
    requires Owns(st.who, st.act)
    ensures RunSteps([st]) == ActionTrace(st.who, st.act)
  {
    assert RunSteps([st]) == ActionTrace(st.who, st.act) + RunSteps([]);
  }

  /** Running a route of two steps prints their action traces in order. */
  lemma RunTwoSteps(s1: Step, s2: Step)
    requires Owns(s1.who, s1.act) && Owns(s2.who, s2.act)
    ensures RunSteps([s1, s2]) == ActionTrace(s1.who, s1.act) + ActionTrace(s2.who, s2.act)
  {
    assert [s1, s2][1..] == [s2];
    RunOneStep(s2);
  }

  /** `Notify` is exactly a reading of the routing table: a routed event
      prints the reaction and then runs its steps in declaration order; any
      other event prints nothing. At most one of the three checks fires. */
  lemma {:induction false} NotifyFollowsRoutes(ev: Event)
    requires Canonical(ev)
    ensures Routed(ev) ==> NotifyTrace(ev) == [Reacts(ev)] + RunSteps(Route(ev))
    ensures !Routed(ev) ==> NotifyTrace(ev) == []
  {
    NotifyCases(ev);
    match ev
    case A =>
      RunOneStep(Step(Component2, DoC));
    case D =>
      RunTwoSteps(Step(Component1, DoB), Step(Component2, DoC));
      Appended([Reacts(D)], ActionTrace(Component1, DoB), ActionTrace(Component2, DoC));
    case B =>
      RunOneStep(Step(Component3, DoA));
    case C =>
    case Other(_) =>
  }

  /** For any string handed to `Notify`, the mediator reacts exactly when
      it is "A", "B" or "D"; every other string, "C" included, prints nothing. */
  lemma NotifyByName(name: string)
    ensures NotifyTrace(Parse(name)) != [] <==> name in {"A", "B", "D"}
  {
  }

  /** Appending an action's own line and then its notification to a log
      appends the action's trace. */
  lemma AppendAction(log: seq<Line>, who: Kind, act: Action)
    requires Owns(who, act)
    ensures log + [Did(who, act)] + NotifyTrace(EventOf(act)) == log + ActionTrace(who, act)
  {
    Appended(log, [Did(who, act)], NotifyTrace(EventOf(act)));
  }

  /** Each action is followed by the mediator's handling of its own event
      name: when that event is routed, the very next line is the mediator's
      reaction to it; otherwise the action prints only its own line. */
  lemma {:induction false} ActionNotifiesOwnName(who: Kind, act: Action)
    requires Owns(who, act)
    ensures Routed(EventOf(act)) ==>
      |ActionTrace(who, act)| >= 2 && ActionTrace(who, act)[1] == Reacts(EventOf(act))
    ensures !Routed(EventOf(act)) ==> ActionTrace(who, act) == [Did(who, act)]
  {
    assert ActionTrace(who, act) == [Did(who, act)] + NotifyTrace(EventOf(act));
  }

  /** The full cascade of each event a component sends, built up from
      the cheapest: C triggers nothing, A triggers C, B triggers A, D
      triggers B and C. */
  lemma {:induction false} RoutedTraces()
    ensures NotifyTrace(C) == []
    ensures NotifyTrace(A) == [Reacts(A), Did(Component2, DoC)]
    ensures NotifyTrace(B) ==
      [Reacts(B), Did(Component3, DoA), Reacts(A), Did(Component2, DoC)]
    ensures NotifyTrace(D) ==
      [Reacts(D), Did(Component1, DoB),
       Reacts(B), Did(Component3, DoA), Reacts(A), Did(Component2, DoC),
       Did(Component2, DoC)]
  {
    assert NotifyTrace(C) == [] by {
      NotifyCases(C);
    }
    assert ActionTrace(Component2, DoC) == [Did(Component2, DoC)] by {
      assert ActionTrace(Component2, DoC) == [Did(Component2, DoC)] + NotifyTrace(C);
    }
    assert NotifyTrace(A) == [Reacts(A), Did(Component2, DoC)] by {
      NotifyCases(A);
    }
    assert ActionTrace(Component3, DoA) == [Did(Component3, DoA), Reacts(A), Did(Component2, DoC)] by {
      assert ActionTrace(Component3, DoA) == [Did(Component3, DoA)] + NotifyTrace(A);
    }
    assert NotifyTrace(B) == [Reacts(B), Did(Component3, DoA), Reacts(A), Did(Component2, DoC)] by {
      NotifyCases(B);
    }
    assert ActionTrace(Component1, DoB) ==
      [Did(Component1, DoB), Reacts(B), Did(Component3, DoA), Reacts(A), Did(Component2, DoC)] by {
      assert ActionTrace(Component1, DoB) == [Did(Component1, DoB)] + NotifyTrace(B);
    }
    NotifyCases(D);
  }

  /** The traces of the three client calls of the demo. */
  lemma {:induction false} DemoActionTraces()
    ensures ActionTrace(Component1, DoA) == [Did(Component1, DoA), Reacts(A), Did(Component2, DoC)]
    ensures ActionTrace(Component2, DoD) ==
      [Did(Component2, DoD), Reacts(D), Did(Component1, DoB),
       Reacts(B), Did(Component3, DoA), Reacts(A), Did(Component2, DoC),
       Did(Component2, DoC)]
    ensures ActionTrace(Component3, DoB) ==
      [Did(Component3, DoB), Reacts(B), Did(Component3, DoA), Reacts(A), Did(Component2, DoC)]
  {
    RoutedTraces();
    assert ActionTrace(Component1, DoA) == [Did(Component1, DoA)] + NotifyTrace(A);
    assert ActionTrace(Component2, DoD) == [Did(Component2, DoD)] + NotifyTrace(D);
    assert ActionTrace(Component3, DoB) == [Did(Component3, DoB)] + NotifyTrace(B);
  }

  /** A component: `BaseComponent` with the action methods of the concrete
      class named by `kind`. */
  class Component {
    const kind: Kind
    var mediator: ConcreteMediator?

    /** `new ComponentN()` leaves the mediator null; `BaseComponent(m)` binds it. */
    constructor (kind: Kind, mediator: ConcreteMediator?)
      ensures this.kind == kind && this.mediator == mediator
    {
      this.kind := kind;
      this.mediator := mediator;
    }

    method SetMediator(mediator: ConcreteMediator?)
      modifies this
      ensures this.mediator == mediator
    {
      this.mediator := mediator;
    }

    /** Runs one action method. The source dereferences the mediator
        without a check, so it must be bound and wired. */
    method Do(act: Action, out: Console<Line>)
      requires Owns(kind, act)
      requires mediator != null && mediator.Valid()
      modifies out
      decreases Rank(EventOf(act)), 1
      ensures out.lines == old(out.lines) + ActionTrace(kind, act)
    {
      AppendAction(out.lines, kind, act);
      out.WriteLine(Did(kind, act));
      mediator.Notify(EventOf(act), out);
    }
  }

  class ConcreteMediator {
    const component1: Component
    const component2: Component
    const component3: Component

    /** The three components have their classes and are bound to this mediator. */
    ghost predicate Valid()
      reads component1, component2, component3
    {
      && component1.kind == Component1 && component1.mediator == this
      && component2.kind == Component2 && component2.mediator == this
      && component3.kind == Component3 && component3.mediator == this
    }

    /** Stores the three components and binds each to this mediator. */
    constructor (c1: Component, c2: Component, c3: Component)
      requires c1.kind == Component1 && c2.kind == Component2 && c3.kind == Component3
      modifies c1, c2, c3
      ensures component1 == c1 && component2 == c2 && component3 == c3
      ensures c1.mediator == this && c2.mediator == this && c3.mediator == this
      ensures Valid()
    {
      component1 := c1;
      component2 := c2;
      component3 := c3;
      new;
      c1.SetMediator(this);
      c2.SetMediator(this);
      c3.SetMediator(this);
    }

    method Notify(ev: Event, out: Console<Line>)
      requires Canonical(ev) && Valid()
      modifies out
      decreases Rank(ev), 0
      ensures out.lines == old(out.lines) + NotifyTrace(ev)
    {
      ghost var before := out.lines;
      NotifyCases(ev);
      if ev == A {
        out.WriteLine(Reacts(A));
        component2.Do(DoC, out);
        Appended(before, [Reacts(A)], ActionTrace(Component2, DoC));
      }
      if ev == D {
        out.WriteLine(Reacts(D));
        component1.Do(DoB, out);
        Appended(before, [Reacts(D)], ActionTrace(Component1, DoB));
        component2.Do(DoC, out);
        Appended(before, [Reacts(D)] + ActionTrace(Component1, DoB), ActionTrace(Component2, DoC));
      }
      if ev == B {
        out.WriteLine(Reacts(B));
        component3.Do(DoA, out);
        Appended(before, [Reacts(B)], ActionTrace(Component3, DoA));
      }
    }
  }

  /** Everything the client program prints: for each of its three
      requests, the request line and the trace of the action it runs. */
  const DemoOutput: seq<Line> :=
    [ClientTriggers(A)] + ActionTrace(Component1, DoA)
    + [Blank] + [ClientTriggers(D)] + ActionTrace(Component2, DoD)
    + [Blank] + [ClientTriggers(B)] + ActionTrace(Component3, DoB)

  /** The exact output of the client program. */
  lemma DemoOutputExact()
    ensures DemoOutput ==
      [ClientTriggers(A), Did(Component1, DoA), Reacts(A), Did(Component2, DoC),
       Blank,
       ClientTriggers(D), Did(Component2, DoD), Reacts(D), Did(Component1, DoB),
       Reacts(B), Did(Component3, DoA), Reacts(A), Did(Component2, DoC),
       Did(Component2, DoC),
       Blank,
       ClientTriggers(B), Did(Component3, DoB), Reacts(B), Did(Component3, DoA),
       Reacts(A), Did(Component2, DoC)]
  {
    DemoActionTraces();
  }

  /** The client's three requests on a wired mediator: A on component 1,
      D on component 2, B on component 3, separated by blank lines. */
  method RunClient(m: ConcreteMediator, out: Console<Line>)
    requires m.Valid() && out.lines == []
    modifies out
    ensures out.lines == DemoOutput
  {
    assert [] + [ClientTriggers(A)] == [ClientTriggers(A)];
    out.WriteLine(ClientTriggers(A));
    m.component1.Do(DoA, out);
    out.WriteLine(Blank);
    out.WriteLine(ClientTriggers(D));
    m.component2.Do(DoD, out);
    out.WriteLine(Blank);
    out.WriteLine(ClientTriggers(B));
    m.component3.Do(DoB, out);
  }

  /** The client program: creates the three components and the mediator
      that wires them, runs the client's requests and returns everything
      printed. */
  method Demo() returns (lines: seq<Line>)
    ensures lines == DemoOutput
  {
    var c1 := new Component(Component1, null);
    var c2 := new Component(Component2, null);
    var c3 := new Component(Component3, null);
    var m := new ConcreteMediator(c1, c2, c3);
    var out := new Console<Line>();
    RunClient(m, out);
    lines := out.lines;
  }
}
