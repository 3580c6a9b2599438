/** The Command program: an invoker with three optional command slots runs
    them around its own announcements; a command either prints its payload
    itself or delegates two calls to a receiver. Console output is an
    abstract log. */
module CommandPattern {
  import opened ConsoleLog

  datatype Option<T> = None | Some(value: T)

  /** The invoker's own four console lines. */
  datatype Announcement =
    | BeforeBegin      // asks for work before it begins
    | BeforeMiddle     // asks for work before the middle part
    | DoingImportant   // says it is doing the important part
    | AfterFinish      // asks for work after it finishes

  /** One console line of the program. */
  datatype Line =
    | Invoker(said: Announcement)
    | Simple(payload: string)      // a simple command shows its payload
    | Complex                      // a delegating command announces itself
    | Working(a: string)           // the receiver works on its first argument
    | AlsoWorking(b: string)       // the receiver works on its second argument

  predicate IsAnnouncement(l: Line) { l.Invoker? }

  predicate IsCommandOutput(l: Line) { !l.Invoker? }

  /** The first line a command prints when it runs. */
  predicate IsCommandHeader(l: Line) { l.Simple? || l.Complex? }

  predicate IsReceiverCall(l: Line) { l.Working? || l.AlsoWorking? }

  /** Receivers hold no state; each method prints the argument it gets. */
  class Receiver {
    constructor ()
    {
    }

    method DoSomething(a: string, out: Console<Line>)
      modifies out
      ensures out.lines == old(out.lines) + [Working(a)]
    {
      out.WriteLine(Working(a));
    }

    method DoSomethingElse(b: string, out: Console<Line>)
      modifies out
      ensures out.lines == old(out.lines) + [AlsoWorking(b)]
    {
      out.WriteLine(AlsoWorking(b));
    }
  }

  /** The three command classes: `WaiterOne` prints its payload itself,
      `WaiterTwo` and `WaiterThree` pass their two strings to a receiver. */
  datatype Command =
    | WaiterOne(payload: string)
    | WaiterTwo(receiver: Receiver, a: string, b: string)
    | WaiterThree(receiver: Receiver, a: string, b: string)
  {
    method Execute(out: Console<Line>)
      modifies out
      ensures out.lines == old(out.lines) + ExecuteTrace(this)
    {
      match this
      case WaiterOne(payload) =>
        out.WriteLine(Simple(payload));
      case WaiterTwo(receiver, a, b) =>
        out.WriteLine(Complex);
        receiver.DoSomething(a, out);
        receiver.DoSomethingElse(b, out);
      case WaiterThree(receiver, a, b) =>
        out.WriteLine(Complex);
        receiver.DoSomething(a, out);
        receiver.DoSomethingElse(b, out);
    }
  }

  /** The lines printed by executing `c`. */
  function ExecuteTrace(c: Command): (r: seq<Line>)
    ensures |r| >= 1 && IsCommandHeader(r[0])
  {
    match c
    case WaiterOne(payload) => [Simple(payload)]
    case WaiterTwo(_, a, b) => [Complex, Working(a), AlsoWorking(b)]
    case WaiterThree(_, a, b) => [Complex, Working(a), AlsoWorking(b)]
  }

  /** `WaiterOne` prints one line holding its payload and calls no receiver;
      the two delegating commands print their header, then have the
      receiver work on `a` and then on `b`, once each. */
  lemma {:induction false} ExecuteCalls(c: Command)
    ensures Filter(IsCommandHeader, ExecuteTrace(c)) == [ExecuteTrace(c)[0]]
    ensures c.WaiterOne? ==> ExecuteTrace(c) == [Simple(c.payload)]
    ensures c.WaiterOne? ==> Filter(IsReceiverCall, ExecuteTrace(c)) == []
    ensures !c.WaiterOne? ==> Filter(IsReceiverCall, ExecuteTrace(c)) == [Working(c.a), AlsoWorking(c.b)]
  {
    var t := ExecuteTrace(c);
    if c.WaiterOne? {
      assert t == [Simple(c.payload)];
      assert Filter(IsCommandHeader, t) == [t[0]] + Filter(IsCommandHeader, []);
      assert Filter(IsReceiverCall, t) == Filter(IsReceiverCall, []);
    } else {
      assert t == [Complex, Working(c.a), AlsoWorking(c.b)];
      assert t[1..] == [Working(c.a), AlsoWorking(c.b)];
      assert t[1..][1..] == [AlsoWorking(c.b)];
      FilterNone(IsCommandHeader, t[1..]);
      assert Filter(IsCommandHeader, t) == [t[0]] + Filter(IsCommandHeader, t[1..]);
      FilterAll(IsReceiverCall, t[1..]);
      assert Filter(IsReceiverCall, t) == Filter(IsReceiverCall, t[1..]);
    }
  }

  /** The lines printed for one slot: nothing when it is null. */
  function SlotTrace(slot: Option<Command>): seq<Line>
  {
    match slot
    case None => []
    case Some(c) => ExecuteTrace(c)
  }

  /** The lines printed by `DoSomethingImportant` with the given slots. */
  function InvokeTrace(start: Option<Command>, middle: Option<Command>, finish: Option<Command>): seq<Line>
  {
    [Invoker(BeforeBegin)] + SlotTrace(start)
    + [Invoker(BeforeMiddle)] + SlotTrace(middle)
    + [Invoker(DoingImportant)] + [Invoker(AfterFinish)] + SlotTrace(finish)
  }

  /** The number of non-null slots in `slots`. */
  function CountSome(slots: seq<Option<Command>>): nat
  {
    if slots == [] then 0
    else (if slots[0].Some? then 1 else 0) + CountSome(slots[1..])
  }

  /** The commands held by `slots`, in slot order, null slots dropped:
      one command per non-null slot, every non-null slot's command is
      among them, and nothing else is. */
  function Present(slots: seq<Option<Command>>): (cs: seq<Command>)
    ensures |cs| == CountSome(slots) && |cs| <= |slots|
    ensures forall c | c in cs :: Some(c) in slots
    ensures forall i | 0 <= i < |slots| && slots[i].Some? :: slots[i].value in cs
  {
    if slots == [] then []
    else
      assert forall i | 1 <= i < |slots| :: slots[i] == slots[1..][i - 1];
      match slots[0]
      case None => Present(slots[1..])
      case Some(c) => [c] + Present(slots[1..])
  }

  /** The lines printed by executing `cs` one after another. */
  function RunAll(cs: seq<Command>): seq<Line>
  {
    if cs == [] then [] else ExecuteTrace(cs[0]) + RunAll(cs[1..])
  }

  /** A slot prints no announcements. */
  lemma {:induction false} SlotTraceIsCommandOutput(slot: Option<Command>)
    ensures Filter(IsAnnouncement, SlotTrace(slot)) == []
    ensures Filter(IsCommandOutput, SlotTrace(slot)) == SlotTrace(slot)
  {
    assert forall i | 0 <= i < |SlotTrace(slot)| :: IsCommandOutput(SlotTrace(slot)[i]);
    FilterNone(IsAnnouncement, SlotTrace(slot));
    FilterAll(IsCommandOutput, SlotTrace(slot));
  }

  /** The invoker's four announcements are printed on every run, in their
      fixed order, whatever the slots hold. */
  lemma {:induction false} AnnouncementsAlwaysPrinted(start: Option<Command>, middle: Option<Command>, finish: Option<Command>)
    ensures Filter(IsAnnouncement, InvokeTrace(start, middle, finish)) ==
      [Invoker(BeforeBegin), Invoker(BeforeMiddle), Invoker(DoingImportant), Invoker(AfterFinish)]
  {
    var p := IsAnnouncement;
    SlotTraceIsCommandOutput(start);
    SlotTraceIsCommandOutput(middle);
    SlotTraceIsCommandOutput(finish);
    FilterAll(p, [Invoker(BeforeBegin)]);
    FilterAll(p, [Invoker(BeforeMiddle)]);
    FilterAll(p, [Invoker(DoingImportant)]);
    FilterAll(p, [Invoker(AfterFinish)]);
    var s, m, f := SlotTrace(start), SlotTrace(middle), SlotTrace(finish);
    var t1 := [Invoker(BeforeBegin)] + s;
    FilterConcat(p, [Invoker(BeforeBegin)], s);
    var t2 := t1 + [Invoker(BeforeMiddle)];
    FilterConcat(p, t1, [Invoker(BeforeMiddle)]);
    var t3 := t2 + m;
    FilterConcat(p, t2, m);
    var t4 := t3 + [Invoker(DoingImportant)];
    FilterConcat(p, t3, [Invoker(DoingImportant)]);
    var t5 := t4 + [Invoker(AfterFinish)];
    FilterConcat(p, t4, [Invoker(AfterFinish)]);
    FilterConcat(p, t5, f);
  }

  /** Apart from the announcements, a run prints exactly the traces of the
      non-null slots, start then middle then finish, each executed once. */
  lemma {:induction false} CommandsRunInSlotOrder(start: Option<Command>, middle: Option<Command>, finish: Option<Command>)
    ensures Filter(IsCommandOutput, InvokeTrace(start, middle, finish)) ==
      RunAll(Present([start, middle, finish]))
  {
    var p := IsCommandOutput;
    SlotTraceIsCommandOutput(start);
    SlotTraceIsCommandOutput(middle);
    SlotTraceIsCommandOutput(finish);
    FilterNone(p, [Invoker(BeforeBegin)]);
    FilterNone(p, [Invoker(BeforeMiddle)]);
    FilterNone(p, [Invoker(DoingImportant)]);
    FilterNone(p, [Invoker(AfterFinish)]);
    var s, m, f := SlotTrace(start), SlotTrace(middle), SlotTrace(finish);
    var t1 := [Invoker(BeforeBegin)] + s;
    FilterConcat(p, [Invoker(BeforeBegin)], s);
    assert Filter(p, t1) == s;
    var t2 := t1 + [Invoker(BeforeMiddle)];
    FilterConcat(p, t1, [Invoker(BeforeMiddle)]);
    assert Filter(p, t2) == s;
    var t3 := t2 + m;
    FilterConcat(p, t2, m);
    assert Filter(p, t3) == s + m;
    var t4 := t3 + [Invoker(DoingImportant)];
    FilterConcat(p, t3, [Invoker(DoingImportant)]);
    assert Filter(p, t4) == s + m;
    var t5 := t4 + [Invoker(AfterFinish)];
    FilterConcat(p, t4, [Invoker(AfterFinish)]);
    assert Filter(p, t5) == s + m;
    FilterConcat(p, t5, f);
    assert Filter(p, t5 + f) == s + m + f;
    RunThreeSlots(start, middle, finish);
  }

  /** Running the present commands of three slots prints the three slot
      traces in order. */
  lemma {:induction false} RunThreeSlots(start: Option<Command>, middle: Option<Command>, finish: Option<Command>)
    ensures RunAll(Present([start, middle, finish])) == SlotTrace(start) + SlotTrace(middle) + SlotTrace(finish)
  {
    var slots := [start, middle, finish];
    assert slots[1..] == [middle, finish];
    assert slots[1..][1..] == [finish];
    assert slots[1..][1..][1..] == [];
    RunSlots(slots);
    RunSlots(slots[1..]);
    RunSlots(slots[1..][1..]);
    RunSlots(slots[1..][1..][1..]);
    assert SlotTrace(finish) + [] == SlotTrace(finish);
    Appended(SlotTrace(start), SlotTrace(middle), SlotTrace(finish));
  }

  /** Running the present commands of `slots` prints each slot's trace in turn. */
  lemma {:induction false} RunSlots(slots: seq<Option<Command>>)
    ensures slots == [] ==> RunAll(Present(slots)) == []
    ensures slots != [] ==> RunAll(Present(slots)) == SlotTrace(slots[0]) + RunAll(Present(slots[1..]))
  {
    if slots != [] {
      match slots[0]
      case None =>
      case Some(c) =>
        var rest := Present(slots[1..]);
        assert ([c] + rest)[1..] == rest;
    }
  }

  /** Every non-null slot is executed exactly once: a run prints one command
      header per non-null slot. */
  lemma {:induction false} EachPresentCommandOnce(start: Option<Command>, middle: Option<Command>, finish: Option<Command>)
    ensures |Filter(IsCommandHeader, InvokeTrace(start, middle, finish))| == CountSome([start, middle, finish])
  {
    var t := InvokeTrace(start, middle, finish);
    var cs := Present([start, middle, finish]);
    CommandsRunInSlotOrder(start, middle, finish);
    HeadersOfCommandOutput(t);
    HeadersOfRunAll(cs);
  }

  /** Command headers are command output, so filtering for command output
      first does not change the headers. */
  lemma {:induction false} HeadersOfCommandOutput(t: seq<Line>)
    ensures Filter(IsCommandHeader, Filter(IsCommandOutput, t)) == Filter(IsCommandHeader, t)
  {
    if t != [] {
      HeadersOfCommandOutput(t[1..]);
      if IsCommandOutput(t[0]) {
        assert ([t[0]] + Filter(IsCommandOutput, t[1..]))[1..] == Filter(IsCommandOutput, t[1..]);
      }
    }
  }

  /** Running `cs` prints one header per command. */
  lemma {:induction false} HeadersOfRunAll(cs: seq<Command>)
    ensures |Filter(IsCommandHeader, RunAll(cs))| == |cs|
  {
    if cs != [] {
      HeadersOfRunAll(cs[1..]);
      ExecuteCalls(cs[0]);
      FilterConcat(IsCommandHeader, ExecuteTrace(cs[0]), RunAll(cs[1..]));
    }
  }

  /** Runs the command in `slot` unless the slot is null (`is ICommand`
      is false for null). */
  method RunSlot(slot: Option<Command>, out: Console<Line>)
    modifies out
    ensures out.lines == old(out.lines) + SlotTrace(slot)
  {
    if slot.Some? {
      slot.value.Execute(out);
    } else {
      assert old(out.lines) + SlotTrace(slot) == out.lines;
    }
  }

  class InvokerOne {
    var onStart: Option<Command>
    var onMiddle: Option<Command>
    var onFinish: Option<Command>

    /** A new invoker has all three slots null. */
    constructor ()
      ensures onStart == None && onMiddle == None && onFinish == None
    {
      onStart, onMiddle, onFinish := None, None, None;
    }

    method SetOnStart(command: Option<Command>)
      modifies this
      ensures onStart == command
      ensures onMiddle == old(onMiddle) && onFinish == old(onFinish)
    {
      onStart := command;
    }

    method SetOnMiddle(command: Option<Command>)
      modifies this
      ensures onMiddle == command
      ensures onStart == old(onStart) && onFinish == old(onFinish)
    {
      onMiddle := command;
    }

    method SetOnFinish(command: Option<Command>)
      modifies this
      ensures onFinish == command
      ensures onStart == old(onStart) && onMiddle == old(onMiddle)
    {
      onFinish := command;
    }

    /** Announces each phase and runs the command of each non-null slot. */
    method DoSomethingImportant(out: Console<Line>)
      modifies out
      ensures out.lines == old(out.lines) + InvokeTrace(onStart, onMiddle, onFinish)
    {
      ghost var before := out.lines;
      out.WriteLine(Invoker(BeforeBegin));
      ghost var done := [Invoker(BeforeBegin)];
      RunSlot(onStart, out);
      Appended(before, done, SlotTrace(onStart));
      done := done + SlotTrace(onStart);
      out.WriteLine(Invoker(BeforeMiddle));
      Appended(before, done, [Invoker(BeforeMiddle)]);
      done := done + [Invoker(BeforeMiddle)];
      RunSlot(onMiddle, out);
      Appended(before, done, SlotTrace(onMiddle));
      done := done + SlotTrace(onMiddle);
      out.WriteLine(Invoker(DoingImportant));
      Appended(before, done, [Invoker(DoingImportant)]);
      done := done + [Invoker(DoingImportant)];
      out.WriteLine(Invoker(AfterFinish));
      Appended(before, done, [Invoker(AfterFinish)]);
      done := done + [Invoker(AfterFinish)];
      RunSlot(onFinish, out);
      Appended(before, done, SlotTrace(onFinish));
    }
  }

  /** The client program: the start slot says hi, the middle slot sends the
      driver to work, the finish slot sends the waiter to work; returns
      everything printed. */
  method Demo() returns (lines: seq<Line>)
    ensures lines ==
      [Invoker(BeforeBegin), Simple("Say Hi!"),
       Invoker(BeforeMiddle), Complex, Working("Deliver food"), AlsoWorking("To wash the dishes"),
       Invoker(DoingImportant), Invoker(AfterFinish),
       Complex, Working("Send email"), AlsoWorking("Save report")]
  {
    var invoker := new InvokerOne();
    invoker.SetOnStart(Some(WaiterOne("Say Hi!")));
    var driver := new Receiver();
    invoker.SetOnMiddle(Some(WaiterThree(driver, "Deliver food", "To wash the dishes")));
    var waiter := new Receiver();
    invoker.SetOnFinish(Some(WaiterTwo(waiter, "Send email", "Save report")));
    var out := new Console<Line>();
    invoker.DoSomethingImportant(out);
    lines := out.lines;
  }
}
