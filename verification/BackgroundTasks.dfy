/** The C agent's background tasks, as interleaved steps. */
module BackgroundTasks {

  // A producer pushes its result to sub_result_queue and then, as a separate step, a
  // wake-up to input_queue; the main thread sleeps on input_queue, drains results one at
  // a time, calls the model in turns, and waits for the remaining tasks before it exits.
  // Every interleaving of the steps is a run.

  /** A result in sub_result_queue: of task w, or the n-th text injected by the user. */
  datatype Item = Task(w: nat) | UserNotify(n: nat)

  datatype Input = Line | Wake

  /** Where the main thread is: in its message loop, in agent_wait_for_sub_agents, or past both. */
  datatype Outer = MainLoop | WaitForTasks(final: bool) | Exited

  /** Inside agent_loop: at the head of its loop, with a request to build, with a reply, or behind the loop. */
  datatype Phase = Head | Request | Reply | Behind

  /** The three drains: of a wake-up, in front of a model call, and behind a reply that ends the work. */
  datatype Place = ForWakeup | BeforeCall | AfterReply

  datatype Doing =
    | Asleep                    // at the head of the outer loop
    | Turning(afterLine: bool, phase: Phase)
    | Draining(afterLine: bool, place: Place, drained: nat)

  /** The readline thread: ready, between the two pushes of an injection, or ended. */
  datatype Reader = Ready | Injecting | Ended

  datatype Held = NoItem | Holding(item: Item)

  /** The turns of agent_loop, and how many results were in the conversation at the last model call. */
  datatype Work = Work(maxTurns: nat, turn: nat, interrupted: bool, seen: nat)

  datatype State = State(
    interactive: bool, work: Work,
    outer: Outer, doing: Doing,
    holdsWake: bool,       // a wake-up was popped and its drain has not ended
    held: Held,            // popped from sub_result_queue, not yet in the conversation
    launching: bool,       // counted, thread not created yet
    count: int,            // active_task_count
    subQ: seq<Item>, inputQ: seq<Input>, closed: bool,
    reader: Reader,
    running: set<nat>, between: set<nat>, started: nat, notes: nat,
    pushed: seq<Item>, injected: seq<Item>)

  function Init(interactive: bool, maxTurns: nat): State {
    State(interactive, Work(maxTurns, 0, false, 0), MainLoop, Asleep, false, NoItem, false, 0, [], [], false,
          if interactive then Ready else Ended, {}, {}, 0, 0, [], [])
  }

  datatype Step =
    | WorkerPush(w: nat)   // result into sub_result_queue
    | WorkerWake(w: nat)   // agent_signal_notify
    | InjectPush | InjectWake | ReadLine | CloseInput | Interrupt
    | PopInput | LeaveLoop | DrainPop | Inject | DrainEnd
    | EnterTurn | LeaveTurns | RequestFails | CallModel
    | CountTask | CreateThread | FailThread | ReplyFails | NextTurn | StartDrain
    | RequeueGoal | TurnEnd
    | WaitPop | WaitInject | WaitEnd

  function PushInput(s: State, m: Input): seq<Input> {
    if s.closed then s.inputQ else s.inputQ + [m]
  }

  predicate InPhase(s: State, phase: Phase) {
    s.doing.Turning? && s.doing.phase == phase
  }

  predicate Can(s: State, step: Step) {
    match step
    case WorkerPush(w) => w in s.running
    case WorkerWake(w) => w in s.between
    case InjectPush => s.reader == Ready
    case InjectWake => s.reader == Injecting
    case ReadLine => s.reader == Ready || !s.interactive
    case CloseInput => s.reader == Ready
    case Interrupt => s.reader == Ready || !s.interactive
    case PopInput => s.outer == MainLoop && s.doing == Asleep && s.inputQ != []
    case LeaveLoop =>
      s.outer == MainLoop && s.doing == Asleep && s.inputQ == [] && (s.closed || (!s.interactive && s.count <= 0))
    case DrainPop => s.doing.Draining? && s.held == NoItem && s.subQ != []
    case Inject => s.doing.Draining? && s.held != NoItem
    case DrainEnd => s.doing.Draining? && s.held == NoItem && s.subQ == []
    case EnterTurn => InPhase(s, Head) && s.work.turn < s.work.maxTurns
    case LeaveTurns => InPhase(s, Head) && s.work.turn >= s.work.maxTurns
    case RequestFails => InPhase(s, Request)
    case CallModel => InPhase(s, Request)
    case CountTask => InPhase(s, Reply) && !s.launching
    case CreateThread => s.launching
    case FailThread => s.launching
    case ReplyFails => InPhase(s, Reply) && !s.launching
    case NextTurn => InPhase(s, Reply) && !s.launching
    case StartDrain => InPhase(s, Reply) && !s.launching
    case RequeueGoal => InPhase(s, Behind) && !s.work.interrupted && s.work.turn < s.work.maxTurns
    case TurnEnd => InPhase(s, Behind)
    case WaitPop => s.outer.WaitForTasks? && s.doing == Asleep && s.held == NoItem && s.count > 0 && s.subQ != []
    case WaitInject => s.outer.WaitForTasks? && s.doing == Asleep && s.held != NoItem
    case WaitEnd => s.outer.WaitForTasks? && s.doing == Asleep && s.held == NoItem && s.count <= 0
  }

  /** Putting the held item into the conversation; a task result is counted off. */
  function InjectHeld(s: State): State
    requires s.held != NoItem
  {
    s.(held := NoItem,
       injected := s.injected + [s.held.item],
       count := if s.held.item.Task? && s.count > 0 then s.count - 1 else s.count)
  }

  function Take(s: State): State
    requires s.subQ != []
  {
    s.(held := Holding(s.subQ[0]), subQ := s.subQ[1..])
  }

  /** The end of agent_loop: back to whichever loop called it. */
  function EndTurn(s: State, afterLine: bool): State {
    if s.outer == MainLoop && afterLine && !s.interactive
    then s.(outer := WaitForTasks(false), doing := Asleep)
    else s.(doing := Asleep)
  }

  /** The start of agent_loop's turns, and the way back to their head. */
  function FirstTurnOf(s: State, afterLine: bool): State {
    s.(doing := Turning(afterLine, Head), work := s.work.(turn := 0, interrupted := false))
  }

  function GoOn(s: State, afterLine: bool, phase: Phase): State {
    s.(doing := Turning(afterLine, phase))
  }

  /** The steps of the worker threads and of the readline thread; the others are the main thread's. */
  predicate IsProducer(step: Step) {
    || step.WorkerPush? || step.WorkerWake? || step.InjectPush? || step.InjectWake? || step.ReadLine? || step.CloseInput?
    || step.Interrupt?
  }

  /** The main thread's steps outside the drain and the wait. */
  predicate IsTurnStep(step: Step) {
    || step.EnterTurn? || step.LeaveTurns? || step.RequestFails? || step.CallModel? || step.CountTask?
    || step.CreateThread? || step.FailThread? || step.ReplyFails? || step.NextTurn? || step.StartDrain?
    || step.RequeueGoal? || step.TurnEnd?
  }

  function Do(s: State, step: Step): (t: State)
    requires Can(s, step)
    ensures t.interactive == s.interactive && t.work.maxTurns == s.work.maxTurns
  {
    if IsProducer(step) then Produce(s, step)
    else if IsTurnStep(step) then TakeTurn(s, step)
    else Serve(s, step)
  }

  function Produce(s: State, step: Step): (t: State)
    requires IsProducer(step) && Can(s, step)
    ensures t.interactive == s.interactive && t.work.maxTurns == s.work.maxTurns
  {
    match step
    case WorkerPush(w) =>
      s.(subQ := s.subQ + [Task(w)], pushed := s.pushed + [Task(w)], running := s.running - {w},
         between := if s.interactive then s.between + {w} else s.between)
    case WorkerWake(w) => s.(between := s.between - {w}, inputQ := PushInput(s, Wake))
    case InjectPush =>
      s.(subQ := s.subQ + [UserNotify(s.notes)], pushed := s.pushed + [UserNotify(s.notes)],
         notes := s.notes + 1, reader := Injecting)
    case InjectWake => s.(reader := Ready, inputQ := PushInput(s, Wake))
    case ReadLine => s.(inputQ := PushInput(s, Line))
    case CloseInput => s.(closed := true, reader := Ended)
    case Interrupt => s.(work := s.work.(interrupted := true))
  }

  function TakeTurn(s: State, step: Step): (t: State)
    requires IsTurnStep(step) && Can(s, step)
    ensures t.interactive == s.interactive && t.work.maxTurns == s.work.maxTurns
  {
    match step
    case EnterTurn => s.(work := s.work.(turn := s.work.turn + 1, interrupted := false), doing := Draining(s.doing.afterLine, BeforeCall, 0))
    case LeaveTurns => GoOn(s, s.doing.afterLine, Behind)
    case RequestFails => EndTurn(s, s.doing.afterLine)
    case CallModel => GoOn(s.(work := s.work.(seen := |s.injected|)), s.doing.afterLine, Reply)
    case CountTask => s.(count := s.count + 1, launching := true)
    case CreateThread => s.(launching := false, running := s.running + {s.started}, started := s.started + 1)
    case FailThread => s.(launching := false, count := s.count - 1)
    case ReplyFails => EndTurn(s, s.doing.afterLine)
    case NextTurn => GoOn(s, s.doing.afterLine, if s.work.interrupted then Behind else Head)
    case StartDrain => s.(doing := Draining(s.doing.afterLine, AfterReply, 0))
    case RequeueGoal => EndTurn(s.(inputQ := PushInput(s, Line)), s.doing.afterLine)
    case TurnEnd => EndTurn(s, s.doing.afterLine)
  }

  function Serve(s: State, step: Step): (t: State)
    requires !IsProducer(step) && !IsTurnStep(step) && Can(s, step)
    ensures t.interactive == s.interactive && t.work.maxTurns == s.work.maxTurns
  {
    match step
    case PopInput => PopFirst(s)
    case LeaveLoop => s.(outer := WaitForTasks(true))
    case DrainPop => Take(s)
    case Inject => InjectHeld(s).(doing := s.doing.(drained := s.doing.drained + 1))
    case DrainEnd => EndDrain(s)
    case WaitPop => Take(s)
    case WaitInject => FirstTurnOf(InjectHeld(s), false)
    case WaitEnd => if s.outer.final then s.(outer := Exited) else s.(outer := MainLoop)
  }

  function PopFirst(s: State): State
    requires s.inputQ != []
  {
    var rest := s.(inputQ := s.inputQ[1..]);
    if s.inputQ[0] == Wake then rest.(holdsWake := true, work := s.work.(interrupted := false), doing := Draining(false, ForWakeup, 0))
    else FirstTurnOf(rest, true)
  }

  /** A wake-up's drain that found nothing ends agent_loop; the others go on with the turn or behind it. */
  function EndDrain(s: State): State
    requires s.doing.Draining?
  {
    var ended := s.(holdsWake := false);
    var afterLine := s.doing.afterLine;
    match s.doing.place
    case ForWakeup => if s.doing.drained == 0 then EndTurn(ended, afterLine) else FirstTurnOf(ended, afterLine)
    case BeforeCall => GoOn(ended, afterLine, Request)
    case AfterReply => GoOn(ended, afterLine, if s.doing.drained > 0 && !s.work.interrupted then Head else Behind)
  }

  ghost predicate Reaches(s: State, steps: seq<Step>, t: State)
    decreases |steps|
  {
    if steps == [] then s == t
    else Can(s, steps[0]) && Reaches(Do(s, steps[0]), steps[1..], t)
  }

  // ---------------------------------------------------------------- counting

  function Tasks(q: seq<Item>): nat {
    if q == [] then 0 else (if q[0].Task? then 1 else 0) + Tasks(q[1..])
  }

  lemma {:induction false} TasksAppend(q: seq<Item>, i: Item)
    ensures Tasks(q + [i]) == Tasks(q) + if i.Task? then 1 else 0
  {
    if q == [] {
      assert q + [i] == [i];
    } else {
      assert (q + [i])[1..] == q[1..] + [i];
      TasksAppend(q[1..], i);
    }
  }

  lemma {:induction false} TasksAtMost(q: seq<Item>)
    ensures Tasks(q) <= |q|
    ensures Tasks(q) == 0 <==> forall i :: 0 <= i < |q| ==> q[i].UserNotify?
    ensures Tasks(q) == 0 ==> q == [] || exists i :: 0 <= i < |q| && q[i].UserNotify?
  {
    if q != [] {
      TasksAtMost(q[1..]);
      if Tasks(q) == 0 {
        assert forall i :: 0 < i < |q| ==> q[i] == q[1..][i - 1];
      }
    }
  }

  function Wakes(q: seq<Input>): nat {
    if q == [] then 0 else (if q[0] == Wake then 1 else 0) + Wakes(q[1..])
  }

  lemma {:induction false} WakesAppend(q: seq<Input>, m: Input)
    ensures Wakes(q + [m]) == Wakes(q) + if m == Wake then 1 else 0
  {
    if q == [] {
      assert q + [m] == [m];
    } else {
      assert (q + [m])[1..] == q[1..] + [m];
      WakesAppend(q[1..], m);
    }
  }

  function One(b: bool): nat {
    if b then 1 else 0
  }

  // ---------------------------------------------------------------- invariants

  /** What the places in the program say about the flags. */
  predicate ControlOk(s: State) {
    && (s.held != NoItem ==> s.doing.Draining? || (s.outer.WaitForTasks? && s.doing == Asleep))
    && (s.launching ==> InPhase(s, Reply))
    && (s.holdsWake ==> s.doing.Draining?)
    && (s.outer == Exited ==> s.doing == Asleep && s.count <= 0)
    && (s.interactive && s.outer != MainLoop ==> s.closed && s.inputQ == [] && s.outer != WaitForTasks(false))
    && (s.closed ==> s.reader == Ended)
    && (!s.interactive ==> s.reader == Ended && s.between == {} && s.notes == 0)
  }

  /** active_task_count counts the tasks whose result has not reached the conversation. */
  predicate CounterOk(s: State) {
    s.count == |s.running| + Tasks(s.subQ) + One(s.held.Holding? && s.held.item.Task?) + One(s.launching)
  }

  /** Results reach the conversation in the order in which they were pushed. */
  predicate OrderOk(s: State) {
    s.pushed == s.injected + (if s.held.Holding? then [s.held.item] else []) + s.subQ
  }

  /** No result is pushed twice. */
  ghost predicate OnceOk(s: State) {
    && (forall w :: w in s.running || w in s.between ==> w < s.started)
    && (forall i :: 0 <= i < |s.pushed| ==> match s.pushed[i]
          case Task(w) => w < s.started && w !in s.running
          case UserNotify(n) => n < s.notes)
    && (forall i, j :: 0 <= i < j < |s.pushed| ==> s.pushed[i] != s.pushed[j])
  }

  /** Every task that was started is still running or has pushed its result. */
  ghost predicate LaunchedOk(s: State) {
    forall w: nat :: w < s.started ==> w in s.running || Task(w) in s.pushed
  }

  /** Every waiting result has a wake-up: queued, about to be queued, or being served. */
  predicate WakeOk(s: State) {
    s.interactive && !s.closed ==>
      |s.subQ| <= Wakes(s.inputQ) + |s.between| + One(s.reader == Injecting) + One(s.holdsWake)
  }

  /** An injected text always has a wake-up ahead of it, also while the input queue is closing. */
  ghost predicate NotesOk(s: State) {
    s.interactive ==>
      (exists i :: 0 <= i < |s.subQ| && s.subQ[i].UserNotify?) ==>
        s.reader == Injecting || Wakes(s.inputQ) > 0 || s.holdsWake
  }

  /** The two ends of a loop iteration move the main thread, and nothing else but the wake-up it serves. */
  lemma PopFrame(s: State)
    requires Can(s, PopInput)
    ensures var t := PopFirst(s);
      t == s.(inputQ := s.inputQ[1..], doing := t.doing, work := t.work, holdsWake := s.holdsWake || s.inputQ[0] == Wake)
    ensures !PopFirst(s).doing.Draining? ==> !(s.inputQ[0] == Wake)
  {
  }

  lemma EndDrainFrame(s: State)
    requires Can(s, DrainEnd)
    ensures var t := EndDrain(s); t == s.(holdsWake := false, outer := t.outer, doing := t.doing, work := t.work)
    ensures EndDrain(s).outer == s.outer || (s.outer == MainLoop && !s.interactive && EndDrain(s).outer == WaitForTasks(false))
    ensures !EndDrain(s).doing.Draining?
  {
    hide EndTurn, GoOn, FirstTurnOf;
    var ended, afterLine := s.(holdsWake := false), s.doing.afterLine;
    EndTurnFrame(ended, afterLine);
    FirstTurnFrame(ended, afterLine);
    GoOnFrame(ended, afterLine, Request);
    GoOnFrame(ended, afterLine, Head);
    GoOnFrame(ended, afterLine, Behind);
  }

  lemma EndTurnFrame(s: State, afterLine: bool)
    ensures var t := EndTurn(s, afterLine); t == s.(outer := t.outer, doing := Asleep)
    ensures EndTurn(s, afterLine).outer == s.outer ||
            (s.outer == MainLoop && !s.interactive && EndTurn(s, afterLine).outer == WaitForTasks(false))
  {
  }

  lemma FirstTurnFrame(s: State, afterLine: bool)
    ensures var t := FirstTurnOf(s, afterLine); t == s.(doing := t.doing, work := t.work) && t.doing.Turning?
  {
  }

  lemma GoOnFrame(s: State, afterLine: bool, phase: Phase)
    ensures var t := GoOn(s, afterLine, phase); t == s.(doing := t.doing) && t.doing.Turning?
  {
  }

  /** The steps at which agent_loop returns, wake-ups that found nothing aside. */
  predicate Returns(step: Step) {
    step.RequestFails? || step.ReplyFails? || step.RequeueGoal? || step.TurnEnd?
  }

  lemma ReturnFrame(s: State, step: Step)
    requires Returns(step) && Can(s, step)
    ensures var t := TakeTurn(s, step); t == s.(outer := t.outer, doing := Asleep, inputQ := t.inputQ)
    ensures var t := TakeTurn(s, step);
      && (t.inputQ == s.inputQ || t.inputQ == PushInput(s, Line))
      && (t.outer == s.outer || (s.outer == MainLoop && !s.interactive && t.outer == WaitForTasks(false)))
  {
  }

  lemma TurnFrame(s: State, step: Step)
    requires IsTurnStep(step) && Can(s, step)
    ensures var t := TakeTurn(s, step);
      && t == s.(outer := t.outer, doing := t.doing, work := t.work, launching := t.launching, count := t.count,
                 running := t.running, started := t.started, inputQ := t.inputQ)
      && (t.inputQ == s.inputQ || t.inputQ == PushInput(s, Line))
  {
    hide EndTurn;
    if Returns(step) {
      hide TakeTurn;
      ReturnFrame(s, step);
    }
  }

  lemma ControlStep(s: State, step: Step)
    requires Can(s, step) && ControlOk(s) && CounterOk(s)
    ensures ControlOk(Do(s, step))
  {
    if IsProducer(step) {
      ControlProducer(s, step);
    } else if IsTurnStep(step) {
      ControlTurn(s, step);
    } else {
      ControlServe(s, step);
    }
  }

  lemma ControlProducer(s: State, step: Step)
    requires IsProducer(step) && Can(s, step) && ControlOk(s)
    ensures ControlOk(Do(s, step))
  {
  }

  lemma ControlTurn(s: State, step: Step)
    requires IsTurnStep(step) && Can(s, step) && ControlOk(s)
    ensures ControlOk(Do(s, step))
  {
  }

  lemma ControlServe(s: State, step: Step)
    requires !IsProducer(step) && !IsTurnStep(step) && Can(s, step) && ControlOk(s)
    ensures ControlOk(Do(s, step))
  {
    if step.PopInput? || step.DrainPop? || step.Inject? || step.DrainEnd? {
      ControlDrain(s, step);
    } else {
      ControlWait(s, step);
    }
  }

  lemma ControlDrain(s: State, step: Step)
    requires step.PopInput? || step.DrainPop? || step.Inject? || step.DrainEnd?
    requires Can(s, step) && ControlOk(s)
    ensures ControlOk(Do(s, step))
  {
    hide EndDrain, PopFirst;
    if step == PopInput { PopFrame(s); }
    if step == DrainEnd { EndDrainFrame(s); }
  }

  lemma ControlWait(s: State, step: Step)
    requires step.LeaveLoop? || step.WaitPop? || step.WaitInject? || step.WaitEnd?
    requires Can(s, step) && ControlOk(s)
    ensures ControlOk(Do(s, step))
  {
  }

  lemma CounterStep(s: State, step: Step)
    requires Can(s, step) && ControlOk(s) && CounterOk(s) && OnceOk(s)
    ensures CounterOk(Do(s, step))
  {
    if IsProducer(step) {
      CounterProducer(s, step);
    } else if IsTurnStep(step) {
      CounterTurn(s, step);
    } else if step.Inject? || step.WaitInject? {
      CounterInject(s);
    } else {
      CounterServe(s, step);
    }
  }

  lemma CounterProducer(s: State, step: Step)
    requires IsProducer(step) && Can(s, step) && CounterOk(s)
    ensures CounterOk(Do(s, step))
  {
    match step
    case WorkerPush(w) => TasksAppend(s.subQ, Task(w));
    case InjectPush => TasksAppend(s.subQ, UserNotify(s.notes));
    case _ =>
  }

  lemma CounterTurn(s: State, step: Step)
    requires IsTurnStep(step) && Can(s, step) && ControlOk(s) && CounterOk(s) && OnceOk(s)
    ensures CounterOk(Do(s, step))
  {
    if step.CountTask? || step.CreateThread? || step.FailThread? {
      CounterLaunch(s, step);
    } else {
      CounterStays(s, step);
    }
  }

  lemma CounterLaunch(s: State, step: Step)
    requires (step.CountTask? || step.CreateThread? || step.FailThread?) && Can(s, step) && CounterOk(s) && OnceOk(s)
    ensures CounterOk(Do(s, step))
  {
    hide Tasks;
  }

  lemma CounterStays(s: State, step: Step)
    requires IsTurnStep(step) && !step.CountTask? && !step.CreateThread? && !step.FailThread?
    requires Can(s, step) && CounterOk(s)
    ensures CounterOk(Do(s, step))
  {
    hide Tasks, CounterOk, Produce, Serve, TakeTurn, Can;
    TurnFrame(s, step);
    NothingLaunched(s, step);
    SameCounter(s, TakeTurn(s, step));
  }

  lemma NothingLaunched(s: State, step: Step)
    requires IsTurnStep(step) && !step.CountTask? && !step.CreateThread? && !step.FailThread? && Can(s, step)
    ensures var t := TakeTurn(s, step); t.count == s.count && t.running == s.running && t.launching == s.launching
  {
    hide EndTurn;
    if Returns(step) {
      hide TakeTurn;
      ReturnFrame(s, step);
    }
  }

  lemma SameCounter(s: State, t: State)
    requires CounterOk(s)
    requires t.count == s.count && t.running == s.running && t.subQ == s.subQ && t.held == s.held && t.launching == s.launching
    ensures CounterOk(t)
  {
  }

  lemma CounterInject(s: State)
    requires s.held != NoItem && CounterOk(s)
    ensures CounterOk(InjectHeld(s))
  {
  }

  lemma CounterServe(s: State, step: Step)
    requires !IsProducer(step) && !IsTurnStep(step) && !step.Inject? && !step.WaitInject?
    requires Can(s, step) && ControlOk(s) && CounterOk(s)
    ensures CounterOk(Do(s, step))
  {
    hide EndDrain, PopFirst;
    if step == PopInput { PopFrame(s); }
    if step == DrainEnd { EndDrainFrame(s); }
  }

  lemma OrderStep(s: State, step: Step)
    requires Can(s, step) && ControlOk(s) && OrderOk(s)
    ensures OrderOk(Do(s, step))
  {
    if IsProducer(step) {
      OrderProducer(s, step);
    } else if step.DrainPop? || step.WaitPop? {
      OrderTake(s);
    } else if step.Inject? || step.WaitInject? {
      OrderInject(s);
    } else {
      OrderOther(s, step);
    }
  }

  lemma OrderProducer(s: State, step: Step)
    requires IsProducer(step) && Can(s, step) && OrderOk(s)
    ensures OrderOk(Do(s, step))
  {
  }

  lemma OrderTake(s: State)
    requires s.subQ != [] && s.held == NoItem && OrderOk(s)
    ensures OrderOk(Take(s))
  {
    assert s.subQ == [s.subQ[0]] + s.subQ[1..];
  }

  lemma OrderInject(s: State)
    requires s.held != NoItem && OrderOk(s)
    ensures OrderOk(InjectHeld(s))
  {
  }

  predicate SameQueues(s: State, t: State) {
    t.pushed == s.pushed && t.injected == s.injected && t.held == s.held && t.subQ == s.subQ
  }

  lemma QueuesTurn(s: State, step: Step)
    requires IsTurnStep(step) && Can(s, step)
    ensures SameQueues(s, Do(s, step))
  {
    hide TakeTurn;
    TurnFrame(s, step);
  }

  lemma QueuesServe(s: State, step: Step)
    requires !IsProducer(step) && !IsTurnStep(step) && Can(s, step)
    requires !step.DrainPop? && !step.WaitPop? && !step.Inject? && !step.WaitInject?
    ensures SameQueues(s, Do(s, step))
  {
    hide EndDrain, PopFirst;
    if step == PopInput { PopFrame(s); }
    if step == DrainEnd { EndDrainFrame(s); }
  }

  lemma OrderOther(s: State, step: Step)
    requires !IsProducer(step) && Can(s, step) && OrderOk(s)
    requires !step.DrainPop? && !step.WaitPop? && !step.Inject? && !step.WaitInject?
    ensures OrderOk(Do(s, step))
  {
    hide Do, Can;
    if IsTurnStep(step) {
      QueuesTurn(s, step);
    } else {
      QueuesServe(s, step);
    }
  }

  lemma OnceStep(s: State, step: Step)
    requires Can(s, step) && OnceOk(s)
    ensures OnceOk(Do(s, step))
  {
    if step.WorkerPush? {
      OnceWorkerPush(s, step.w);
    } else if step.InjectPush? {
      OnceInjectPush(s);
    } else {
      OnceOther(s, step);
    }
  }

  lemma OnceWorkerPush(s: State, w: nat)
    requires Can(s, WorkerPush(w)) && OnceOk(s)
    ensures OnceOk(Do(s, WorkerPush(w)))
  {
  }

  lemma OnceInjectPush(s: State)
    requires Can(s, InjectPush) && OnceOk(s)
    ensures OnceOk(Do(s, InjectPush))
  {
  }

  lemma OnceOther(s: State, step: Step)
    requires !step.WorkerPush? && !step.InjectPush? && Can(s, step) && OnceOk(s)
    ensures OnceOk(Do(s, step))
  {
    hide Do, Can;
    RecordStep(s, step);
    var t := Do(s, step);
    forall i | 0 <= i < |t.pushed| && t.pushed[i].Task?
      ensures t.pushed[i].w < t.started && t.pushed[i].w !in t.running
    {
      assert s.pushed[i].w < s.started && s.pushed[i].w !in s.running;
    }
  }

  /** The record of pushes and threads is the same, but for a new thread. */
  predicate SameRecord(s: State, step: Step, t: State) {
    && t.pushed == s.pushed && t.notes == s.notes && t.between <= s.between
    && t.running == (if step.CreateThread? then s.running + {s.started} else s.running)
    && t.started == (if step.CreateThread? then s.started + 1 else s.started)
  }

  /** Only the two pushes change what has been pushed; only a created thread is new. */
  lemma RecordStep(s: State, step: Step)
    requires !step.WorkerPush? && !step.InjectPush? && Can(s, step)
    ensures SameRecord(s, step, Do(s, step))
  {
    if IsProducer(step) {
      RecordProducer(s, step);
    } else if IsTurnStep(step) {
      RecordTurn(s, step);
    } else {
      RecordServe(s, step);
    }
  }

  lemma RecordProducer(s: State, step: Step)
    requires IsProducer(step) && !step.WorkerPush? && !step.InjectPush? && Can(s, step)
    ensures SameRecord(s, step, Do(s, step))
  {
  }

  lemma RecordTurn(s: State, step: Step)
    requires IsTurnStep(step) && Can(s, step)
    ensures SameRecord(s, step, Do(s, step))
  {
    hide EndTurn;
    if Returns(step) {
      hide TakeTurn;
      ReturnFrame(s, step);
    }
  }

  lemma RecordServe(s: State, step: Step)
    requires !IsProducer(step) && !IsTurnStep(step) && Can(s, step)
    ensures SameRecord(s, step, Do(s, step))
  {
    if step.DrainPop? || step.WaitPop? || step.Inject? || step.WaitInject? {
      RecordItem(s, step);
    } else {
      RecordControl(s, step);
    }
  }

  lemma RecordItem(s: State, step: Step)
    requires step.DrainPop? || step.WaitPop? || step.Inject? || step.WaitInject?
    requires Can(s, step)
    ensures SameRecord(s, step, Do(s, step))
  {
  }

  lemma RecordControl(s: State, step: Step)
    requires !IsProducer(step) && !IsTurnStep(step) && Can(s, step)
    requires !step.DrainPop? && !step.WaitPop? && !step.Inject? && !step.WaitInject?
    ensures SameRecord(s, step, Do(s, step))
  {
    if step.PopInput? || step.DrainEnd? {
      RecordOfLoop(s, step);
    } else {
      assert step.LeaveLoop? || step.WaitEnd?;
    }
  }

  lemma RecordOfLoop(s: State, step: Step)
    requires (step.PopInput? || step.DrainEnd?) && Can(s, step)
    ensures SameRecord(s, step, Do(s, step))
  {
    hide EndDrain, PopFirst;
    if step == PopInput { PopFrame(s); }
    if step == DrainEnd { EndDrainFrame(s); }
  }

  lemma LaunchedStep(s: State, step: Step)
    requires Can(s, step) && LaunchedOk(s)
    ensures LaunchedOk(Do(s, step))
  {
    if !step.WorkerPush? && !step.InjectPush? {
      RecordStep(s, step);
    } else {
      var t := Do(s, step);
      assert t.started == s.started && s.pushed <= t.pushed;
      assert forall i: Item :: i in s.pushed ==> i in t.pushed;
      if step.WorkerPush? {
        assert t.pushed[|s.pushed|] == Task(step.w);
      }
    }
  }

  lemma DisjointStep(s: State, step: Step)
    requires Can(s, step) && OnceOk(s) && s.running !! s.between
    ensures Do(s, step).running !! Do(s, step).between
  {
    if step.WorkerPush? {
      DisjointPush(s, step.w);
    } else if step.InjectPush? {
      assert Do(s, step).running == s.running && Do(s, step).between == s.between;
    } else {
      hide Do, Can;
      RecordStep(s, step);
    }
  }

  lemma DisjointPush(s: State, w: nat)
    requires Can(s, WorkerPush(w)) && s.running !! s.between
    ensures Do(s, WorkerPush(w)).running !! Do(s, WorkerPush(w)).between
  {
  }

  lemma WakeStep(s: State, step: Step)
    requires Can(s, step) && ControlOk(s) && OnceOk(s) && WakeOk(s)
    requires s.running !! s.between
    ensures WakeOk(Do(s, step))
  {
    if IsProducer(step) {
      WakeProducer(s, step);
    } else {
      WakeMain(s, step);
    }
  }

  lemma WakeProducer(s: State, step: Step)
    requires IsProducer(step) && Can(s, step) && WakeOk(s)
    requires s.running !! s.between
    ensures WakeOk(Do(s, step))
  {
    WakesAppend(s.inputQ, Wake);
    WakesAppend(s.inputQ, Line);
  }

  lemma WakeMain(s: State, step: Step)
    requires !IsProducer(step) && Can(s, step) && ControlOk(s) && WakeOk(s)
    ensures WakeOk(Do(s, step))
  {
    hide EndDrain, PopFirst, TakeTurn;
    WakesAppend(s.inputQ, Line);
    if IsTurnStep(step) {
      TurnFrame(s, step);
    } else {
      if step == PopInput { PopFrame(s); }
      if step == DrainEnd { EndDrainFrame(s); }
    }
  }

  lemma NotesStep(s: State, step: Step)
    requires Can(s, step) && ControlOk(s) && NotesOk(s)
    ensures NotesOk(Do(s, step))
  {
    hide EndDrain, PopFirst, TakeTurn;
    WakesAppend(s.inputQ, Wake);
    WakesAppend(s.inputQ, Line);
    if IsTurnStep(step) {
      TurnFrame(s, step);
    } else {
      if step == PopInput { PopFrame(s); }
      if step == DrainEnd { EndDrainFrame(s); }
    }
  }

  ghost predicate Inv(s: State) {
    ControlOk(s) && CounterOk(s) && OrderOk(s) && OnceOk(s) && LaunchedOk(s) && s.running !! s.between
    && WakeOk(s) && NotesOk(s)
  }

  lemma InvStep(s: State, step: Step)
    requires Can(s, step) && Inv(s)
    ensures Inv(Do(s, step))
  {
    ControlStep(s, step);
    CounterStep(s, step);
    OrderStep(s, step);
    OnceStep(s, step);
    LaunchedStep(s, step);
    DisjointStep(s, step);
    WakeStep(s, step);
    NotesStep(s, step);
  }

  lemma {:induction false} InvRun(s: State, steps: seq<Step>, t: State)
    requires Inv(s) && Reaches(s, steps, t)
    ensures Inv(t)
    decreases |steps|
  {
    if steps != [] {
      InvStep(s, steps[0]);
      InvRun(Do(s, steps[0]), steps[1..], t);
    }
  }

  /** A state some interleaving reaches from the start of a session. */
  ghost predicate Reachable(s: State) {
    exists steps: seq<Step> :: Reaches(Init(s.interactive, s.work.maxTurns), steps, s)
  }

  lemma InitIsInv(interactive: bool, maxTurns: nat)
    ensures Inv(Init(interactive, maxTurns))
  {
  }

  lemma ReachableIsInv(s: State)
    requires Reachable(s)
    ensures Inv(s)
  {
    var steps: seq<Step> :| Reaches(Init(s.interactive, s.work.maxTurns), steps, s);
    InvRun(Init(s.interactive, s.work.maxTurns), steps, s);
  }

  // ---------------------------------------------------------------- main results

  /**
   No wake-up is lost: while the input queue is open, an interactive main thread
   that sleeps with a result waiting has a wake-up in its queue, or the producer of
   some waiting result has yet to send one. When neither is there, every result
   pushed so far is in the conversation, once each, in the order of the pushes.
   */
  lemma NoLostWakeup(s: State)
    requires Reachable(s) && s.interactive && !s.closed && s.doing == Asleep
    ensures |s.subQ| <= Wakes(s.inputQ) + |s.between| + One(s.reader == Injecting)
    ensures Wake !in s.inputQ && s.between == {} && s.reader != Injecting ==> s.injected == s.pushed
    ensures forall i, j :: 0 <= i < j < |s.injected| ==> s.injected[i] != s.injected[j]
  {
    ReachableIsInv(s);
    WakesIn(s.inputQ);
    Delivered(s);
  }

  /** What has reached the conversation is a prefix of what was pushed, all of it when nothing is on the way. */
  lemma Delivered(s: State)
    requires OrderOk(s)
    ensures s.injected <= s.pushed
    ensures s.held == NoItem && s.subQ == [] ==> s.injected == s.pushed
  {
  }

  lemma {:induction false} WakesIn(q: seq<Input>)
    ensures Wakes(q) > 0 <==> Wake in q
  {
    if q != [] {
      WakesIn(q[1..]);
      assert q == [q[0]] + q[1..];
    }
  }

  /**
   The counter: it counts the launched tasks whose result has not reached the
   conversation, so it is never negative and the test that guards one of the two
   decrements never fails.
   */
  lemma CounterIsExact(s: State)
    requires Reachable(s)
    ensures s.count == |s.running| + Tasks(s.subQ) + One(s.held.Holding? && s.held.item.Task?) + One(s.launching)
    ensures s.count >= 0
    ensures s.held.Holding? && s.held.item.Task? ==> s.count > 0
    ensures s.launching ==> s.count > 0
  {
    ReachableIsInv(s);
  }

  /** A wait that blocks on an empty result queue has a worker that will still push. */
  lemma BlockedWaitHasWorker(s: State)
    requires Reachable(s) && s.outer.WaitForTasks? && s.doing == Asleep && s.held == NoItem
    requires s.count > 0 && s.subQ == []
    ensures s.running != {}
  {
    ReachableIsInv(s);
  }

  /** Behind the main loop no wake-up is queued and no injected text waits. */
  lemma NoTextWaits(s: State)
    requires Inv(s) && s.outer.WaitForTasks? && s.doing == Asleep
    ensures forall i :: 0 <= i < |s.subQ| ==> s.subQ[i].Task?
  {
    hide CounterOk, LaunchedOk, WakeOk;
    NoNotes(s);
  }

  /** The counter of a main thread that launches and holds nothing. */
  lemma CountAsleep(s: State)
    requires Inv(s) && s.doing == Asleep && s.held == NoItem
    ensures s.count == |s.running| + Tasks(s.subQ)
  {
    hide OrderOk, OnceOk, LaunchedOk, WakeOk, NotesOk, Tasks;
  }

  /**
   The wait ends exactly when no task can still push and no task result is
   undelivered. Nothing at all is left then: an injected text had a wake-up, which the
   loop served before it was left, and every result that was ever pushed is in the
   conversation, in order and once.
   */
  lemma WaitEndsIff(s: State)
    requires Reachable(s) && s.outer.WaitForTasks? && s.doing == Asleep && s.held == NoItem
    ensures Can(s, WaitEnd) <==> s.running == {} && forall i :: 0 <= i < |s.subQ| ==> s.subQ[i].UserNotify?
    ensures Can(s, WaitEnd) ==> s.subQ == [] && s.injected == s.pushed
  {
    hide Inv, Reachable, OrderOk, Tasks;
    ReachableIsInv(s);
    InvOrder(s);
    CountAsleep(s);
    NoTextWaits(s);
    TasksAtMost(s.subQ);
    Delivered(s);
  }

  lemma InvOrder(s: State)
    requires Inv(s)
    ensures OrderOk(s)
  {
  }

  /** Without a readline thread every waiting result is a task's. */
  lemma NoNotes(s: State)
    requires ControlOk(s) && OrderOk(s) && OnceOk(s)
    ensures !s.interactive ==> forall i :: 0 <= i < |s.subQ| ==> s.subQ[i].Task?
  {
    var front := |s.pushed| - |s.subQ|;
    forall i | !s.interactive && 0 <= i < |s.subQ|
      ensures s.subQ[i].Task?
    {
      assert s.pushed[front + i] == s.subQ[i];
    }
  }

  /** Nothing is delivered twice or lost in a session that ran to its end. */
  lemma EndOfSession(s: State)
    requires Reachable(s) && s.outer == Exited
    ensures s.running == {} && s.count == 0 && s.held == NoItem && !s.launching
    ensures s.injected == s.pushed && s.subQ == []
    ensures forall w: nat :: Task(w) in s.pushed <==> w < s.started
  {
    ReachableIsInv(s);
    Delivered(s);
    TasksAtMost(s.subQ);
    NoNotes(s);
    assert s.running == {};
    forall w: nat | Task(w) in s.pushed
      ensures w < s.started
    {
      var i :| 0 <= i < |s.pushed| && s.pushed[i] == Task(w);
    }
  }

  lemma {:induction false} ReachesOneMore(s: State, steps: seq<Step>, t: State, step: Step)
    requires Reaches(s, steps, t) && Can(t, step)
    ensures Reaches(s, steps + [step], Do(t, step))
    decreases |steps|
  {
    if steps == [] {
      assert steps + [step] == [step];
      assert Reaches(Do(s, step), [], Do(t, step));
    } else {
      ReachesOneMore(Do(s, steps[0]), steps[1..], t, step);
      assert (steps + [step])[1..] == steps[1..] + [step];
    }
  }

  lemma ReachableNext(s: State, step: Step) returns (t: State)
    requires Reachable(s) && Can(s, step)
    ensures t == Do(s, step) && Reachable(t)
  {
    t := Do(s, step);
    var steps: seq<Step> :| Reaches(Init(s.interactive, s.work.maxTurns), steps, s);
    ReachesOneMore(Init(s.interactive, s.work.maxTurns), steps, s, step);
  }

  // ---------------------------------------------------------------- what the model is called on

  /** The model has been called on everything that has reached the conversation. */
  predicate AllSeen(s: State) {
    s.work.seen == |s.injected|
  }

  /**
   Where agent_loop can leave results without a call: the request cannot be built, the work is
   interrupted behind a reply, or no turn is left.
   */
  predicate StopsShort(s: State, step: Step) {
    && !AllSeen(s)
    && (step.RequestFails? || step.LeaveTurns? || (step.DrainEnd? && s.doing.Draining? && s.doing.place == AfterReply && s.work.interrupted))
  }

  /** How many results were in the conversation at the last call or short stop of a run, and which it was. */
  datatype Mark = Mark(at: nat, called: bool)

  function Marked(m: Mark, s: State, step: Step): Mark {
    if step.CallModel? then Mark(|s.injected|, true)
    else if StopsShort(s, step) then Mark(|s.injected|, false)
    else m
  }

  ghost function LastMark(m: Mark, s: State, steps: seq<Step>): Mark
    decreases |steps|
  {
    if steps == [] || !Can(s, steps[0]) then m
    else LastMark(Marked(m, s, steps[0]), Do(s, steps[0]), steps[1..])
  }

  predicate MarkOk(s: State, m: Mark) {
    && (if m.called then m.at == s.work.seen else s.work.seen < m.at)
    && m.at <= |s.injected|
    && match s.doing
       case Asleep => m.at == |s.injected|
       case Turning(_, phase) => (phase == Reply ==> m == Mark(|s.injected|, true)) && (phase == Behind ==> m.at == |s.injected|)
       case Draining(_, place, drained) =>
         && (place != BeforeCall ==> m.at + drained == |s.injected|)
         && (place == AfterReply ==> m.called)
  }

  lemma MarkStep(s: State, m: Mark, step: Step)
    requires Can(s, step) && ControlOk(s) && MarkOk(s, m)
    ensures MarkOk(Do(s, step), Marked(m, s, step))
  {
    if IsProducer(step) {
      MarkProducer(s, m, step);
    } else if IsTurnStep(step) {
      MarkTurn(s, m, step);
    } else {
      MarkServe(s, m, step);
    }
  }

  lemma MarkProducer(s: State, m: Mark, step: Step)
    requires IsProducer(step) && Can(s, step) && MarkOk(s, m)
    ensures MarkOk(Do(s, step), Marked(m, s, step))
  {
  }

  lemma MarkTurn(s: State, m: Mark, step: Step)
    requires IsTurnStep(step) && Can(s, step) && MarkOk(s, m)
    ensures MarkOk(Do(s, step), Marked(m, s, step))
  {
    if Returns(step) {
      hide TakeTurn;
      ReturnFrame(s, step);
    }
  }

  lemma MarkServe(s: State, m: Mark, step: Step)
    requires !IsProducer(step) && !IsTurnStep(step) && Can(s, step) && ControlOk(s) && MarkOk(s, m)
    ensures MarkOk(Do(s, step), Marked(m, s, step))
  {
    if step == DrainEnd {
      MarkDrainEnd(s, m);
    } else {
      hide EndDrain;
    }
  }

  lemma MarkDrainEnd(s: State, m: Mark)
    requires Can(s, DrainEnd) && MarkOk(s, m)
    ensures MarkOk(EndDrain(s), Marked(m, s, DrainEnd))
  {
  }

  lemma {:induction false} MarkRun(s: State, m: Mark, steps: seq<Step>, t: State)
    requires Inv(s) && MarkOk(s, m) && Reaches(s, steps, t)
    ensures MarkOk(t, LastMark(m, s, steps))
    decreases |steps|
  {
    if steps != [] {
      hide Inv, MarkOk, Do, Can, Marked;
      InvStep(s, steps[0]);
      InvControl(s);
      MarkStep(s, m, steps[0]);
      MarkRun(Do(s, steps[0]), Marked(m, s, steps[0]), steps[1..], t);
    }
  }

  lemma InvControl(s: State)
    requires Inv(s)
    ensures ControlOk(s)
  {
  }

  /**
   No result is delivered and then forgotten: whenever the main thread sleeps, the conversation holds
   nothing that was not there at the last model call or short stop, and the model has been called
   on all of it exactly when that was a call.
   */
  lemma SleepsOnSeenResults(s: State, steps: seq<Step>)
    requires Reaches(Init(s.interactive, s.work.maxTurns), steps, s) && s.doing == Asleep
    ensures var m := LastMark(Mark(0, true), Init(s.interactive, s.work.maxTurns), steps);
      m.at == |s.injected| && (AllSeen(s) <==> m.called)
  {
    hide Inv, Reaches, LastMark;
    InitIsInv(s.interactive, s.work.maxTurns);
    MarkRun(Init(s.interactive, s.work.maxTurns), Mark(0, true), steps, s);
  }

  /** No step of a run stops short. */
  ghost predicate NeverShort(s: State, steps: seq<Step>)
    decreases |steps|
  {
    steps != [] && Can(s, steps[0]) ==> !StopsShort(s, steps[0]) && NeverShort(Do(s, steps[0]), steps[1..])
  }

  lemma {:induction false} NeverShortMark(m: Mark, s: State, steps: seq<Step>)
    requires NeverShort(s, steps)
    ensures m.called ==> LastMark(m, s, steps).called
    ensures CallModel !in steps ==> LastMark(m, s, steps) == m
    decreases |steps|
  {
    if steps != [] && Can(s, steps[0]) {
      hide Do, Can, StopsShort;
      NeverShortMark(Marked(m, s, steps[0]), Do(s, steps[0]), steps[1..]);
      assert steps[0] in steps && (CallModel !in steps ==> CallModel !in steps[1..]);
    }
  }

  /**
   From the push to the model: in a run that never stops short, a sleeping interactive thread without a
   wake-up queued or on its way has called the model on every result ever pushed. At the end of
   every session, interactive or not, so has the main thread.
   */
  lemma EveryResultIsSeen(s: State, steps: seq<Step>)
    requires Reaches(Init(s.interactive, s.work.maxTurns), steps, s)
    requires NeverShort(Init(s.interactive, s.work.maxTurns), steps)
    ensures s.interactive && !s.closed && s.doing == Asleep && Wake !in s.inputQ && s.between == {} && s.reader != Injecting ==>
              s.injected == s.pushed && s.work.seen == |s.pushed|
    ensures s.outer == Exited ==> s.injected == s.pushed && s.work.seen == |s.pushed|
  {
    var start := Init(s.interactive, s.work.maxTurns);
    NeverShortMark(Mark(0, true), start, steps);
    assert Reachable(s);
    if s.interactive && !s.closed && s.doing == Asleep {
      SleepsOnSeenResults(s, steps);
      NoLostWakeup(s);
    }
    if s.outer == Exited {
      ReachableIsInv(s);
      SleepsOnSeenResults(s, steps);
      EndOfSession(s);
    }
  }

  lemma {:induction false} InjectedGrows(s: State, steps: seq<Step>, t: State)
    requires Reaches(s, steps, t)
    ensures s.injected <= t.injected
    decreases |steps|
  {
    if steps != [] {
      hide Can, Do;
      InjectedStep(s, steps[0]);
      InjectedGrows(Do(s, steps[0]), steps[1..], t);
    }
  }

  lemma InjectedStep(s: State, step: Step)
    requires Can(s, step)
    ensures s.injected <= Do(s, step).injected
    ensures step.Inject? || step.WaitInject? ==> s.injected != Do(s, step).injected
  {
    hide EndDrain, PopFirst, TakeTurn;
    if IsTurnStep(step) {
      TurnFrame(s, step);
    } else {
      if step == PopInput { PopFrame(s); }
      if step == DrainEnd { EndDrainFrame(s); }
    }
  }

  /** Serving a wake-up without having found anything, or back asleep. */
  predicate Idle(s: State) {
    s.doing == Asleep || (s.doing.Draining? && s.doing.place == ForWakeup && s.doing.drained == 0)
  }

  lemma IdleStep(s: State, step: Step)
    requires Can(s, step) && Idle(s) && step != PopInput
    ensures step != CallModel
    ensures Do(s, step).injected == s.injected ==> Idle(Do(s, step))
  {
    InjectedStep(s, step);
  }

  lemma {:induction false} IdleRun(s: State, steps: seq<Step>, t: State)
    requires Idle(s) && Reaches(s, steps, t) && PopInput !in steps && t.injected == s.injected
    ensures CallModel !in steps
    decreases |steps|
  {
    if steps != [] {
      hide Idle, Can, Do;
      IdleStep(s, steps[0]);
      InjectedStep(s, steps[0]);
      InjectedGrows(Do(s, steps[0]), steps[1..], t);
      assert Do(s, steps[0]).injected == s.injected;
      IdleRun(Do(s, steps[0]), steps[1..], t);
    }
  }

  /**
   A wake-up makes the model be called exactly when something was found: from the wake-up to the
   next sleep, in whatever interleaving, unless the work stops short.
   */
  lemma WakeupCallsIff(s: State, steps: seq<Step>, t: State)
    requires Reachable(s) && s.doing.Draining? && s.doing.place == ForWakeup && s.doing.drained == 0
    requires Reaches(s, steps, t) && PopInput !in steps && t.doing == Asleep && NeverShort(s, steps)
    ensures CallModel in steps <==> t.injected != s.injected
  {
    hide Inv, Do, Can, Reaches, NeverShort;
    InitIsInv(s.interactive, s.work.maxTurns);
    var before: seq<Step> :| Reaches(Init(s.interactive, s.work.maxTurns), before, s);
    ReachableIsInv(s);
    var m := LastMark(Mark(0, true), Init(s.interactive, s.work.maxTurns), before);
    MarkRun(Init(s.interactive, s.work.maxTurns), Mark(0, true), before, s);
    MarkRun(s, m, steps, t);
    NeverShortMark(m, s, steps);
    InjectedGrows(s, steps, t);
    if t.injected == s.injected {
      IdleRun(s, steps, t);
    }
  }

  /** On the way to the first call of agent_loop. */
  predicate BeforeFirstCall(s: State) {
    || (InPhase(s, Head) && s.work.turn == 0 < s.work.maxTurns)
    || (s.doing.Draining? && s.doing.place == BeforeCall)
    || InPhase(s, Request)
  }

  lemma FirstCallStep(s: State, step: Step)
    requires Can(s, step) && ControlOk(s) && BeforeFirstCall(s) && step != CallModel && step != RequestFails
    ensures BeforeFirstCall(Do(s, step))
  {
  }

  /** Once agent_loop has something to say, a user's line included, it calls the model before it returns. */
  lemma {:induction false} LoopCallsModel(s: State, steps: seq<Step>, t: State)
    requires Inv(s) && BeforeFirstCall(s)
    requires Reaches(s, steps, t) && t.doing == Asleep && RequestFails !in steps
    ensures CallModel in steps
    decreases |steps|
  {
    if steps != [] && steps[0] != CallModel {
      hide Inv, Do, Can, BeforeFirstCall;
      InvStep(s, steps[0]);
      InvControl(s);
      FirstCallStep(s, steps[0]);
      LoopCallsModel(Do(s, steps[0]), steps[1..], t);
    }
  }

  /** A line taken from the queue is put to the model, unless the request cannot be built. */
  lemma LineIsPutToModel(s: State, steps: seq<Step>, t: State)
    requires Reachable(s) && Can(s, PopInput) && s.inputQ[0] == Line && s.work.maxTurns > 0
    requires Reaches(Do(s, PopInput), steps, t) && t.doing == Asleep && RequestFails !in steps
    ensures CallModel in steps
  {
    ReachableIsInv(s);
    InvStep(s, PopInput);
    LoopCallsModel(Do(s, PopInput), steps, t);
  }

  // ---------------------------------------------------------------- wake-ups after the end

  function Workers(n: nat): (workers: set<nat>)
    ensures forall w: nat :: w in workers <==> w < n
  {
    if n == 0 then {} else Workers(n - 1) + {n - 1}
  }

  /** At the reply of a turn, with nothing queued, n tasks done, and the wake-ups of all of them still to come. */
  predicate AllUnsignalled(s: State, interactive: bool, n: nat) {
    && s.interactive == interactive && s.outer == MainLoop && s.doing == Turning(true, Reply) && !s.launching && !s.closed
    && s.held == NoItem && s.subQ == [] && s.inputQ == [] && s.count == 0 && s.running == {} && s.started == n
    && s.between == (if interactive then Workers(n) else {}) && s.work.turn == n + 1
    && s.reader == (if interactive then Ready else Ended) && !s.work.interrupted && !s.holdsWake
  }

  /** From the end of the drain in front of a call to the reply. */
  lemma DrainAndCall(before: State) returns (s: State)
    requires Reachable(before) && before.doing.Draining? && before.doing.place == BeforeCall
    requires before.held == NoItem && before.subQ == []
    ensures Reachable(s)
    ensures s == before.(doing := Turning(before.doing.afterLine, Reply), holdsWake := false,
                         work := before.work.(seen := |before.injected|))
  {
    hide Reachable;
    s := ReachableNext(before, DrainEnd);
    s := ReachableNext(s, CallModel);
  }

  /** A whole turn up to its reply, when no result is waiting. */
  lemma OneTurn(before: State) returns (s: State)
    requires Reachable(before) && InPhase(before, Head) && before.work.turn < before.work.maxTurns
    requires before.held == NoItem && before.subQ == [] && !before.holdsWake
    ensures Reachable(s)
    ensures s == before.(doing := Turning(before.doing.afterLine, Reply),
                         work := Work(before.work.maxTurns, before.work.turn + 1, false, |before.injected|))
  {
    hide Reachable;
    s := ReachableNext(before, EnterTurn);
    s := DrainAndCall(s);
  }

  /** The same when one task's result is waiting: it is delivered. */
  lemma DeliveringTurn(before: State, w: nat) returns (s: State)
    requires Reachable(before) && InPhase(before, Head) && before.work.turn < before.work.maxTurns
    requires before.held == NoItem && before.subQ == [Task(w)] && before.count == 1 && !before.holdsWake
    ensures Reachable(s)
    ensures s == before.(doing := Turning(before.doing.afterLine, Reply), subQ := [], count := 0,
                         injected := before.injected + [Task(w)],
                         work := Work(before.work.maxTurns, before.work.turn + 1, false, |before.injected| + 1))
  {
    hide Reachable;
    s := Delivering(before, w);
    s := DrainAndCall(s);
  }

  lemma InjectOne(before: State, w: nat) returns (s: State)
    requires Reachable(before) && before.doing.Draining?
    requires before.held == Holding(Task(w)) && before.count == 1
    ensures Reachable(s)
    ensures s == before.(doing := before.doing.(drained := before.doing.drained + 1), held := NoItem, count := 0,
                         injected := before.injected + [Task(w)])
  {
    s := ReachableNext(before, Inject);
  }

  /** A drain that finds one task's result. */
  lemma DrainOne(before: State, w: nat) returns (s: State)
    requires Reachable(before) && before.doing.Draining?
    requires before.held == NoItem && before.subQ == [Task(w)] && before.count == 1
    ensures Reachable(s)
    ensures s == before.(doing := before.doing.(drained := before.doing.drained + 1), subQ := [], count := 0,
                         injected := before.injected + [Task(w)])
  {
    s := ReachableNext(before, DrainPop);
    assert s == before.(held := Holding(Task(w)), subQ := []) by {
      hide Reachable;
    }
    hide Do, Can;
    s := InjectOne(s, w);
  }

  lemma Delivering(before: State, w: nat) returns (s: State)
    requires Reachable(before) && InPhase(before, Head) && before.work.turn < before.work.maxTurns
    requires before.held == NoItem && before.subQ == [Task(w)] && before.count == 1 && !before.holdsWake
    ensures Reachable(s)
    ensures s == before.(doing := Draining(before.doing.afterLine, BeforeCall, 1), subQ := [], count := 0,
                         injected := before.injected + [Task(w)],
                         work := before.work.(turn := before.work.turn + 1, interrupted := false))
  {
    s := ReachableNext(before, EnterTurn);
    s := DrainOne(s, w);
  }

  lemma FirstLine(interactive: bool, maxTurns: nat) returns (s: State)
    ensures Reachable(s)
    ensures s == Init(interactive, maxTurns).(doing := Turning(true, Head))
  {
    s := Init(interactive, maxTurns);
    assert Reaches(s, [], s);
    s := ReachableNext(s, ReadLine);
    s := ReachableNext(s, PopInput);
  }

  lemma FirstReply(interactive: bool, maxTurns: nat) returns (s: State)
    requires maxTurns > 0
    ensures Reachable(s) && AllUnsignalled(s, interactive, 0) && s.work.maxTurns == maxTurns
  {
    s := FirstLine(interactive, maxTurns);
    s := OneTurn(s);
  }

  /** One task from its launch to the delivery of its result in the next turn, without its wake-up. */
  lemma OneMoreTask(before: State, interactive: bool, n: nat) returns (s: State)
    requires Reachable(before) && AllUnsignalled(before, interactive, n) && n + 1 < before.work.maxTurns
    ensures Reachable(s) && AllUnsignalled(s, interactive, n + 1) && s.work.maxTurns == before.work.maxTurns
  {
    s := LaunchedAndPushed(before, interactive, n);
    s := ReachableNext(s, NextTurn);
    s := DeliveringTurn(s, n);
  }

  lemma LaunchedAndPushed(before: State, interactive: bool, n: nat) returns (s: State)
    requires Reachable(before) && AllUnsignalled(before, interactive, n)
    ensures Reachable(s) && s.count == 1 && s.subQ == [Task(n)] && s.work == before.work
    ensures AllUnsignalled(s.(count := 0, subQ := [], work := s.work.(turn := n + 2)), interactive, n + 1)
  {
    s := Launched(before, interactive, n);
    s := ReachableNext(s, WorkerPush(n));
  }

  lemma Launched(before: State, interactive: bool, n: nat) returns (s: State)
    requires Reachable(before) && AllUnsignalled(before, interactive, n)
    ensures Reachable(s) && s.count == 1 && s.running == {n} && s.started == n + 1 && s.work == before.work
    ensures AllUnsignalled(s.(count := 0, running := {}, started := n), interactive, n)
  {
    s := ReachableNext(before, CountTask);
    s := ReachableNext(s, CreateThread);
  }

  lemma {:induction false} TasksUnsignalled(interactive: bool, n: nat, maxTurns: nat) returns (s: State)
    requires n < maxTurns
    ensures Reachable(s) && AllUnsignalled(s, interactive, n) && s.work.maxTurns == maxTurns
    decreases n
  {
    if n == 0 {
      s := FirstReply(interactive, maxTurns);
    } else {
      s := TasksUnsignalled(interactive, n - 1, maxTurns);
      s := OneMoreTask(s, interactive, n - 1);
    }
  }

  /** The end of a session from such a turn: the input is closed, the loop is left, nothing is waited for. */
  lemma LeaveUnsignalled(before: State, interactive: bool, n: nat) returns (s: State)
    requires Reachable(before) && AllUnsignalled(before, interactive, n)
    ensures Reachable(s) && s.interactive == interactive && s.outer == Exited && s.started == n
    ensures s.between == (if interactive then Workers(n) else {})
  {
    s := Finished(before);
    if interactive {
      s := ReachableNext(s, CloseInput);
      s := ReachableNext(s, TurnEnd);
    } else {
      s := ReachableNext(s, TurnEnd);
      s := ReachableNext(s, WaitEnd);
    }
    s := Leave(s);
  }

  lemma Finished(before: State) returns (s: State)
    requires Reachable(before) && InPhase(before, Reply) && !before.launching
    requires before.held == NoItem && before.subQ == [] && !before.holdsWake
    ensures Reachable(s) && s == before.(doing := Turning(before.doing.afterLine, Behind))
  {
    s := ReachableNext(before, StartDrain);
    s := ReachableNext(s, DrainEnd);
  }

  lemma Leave(before: State) returns (s: State)
    requires Reachable(before) && before.outer == MainLoop && before.doing == Asleep && before.inputQ == []
    requires before.held == NoItem && before.count == 0 && before.closed == before.interactive
    ensures Reachable(s) && s == before.(outer := Exited)
  {
    s := ReachableNext(before, LeaveLoop);
    s := ReachableNext(s, WaitEnd);
  }

  /** Any of the outstanding wake-ups can be sent, one after another. */
  lemma {:induction false} SendAllBut(before: State, late: set<nat>) returns (s: State)
    requires Reachable(before) && late <= before.between
    ensures Reachable(s) && s.between == late
    ensures s.interactive == before.interactive && s.outer == before.outer && s.started == before.started
    decreases before.between - late
  {
    s := before;
    var unsent := before.between - late;
    if unsent == {} {
      assert before.between == late by {
        assert forall w :: w in before.between && w !in late ==> w in unsent;
      }
    } else {
      var w :| w in unsent;
      s := ReachableNext(before, WorkerWake(w));
      s := SendAllBut(s, late);
    }
  }

  /**
   Which wake-ups can still be to come when a session with n tasks has ended: in an
   interactive session those of any of its tasks, all of them included, and otherwise none.
   */
  lemma LateWakeupsIff(interactive: bool, n: nat, late: set<nat>)
    ensures (exists s :: Reachable(s) && s.outer == Exited && s.interactive == interactive && s.started == n
                         && s.between == late)
            <==> late <= (if interactive then Workers(n) else {})
  {
    forall s | Reachable(s) && s.outer == Exited && s.interactive == interactive && s.started == n && s.between == late
      ensures late <= if interactive then Workers(n) else {}
    {
      ReachableIsInv(s);
    }
    if late <= if interactive then Workers(n) else {} {
      var s := TasksUnsignalled(interactive, n, n + 1);
      s := LeaveUnsignalled(s, interactive, n);
      s := SendAllBut(s, late);
    }
  }

  /** No wake-up is ever outstanding at the end exactly when the session was not interactive or launched nothing. */
  lemma NoLateWakeupIff(interactive: bool, n: nat)
    ensures (forall s :: Reachable(s) && s.outer == Exited && s.interactive == interactive && s.started == n
                         ==> s.between == {})
            <==> !interactive || n == 0
  {
    LateWakeupsIff(interactive, n, Workers(n));
    forall s | Reachable(s) && s.outer == Exited && s.interactive == interactive && s.started == n
      ensures !interactive || n == 0 ==> s.between == {}
    {
      LateWakeupsIff(interactive, n, s.between);
    }
    if interactive && n > 0 {
      assert 0 in Workers(n);
    }
  }

  /** Of a session that has ended nothing is left but its reader, and workers with a wake-up to send. */
  lemma AfterTheEnd(s: State)
    requires Reachable(s) && s.outer == Exited
    ensures s.running == {} && !s.launching && s.held == NoItem && s.doing == Asleep
    ensures s.interactive ==> s.inputQ == [] && s.reader == Ended && s.closed
    ensures !s.interactive ==> s.between == {} && s.reader == Ended
  {
    EndOfSession(s);
    ReachableIsInv(s);
  }

  /**
   What can still happen after the end: in an interactive session late wake-ups alone,
   and sending one changes nothing else, because the queue it goes to is closed. A
   session without the readline thread can only be offered more input, or be interrupted.
   */
  lemma OnlyWakeupsFollow(s: State, step: Step)
    requires Reachable(s) && s.outer == Exited && Can(s, step)
    ensures s.interactive ==> step.WorkerWake? && Do(s, step) == s.(between := s.between - {step.w}) && s.inputQ == []
    ensures !s.interactive ==>
              || (step == ReadLine && Do(s, step) == s.(inputQ := PushInput(s, Line)))
              || (step == Interrupt && Do(s, step) == s.(work := s.work.(interrupted := true)))
  {
    hide Reachable;
    AfterTheEnd(s);
  }

  // ---------------------------------------------------------------- short stops happen

  /** Replies that ask for another turn, up to the last one that the limit allows. */
  lemma {:induction false} UpToTheLimit(before: State) returns (s: State)
    requires Reachable(before) && InPhase(before, Reply) && !before.launching && !before.work.interrupted
    requires before.held == NoItem && before.subQ == [] && !before.holdsWake && before.injected == []
    requires before.work.turn <= before.work.maxTurns && before.work.seen == 0
    ensures Reachable(s)
    ensures s == before.(work := before.work.(turn := before.work.maxTurns))
    decreases before.work.maxTurns - before.work.turn
  {
    s := before;
    if before.work.turn < before.work.maxTurns {
      s := ReachableNext(before, NextTurn);
      s := OneTurn(s);
      s := UpToTheLimit(s);
    }
  }

  lemma LastReply(maxTurns: nat) returns (s: State)
    requires maxTurns > 0
    ensures Reachable(s)
    ensures s == Init(true, maxTurns).(doing := Turning(true, Reply), work := Work(maxTurns, maxTurns, false, 0))
  {
    s := FirstLine(true, maxTurns);
    s := OneTurn(s);
    s := UpToTheLimit(s);
  }

  lemma FirstTaskPushed(before: State) returns (s: State)
    requires Reachable(before) && InPhase(before, Reply) && !before.launching && before.interactive && !before.closed
    requires before.started == 0 && before.count == 0 && before.running == {} && before.between == {}
    requires before.subQ == [] && before.pushed == [] && before.inputQ == []
    ensures Reachable(s)
    ensures s == before.(count := 1, started := 1, subQ := [Task(0)], pushed := [Task(0)], inputQ := [Wake])
  {
    s := ReachableNext(before, CountTask);
    s := ReachableNext(s, CreateThread);
    s := ReachableNext(s, WorkerPush(0));
    s := ReachableNext(s, WorkerWake(0));
  }

  lemma DeliveredBehind(before: State) returns (s: State)
    requires Reachable(before) && InPhase(before, Reply) && !before.launching && !before.holdsWake
    requires before.held == NoItem && before.count == 1 && before.subQ == [Task(0)] && before.injected == []
    requires before.work.turn >= before.work.maxTurns && !before.work.interrupted
    ensures Reachable(s)
    ensures s == before.(doing := Turning(before.doing.afterLine, Behind), count := 0, subQ := [], injected := [Task(0)])
  {
    hide Reachable;
    s := InjectedBehind(before);
    s := HeadAgain(s);
    s := ReachableNext(s, LeaveTurns);
  }

  /** A drain behind a reply that found something goes back to the head of the loop. */
  lemma HeadAgain(before: State) returns (s: State)
    requires Reachable(before) && before.doing.Draining? && before.doing.place == AfterReply && before.doing.drained > 0
    requires before.held == NoItem && before.subQ == [] && !before.work.interrupted && !before.holdsWake
    ensures Reachable(s) && s == before.(doing := Turning(before.doing.afterLine, Head))
  {
    hide Reachable;
    s := ReachableNext(before, DrainEnd);
  }

  lemma InjectedBehind(before: State) returns (s: State)
    requires Reachable(before) && InPhase(before, Reply) && !before.launching
    requires before.held == NoItem && before.count == 1 && before.subQ == [Task(0)] && before.injected == []
    ensures Reachable(s)
    ensures s == before.(doing := Draining(before.doing.afterLine, AfterReply, 1), count := 0, subQ := [], injected := [Task(0)])
  {
    s := ReachableNext(before, StartDrain);
    s := DrainOne(s, 0);
  }

  /**
   However many turns are allowed: a result delivered behind the reply of the last one is in the
   conversation, its wake-up has been served, and the model has not been called on it.
   */
  lemma UnseenAtTheLimit(maxTurns: nat) returns (s: State)
    requires maxTurns > 0
    ensures Reachable(s) && s.interactive && s.work.maxTurns == maxTurns && !s.work.interrupted
    ensures s.doing == Asleep && s.inputQ == [] && s.subQ == [] && s.between == {} && s.running == {}
    ensures s.injected == s.pushed == [Task(0)] && s.work.seen == 0
  {
    s := LastReply(maxTurns);
    s := FirstTaskPushed(s);
    s := DeliveredBehind(s);
    s := ReachableNext(s, TurnEnd);
    s := ReachableNext(s, PopInput);
    s := ReachableNext(s, DrainEnd);
  }
}
