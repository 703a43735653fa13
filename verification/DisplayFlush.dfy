/**
 The display thread and the flush barrier: producers push messages, the display
 thread takes them one by one and renders them, and a flush waits until its own
 message was rendered. Any number of producers and flushes may interleave.
 */
module DisplayFlush {

  datatype Message = Content(text: string) | Flush(id: nat)

  datatype Held = Idle | Rendering(m: Message)

  datatype State = State(
    queue: seq<Message>, closed: bool, held: Held, stopped: bool,
    accepted: seq<Message>, rendered: seq<Message>, done: set<nat>, flushes: nat)

  const START := State([], false, Idle, false, [], [], {}, 0)

  datatype Step = Push(text: string) | PushFlush | Close | Take | Render | Stop

  predicate Can(s: State, step: Step) {
    match step
    case Push(_) => !s.closed
    case PushFlush => !s.closed
    case Close => true
    case Take => !s.stopped && s.held == Idle && s.queue != []
    case Render => s.held != Idle
    case Stop => !s.stopped && s.held == Idle && s.queue == [] && s.closed
  }

  function Do(s: State, step: Step): State
    requires Can(s, step)
  {
    match step
    case Push(text) => s.(queue := s.queue + [Content(text)], accepted := s.accepted + [Content(text)])
    case PushFlush =>
      s.(queue := s.queue + [Flush(s.flushes)], accepted := s.accepted + [Flush(s.flushes)], flushes := s.flushes + 1)
    case Close => s.(closed := true)
    case Take => s.(held := Rendering(s.queue[0]), queue := s.queue[1..])
    case Render =>
      s.(held := Idle, rendered := s.rendered + [s.held.m],
         done := if s.held.m.Flush? then s.done + {s.held.m.id} else s.done)
    case Stop => s.(stopped := true)
  }

  ghost predicate Reaches(s: State, steps: seq<Step>, t: State)
    decreases |steps|
  {
    if steps == [] then s == t
    else Can(s, steps[0]) && Reaches(Do(s, steps[0]), steps[1..], t)
  }

  ghost predicate Inv(s: State) {
    && s.accepted == s.rendered + (if s.held == Idle then [] else [s.held.m]) + s.queue
    && (forall id :: id in s.done <==> Flush(id) in s.rendered)
    && (forall i :: 0 <= i < |s.accepted| && s.accepted[i].Flush? ==> s.accepted[i].id < s.flushes)
    && (forall i, j :: 0 <= i < j < |s.accepted| && s.accepted[i].Flush? ==> s.accepted[i] != s.accepted[j])
    && (s.stopped ==> s.closed && s.held == Idle && s.queue == [])
  }

  lemma PushKeeps(s: State, step: Step)
    requires Inv(s) && Can(s, step) && (step.Push? || step.PushFlush?)
    ensures Inv(Do(s, step))
  {
    var t := Do(s, step);
    assert t.accepted == t.rendered + (if t.held == Idle then [] else [t.held.m]) + t.queue;
  }

  lemma TakeKeeps(s: State)
    requires Inv(s) && Can(s, Take)
    ensures Inv(Do(s, Take))
  {
    assert s.queue == [s.queue[0]] + s.queue[1..];
  }

  lemma RenderKeeps(s: State)
    requires Inv(s) && Can(s, Render)
    ensures Inv(Do(s, Render))
  {
    var t := Do(s, Render);
    forall id
      ensures id in t.done <==> Flush(id) in t.rendered
    {
      assert Flush(id) in t.rendered <==> Flush(id) in s.rendered || Flush(id) == s.held.m;
    }
  }

  lemma {:induction false} InvRun(s: State, steps: seq<Step>, t: State)
    requires Inv(s) && Reaches(s, steps, t)
    ensures Inv(t)
    decreases |steps|
  {
    if steps != [] {
      match steps[0] {
        case Push(_) => PushKeeps(s, steps[0]);
        case PushFlush => PushKeeps(s, steps[0]);
        case Take => TakeKeeps(s);
        case Render => RenderKeeps(s);
        case Close =>
        case Stop =>
      }
      InvRun(Do(s, steps[0]), steps[1..], t);
    }
  }

  /**
   When a flush returns, every message accepted before it has been rendered, in the order
   of the pushes: the rendered messages are a prefix that reaches past the flush.
   */
  lemma FlushIsBarrier(steps: seq<Step>, s: State, at: nat, id: nat)
    requires Reaches(START, steps, s)
    requires at < |s.accepted| && s.accepted[at] == Flush(id) && id in s.done
    ensures |s.rendered| > at && s.rendered <= s.accepted
    ensures s.rendered[..at] == s.accepted[..at]
  {
    InvRun(START, steps, s);
    var k :| 0 <= k < |s.rendered| && s.rendered[k] == Flush(id);
    assert s.accepted[k] == Flush(id);
  }

  /** A flush that was accepted and has not returned still has the display thread ahead of it: it is never lost. */
  lemma FlushIsNotLost(steps: seq<Step>, s: State, id: nat)
    requires Reaches(START, steps, s) && Flush(id) in s.accepted && id !in s.done
    ensures !s.stopped && (Can(s, Render) || Can(s, Take))
  {
    InvRun(START, steps, s);
  }

  /** When the display thread has stopped, everything ever accepted was rendered and every flush has returned. */
  lemma StoppedMeansRendered(steps: seq<Step>, s: State)
    requires Reaches(START, steps, s) && s.stopped
    ensures s.rendered == s.accepted
    ensures forall id :: Flush(id) in s.accepted ==> id in s.done
  {
    InvRun(START, steps, s);
  }
}
