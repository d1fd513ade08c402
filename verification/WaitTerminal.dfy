/** `wait_terminal`: a reader of the lifecycle stream that checks the state before it blocks.
    `cursor` is the number of lifecycle entries it has read past. */
module WaitTerminal {
  import opened RunTypes
  import opened RunInvariants

  datatype Pc = Locate | Check | Blocked | Returned(status: Status)

  datatype Waiter = Waiter(pc: Pc, cursor: nat)

  datatype World = World(run: Run, waiter: Waiter)

  datatype Step = Evolve(later: Run) | Poll(timeout: bool)

  /** XREAD COUNT 32: the entries behind the cursor. */
  function Unread(l: seq<LifecycleEntry>, cursor: nat): seq<LifecycleEntry> {
    if cursor >= |l| then [] else if |l| - cursor <= 32 then l[cursor..] else l[cursor..cursor + 32]
  }

  function Next(w: World, step: Step): World {
    match step
    case Evolve(later) => w.(run := later)
    case Poll(timeout) =>
      match w.waiter.pc
      case Locate => w.(waiter := Waiter(Check, |w.run.lifecycle|))
      case Check =>
        w.(waiter := w.waiter.(pc := if w.run.status.Terminal() then Returned(w.run.status) else Blocked))
      case Blocked =>
        var read := if timeout then [] else Unread(w.run.lifecycle, w.waiter.cursor);
        w.(waiter := Waiter(Check, w.waiter.cursor + |read|))
      case Returned(_) => w
  }

  ghost predicate Reaches(w: World, steps: seq<Step>, end: World)
    decreases |steps|
  {
    if steps == [] then w == end
    else
      && (steps[0].Evolve? ==> RunInv(steps[0].later) && Evolves(w.run, steps[0].later))
      && Reaches(Next(w, steps[0]), steps[1..], end)
  }

  ghost predicate Inv(w: World) {
    && RunInv(w.run)
    && (w.waiter.pc != Locate ==> w.waiter.cursor <= |w.run.lifecycle|)
    && (w.waiter.pc == Blocked && w.run.status.Terminal() ==> w.waiter.cursor < |w.run.lifecycle|)
    && (w.waiter.pc.Returned? ==> w.waiter.pc.status.Terminal() && w.run.status == w.waiter.pc.status)
  }

  lemma InvStep(w: World, step: Step)
    requires Inv(w) && (step.Evolve? ==> RunInv(step.later) && Evolves(w.run, step.later))
    ensures Inv(Next(w, step))
  {
    hide FencesOrdered, LogContiguous, Alternates, DoneIn, Pauses;
    if step.Evolve? && !w.run.status.Terminal() && step.later.status.Terminal() {
      // the terminal entry is new, so it lies behind everything that was there
      var before, after := w.run.lifecycle, step.later.lifecycle;
      assert |before| == |after| ==> before == after;
    }
  }

  lemma {:induction false} ReachesInv(w: World, steps: seq<Step>, end: World)
    requires Inv(w) && Reaches(w, steps, end)
    ensures Inv(end)
    decreases |steps|
  {
    hide Inv, RunInv, Evolves;
    if steps == [] {
    } else {
      InvStep(w, steps[0]);
      ReachesInv(Next(w, steps[0]), steps[1..], end);
    }
  }

  /** No lost wake-up: whenever the waiter is about to block and the run has become terminal, the
      terminal entry lies behind its cursor, so the read returns at once with unread entries,
      and with the terminal one if no more than 32 are unread. It only ever returns the status
      the run ended with. */
  lemma NoLostWakeUp(r: Run, steps: seq<Step>, end: World)
    requires RunInv(r) && Reaches(World(r, Waiter(Locate, 0)), steps, end)
    ensures end.waiter.pc == Blocked && end.run.status.Terminal() ==>
              var read := Unread(end.run.lifecycle, end.waiter.cursor);
              && read != []
              && (|end.run.lifecycle| - end.waiter.cursor <= 32 ==> read[|read| - 1].status == end.run.status)
    ensures end.waiter.pc.Returned? ==> end.run.status == end.waiter.pc.status && end.run.status.Terminal()
  {
    hide FencesOrdered, LogContiguous, Alternates, DoneIn, Pauses;
    ReachesInv(World(r, Waiter(Locate, 0)), steps, end);
  }

  /** And it does return: on a run that has ended, at most two polls later, with the run's status. */
  lemma ReturnsInTwo(w: World, a: bool, b: bool)
    requires w.run.status.Terminal() && !w.waiter.pc.Returned?
    ensures var w1 := Next(w, Poll(a));
            && (w.waiter.pc == Check ==> w1.waiter.pc == Returned(w.run.status))
            && (w.waiter.pc != Check ==> Next(w1, Poll(b)).waiter.pc == Returned(w.run.status))
  {
  }

  /** Until then it never returns: a poll on a run that goes on checks and blocks again. */
  lemma KeepsWaiting(w: World, timeout: bool)
    requires !w.run.status.Terminal() && !w.waiter.pc.Returned?
    ensures !Next(w, Poll(timeout)).waiter.pc.Returned?
  {
  }

  /** A blocked waiter wakes up at the oldest entry it has not read, and none is read twice. */
  lemma WakesInOrder(w: World)
    requires w.waiter.pc == Blocked && w.waiter.cursor <= |w.run.lifecycle|
    ensures var read, w' := Unread(w.run.lifecycle, w.waiter.cursor), Next(w, Poll(false));
            && w'.waiter.cursor == w.waiter.cursor + |read| <= |w.run.lifecycle|
            && read == w.run.lifecycle[w.waiter.cursor..w'.waiter.cursor]
            && (w'.waiter.cursor == |w.run.lifecycle| || |read| == 32)
  {
  }
}
