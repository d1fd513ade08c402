/** The reference-counted lock table of `serialize_thread_run`. Tasks register, wait, hold,
    release and drop in any interleaving; slots are deleted with their last user and created
    again for the next one. */
module LockTable {
  import opened RunTypes

  type Key = nat
  type SlotId = nat
  type Task = nat

  /** `_ThreadRunSlot`: `holder` is the task that owns its asyncio lock. */
  datatype Slot = Slot(users: int, holder: Option<Task>)

  datatype Pc = Waiting | Holding | Dropping

  datatype User = User(key: Key, slot: SlotId, pc: Pc)

  /** `table` is the `_slots` dictionary; `heap` holds every slot object ever made, so that a
      stale reference to a deleted slot can be told from the mapped one. */
  datatype State = State(heap: map<SlotId, Slot>, table: map<Key, SlotId>, tasks: map<Task, User>, next: SlotId)

  const EMPTY: State := State(map[], map[], map[], 0)

  /** Under the guard: find or make the slot and count the new user. */
  function Register(s: State, t: Task, key: Key): State {
    if t in s.tasks then s
    else if key in s.table && s.table[key] in s.heap then
      var id := s.table[key];
      s.(heap := s.heap[id := s.heap[id].(users := s.heap[id].users + 1)],
         tasks := s.tasks[t := User(key, id, Waiting)])
    else
      s.(heap := s.heap[s.next := Slot(1, None)],
         table := s.table[key := s.next],
         tasks := s.tasks[t := User(key, s.next, Waiting)],
         next := s.next + 1)
  }

  /** Under the guard: uncount the user; the last one deletes the entry if it is still this slot. */
  function DropUser(s: State, t: Task): State
    requires t in s.tasks && s.tasks[t].slot in s.heap
  {
    var User(key, id, _) := s.tasks[t];
    var users := s.heap[id].users - 1;
    s.(heap := s.heap[id := s.heap[id].(users := users)],
       table := if users == 0 && key in s.table && s.table[key] == id then s.table - {key} else s.table,
       tasks := s.tasks - {t})
  }

  /** The module's `_slots` dictionary and the slot objects, updated in place under the guard. */
  class Slots {
    var heap: map<SlotId, Slot>
    var table: map<Key, SlotId>
    var next: SlotId

    function View(tasks: map<Task, User>): State
      reads this
    {
      State(heap, table, tasks, next)
    }

    /** The first guarded section of `serialize_thread_run`. */
    method RegisterUser(t: Task, key: Key, ghost tasks: map<Task, User>) returns (id: SlotId)
      requires t !in tasks && (key in table ==> table[key] in heap)
      modifies this
      ensures View(tasks[t := User(key, id, Waiting)]) == Register(old(View(tasks)), t, key)
    {
      if key in table {
        id := table[key];
      } else {
        id := next;
        next := next + 1;
        heap := heap[id := Slot(0, None)];
        table := table[key := id];
      }
      heap := heap[id := heap[id].(users := heap[id].users + 1)];
    }

    /** `_drop_slot_user` */
    method DropSlotUser(key: Key, id: SlotId, ghost t: Task, ghost tasks: map<Task, User>)
      requires t in tasks && tasks[t].key == key && tasks[t].slot == id && id in heap
      modifies this
      ensures View(tasks - {t}) == DropUser(old(View(tasks)), t)
    {
      heap := heap[id := heap[id].(users := heap[id].users - 1)];
      if heap[id].users == 0 && key in table && table[key] == id {
        table := table - {key};
      }
    }
  }

  datatype Step =
    | Enter(t: Task, key: Key)
    | Acquire(t: Task)
    | CancelWhileWaiting(t: Task)
    | Release(t: Task)
    | Drop(t: Task)
    | Abandon(t: Task)   // cancelled again while waiting for the guard: never uncounted

  function SetPc(s: State, t: Task, pc: Pc): State
    requires t in s.tasks
  {
    s.(tasks := s.tasks[t := s.tasks[t].(pc := pc)])
  }

  function Next(s: State, step: Step): State {
    if step.Enter? then Register(s, step.t, step.key)
    else if step.t !in s.tasks || s.tasks[step.t].slot !in s.heap then s
    else
      var t := step.t;
      var User(key, id, pc) := s.tasks[t];
      match step
      case Acquire(_) =>
        if pc == Waiting && s.heap[id].holder.None?
        then SetPc(s.(heap := s.heap[id := s.heap[id].(holder := Some(t))]), t, Holding) else s
      case CancelWhileWaiting(_) => if pc == Waiting then SetPc(s, t, Dropping) else s
      case Release(_) =>
        if pc == Holding then SetPc(s.(heap := s.heap[id := s.heap[id].(holder := None)]), t, Dropping) else s
      case Drop(_) => if pc == Dropping then DropUser(s, t) else s
      case Abandon(_) => if pc == Dropping then s.(tasks := s.tasks - {t}) else s
      case _ => s
  }

  function Execute(s: State, steps: seq<Step>): State {
    if steps == [] then s else Next(Execute(s, steps[..|steps| - 1]), steps[|steps| - 1])
  }

  // ----- the invariant

  function UsersOf(s: State, id: SlotId): set<Task> {
    set t | t in s.tasks && s.tasks[t].slot == id
  }

  /** The slot a live task refers to is the mapped one, and its lock knows its holder. */
  predicate TaskOk(s: State, t: Task) {
    t in s.tasks ==>
      && s.tasks[t].slot in s.heap
      && s.tasks[t].key in s.table && s.table[s.tasks[t].key] == s.tasks[t].slot
      && (s.tasks[t].pc == Holding <==> s.heap[s.tasks[t].slot].holder == Some(t))
  }

  predicate SlotOk(s: State, id: SlotId) {
    id in s.heap ==>
      && id < s.next
      && s.heap[id].users >= |UsersOf(s, id)|
      && (s.heap[id].holder.Some? ==>
            s.heap[id].holder.value in s.tasks && s.tasks[s.heap[id].holder.value].slot == id
            && s.tasks[s.heap[id].holder.value].pc == Holding)
  }

  ghost predicate Inv(s: State) {
    && (forall t :: TaskOk(s, t))
    && (forall id :: SlotOk(s, id))
    && (forall k :: k in s.table ==> s.table[k] in s.heap)
  }

  lemma UsersGrow(s: State, t: Task, u: User, id: SlotId)
    requires t !in s.tasks
    ensures UsersOf(s.(tasks := s.tasks[t := u]), id) == UsersOf(s, id) + (if u.slot == id then {t} else {})
    ensures t !in UsersOf(s, id)
  {
  }

  lemma UsersShrink(s: State, t: Task, id: SlotId)
    requires t in s.tasks
    ensures UsersOf(s.(tasks := s.tasks - {t}), id) == UsersOf(s, id) - {t}
    ensures t in UsersOf(s, id) <==> s.tasks[t].slot == id
  {
  }

  lemma RegisterTask(s: State, t: Task, key: Key, x: Task)
    requires Inv(s) && t !in s.tasks
    ensures TaskOk(Register(s, t, key), x)
  {
    hide UsersOf;
    assert TaskOk(s, x);
    assert SlotOk(s, Register(s, t, key).tasks[t].slot) && SlotOk(s, s.next);
  }

  lemma RegisterSlot(s: State, t: Task, key: Key, id: SlotId)
    requires Inv(s) && t !in s.tasks
    ensures SlotOk(Register(s, t, key), id)
  {
    hide UsersOf, TaskOk;
    var s' := Register(s, t, key);
    assert SlotOk(s, id) && SlotOk(s, s.next);
    UsersGrow(s, t, s'.tasks[t], id);
    SameUsers(s', s.(tasks := s.tasks[t := s'.tasks[t]]), id);
    if id == s.next { NoUsers(s, id); }
  }

  lemma RegisterKeeps(s: State, t: Task, key: Key)
    requires Inv(s)
    ensures Inv(Register(s, t, key))
  {
    hide SlotOk, TaskOk;
    if t !in s.tasks {
      forall x ensures TaskOk(Register(s, t, key), x) { RegisterTask(s, t, key, x); }
      forall id ensures SlotOk(Register(s, t, key), id) { RegisterSlot(s, t, key, id); }
    }
  }

  lemma SameUsers(s: State, s': State, id: SlotId)
    requires s.tasks == s'.tasks
    ensures UsersOf(s, id) == UsersOf(s', id)
  {
  }

  lemma NoUsers(s: State, id: SlotId)
    requires Inv(s) && id !in s.heap
    ensures UsersOf(s, id) == {}
  {
    forall t ensures t !in UsersOf(s, id) { assert TaskOk(s, t); }
  }

  /** The last counted user is the only task left on the slot, so deleting the entry strands no one. */
  lemma LastUser(s: State, t: Task, x: Task)
    requires Inv(s) && t in s.tasks && x in s.tasks && x != t && s.tasks[x].slot == s.tasks[t].slot
    requires s.tasks[t].slot in s.heap
    ensures s.heap[s.tasks[t].slot].users >= 2
  {
    var id := s.tasks[t].slot;
    assert TaskOk(s, t) && SlotOk(s, id);
    assert {t, x} <= UsersOf(s, id);
    assert UsersOf(s, id) == {t, x} + (UsersOf(s, id) - {t, x});
  }

  lemma DropKeeps(s: State, t: Task)
    requires Inv(s) && t in s.tasks && s.tasks[t].slot in s.heap && s.tasks[t].pc == Dropping
    ensures Inv(DropUser(s, t))
  {
    hide UsersOf;
    var s' := DropUser(s, t);
    assert TaskOk(s, t);
    forall x ensures TaskOk(s', x) {
      assert TaskOk(s, x);
      if x in s'.tasks && s.tasks[x].slot == s.tasks[t].slot { LastUser(s, t, x); }
    }
    forall id ensures SlotOk(s', id) {
      assert SlotOk(s, id);
      UsersShrink(s, t, id);
      SameUsers(s', s.(tasks := s.tasks - {t}), id);
    }
  }

  lemma AbandonKeeps(s: State, t: Task)
    requires Inv(s) && t in s.tasks && s.tasks[t].pc == Dropping
    ensures Inv(s.(tasks := s.tasks - {t}))
  {
    hide UsersOf;
    var s' := s.(tasks := s.tasks - {t});
    forall x ensures TaskOk(s', x) { assert TaskOk(s, x); }
    forall id ensures SlotOk(s', id) {
      assert SlotOk(s, id);
      UsersShrink(s, t, id);
    }
  }

  /** Taking, leaving and giving up the lock. */
  lemma LockKeeps(s: State, step: Step)
    requires Inv(s) && (step.Acquire? || step.CancelWhileWaiting? || step.Release?)
    ensures Inv(Next(s, step))
  {
    var s' := Next(s, step);
    forall x ensures TaskOk(s', x) {
      assert TaskOk(s, x);
      assert TaskOk(s, step.t);
    }
    forall id ensures SlotOk(s', id) {
      assert SlotOk(s, id) && TaskOk(s, step.t);
      assert UsersOf(s', id) == UsersOf(s, id);
    }
  }

  lemma NextKeeps(s: State, step: Step)
    requires Inv(s)
    ensures Inv(Next(s, step))
  {
    hide Inv, Register, DropUser;
    match step
    case Enter(t, key) => RegisterKeeps(s, t, key);
    case Drop(t) =>
      if t in s.tasks && s.tasks[t].slot in s.heap && s.tasks[t].pc == Dropping { DropKeeps(s, t); }
    case Abandon(t) =>
      if t in s.tasks && s.tasks[t].pc == Dropping { AbandonKeeps(s, t); }
    case _ => LockKeeps(s, step);
  }

  lemma {:induction false} Reachable(steps: seq<Step>)
    ensures Inv(Execute(EMPTY, steps))
  {
    hide Next;
    if steps == [] {
    } else {
      Reachable(steps[..|steps| - 1]);
      NextKeeps(Execute(EMPTY, steps[..|steps| - 1]), steps[|steps| - 1]);
    }
  }

  /** At most one task holds the lock of a key, over any deletions and re-creations of its slot. */
  lemma MutualExclusion(steps: seq<Step>, t: Task, x: Task)
    requires var s := Execute(EMPTY, steps);
             && t in s.tasks && s.tasks[t].pc == Holding
             && x in s.tasks && s.tasks[x].pc == Holding
             && s.tasks[t].key == s.tasks[x].key
    ensures t == x
  {
    Reachable(steps);
    var s := Execute(EMPTY, steps);
    assert TaskOk(s, t) && TaskOk(s, x);
  }

  /** A live task never refers to a slot that has been replaced, and every user is counted. */
  lemma LiveSlotIsMapped(steps: seq<Step>, t: Task)
    requires t in Execute(EMPTY, steps).tasks
    ensures var s := Execute(EMPTY, steps);
            && s.tasks[t].key in s.table && s.table[s.tasks[t].key] == s.tasks[t].slot
            && s.tasks[t].slot in s.heap && s.heap[s.tasks[t].slot].users >= |UsersOf(s, s.tasks[t].slot)| >= 1
  {
    Reachable(steps);
    var s := Execute(EMPTY, steps);
    assert TaskOk(s, t) && SlotOk(s, s.tasks[t].slot);
    assert t in UsersOf(s, s.tasks[t].slot);
  }

  // ----- and nobody is kept out

  /** A task that enters waits on the mapped slot of its key, and takes the lock as soon as it is free;
      a holder that releases frees it. */
  lemma FreeLockIsTaken(steps: seq<Step>, t: Task)
    requires t in Execute(EMPTY, steps).tasks
    ensures var s := Execute(EMPTY, steps);
            var id := s.tasks[t].slot;
            && id in s.heap
            && (s.tasks[t].pc == Waiting && s.heap[id].holder == None ==>
                  Next(s, Acquire(t)).tasks[t].pc == Holding && Next(s, Acquire(t)).heap[id].holder == Some(t))
            && (s.tasks[t].pc == Waiting && s.heap[id].holder != None ==> Next(s, Acquire(t)) == s)
            && (s.tasks[t].pc == Holding ==>
                  Next(s, Release(t)).tasks[t].pc == Dropping && Next(s, Release(t)).heap[id].holder == None)
            && (s.tasks[t].pc == Waiting ==> Next(s, CancelWhileWaiting(t)) == SetPc(s, t, Dropping))
            && (s.tasks[t].pc == Dropping ==>
                  && t !in Next(s, Drop(t)).tasks
                  && Next(s, Drop(t)).heap[id].users == s.heap[id].users - 1)
  {
    Reachable(steps);
    assert TaskOk(Execute(EMPTY, steps), t);
  }

  lemma EnteringWaits(s: State, t: Task, key: Key)
    requires Inv(s) && t !in s.tasks
    ensures var s' := Next(s, Enter(t, key));
            && t in s'.tasks && s'.tasks[t].pc == Waiting && s'.tasks[t].key == key
            && key in s'.table && s'.table[key] == s'.tasks[t].slot
            && (key in s.table ==> s'.table == s.table)
            && (key !in s.table ==> s'.tasks[t].slot !in s.heap)
  {
    hide UsersOf, TaskOk;
    assert SlotOk(s, s.next);
  }

  // ----- no slot outlives its users

  predicate Counted(s: State, id: SlotId) {
    id in s.heap ==> s.heap[id].users == |UsersOf(s, id)|
  }

  predicate InUse(s: State, k: Key) {
    k in s.table ==> UsersOf(s, s.table[k]) != {}
  }

  /** Users are counted exactly, an entry exists only while it has users, and no two keys share a slot. */
  ghost predicate Tidy(s: State) {
    && (forall id :: Counted(s, id))
    && (forall k :: InUse(s, k))
    && (forall k, j :: k in s.table && j in s.table && s.table[k] == s.table[j] ==> k == j)
  }

  lemma RegisterTidy(s: State, t: Task, key: Key)
    requires Inv(s) && Tidy(s)
    ensures Tidy(Register(s, t, key))
  {
    if t !in s.tasks {
      hide UsersOf, TaskOk;
      var s' := Register(s, t, key);
      forall id ensures Counted(s', id) && UsersOf(s', id) >= UsersOf(s, id)
                        && (id == s'.tasks[t].slot ==> t in UsersOf(s', id))
      {
        assert Counted(s, id) && SlotOk(s, id);
        UsersGrow(s, t, s'.tasks[t], id);
        SameUsers(s', s.(tasks := s.tasks[t := s'.tasks[t]]), id);
        if id !in s.heap { NoUsers(s, id); }
      }
      forall k ensures InUse(s', k) { assert InUse(s, k); }
      forall k | k in s.table ensures s.table[k] < s.next { assert SlotOk(s, s.table[k]); }
    }
  }

  lemma DropTidy(s: State, t: Task)
    requires Inv(s) && Tidy(s) && t in s.tasks && s.tasks[t].slot in s.heap
    ensures Tidy(DropUser(s, t))
  {
    hide UsersOf;
    var s' := DropUser(s, t);
    assert TaskOk(s, t);
    forall id ensures Counted(s', id) && UsersOf(s', id) == UsersOf(s, id) - {t} {
      assert Counted(s, id);
      UsersShrink(s, t, id);
      SameUsers(s', s.(tasks := s.tasks - {t}), id);
    }
    forall k ensures InUse(s', k) {
      assert InUse(s, k);
      if k in s'.table {
        UsersShrink(s, t, s.table[k]);
        assert Counted(s', s.table[k]);
      }
    }
  }

  lemma LockTidy(s: State, step: Step)
    requires Tidy(s) && (step.Acquire? || step.CancelWhileWaiting? || step.Release?)
    ensures Tidy(Next(s, step))
  {
    var s' := Next(s, step);
    forall id ensures Counted(s', id) && UsersOf(s', id) == UsersOf(s, id) {
      assert Counted(s, id);
      assert UsersOf(s', id) == UsersOf(s, id);
    }
    forall k ensures InUse(s', k) { assert InUse(s, k); }
  }

  /** A task is abandoned: it was waiting for the guard to drop its slot. */
  predicate Abandons(s: State, step: Step) {
    step.Abandon? && step.t in s.tasks && s.tasks[step.t].slot in s.heap && s.tasks[step.t].pc == Dropping
  }

  ghost predicate Abandoned(steps: seq<Step>) {
    exists i :: 0 <= i < |steps| && Abandons(Execute(EMPTY, steps[..i]), steps[i])
  }

  lemma TidyStep(s: State, step: Step)
    requires Inv(s) && Tidy(s) && !Abandons(s, step)
    ensures Tidy(Next(s, step))
  {
    hide Inv, Tidy, Register, DropUser;
    match step
    case Enter(t, key) => RegisterTidy(s, t, key);
    case Drop(t) =>
      if t in s.tasks && s.tasks[t].slot in s.heap && s.tasks[t].pc == Dropping { DropTidy(s, t); }
    case Abandon(_) =>
    case _ => LockTidy(s, step);
  }

  /** More users are counted than there are, so the entry will not be deleted. */
  predicate Leaked(s: State, key: Key, id: SlotId) {
    key in s.table && s.table[key] == id && id in s.heap && s.heap[id].users > |UsersOf(s, id)|
  }

  lemma AbandonedLeaks(s: State, step: Step)
    requires Inv(s) && Abandons(s, step)
    ensures Leaked(Next(s, step), s.tasks[step.t].key, s.tasks[step.t].slot)
  {
    hide UsersOf;
    var t, id := step.t, s.tasks[step.t].slot;
    assert TaskOk(s, t) && SlotOk(s, id);
    UsersShrink(s, t, id);
  }

  lemma LeakStays(s: State, step: Step, key: Key, id: SlotId)
    requires Inv(s) && Leaked(s, key, id)
    ensures Leaked(Next(s, step), key, id)
  {
    hide Register, DropUser, Inv;
    match step
    case Enter(t, k) => if t !in s.tasks { LeakStaysOnRegister(s, t, k, key, id); } else { RegisteredTask(s, t, k); }
    case Drop(t) =>
      if t in s.tasks && s.tasks[t].slot in s.heap && s.tasks[t].pc == Dropping { LeakStaysOnDrop(s, t, key, id); }
    case Abandon(t) =>
      if Abandons(s, step) { UsersShrink(s, t, id); }
    case _ => assert UsersOf(Next(s, step), id) == UsersOf(s, id);
  }

  lemma RegisteredTask(s: State, t: Task, key: Key)
    requires t in s.tasks
    ensures Register(s, t, key) == s
  {
  }

  lemma LeakStaysOnRegister(s: State, t: Task, k: Key, key: Key, id: SlotId)
    requires Inv(s) && Leaked(s, key, id) && t !in s.tasks
    ensures Leaked(Register(s, t, k), key, id)
  {
    hide UsersOf, TaskOk;
    var s' := Register(s, t, k);
    assert SlotOk(s, id) && SlotOk(s, s.next);
    UsersGrow(s, t, s'.tasks[t], id);
    SameUsers(s', s.(tasks := s.tasks[t := s'.tasks[t]]), id);
  }

  lemma LeakStaysOnDrop(s: State, t: Task, key: Key, id: SlotId)
    requires Inv(s) && Leaked(s, key, id) && t in s.tasks && s.tasks[t].slot in s.heap
    ensures Leaked(DropUser(s, t), key, id)
  {
    hide UsersOf;
    var s' := DropUser(s, t);
    UsersShrink(s, t, id);
    SameUsers(s', s.(tasks := s.tasks - {t}), id);
    if s.tasks[t].slot == id { assert |UsersOf(s, id)| >= 1; }
  }

  /** Whether every slot is counted exactly is decided by whether a task was ever abandoned; an
      abandoned one leaves its entry behind for good. */
  lemma {:induction false} AbandonDecides(steps: seq<Step>) returns (key: Key, id: SlotId)
    ensures !Abandoned(steps) ==> Tidy(Execute(EMPTY, steps))
    ensures Abandoned(steps) ==> Leaked(Execute(EMPTY, steps), key, id)
  {
    hide Next, Inv, Tidy, Leaked, Abandons;
    key, id := 0, 0;
    if steps == [] {
      assert Tidy(EMPTY) by { EmptyIsTidy(); }
    } else {
      var front, step := steps[..|steps| - 1], steps[|steps| - 1];
      var before := Execute(EMPTY, front);
      AbandonedMore(front, step);
      assert front + [step] == steps;
      key, id := AbandonDecides(front);
      Reachable(front);
      if Abandoned(front) {
        LeakStays(before, step, key, id);
      } else if Abandons(before, step) {
        key, id := Leaves(before, step);
      } else {
        TidyStep(before, step);
      }
    }
  }

  lemma Leaves(s: State, step: Step) returns (key: Key, id: SlotId)
    requires Inv(s) && Abandons(s, step)
    ensures Leaked(Next(s, step), key, id)
  {
    AbandonedLeaks(s, step);
    key, id := s.tasks[step.t].key, s.tasks[step.t].slot;
  }

  lemma EmptyIsTidy()
    ensures Tidy(EMPTY)
  {
  }

  lemma AbandonedMore(front: seq<Step>, step: Step)
    ensures Abandoned(front + [step]) <==> Abandoned(front) || Abandons(Execute(EMPTY, front), step)
  {
    hide Abandons, Execute;
    var steps := front + [step];
    forall i | 0 <= i < |front| ensures steps[..i] == front[..i] && steps[i] == front[i] { }
    assert steps[..|front|] == front && steps[|front|] == step;
    if Abandoned(front) {
      var i :| 0 <= i < |front| && Abandons(Execute(EMPTY, front[..i]), front[i]);
      assert Abandons(Execute(EMPTY, steps[..i]), steps[i]);
    }
  }

  /** Once no task is left, the table is empty if and only if no task was abandoned; and at any
      time users are counted exactly if and only if none was. */
  lemma NoLeakIff(steps: seq<Step>)
    ensures Tidy(Execute(EMPTY, steps)) <==> !Abandoned(steps)
    ensures Execute(EMPTY, steps).tasks == map[] ==>
              (Execute(EMPTY, steps).table == map[] <==> !Abandoned(steps))
  {
    hide Abandoned, Execute, UsersOf;
    var key, id := AbandonDecides(steps);
    var s := Execute(EMPTY, steps);
    if Abandoned(steps) {
      assert !Counted(s, id);
    } else if s.tasks == map[] {
      forall k ensures k !in s.table {
        assert InUse(s, k);
        NoTasks(s, if k in s.table then s.table[k] else 0);
      }
    }
  }

  lemma NoTasks(s: State, id: SlotId)
    requires s.tasks == map[]
    ensures UsersOf(s, id) == {}
  {
  }

  /** For example, the only task of a key, cancelled while it waits and again while it drops. */
  lemma AbandonLeaks(t: Task, key: Key)
    ensures var s := Execute(EMPTY, [Enter(t, key), CancelWhileWaiting(t), Abandon(t)]);
            s.tasks == map[] && s.table != map[]
  {
    var steps := [Enter(t, key), CancelWhileWaiting(t), Abandon(t)];
    var one := [Enter(t, key)];
    var two := one + [CancelWhileWaiting(t)];
    assert one[..0] == [] && two[..1] == one && steps[..2] == two;
    assert Execute(EMPTY, one) == Next(EMPTY, Enter(t, key));
    assert Execute(EMPTY, two) == Next(Execute(EMPTY, one), CancelWhileWaiting(t));
    assert Abandons(Execute(EMPTY, steps[..2]), steps[2]);
    NoLeakIff(steps);
  }
}
