/**
 The actor-style group executor: one GroupCoroutine per live group, one semaphore permit held for each,
 and a first-in-first-out queue that ends once it has been idle (app/aggregation/group_coroutine.py and
 the group methods of aggregation_service.py). Each step is what runs between two awaits.
 */
module GroupExecutor {
  import opened Common

  type Work = nat
  type CallerId = nat

  /** Where a group's `_run` loop stands: in queue.get, past the timeout but not resumed, or running work. */
  datatype Phase = Waiting | TimedOut | Working

  datatype Task = Task(key: GroupKey, queue: seq<Work>, phase: Phase)

  /** A `_get_group` call suspended in semaphore.acquire, until it has been granted a permit and resumed. */
  datatype Caller = Caller(key: GroupKey, work: Work, granted: bool)

  /** T names the GroupCoroutine objects. `enqueued` and `ran` are history. */
  datatype Exec<!T(==)> = Exec(
    permits: nat,
    groups: map<GroupKey, T>,
    tasks: map<T, Task>,
    callers: map<CallerId, Caller>,
    enqueued: map<GroupKey, seq<Work>>,
    ran: map<GroupKey, seq<Work>>)

  datatype Action<T> =
    | Submit(k: CallerId, key: GroupKey, work: Work, newTask: T)
    | Grant(k: CallerId)
    | Resume(k: CallerId, newTask: T)
    | Cancel(k: CallerId)
    | Take(id: T)
    | Finish(id: T)
    | TimeOut(id: T)
    | HandleTimeout(id: T)

  function Initial<T>(max: nat): Exec<T> {
    Exec(max, map[], map[], map[], map[], map[])
  }

  function At(m: map<GroupKey, seq<Work>>, key: GroupKey): seq<Work> {
    if key in m then m[key] else []
  }

  /** The semaphore counts as locked while any caller waits, also one that was granted a permit and has not resumed. */
  predicate Contended<T>(x: Exec<T>) {
    x.permits == 0 || x.callers != map[]
  }

  predicate Enabled<T>(x: Exec<T>, a: Action<T>) {
    match a
    case Submit(k, _, _, t) => k !in x.callers && t !in x.tasks
    case Grant(k) => k in x.callers && !x.callers[k].granted && x.permits > 0
    case Resume(k, t) => k in x.callers && x.callers[k].granted && t !in x.tasks
    case Cancel(k) => k in x.callers
    case Take(id) => id in x.tasks && x.tasks[id].phase.Waiting? && x.tasks[id].queue != []
    case Finish(id) => id in x.tasks && x.tasks[id].phase.Working?
    case TimeOut(id) => id in x.tasks && x.tasks[id].phase.Waiting?
    case HandleTimeout(id) => id in x.tasks && x.tasks[id].phase.TimedOut?
  }

  /** enqueue: the queue is unbounded, so it never suspends. */
  function Enqueue<T>(x: Exec<T>, id: T, work: Work): Exec<T> {
    if id in x.tasks then
      var t := x.tasks[id];
      x.(tasks := x.tasks[id := t.(queue := t.queue + [work])],
         enqueued := x.enqueued[t.key := At(x.enqueued, t.key) + [work]])
    else x
  }

  function StartGroup<T>(x: Exec<T>, key: GroupKey, id: T): Exec<T> {
    x.(groups := x.groups[key := id], tasks := x.tasks[id := Task(key, [], Waiting)])
  }

  function Next<T>(x: Exec<T>, a: Action<T>): Exec<T>
    requires Enabled(x, a)
  {
    match a
    case Submit(k, key, work, t) =>
      if key in x.groups then Enqueue(x, x.groups[key], work)
      else if Contended(x) then x.(callers := x.callers[k := Caller(key, work, false)])
      else Enqueue(StartGroup(x.(permits := x.permits - 1), key, t), t, work)
    case Grant(k) => x.(permits := x.permits - 1, callers := x.callers[k := x.callers[k].(granted := true)])
    case Resume(k, t) =>
      var c := x.callers[k];
      var y := x.(callers := x.callers - {k});
      // looked up again: by now the group may be live, and the permit is not needed
      if c.key in x.groups then Enqueue(y.(permits := y.permits + 1), x.groups[c.key], c.work)
      else Enqueue(StartGroup(y, c.key, t), t, c.work)
    case Cancel(k) =>
      x.(permits := if x.callers[k].granted then x.permits + 1 else x.permits, callers := x.callers - {k})
    case Take(id) =>
      var t := x.tasks[id];
      x.(tasks := x.tasks[id := t.(queue := t.queue[1..], phase := Working)],
         ran := x.ran[t.key := At(x.ran, t.key) + [t.queue[0]]])
    case Finish(id) => InPhase(x, id, Waiting)
    case TimeOut(id) => InPhase(x, id, TimedOut)
    case HandleTimeout(id) =>
      // work that came in since the timeout fired keeps the group going
      if x.tasks[id].queue != [] then InPhase(x, id, Waiting) else EndGroup(x, id)
  }

  function InPhase<T>(x: Exec<T>, id: T, phase: Phase): Exec<T>
    requires id in x.tasks
  {
    x.(tasks := x.tasks[id := x.tasks[id].(phase := phase)])
  }

  /** `_on_idle`, and the coroutine's return. */
  function EndGroup<T>(x: Exec<T>, id: T): Exec<T>
    requires id in x.tasks
  {
    x.(groups := x.groups - {x.tasks[id].key}, tasks := x.tasks - {id}, permits := x.permits + 1)
  }

  // ------------------------------------------------------------------------------- the invariant

  function Granted<T>(x: Exec<T>): set<CallerId> {
    set k | k in x.callers && x.callers[k].granted
  }

  /** Every live coroutine is its key's registered one, and the other way round. */
  ghost predicate Registered<T>(x: Exec<T>) {
    && (forall key :: key in x.groups ==> x.groups[key] in x.tasks && x.tasks[x.groups[key]].key == key)
    && (forall id :: id in x.tasks ==> x.tasks[id].key in x.groups && x.groups[x.tasks[id].key] == id)
  }

  /** A permit is free, or held by a live group, or granted to a caller that has not resumed yet. */
  predicate PermitsKept<T>(x: Exec<T>, max: nat) {
    x.permits + |x.tasks| + |Granted(x)| == max
  }

  function Queued<T>(x: Exec<T>, key: GroupKey): seq<Work> {
    if key in x.groups && x.groups[key] in x.tasks then x.tasks[x.groups[key]].queue else []
  }

  /** What has run, then what is queued, is what was enqueued. */
  predicate InOrder<T>(x: Exec<T>, key: GroupKey) {
    At(x.enqueued, key) == At(x.ran, key) + Queued(x, key)
  }

  ghost predicate Inv<T>(x: Exec<T>, max: nat) {
    Registered(x) && PermitsKept(x, max) && forall key :: InOrder(x, key)
  }

  // ------------------------------------------------------------------------ what each piece keeps

  lemma EnqueueKeeps<T>(x: Exec<T>, id: T, work: Work, max: nat)
    requires Inv(x, max) && id in x.tasks
    ensures Inv(Enqueue(x, id, work), max)
  {
    var y := Enqueue(x, id, work);
    assert Granted(y) == Granted(x);
    assert y.tasks.Keys == x.tasks.Keys;
    forall key ensures InOrder(y, key) {
      assert InOrder(x, key);
    }
  }

  lemma StartKeeps<T>(x: Exec<T>, key: GroupKey, id: T, max: nat)
    requires Inv(x, max) && key !in x.groups && id !in x.tasks && x.permits > 0
    ensures var y := StartGroup(x.(permits := x.permits - 1), key, id); Inv(y, max) && id in y.tasks
  {
    StartKeepsPermits(x, key, id, max);
    StartKeepsRegistered(x, key, id);
    var y := StartGroup(x.(permits := x.permits - 1), key, id);
    hide InOrder, Registered, PermitsKept, StartGroup;
    forall g ensures InOrder(y, g) {
      StartKeepsOrder(x, key, id, g);
    }
  }

  lemma StartKeepsPermits<T>(x: Exec<T>, key: GroupKey, id: T, max: nat)
    requires PermitsKept(x, max) && id !in x.tasks && x.permits > 0
    ensures PermitsKept(StartGroup(x.(permits := x.permits - 1), key, id), max)
  {
    var y := StartGroup(x.(permits := x.permits - 1), key, id);
    assert Granted(y) == Granted(x);
    OneMoreTask(x.tasks, id, Task(key, [], Waiting));
  }

  lemma OneMoreTask<T>(tasks: map<T, Task>, id: T, t: Task)
    requires id !in tasks
    ensures |tasks[id := t]| == |tasks| + 1
  {
    assert tasks[id := t].Keys == tasks.Keys + {id};
    assert |tasks[id := t]| == |tasks[id := t].Keys| && |tasks| == |tasks.Keys|;
  }

  lemma StartKeepsRegistered<T>(x: Exec<T>, key: GroupKey, id: T)
    requires Registered(x) && key !in x.groups && id !in x.tasks && x.permits > 0
    ensures var y := StartGroup(x.(permits := x.permits - 1), key, id); Registered(y) && id in y.tasks
  {
  }

  lemma StartKeepsOrder<T>(x: Exec<T>, key: GroupKey, id: T, g: GroupKey)
    requires Registered(x) && InOrder(x, g) && key !in x.groups && id !in x.tasks && x.permits > 0
    ensures InOrder(StartGroup(x.(permits := x.permits - 1), key, id), g)
  {
  }

  lemma EndKeeps<T>(x: Exec<T>, id: T, max: nat)
    requires Inv(x, max) && id in x.tasks && x.tasks[id].queue == []
    ensures Inv(EndGroup(x, id), max)
  {
    var y := EndGroup(x, id);
    assert Granted(y) == Granted(x);
    assert y.tasks.Keys == x.tasks.Keys - {id};
    assert |y.tasks| == |y.tasks.Keys| && |x.tasks| == |x.tasks.Keys|;
    forall g ensures InOrder(y, g) {
      assert InOrder(x, g);
    }
  }

  lemma PhaseKeeps<T>(x: Exec<T>, id: T, phase: Phase, max: nat)
    requires Inv(x, max) && id in x.tasks
    ensures Inv(InPhase(x, id, phase), max)
  {
    var y := InPhase(x, id, phase);
    assert Granted(y) == Granted(x);
    assert y.tasks.Keys == x.tasks.Keys;
    forall g ensures InOrder(y, g) {
      assert InOrder(x, g);
    }
  }

  lemma TakeKeeps<T>(x: Exec<T>, id: T, max: nat)
    requires Inv(x, max) && Enabled(x, Take(id))
    ensures Inv(Next(x, Take(id)), max)
  {
    var y := Next(x, Take(id));
    assert Granted(y) == Granted(x);
    assert y.tasks.Keys == x.tasks.Keys;
    hide InOrder;
    forall g ensures InOrder(y, g) {
      TakeKeepsOrder(x, id, g);
    }
  }

  lemma TakeKeepsOrder<T>(x: Exec<T>, id: T, g: GroupKey)
    requires Registered(x) && InOrder(x, g) && Enabled(x, Take(id))
    ensures InOrder(Next(x, Take(id)), g)
  {
    var q := x.tasks[id].queue;
    assert q == [q[0]] + q[1..];
  }

  /** Permits move between the semaphore and the suspended callers. */
  lemma CallersKeep<T>(x: Exec<T>, permits: nat, callers: map<CallerId, Caller>, max: nat)
    requires Inv(x, max)
    requires permits + |Granted(x.(callers := callers))| == x.permits + |Granted(x)|
    ensures Inv(x.(permits := permits, callers := callers), max)
  {
    var y := x.(permits := permits, callers := callers);
    assert Granted(y) == Granted(x.(callers := callers));
    forall g ensures InOrder(y, g) {
      assert InOrder(x, g);
    }
  }

  lemma LeaveKeeps<T>(x: Exec<T>, k: CallerId, max: nat)
    requires Inv(x, max) && k in x.callers
    ensures Inv(x.(permits := if x.callers[k].granted then x.permits + 1 else x.permits, callers := x.callers - {k}),
        max)
  {
    assert Granted(x.(callers := x.callers - {k})) == Granted(x) - {k};
    CallersKeep(x, if x.callers[k].granted then x.permits + 1 else x.permits, x.callers - {k}, max);
  }

  lemma WaitKeeps<T>(x: Exec<T>, k: CallerId, c: Caller, max: nat)
    requires Inv(x, max) && k !in x.callers && !c.granted
    ensures Inv(x.(callers := x.callers[k := c]), max)
  {
    assert Granted(x.(callers := x.callers[k := c])) == Granted(x);
    CallersKeep(x, x.permits, x.callers[k := c], max);
  }

  lemma GrantKeeps<T>(x: Exec<T>, k: CallerId, max: nat)
    requires Inv(x, max) && Enabled(x, Grant(k))
    ensures Inv(Next(x, Grant(k)), max)
  {
    hide Inv, Granted, Enqueue, StartGroup, InPhase, EndGroup, Contended;
    OneMoreGranted(x, k);
    CallersKeep(x, x.permits - 1, x.callers[k := x.callers[k].(granted := true)], max);
  }

  lemma OneMoreGranted<T>(x: Exec<T>, k: CallerId)
    requires k in x.callers && !x.callers[k].granted
    ensures |Granted(x.(callers := x.callers[k := x.callers[k].(granted := true)]))| == |Granted(x)| + 1
  {
    assert Granted(x.(callers := x.callers[k := x.callers[k].(granted := true)])) == Granted(x) + {k};
  }

  lemma SubmitKeeps<T>(x: Exec<T>, k: CallerId, key: GroupKey, work: Work, t: T, max: nat)
    requires Inv(x, max) && Enabled(x, Submit(k, key, work, t))
    ensures Inv(Next(x, Submit(k, key, work, t)), max)
  {
    hide Inv, Enqueue, StartGroup;
    if key in x.groups {
      InvRegistered(x, max);
      EnqueueKeeps(x, x.groups[key], work, max);
    } else if Contended(x) {
      WaitKeeps(x, k, Caller(key, work, false), max);
    } else {
      StartKeeps(x, key, t, max);
      EnqueueKeeps(StartGroup(x.(permits := x.permits - 1), key, t), t, work, max);
    }
  }

  lemma InvRegistered<T>(x: Exec<T>, max: nat)
    requires Inv(x, max)
    ensures forall key :: key in x.groups ==> x.groups[key] in x.tasks
  {
  }

  lemma ResumeKeeps<T>(x: Exec<T>, k: CallerId, t: T, max: nat)
    requires Inv(x, max) && Enabled(x, Resume(k, t))
    ensures Inv(Next(x, Resume(k, t)), max)
  {
    hide Inv, Enqueue, StartGroup;
    var c := x.callers[k];
    var y := x.(permits := x.permits + 1, callers := x.callers - {k});
    LeaveKeeps(x, k, max);
    if c.key in x.groups {
      InvRegistered(x, max);
      EnqueueKeeps(y, x.groups[c.key], c.work, max);
    } else {
      StartKeeps(y, c.key, t, max);
      assert y.(permits := y.permits - 1) == x.(callers := x.callers - {k});
      EnqueueKeeps(StartGroup(y.(permits := y.permits - 1), c.key, t), t, c.work, max);
    }
  }

  lemma StepKeeps<T>(x: Exec<T>, a: Action<T>, max: nat)
    requires Inv(x, max) && Enabled(x, a)
    ensures Inv(Next(x, a), max)
  {
    hide Inv, Enqueue, StartGroup, InPhase, EndGroup, Contended;
    match a
    case Submit(k, key, work, t) => SubmitKeeps(x, k, key, work, t, max);
    case Grant(k) => GrantKeeps(x, k, max);
    case Resume(k, t) => ResumeKeeps(x, k, t, max);
    case Cancel(k) => LeaveKeeps(x, k, max);
    case Take(id) => TakeKeeps(x, id, max);
    case Finish(id) => PhaseKeeps(x, id, Waiting, max);
    case TimeOut(id) => PhaseKeeps(x, id, TimedOut, max);
    case HandleTimeout(id) =>
      if x.tasks[id].queue != [] { PhaseKeeps(x, id, Waiting, max); } else { EndKeeps(x, id, max); }
  }

  ghost predicate IsRun<T>(max: nat, states: seq<Exec<T>>, actions: seq<Action<T>>) {
    && |states| == |actions| + 1
    && states[0] == Initial(max)
    && forall i :: 0 <= i < |actions| ==> Enabled(states[i], actions[i]) && states[i + 1] == Next(states[i], actions[i])
  }

  lemma {:induction false} RunKeeps<T>(max: nat, states: seq<Exec<T>>, actions: seq<Action<T>>, i: nat)
    requires IsRun(max, states, actions) && i < |states|
    ensures Inv(states[i], max)
  {
    if i == 0 {
      assert Granted(states[0]) == {};
    } else {
      hide Inv, Enabled, Next;
      RunKeeps(max, states, actions, i - 1);
      StepKeeps(states[i - 1], actions[i - 1], max);
    }
  }

  /**
   In every schedule: the free permits, the live groups and the permits granted to callers about to
   resume add up to max_concurrent, a key has at most one live group and that group is the registered
   one, and each key's work has run in enqueue order, exactly once, except for what its live group
   still holds.
   */
  lemma ExecutorIsSafe<T>(max: nat, states: seq<Exec<T>>, actions: seq<Action<T>>, i: nat)
    requires IsRun(max, states, actions) && i < |states|
    ensures var x := states[i];
            && x.permits + |x.tasks| + |Granted(x)| == max
            && (forall a, b :: a in x.tasks && b in x.tasks && x.tasks[a].key == x.tasks[b].key ==> a == b)
            && (forall id :: id in x.tasks ==> x.tasks[id].key in x.groups && x.groups[x.tasks[id].key] == id)
            && (forall key :: At(x.enqueued, key) == At(x.ran, key) + Queued(x, key))
            && (forall key :: key !in x.groups ==> At(x.enqueued, key) == At(x.ran, key))
  {
    RunKeeps(max, states, actions, i);
    forall key ensures At(states[i].enqueued, key) == At(states[i].ran, key) + Queued(states[i], key) {
      assert InOrder(states[i], key);
    }
  }

  /** While a call waits for a permit, no later call starts a group: only one that was granted its permit does. */
  lemma NewcomersWait<T>(max: nat, states: seq<Exec<T>>, actions: seq<Action<T>>, i: nat, key: GroupKey)
    requires IsRun(max, states, actions) && i < |actions|
    requires key !in states[i].groups && key in states[i + 1].groups
    ensures || (actions[i].Resume? && states[i].callers[actions[i].k].granted
                && states[i].callers[actions[i].k].key == key)
            || (actions[i].Submit? && actions[i].key == key && states[i].callers == map[] && states[i].permits > 0)
  {
    assert Enabled(states[i], actions[i]) && states[i + 1] == Next(states[i], actions[i]);
  }

  // ----------------------------------------------------------------------------- the objects

  /** One live group's coroutine: its queue and where its loop stands. */
  class GroupCoroutine {
    const key: GroupKey
    var queue: seq<Work>
    var phase: Phase

    constructor (key: GroupKey)
      ensures this.key == key && queue == [] && phase == Waiting
    {
      this.key := key;
      queue, phase := [], Waiting;
    }
  }

  /** The groups of an AggregationService: its dictionary, its semaphore, and the calls waiting on it. */
  class Groups {
    var permits: nat
    var groups: map<GroupKey, GroupCoroutine>
    var callers: map<CallerId, Caller>
    ghost var live: set<GroupCoroutine>
    ghost var enqueued: map<GroupKey, seq<Work>>
    ghost var ran: map<GroupKey, seq<Work>>

    ghost function View(): Exec<GroupCoroutine>
      reads this, live
    {
      Exec(permits, groups, map t | t in live :: Task(t.key, t.queue, t.phase), callers, enqueued, ran)
    }

    constructor (max: nat)
      ensures View() == Initial(max) && Inv(View(), max)
    {
      permits, groups, callers, live, enqueued, ran := max, map[], map[], {}, map[], map[];
      new;
      assert View() == Initial(max);
      assert Granted(View()) == {};
    }

    /** enqueue on a live group. */
    method Put(t: GroupCoroutine, work: Work, ghost max: nat)
      requires Inv(View(), max) && t in live
      modifies this`enqueued, t`queue
      ensures View() == Enqueue(old(View()), t, work) && Inv(View(), max)
    {
      hide Inv;
      EnqueueKeeps(View(), t, work, max);
      t.queue := t.queue + [work];
      enqueued := enqueued[t.key := At(enqueued, t.key) + [work]];
      assert View().tasks == Enqueue(old(View()), t, work).tasks;
    }

    /** Starts a group on a permit already taken. */
    method Start(key: GroupKey, ghost max: nat) returns (t: GroupCoroutine)
      requires permits > 0 && key !in groups && Inv(View(), max)
      modifies this`permits, this`groups, this`live
      ensures fresh(t) && t in live && groups == old(groups)[key := t] && live == old(live) + {t}
      ensures View() == StartGroup(old(View()).(permits := old(permits) - 1), key, t) && Inv(View(), max)
    {
      hide Inv;
      t := new GroupCoroutine(key);
      StartKeeps(View(), key, t, max);
      permits := permits - 1;
      groups := groups[key := t];
      live := live + {t};
      assert View().tasks == StartGroup(old(View()).(permits := old(permits) - 1), key, t).tasks;
    }

    /** process_entity_event from its group lookup up to its first suspension. */
    method Submit(k: CallerId, key: GroupKey, work: Work, ghost max: nat)
      requires Inv(View(), max) && k !in callers
      modifies this, live
      ensures Inv(View(), max) && fresh(live - old(live))
      ensures key in old(groups) ==> View() == Enqueue(old(View()), old(groups)[key], work)
      ensures key !in old(groups) && Contended(old(View())) ==>
                View() == old(View()).(callers := old(callers)[k := Caller(key, work, false)])
      ensures key !in old(groups) && !Contended(old(View())) ==>
                && key in groups && fresh(groups[key])
                && View() == Enqueue(StartGroup(old(View()).(permits := old(permits) - 1), key, groups[key]),
                    groups[key], work)
    {
      hide Inv, Granted, Enqueue, StartGroup;
      if key in groups {
        InvRegistered(View(), max);
        assert groups[key] in View().tasks;
        Put(groups[key], work, max);
      } else if permits == 0 || callers != map[] {
        WaitKeeps(View(), k, Caller(key, work, false), max);
        callers := callers[k := Caller(key, work, false)];
        assert View() == old(View()).(callers := old(callers)[k := Caller(key, work, false)]);
      } else {
        var t := Start(key, max);
        Put(t, work, max);
      }
    }

    /** `_run` after its timeout: goes on if an enqueue landed meanwhile, else ends the group. */
    method HandleTimeout(t: GroupCoroutine, ghost max: nat) returns (ended: bool)
      requires Inv(View(), max) && t in live && t.phase == TimedOut
      modifies this, t
      ensures Inv(View(), max) && View() == Next(old(View()), Action.HandleTimeout(t))
      ensures ended <==> old(t.queue) == []
      ensures ended ==> t !in live && t.key !in groups && permits == old(permits) + 1
    {
      hide Inv;
      StepKeeps(View(), Action.HandleTimeout(t), max);
      if t.queue != [] {
        t.phase := Waiting;
        ended := false;
      } else {
        groups := groups - {t.key};
        permits := permits + 1;
        live := live - {t};
        ended := true;
      }
      assert View().tasks == Next(old(View()), Action.HandleTimeout(t)).tasks;
    }

    /** `_run` receiving the next unit of work. */
    method TakeWork(t: GroupCoroutine, ghost max: nat) returns (work: Work)
      requires Inv(View(), max) && t in live && t.phase == Waiting && t.queue != []
      modifies this`ran, t
      ensures Inv(View(), max) && View() == Next(old(View()), Take(t)) && work == old(t.queue)[0]
    {
      hide Inv;
      StepKeeps(View(), Take(t), max);
      work := t.queue[0];
      ran := ran[t.key := At(ran, t.key) + [work]];
      t.queue := t.queue[1..];
      t.phase := Working;
      assert View().tasks == Next(old(View()), Take(t)).tasks;
    }
  }
}
