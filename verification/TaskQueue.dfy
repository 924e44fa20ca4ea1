/** The server's lists of tasks: of the pending ones the front task is the one being processed; tasks are appended, moved,
    completed, deleted, and purged when they are too old. */
module TaskQueue {

  /** A task, by its number. */
  type Task = nat

  // ----- Lists without repetition -----

  ghost predicate Distinct(s: seq<Task>) {
    forall i, j :: 0 <= i < j < |s| ==> s[i] != s[j]
  }

  function IndexOf(s: seq<Task>, t: Task): (i: nat)
    requires t in s
    ensures i < |s| && s[i] == t && forall j :: 0 <= j < i ==> s[j] != t
  {
    if s[0] == t then 0 else 1 + IndexOf(s[1..], t)
  }

  /** `::std::list::erase` of the task's own position. */
  function Erased(s: seq<Task>, t: Task): seq<Task>
  {
    if t in s then s[..IndexOf(s, t)] + s[IndexOf(s, t) + 1..] else s
  }

  lemma ErasedFacts(s: seq<Task>, t: Task)
    requires Distinct(s)
    ensures Distinct(Erased(s, t)) && t !in Erased(s, t)
    ensures forall x :: x in Erased(s, t) <==> x in s && x != t
    ensures t in s ==> |Erased(s, t)| == |s| - 1
  {
    hide IndexOf;
    if t in s {
      var i := IndexOf(s, t);
      forall x | x in s && x != t ensures x in Erased(s, t) {
        var j :| 0 <= j < |s| && s[j] == x;
        assert Erased(s, t)[if j < i then j else j - 1] == x;
      }
    }
  }

  function Inserted(s: seq<Task>, i: nat, t: Task): seq<Task>
    requires i <= |s|
  {
    s[..i] + [t] + s[i..]
  }

  /** Where a task at position `p` of `n` comes to stand when it is asked to go `steps` along. */
  function Target(p: nat, n: nat, steps: int): (q: nat)
    requires p < n
    ensures q < n
  {
    if p + steps < 0 then 0 else if p + steps >= n then n - 1 else p + steps
  }

  /** The list with the task moved and everybody else in the order they were. */
  function Moved(s: seq<Task>, t: Task, steps: int): seq<Task>
    requires t in s
  {
    var rest := Erased(s, t);
    Inserted(rest, Target(IndexOf(s, t), |s|, steps), t)
  }

  /** A move keeps the members, puts the task exactly the asked steps further, clamped to the ends, and leaves the others
      in their order. */
  lemma MovedFacts(s: seq<Task>, t: Task, steps: int)
    requires Distinct(s) && t in s
    ensures
      var m := Moved(s, t, steps);
      && Distinct(m) && |m| == |s| && (forall x :: x in m <==> x in s)
      && t in m && IndexOf(m, t) == Target(IndexOf(s, t), |s|, steps)
      && Erased(m, t) == Erased(s, t)
  {
    ErasedFacts(s, t);
    InsertedFacts(Erased(s, t), Target(IndexOf(s, t), |s|, steps), t);
  }

  /** That is the position nearest to the one it was asked to go to. */
  lemma MovedNearest(s: seq<Task>, t: Task, steps: int, q: nat)
    requires Distinct(s) && t in s && q < |s|
    ensures t in Moved(s, t, steps)
    ensures
      var asked, got := IndexOf(s, t) + steps, IndexOf(Moved(s, t, steps), t);
      (if got < asked then asked - got else got - asked) <= (if q < asked then asked - q else q - asked)
  {
    hide Moved, IndexOf, Distinct;
    MovedFacts(s, t, steps);
  }

  lemma InsertedFacts(s: seq<Task>, i: nat, t: Task)
    requires Distinct(s) && t !in s && i <= |s|
    ensures
      var m := Inserted(s, i, t);
      && Distinct(m) && |m| == |s| + 1 && t in m && IndexOf(m, t) == i && Erased(m, t) == s
      && (forall x :: x in m <==> x in s || x == t)
  {
    hide IndexOf;
    var m := Inserted(s, i, t);
    assert m[i] == t;
    forall x | x in s ensures x in m {
      var j :| 0 <= j < |s| && s[j] == x;
      assert m[if j < i then j else j + 1] == x;
    }
    var k := IndexOf(m, t);
    assert k <= i;
    assert forall j :: 0 <= j < i ==> m[j] == s[j];
    assert m[..i] + m[i + 1..] == s;
  }

  /** Inserting before position `i` and then erasing the position held so far, as the iterator's assignment does. */
  function Reseated(s: seq<Task>, t: Task, i: nat): seq<Task>
    requires t in s && i <= |s|
  {
    var p := IndexOf(s, t);
    var was := if i <= p then p + 1 else p;
    Inserted(s, i, t)[..was] + Inserted(s, i, t)[was + 1..]
  }

  lemma WithoutMiddle(a: seq<Task>, t: Task, b: seq<Task>)
    ensures (a + [t] + b)[..|a|] + (a + [t] + b)[|a| + 1..] == a + b
  {
    assert (a + [t] + b)[..|a|] == a && (a + [t] + b)[|a| + 1..] == b;
  }

  lemma InsertedMiddle(a: seq<Task>, t: Task, b: seq<Task>)
    ensures Inserted(a + b, |a|, t) == a + [t] + b
  {
    assert (a + b)[..|a|] == a && (a + b)[|a|..] == b;
  }

  lemma Around(s: seq<Task>, p: nat)
    requires p < |s|
    ensures s == s[..p] + [s[p]] + s[p + 1..]
  {
  }

  lemma ReseatedIsMove(s: seq<Task>, t: Task, i: nat)
    requires t in s && i <= |s|
    ensures Reseated(s, t, i) == Inserted(Erased(s, t), if i <= IndexOf(s, t) then i else i - 1, t)
  {
    hide IndexOf, Inserted, Erased;
    var p := IndexOf(s, t);
    Around(s, p);
    ErasedIs(s, t);
    if i <= p {
      UpFrom(s[..p], s[p + 1..], t, i);
    } else {
      DownFrom(s[..p], s[p + 1..], t, i - p - 1);
    }
  }

  lemma ErasedIs(s: seq<Task>, t: Task)
    requires t in s
    ensures Erased(s, t) == s[..IndexOf(s, t)] + s[IndexOf(s, t) + 1..]
  {
  }

  lemma Assoc(a: seq<Task>, b: seq<Task>, c: seq<Task>)
    ensures a + b + c == a + (b + c)
  {
  }

  lemma UpFrom(head: seq<Task>, tail: seq<Task>, t: Task, i: nat)
    requires i <= |head|
    ensures
      var m, was := Inserted(head + [t] + tail, i, t), |head| + 1;
      m[..was] + m[was + 1..] == Inserted(head + tail, i, t)
  {
    hide Inserted;
    var x, y := head[..i], head[i..];
    assert head == x + y;
    Assoc(x, y, [t]);
    Assoc(x, y + [t], tail);
    Assoc(x, y, tail);
    InsertedMiddle(x, t, y + [t] + tail);
    InsertedMiddle(x, t, y + tail);
    Assoc(x + [t], y + [t], tail);
    Assoc(x + [t], y, [t]);
    WithoutMiddle(x + [t] + y, t, tail);
    Assoc(x + [t], y, tail);
  }

  lemma DownFrom(head: seq<Task>, tail: seq<Task>, t: Task, k: nat)
    requires k <= |tail|
    ensures
      var m, was := Inserted(head + [t] + tail, |head| + 1 + k, t), |head|;
      m[..was] + m[was + 1..] == Inserted(head + tail, |head| + k, t)
  {
    hide Inserted;
    var x, y := tail[..k], tail[k..];
    assert tail == x + y;
    Assoc(head + [t], x, y);
    Assoc(head, x, y);
    InsertedMiddle(head + [t] + x, t, y);
    InsertedMiddle(head + x, t, y);
    Assoc(head + [t], x, [t]);
    Assoc(head + [t], x + [t], y);
    WithoutMiddle(head, t, x + [t] + y);
    Assoc(head, x + [t], y);
    Assoc(head, x, [t]);
  }

  // ----- Lists by age -----

  /** An `::std::multimap` from birthdays to tasks, in its order. */
  ghost predicate ByAge(s: seq<Task>, birth: map<Task, int>) {
    (forall t :: t in s ==> t in birth) && forall i, j :: 0 <= i < j < |s| ==> birth[s[i]] <= birth[s[j]]
  }

  /** `::std::multimap::insert`: behind all that are not younger. */
  function Place(s: seq<Task>, birth: map<Task, int>, b: int): (i: nat)
    requires forall t :: t in s ==> t in birth
    ensures i <= |s| && (forall j :: 0 <= j < i ==> birth[s[j]] <= b) && (i < |s| ==> b < birth[s[i]])
  {
    if s == [] || birth[s[0]] > b then 0 else 1 + Place(s[1..], birth, b)
  }

  function Filed(s: seq<Task>, birth: map<Task, int>, t: Task): seq<Task>
    requires t in birth && forall x :: x in s ==> x in birth
  {
    Inserted(s, Place(s, birth, birth[t]), t)
  }

  /** Filing a task keeps the order by age and the others' order, and puts the task behind those of its age. */
  lemma FiledFacts(s: seq<Task>, birth: map<Task, int>, t: Task)
    requires ByAge(s, birth) && t in birth && Distinct(s) && t !in s
    ensures
      var m := Filed(s, birth, t);
      && ByAge(m, birth) && Distinct(m) && Erased(m, t) == s && (forall x :: x in m <==> x in s || x == t)
      && forall x :: x in s && birth[x] <= birth[t] ==> IndexOf(m, x) < IndexOf(m, t)
  {
    hide IndexOf, Distinct, Erased, Inserted, Place;
    InsertedFacts(s, Place(s, birth, birth[t]), t);
    FiledByAge(s, birth, t);
    forall x | x in s && birth[x] <= birth[t] ensures IndexOf(Filed(s, birth, t), x) < IndexOf(Filed(s, birth, t), t) {
      FiledBefore(s, birth, t, x);
    }
  }

  lemma FiledByAge(s: seq<Task>, birth: map<Task, int>, t: Task)
    requires ByAge(s, birth) && t in birth
    ensures ByAge(Filed(s, birth, t), birth)
  {
    hide Place;
    var i, m := Place(s, birth, birth[t]), Filed(s, birth, t);
    forall j | 0 <= j < |m| ensures m[j] == if j < i then s[j] else if j == i then t else s[j - 1] {}
    assert forall j :: i <= j < |s| ==> birth[s[i]] <= birth[s[j]];
  }

  lemma FiledBefore(s: seq<Task>, birth: map<Task, int>, t: Task, x: Task)
    requires ByAge(s, birth) && t in birth && Distinct(s) && t !in s && x in s && birth[x] <= birth[t]
    ensures var m := Filed(s, birth, t); x in m && t in m && IndexOf(m, x) < IndexOf(m, t)
  {
    hide IndexOf, Place, Erased;
    var i, m := Place(s, birth, birth[t]), Filed(s, birth, t);
    InsertedFacts(s, i, t);
    var j :| 0 <= j < |s| && s[j] == x;
    assert j < i;
    assert m[j] == x;
  }

  lemma ErasedByAge(s: seq<Task>, birth: map<Task, int>, t: Task)
    requires ByAge(s, birth)
    ensures ByAge(Erased(s, t), birth)
  {
    hide IndexOf;
    var m := Erased(s, t);
    if t in s {
      var i := IndexOf(s, t);
      assert forall j :: 0 <= j < |m| ==> m[j] == if j < i then s[j] else s[j + 1];
    }
  }

  function AllFiled(s: seq<Task>, birth: map<Task, int>, gone: seq<Task>): seq<Task>
    requires forall t :: t in gone || t in s ==> t in birth
    ensures forall t :: t in AllFiled(s, birth, gone) ==> t in birth
    decreases |gone|
  {
    if gone == [] then s
    else
      var before := AllFiled(s, birth, gone[..|gone| - 1]);
      InsertedMembers(before, Place(before, birth, birth[gone[|gone| - 1]]), gone[|gone| - 1]);
      Filed(before, birth, gone[|gone| - 1])
  }

  lemma InsertedMembers(s: seq<Task>, i: nat, t: Task)
    requires i <= |s|
    ensures forall x :: x in Inserted(s, i, t) ==> x in s || x == t
  {
  }

  lemma AllFiledMore(s: seq<Task>, birth: map<Task, int>, gone: seq<Task>, t: Task)
    requires forall x :: x in gone || x in s || x == t ==> x in birth
    ensures AllFiled(s, birth, gone + [t]) == Filed(AllFiled(s, birth, gone), birth, t)
  {
    assert (gone + [t])[..|gone|] == gone;
  }

  // ----- The state -----

  class Tasks {
    var pending: seq<Task>
    var completed: seq<Task>
    /** All tasks, and when each was created. */
    var aged: seq<Task>
    var birth: map<Task, int>
    /** Tasks with a running processor. */
    var active: set<Task>
    /** `completed_existing_tasks_parsing_during_load`. */
    var loaded: bool

    ghost predicate Valid()
      reads this
    {
      Listed() && AtMostFront() && Aged()
    }

    /** Both multimaps are in order, and hold every task there is. */
    ghost predicate Aged()
      reads this`pending, this`completed, this`aged, this`birth
    {
      && Distinct(aged) && ByAge(aged, birth) && ByAge(completed, birth)
      && forall t :: t in pending || t in completed ==> t in aged
    }

    /** The lists hold each task once. */
    ghost predicate Listed()
      reads this
    {
      Distinct(pending) && Distinct(completed) && forall t :: t in pending ==> t !in completed
    }

    /** At most one task is active, and it is the front one. */
    ghost predicate AtMostFront()
      reads this
    {
      forall t :: t in active ==> pending != [] && t == pending[0]
    }

    /** After an update the front task is active, once loading is over. */
    ghost predicate FrontRuns()
      reads this
    {
      loaded && pending != [] ==> active == {pending[0]}
    }

    constructor ()
      ensures Valid() && FrontRuns() && pending == [] && completed == [] && aged == []
    {
      pending, completed, aged, birth, active, loaded := [], [], [], map[], {}, false;
    }

    /** The constructor of a task. */
    method Create(t: Task, birthday: int)
      requires Valid() && t !in aged
      modifies this`aged, this`birth
      ensures Valid() && birth == old(birth)[t := birthday] && aged == Filed(old(aged), birth, t)
    {
      hide Filed, IndexOf;
      birth := birth[t := birthday];
      assert ByAge(aged, birth) && ByAge(completed, birth);
      FiledFacts(aged, birth, t);
      aged := Filed(aged, birth, t);
    }

    /** `on_pending_tasks_update`: the front task is activated if it is not. */
    method OnPendingTasksUpdate()
      requires Valid()
      modifies this`active
      ensures Valid() && FrontRuns() && (!loaded ==> active == old(active))
    {
      if !loaded {
        return;
      }
      if pending != [] && pending[0] !in active {
        active := active + {pending[0]};
      }
    }

    method MarkPending(t: Task)
      requires Valid() && t in aged && t !in pending && t !in completed
      modifies this`pending, this`active
      ensures Valid() && FrontRuns() && pending == old(pending) + [t]
    {
      pending := pending + [t];
      OnPendingTasksUpdate();
    }

    /** `markcompleted`. */
    method MarkCompleted(t: Task)
      requires Valid() && t in aged && t !in completed
      modifies this`pending, this`completed, this`active
      ensures Valid() && FrontRuns() && pending == Erased(old(pending), t) && completed == Filed(old(completed), birth, t)
    {
      hide Filed, IndexOf, Erased;
      ErasedFacts(pending, t);
      ErasedFront(pending, t);
      FiledFacts(completed, birth, t);
      active := active - {t};
      pending := Erased(pending, t);
      completed := Filed(completed, birth, t);
      OnPendingTasksUpdate();
    }

    /** Stopping the processor of a task. The last sync it makes may turn out to be the one that completes the task. */
    method Deactivate(t: Task) returns (completes: bool)
      requires Valid() && t in active
      modifies this`pending, this`completed, this`active
      ensures Valid()
      ensures completes ==>
                FrontRuns() && pending == Erased(old(pending), t) && t in birth && completed == Filed(old(completed), birth, t)
      ensures !completes ==> pending == old(pending) && completed == old(completed) && active == old(active) - {t}
    {
      active := active - {t};
      completes := *;
      if completes {
        MarkCompleted(t);
      }
    }

    /** The walk of the iterator. Going down the list it takes one step more than asked, since the task will be inserted
        before where it stops. */
    method Walk(t: Task, steps: int) returns (i: nat)
      requires t in pending && steps != 0
      ensures i <= |pending|
      ensures (if i <= IndexOf(pending, t) then i else i - 1) == Target(IndexOf(pending, t), |pending|, steps)
    {
      var p, n := IndexOf(pending, t), |pending|;
      var left := steps;
      i := p;
      if steps > 0 {
        while left > -1 && i != n
          invariant p <= i <= n && i - p == steps - left && -1 <= left <= steps
        {
          i, left := i + 1, left - 1;
        }
      } else {
        while left != 0 && i != 0
          invariant 0 <= i <= p && p - i == left - steps && steps <= left <= 0
          decreases i
        {
          i, left := i - 1, left + 1;
        }
      }
    }

    /** What must not run while the front of the list changes is stopped. */
    method StopForMove(t: Task, i: nat) returns (ghost gone: seq<Task>)
      requires Valid() && t in pending && i <= |pending|
      modifies this`pending, this`completed, this`active
      ensures Valid()
      ensures gone == [] ==> pending == old(pending) && completed == old(completed) && t !in active && (i == 0 ==> active == {})
      ensures gone != [] ==>
                && FrontRuns() && |gone| == 1 && gone[0] in old(pending)
                && pending == Erased(old(pending), gone[0])
                && gone[0] in birth && completed == Filed(old(completed), birth, gone[0])
    {
      gone := [];
      if t in active {
        var completes := Deactivate(t);
        if completes { gone := [t]; }
      } else if i == 0 && pending[0] in active {
        ghost var front := pending[0];
        var completes := Deactivate(pending[0]);
        if completes { gone := [front]; }
      }
    }

    /** `move_in_list_of_pending_tasks`: `false` if a task was completed on the way, and then nothing has moved. */
    method Move(t: Task, steps: int) returns (ok: bool, ghost gone: seq<Task>)
      requires Valid() && t in pending && steps != 0
      modifies this`pending, this`completed, this`active
      ensures Valid()
      ensures ok ==> gone == [] && pending == Moved(old(pending), t, steps) && completed == old(completed)
      ensures !ok ==>
                && FrontRuns() && |gone| == 1 && gone[0] in old(pending)
                && pending == Erased(old(pending), gone[0])
                && gone[0] in birth && completed == Filed(old(completed), birth, gone[0])
    {
      hide Erased, Inserted, IndexOf, Reseated, Target, Distinct;
      var i := Walk(t, steps);
      ReseatedIsMove(pending, t, i);
      MovedFacts(pending, t, steps);
      ghost var was := pending;
      if i != IndexOf(pending, t) && i != IndexOf(pending, t) + 1 {
        var size := |pending|;
        gone := StopForMove(t, i);
        if gone != [] { ErasedFacts(was, gone[0]); }
        if size != |pending| {
          return false, gone;
        }
        FrontStays(pending, t, i);
        pending := Reseated(pending, t, i);
      } else {
        SamePlace(pending, t);
        gone := [];
      }
      ok := true;
    }

    /** `on_move_task_in_list`: tried again as long as some task turns out to be complete and the task is still pending. */
    method OnMoveTaskInList(t: Task, steps: int) returns (good: bool, ghost gone: seq<Task>)
      requires Valid() && FrontRuns()
      modifies this`pending, this`completed, this`active
      ensures Valid() && FrontRuns() && (forall t :: t in gone ==> t in birth)
      ensures completed == AllFiled(old(completed), birth, gone)
      ensures good ==>
                && t in AllErased(old(pending), gone) && steps != 0
                && pending == Moved(AllErased(old(pending), gone), t, steps)
      ensures !good ==> pending == AllErased(old(pending), gone) && (steps == 0 || t !in pending)
      ensures steps == 0 ==> gone == []
    {
      hide Moved, Distinct, Erased, AllErased, IndexOf, Inserted;
      gone := [];
      AllErasedNone(pending);
      if steps != 0 {
        while t in pending
          invariant Valid() && FrontRuns()
          invariant pending == AllErased(old(pending), gone) && forall x :: x in gone ==> x in birth
          invariant completed == AllFiled(old(completed), birth, gone)
          decreases |pending|
        {
          ghost var was := pending;
          ghost var more;
          var ok;
          ok, more := Move(t, steps);
          if ok {
            OnPendingTasksUpdate();
            return true, gone;
          }
          ErasedFacts(was, more[0]);
          AllErasedMore(old(pending), gone, more[0]);
          AllFiledMore(old(completed), birth, gone, more[0]);
          assert gone + more == gone + [more[0]];
          gone := gone + more;
        }
      }
      good := false;
    }

    /** The destructor of a task takes it out of every list it is in. */
    method Destroy(t: Task)
      requires Valid()
      modifies this`pending, this`completed, this`aged, this`active
      ensures Valid()
      ensures pending == Erased(old(pending), t) && completed == Erased(old(completed), t) && aged == Erased(old(aged), t)
      ensures active == old(active) - {t}
    {
      hide Erased;
      ErasedFacts(pending, t);
      ErasedFacts(completed, t);
      ErasedFacts(aged, t);
      ErasedByAge(completed, birth, t);
      ErasedByAge(aged, birth, t);
      ErasedFront(pending, t);
      active := active - {t};
      pending := Erased(pending, t);
      completed := Erased(completed, t);
      aged := Erased(aged, t);
    }

    /** `on_delete_task`: the next task is started only if the list of pending ones has become shorter. */
    method OnDeleteTask(t: Task)
      requires Valid() && FrontRuns()
      modifies this`pending, this`completed, this`aged, this`active
      ensures Valid() && FrontRuns()
      ensures pending == Erased(old(pending), t) && completed == Erased(old(completed), t) && aged == Erased(old(aged), t)
    {
      var size := |pending|;
      SameSize(pending, t);
      ErasedFacts(pending, t);
      Destroy(t);
      if |pending| != size {
        OnPendingTasksUpdate();
      }
    }

    /** `purge_old_tasks`: from the oldest on, as long as they are too old by the clock, which is read anew for each; then the
        front is looked at once. In each list the others keep their order. */
    method Purge(clock: nat -> int, oldAge: int) returns (ghost gone: seq<Task>)
      requires Valid() && FrontRuns()
      modifies this`pending, this`completed, this`aged, this`active
      ensures Valid() && FrontRuns() && old(aged) == gone + aged
      ensures Purged(gone, aged, birth, clock, oldAge)
      ensures pending == AllErased(old(pending), gone) && completed == AllErased(old(completed), gone)
    {
      hide Erased, AllErased, IndexOf, Distinct;
      var size, looks: nat := |pending|, 0;
      gone := [];
      AllErasedNone(pending);
      AllErasedNone(completed);
      while aged != [] && clock(looks) - birth[aged[0]] > oldAge
        invariant Valid() && |pending| <= size && old(aged) == gone + aged && looks == |gone|
        invariant |pending| == size ==> pending == old(pending) && FrontRuns()
        invariant pending == AllErased(old(pending), gone) && completed == AllErased(old(completed), gone)
        invariant TooOld(gone, birth, clock, oldAge)
        decreases |aged|
      {
        ghost var t := aged[0];
        SameSize(pending, t);
        AllErasedMore(old(pending), gone, t);
        AllErasedMore(old(completed), gone, t);
        ErasedHead(aged);
        Destroy(aged[0]);
        assert gone + ([t] + aged) == gone + [t] + aged;
        gone := gone + [t];
        looks := looks + 1;
      }
      if |pending| != size {
        OnPendingTasksUpdate();
      }
    }
  }

  /** Each of these was too old when the clock was read for it. */
  ghost predicate TooOld(gone: seq<Task>, birth: map<Task, int>, clock: nat -> int, oldAge: int) {
    forall k :: 0 <= k < |gone| ==> gone[k] in birth && clock(k) - birth[gone[k]] > oldAge
  }

  /** The purge has gone on up to the first task that was not. */
  ghost predicate Purged(gone: seq<Task>, rest: seq<Task>, birth: map<Task, int>, clock: nat -> int, oldAge: int) {
    TooOld(gone, birth, clock, oldAge) && (rest != [] ==> rest[0] in birth && clock(|gone|) - birth[rest[0]] <= oldAge)
  }

  /** While the clock does not go back, exactly those tasks go that are too old at its last reading. */
  lemma PurgedByAge(gone: seq<Task>, rest: seq<Task>, birth: map<Task, int>, clock: nat -> int, oldAge: int)
    requires ByAge(gone + rest, birth) && Purged(gone, rest, birth, clock, oldAge)
    requires forall i: nat, k: nat :: i <= k ==> clock(i) <= clock(k)
    ensures forall t :: t in gone + rest ==> (t in gone <==> clock(|gone|) - birth[t] > oldAge)
  {
    var s := gone + rest;
    forall k | 0 <= k < |gone| ensures clock(|gone|) - birth[gone[k]] > oldAge {
      assert clock(k) <= clock(|gone|);
    }
    forall k | 0 <= k < |rest| ensures rest[k] in birth && clock(|gone|) - birth[rest[k]] <= oldAge {
      assert s[|gone| + k] == rest[k] && s[|gone|] == rest[0];
      assert birth[s[|gone|]] <= birth[s[|gone| + k]];
    }
  }

  lemma ErasedHead(s: seq<Task>)
    requires s != []
    ensures Erased(s, s[0]) == s[1..]
  {
  }

  /** The front task stays unless it is the one that goes. */
  lemma ErasedFront(s: seq<Task>, t: Task)
    ensures s != [] && s[0] != t ==> Erased(s, t) != [] && Erased(s, t)[0] == s[0]
  {
    hide IndexOf;
  }

  function AllErased(s: seq<Task>, gone: seq<Task>): seq<Task>
    decreases |gone|
  {
    if gone == [] then s else Erased(AllErased(s, gone[..|gone| - 1]), gone[|gone| - 1])
  }

  lemma AllErasedNone(s: seq<Task>)
    ensures AllErased(s, []) == s
  {
  }

  lemma AllErasedMore(s: seq<Task>, gone: seq<Task>, t: Task)
    ensures AllErased(s, gone + [t]) == Erased(AllErased(s, gone), t)
  {
    assert (gone + [t])[..|gone|] == gone;
  }

  lemma SameSize(s: seq<Task>, t: Task)
    ensures |Erased(s, t)| <= |s| && (|Erased(s, t)| == |s| ==> Erased(s, t) == s && t !in s)
  {
  }

  lemma SamePlace(s: seq<Task>, t: Task)
    requires t in s
    ensures Inserted(Erased(s, t), IndexOf(s, t), t) == s
  {
    hide IndexOf;
    var p := IndexOf(s, t);
    ErasedIs(s, t);
    hide Inserted, Erased;
    InsertedMiddle(s[..p], t, s[p + 1..]);
    Around(s, p);
  }

  /** Unless the task goes to the front or leaves it, the front task stays. */
  lemma FrontStays(s: seq<Task>, t: Task, i: nat)
    requires t in s && i <= |s|
    ensures i != 0 && s[0] != t ==> Reseated(s, t, i) != [] && Reseated(s, t, i)[0] == s[0]
  {
    hide IndexOf;
  }
}
