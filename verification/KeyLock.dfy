/** The keyed lock as separate steps of unboundedly many threads. A thread registers on a key's
    entry under the set mutex, takes the entry's mutex, releases it, and deregisters under the set
    mutex again; other threads may run between any two of these. */
module KeyLock {
  import opened Options

  type Thread = nat

  datatype Entry = Entry(refs: int, owner: Option<Thread>)

  /** The entries by key, and every entry ever allocated by its address. */
  datatype Table = Table(entries: map<int, nat>, heap: map<nat, Entry>, next: nat)

  datatype Stage = Waiting | Holding | Leaving

  datatype Use = Use(key: int, entry: nat, stage: Stage)

  datatype State = State(table: Table, uses: map<Thread, Use>)

  const INIT := State(Table(map[], map[], 0), map[])

  /** The first critical section of Lock: find or create the key's entry and count one more user. */
  function Register(tb: Table, key: int): (Table, nat) {
    var e := if key in tb.entries then tb.entries[key] else tb.next;
    var entry := if key in tb.entries && e in tb.heap then tb.heap[e] else Entry(0, None);
    (Table(tb.entries[key := e], tb.heap[e := entry.(refs := entry.refs + 1)],
           if key in tb.entries then tb.next else tb.next + 1), e)
  }

  /** The critical section of the returned unlock function. */
  function Deregister(tb: Table, key: int, e: nat): Table
    requires e in tb.heap
  {
    var refs := tb.heap[e].refs - 1;
    tb.(heap := tb.heap[e := tb.heap[e].(refs := refs)],
        entries := if refs == 0 then tb.entries - {key} else tb.entries)
  }

  datatype Step = Enter(t: Thread, key: int) | Acquire(t: Thread) | Unlock(t: Thread) | Leave(t: Thread)

  predicate At(s: State, t: Thread, stage: Stage) {
    t in s.uses && s.uses[t].stage == stage && s.uses[t].entry in s.table.heap
  }

  function SetOwner(tb: Table, e: nat, owner: Option<Thread>): Table
    requires e in tb.heap
  {
    tb.(heap := tb.heap[e := tb.heap[e].(owner := owner)])
  }

  /** A step that is not enabled changes nothing: the thread waits. */
  function Apply(s: State, step: Step): State {
    match step
    case Enter(t, key) =>
      if t in s.uses then s
      else
        var (tb, e) := Register(s.table, key);
        State(tb, s.uses[t := Use(key, e, Waiting)])
    case Acquire(t) =>
      if !At(s, t, Waiting) || s.table.heap[s.uses[t].entry].owner.Some? then s
      else State(SetOwner(s.table, s.uses[t].entry, Some(t)), s.uses[t := s.uses[t].(stage := Holding)])
    case Unlock(t) =>
      if !At(s, t, Holding) then s
      else State(SetOwner(s.table, s.uses[t].entry, None), s.uses[t := s.uses[t].(stage := Leaving)])
    case Leave(t) =>
      if !At(s, t, Leaving) then s
      else State(Deregister(s.table, s.uses[t].key, s.uses[t].entry), s.uses - {t})
  }

  function Exec(s: State, steps: seq<Step>): State
    decreases |steps|
  {
    if steps == [] then s else Exec(Apply(s, steps[0]), steps[1..])
  }

  /** Everyone between registering and deregistering on the key. */
  ghost function Users(s: State, key: int): set<Thread> {
    set t | t in s.uses && s.uses[t].key == key
  }

  ghost predicate Holds(s: State, t: Thread, key: int) {
    t in s.uses && s.uses[t].key == key && s.uses[t].stage == Holding
  }

  /** The entry of a key in use is in the table, is the one all its users have, counts exactly
      them, and its mutex is owned by the one that holds the key. */
  ghost predicate Live(s: State, key: int)
    requires key in s.table.entries
  {
    var e := s.table.entries[key];
    && e in s.table.heap
    && s.table.heap[e].refs == |Users(s, key)| > 0
    && (forall t: Thread :: s.table.heap[e].owner == Some(t) <==> Holds(s, t, key))
  }

  ghost predicate Inv(s: State) {
    && (forall t <- s.uses :: s.uses[t].key in s.table.entries && s.uses[t].entry == s.table.entries[s.uses[t].key])
    && (forall key <- s.table.entries :: Live(s, key))
    && (forall k, k' | k in s.table.entries && k' in s.table.entries &&
        k != k' :: s.table.entries[k] != s.table.entries[k'])
    && (forall e <- s.table.heap :: e < s.table.next)
  }

  /** The step of one thread leaves the uses of the others alone. */
  ghost predicate OnlyMoves(s: State, s': State, t: Thread) {
    forall u: Thread | u != t :: (u in s'.uses <==> u in s.uses) && (u in s.uses ==> s'.uses[u] == s.uses[u])
  }

  /** A key that the step is not about stays live. */
  lemma OtherKept(s: State, s': State, t: Thread, k: int)
    requires OnlyMoves(s, s', t) && k in s.table.entries && Live(s, k)
    requires (t in s.uses ==> s.uses[t].key != k) && (t in s'.uses ==> s'.uses[t].key != k)
    requires var e := s.table.entries[k];
             && k in s'.table.entries && s'.table.entries[k] == e
             && e in s'.table.heap && s'.table.heap[e] == s.table.heap[e]
    ensures Live(s', k)
  {
    assert Users(s', k) == Users(s, k);
    assert forall u :: Holds(s', u, k) <==> Holds(s, u, k);
  }

  lemma EnterInv(s: State, t: Thread, key: int)
    requires Inv(s) && t !in s.uses
    ensures Inv(Apply(s, Enter(t, key)))
  {
    var s' := Apply(s, Enter(t, key));
    if key !in s.table.entries {
      assert Users(s, key) == {};
    }
    assert Users(s', key) == Users(s, key) + {t};
    forall k | k in s'.table.entries ensures Live(s', k) {
      if k != key {
        assert Live(s, k);
        OtherKept(s, s', t, k);
      } else {
        assert k in s.table.entries ==> Live(s, k);
        assert forall u :: Holds(s', u, k) <==> Holds(s, u, k);
      }
    }
  }

  /** Taking or releasing an entry's mutex. */
  lemma MutexInv(s: State, t: Thread, step: Step)
    requires Inv(s) && (step == Acquire(t) || step == Unlock(t))
    ensures Inv(Apply(s, step))
  {
    var s' := Apply(s, step);
    if s' != s {
      var key := s.uses[t].key;
      assert Live(s, key);
      forall k | k in s'.table.entries ensures Live(s', k) {
        assert Live(s, k);
        if k != key {
          OtherKept(s, s', t, k);
        } else {
          assert Users(s', k) == Users(s, k);
          assert forall u | u != t :: Holds(s', u, k) <==> Holds(s, u, k);
          assert step == Unlock(t) ==> Holds(s, t, k);
        }
      }
    }
  }

  lemma LeaveInv(s: State, t: Thread)
    requires Inv(s)
    ensures Inv(Apply(s, Leave(t)))
  {
    var s' := Apply(s, Leave(t));
    if s' != s {
      var key := s.uses[t].key;
      assert Live(s, key);
      assert Users(s', key) == Users(s, key) - {t} && Users(s, key) == Users(s', key) + {t};
      assert |Users(s, key)| == |Users(s', key)| + 1;
      forall u | u in s'.uses ensures s'.uses[u].key in s'.table.entries {
        if s.uses[u].key == key { assert u in Users(s', key); }
      }
      forall k | k in s'.table.entries ensures Live(s', k) {
        assert Live(s, k);
        if k != key {
          OtherKept(s, s', t, k);
        } else {
          assert forall u :: Holds(s', u, k) <==> Holds(s, u, k);
        }
      }
    }
  }

  lemma {:induction false} ExecInv(s: State, steps: seq<Step>)
    requires Inv(s)
    ensures Inv(Exec(s, steps))
    decreases |steps|
  {
    if steps != [] {
      match steps[0] {
        case Enter(t, key) => if t !in s.uses { EnterInv(s, t, key); }
        case Acquire(t) => MutexInv(s, t, steps[0]);
        case Unlock(t) => MutexInv(s, t, steps[0]);
        case Leave(t) => LeaveInv(s, t);
      }
      ExecInv(Apply(s, steps[0]), steps[1..]);
    }
  }

  /** Main result, for every interleaving: at most one thread holds a key; all live users of a key
      share the one entry in the table; its count is the number of its holders, waiters and
      releasers; and an entry is in the table exactly while its key has such a user. */
  lemma KeyLockSafe(steps: seq<Step>, key: int)
    ensures var s := Exec(INIT, steps);
            && (forall t, u | Holds(s, t, key) && Holds(s, u, key) :: t == u)
            && (key in s.table.entries <==> Users(s, key) != {})
            && (forall t <- Users(s, key) :: s.uses[t].entry == s.table.entries[key])
            && (key in s.table.entries ==>
                  s.table.entries[key] in s.table.heap && s.table.heap[s.table.entries[key]].refs == |Users(s, key)|)
  {
    ExecInv(INIT, steps);
    var s := Exec(INIT, steps);
    if key in s.table.entries { assert Live(s, key); }
    forall t, u | Holds(s, t, key) && Holds(s, u, key) ensures t == u {
      assert Live(s, key);
    }
  }

  /** No key is lost: whenever nobody holds it, any thread waiting for it can take it, and after
      a thread takes it nobody else can before the unlock. */
  lemma WaiterProceeds(steps: seq<Step>, t: Thread)
    requires var s := Exec(INIT, steps); t in s.uses && s.uses[t].stage == Waiting
    ensures var s := Exec(INIT, steps);
            var key := s.uses[t].key;
            Holds(Apply(s, Acquire(t)), t, key) <==> forall u :: !Holds(s, u, key)
  {
    ExecInv(INIT, steps);
    var s := Exec(INIT, steps);
    var key := s.uses[t].key;
    assert Live(s, key);
    var owner := s.table.heap[s.uses[t].entry].owner;
    if owner.Some? {
      assert Holds(s, owner.value, key);
    }
  }

  /** The set of locks as the source keeps it; one method per critical section. */
  class Set {
    var entries: map<int, nat>
    var heap: map<nat, Entry>
    var next: nat

    ghost function View(): Table
      reads this
    {
      Table(entries, heap, next)
    }

    constructor ()
      ensures View() == INIT.table
    {
      entries, heap, next := map[], map[], 0;
    }

    method EnterSection(key: int) returns (value: nat)
      requires key in entries ==> entries[key] in heap
      modifies this
      ensures (View(), value) == Register(old(View()), key)
    {
      if key in entries {
        value := entries[key];
      } else {
        value := next;
        next := next + 1;
        heap := heap[value := Entry(0, None)];
        entries := entries[key := value];
      }
      heap := heap[value := heap[value].(refs := heap[value].refs + 1)];
      assert entries == old(entries)[key := value];
      assert heap == Register(old(View()), key).0.heap;
    }

    method LeaveSection(key: int, value: nat)
      requires value in heap
      modifies this`entries, this`heap
      ensures View() == Deregister(old(View()), key, value)
    {
      heap := heap[value := heap[value].(refs := heap[value].refs - 1)];
      if heap[value].refs == 0 {
        entries := entries - {key};
      }
    }
  }
}
