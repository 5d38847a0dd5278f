/** Encryption devices of a user. A table of device keys keeps revoked entries for good; registering
    one device too many revokes the least recently used ones. Each change of the table is one
    transaction. */
module Devices {
  import opened Clients

  const MAX_ACTIVE_DEVICES: nat := 10

  datatype Key = Key(publicKey: nat, created: int, used: int, revoked: bool)

  type Table = map<DeviceId, Key>

  function Active(t: Table): set<DeviceId> { set d | d in t && !t[d].revoked }

  function Stamp(k: Key): int { if k.used > k.created then k.used else k.created }

  /** Least recently used first, ties broken by device. */
  predicate Older(t: Table, d: DeviceId, e: DeviceId)
    requires d in t && e in t
  {
    Stamp(t[d]) < Stamp(t[e]) || (Stamp(t[d]) == Stamp(t[e]) && d <= e)
  }

  /** The key was neither used nor created after the other was used and created. */
  predicate NoLater(k: Key, l: Key) {
    && (k.used <= l.used || k.used <= l.created)
    && (k.created <= l.used || k.created <= l.created)
  }

  lemma OlderExactly(t: Table, d: DeviceId, e: DeviceId)
    requires d in t && e in t
    ensures Older(t, d, e) <==> NoLater(t[d], t[e]) && (NoLater(t[e], t[d]) ==> d <= e)
  {
  }

  /** `out` are the `n` active devices that come first. */
  predicate LeastRecent(t: Table, n: nat, out: set<DeviceId>) {
    && out <= Active(t) && |out| == n
    && forall d, e | d in out && e in Active(t) && e !in out :: Older(t, d, e)
  }

  function RevokeAll(t: Table, out: set<DeviceId>): Table {
    map d | d in t :: if d in out then t[d].(revoked := true) else t[d]
  }

  datatype Outcome = Registered | Touched | Conflict

  function RegisterOutcome(t: Table, d: DeviceId, publicKey: nat): Outcome {
    if d !in t then Registered
    else if t[d].revoked || t[d].publicKey != publicKey then Conflict
    else Touched
  }

  function Excess(t: Table): nat {
    if |Active(t)| >= MAX_ACTIVE_DEVICES then |Active(t)| - MAX_ACTIVE_DEVICES + 1 else 0
  }

  /** `out` are the devices that make room for a new one. */
  function Register(t: Table, d: DeviceId, publicKey: nat, now: int, out: set<DeviceId>): Table {
    match RegisterOutcome(t, d, publicKey)
    case Conflict => t
    case Touched => if d in t then t[d := t[d].(used := now)] else t
    case Registered => RevokeAll(t, out)[d := Key(publicKey, now, now, false)]
  }

  predicate Revocable(t: Table, d: DeviceId) { d in t && !t[d].revoked }

  function Revoke(t: Table, d: DeviceId): Table {
    if Revocable(t, d) then t[d := t[d].(revoked := true)] else t
  }

  /** The keys of a user, as the repository keeps them. */
  class Repository {
    var table: Table

    constructor ()
      ensures table == map[]
    {
      table := map[];
    }

    /** The active device that comes first among some of them. */
    method Earliest(among: set<DeviceId>) returns (first: DeviceId)
      requires among != {} && among <= Active(table)
      ensures first in among && forall d | d in among :: Older(table, first, d)
    {
      first :| first in among;
      var left := among - {first};
      while left != {}
        invariant first in among && left <= among && forall d | d in among && d !in left :: Older(table, first, d)
        decreases left
      {
        var d :| d in left;
        left := left - {d};
        if Older(table, d, first) {
          first := d;
        }
      }
    }

    method SelectOldest(n: nat) returns (out: set<DeviceId>)
      requires n <= |Active(table)|
      ensures LeastRecent(table, n, out)
      ensures forall d, e | d in out && e in Active(table) && e !in out ::
                NoLater(table[d], table[e]) && (NoLater(table[e], table[d]) ==> d <= e)
    {
      out := {};
      var left := Active(table);
      while |out| < n
        invariant out + left == Active(table) && out !! left && |out| <= n
        invariant forall d, e | d in out && e in left :: Older(table, d, e)
        decreases left
      {
        assert left == {} ==> out == Active(table);
        var d := Earliest(left);
        out := out + {d};
        left := left - {d};
      }
    }

    method RegisterKey(d: DeviceId, publicKey: nat, now: int) returns (outcome: Outcome, out: set<DeviceId>)
      modifies this
      ensures outcome == RegisterOutcome(old(table), d, publicKey)
      ensures outcome.Registered? ==> LeastRecent(old(table), Excess(old(table)), out)
      ensures table == Register(old(table), d, publicKey, now, out)
    {
      out := {};
      if d in table {
        if table[d].revoked { return Conflict, out; }
        if table[d].publicKey == publicKey {
          table := table[d := table[d].(used := now)];
          return Touched, out;
        }
        return Conflict, out;
      }
      var active := |Active(table)|;
      if active >= MAX_ACTIVE_DEVICES {
        out := SelectOldest(active - MAX_ACTIVE_DEVICES + 1);
        table := RevokeAll(table, out);
      }
      table := table[d := Key(publicKey, now, now, false)];
      outcome := Registered;
      assert RevokeAll(old(table), {}) == old(table);
    }

    method RevokeKey(d: DeviceId) returns (found: bool)
      modifies this
      ensures found == Revocable(old(table), d) && table == Revoke(old(table), d)
    {
      if d !in table || table[d].revoked { return false; }
      table := table[d := table[d].(revoked := true)];
      found := true;
    }
  }

  // ---- What every transaction keeps ----

  lemma SwapSize(a: set<DeviceId>, out: set<DeviceId>, d: DeviceId)
    requires out <= a
    ensures |(a - out) + {d}| <= |a| - |out| + 1
  {
    assert a == (a - out) + out;
  }

  /** Main result: a user never has more than ten active devices. */
  lemma RegisterBounded(t: Table, d: DeviceId, publicKey: nat, now: int, out: set<DeviceId>)
    requires |Active(t)| <= MAX_ACTIVE_DEVICES
    requires RegisterOutcome(t, d, publicKey).Registered? ==> LeastRecent(t, Excess(t), out)
    ensures |Active(Register(t, d, publicKey, now, out))| <= MAX_ACTIVE_DEVICES
  {
    var r := Register(t, d, publicKey, now, out);
    match RegisterOutcome(t, d, publicKey) {
      case Conflict =>
      case Touched => assert Active(r) == Active(t);
      case Registered =>
        assert Active(r) == (Active(t) - out) + {d};
        SwapSize(Active(t), out, d);
    }
  }

  /** Exactly the active devices can be revoked; that ends the one and leaves everything else alone. */
  lemma RevokesExactly(t: Table, d: DeviceId)
    ensures Revocable(t, d) <==> d in Active(t)
    ensures Active(Revoke(t, d)) == Active(t) - {d} && Revoke(t, d).Keys == t.Keys
    ensures forall e | e in t :: Revoke(t, d)[e] == t[e].(revoked := t[e].revoked || e == d)
  {
  }

  lemma RevokeBounded(t: Table, d: DeviceId)
    ensures |Active(Revoke(t, d))| <= |Active(t)|
  {
    assert Active(Revoke(t, d)) == Active(t) - {d};
  }

  /** Main result: the newcomer itself is active, and it costs the fewest devices, oldest first. */
  lemma RegisterKeepsRecent(t: Table, d: DeviceId, publicKey: nat, now: int, out: set<DeviceId>, e: DeviceId)
    requires |Active(t)| <= MAX_ACTIVE_DEVICES && RegisterOutcome(t, d, publicKey).Registered? &&
        LeastRecent(t, Excess(t), out)
    requires e in Active(t) && e !in Active(Register(t, d, publicKey, now, out))
    ensures d in Active(Register(t, d, publicKey, now, out))
    ensures |Active(t)| == MAX_ACTIVE_DEVICES
    ensures forall x | x in Active(t) :: NoLater(t[e], t[x]) && (NoLater(t[x], t[e]) ==> e <= x)
  {
    assert e in out && |out| == 1;
    var rest := out - {e};
    assert out == rest + {e} && |rest| == 0;
    assert out == {e};
  }

  /** Main result: a registered device has the key and the time it was registered with, all others keep
      theirs, and registering again is accepted exactly for the same key of a device not revoked. */
  lemma RegisterStores(t: Table, d: DeviceId, publicKey: nat, now: int, out: set<DeviceId>, other: nat)
    requires !RegisterOutcome(t, d, publicKey).Conflict?
    requires RegisterOutcome(t, d, publicKey).Registered? ==> LeastRecent(t, Excess(t), out)
    ensures var r := Register(t, d, publicKey, now, out);
            && d in r && !r[d].revoked && r[d].publicKey == publicKey && r[d].used == now
            && (d in t ==> r[d].created == t[d].created) && (d !in t ==> r[d].created == now)
            && r.Keys == t.Keys + {d}
            && (forall e | e in t && e != d :: r[e] == t[e].(revoked := r[e].revoked))
            && (RegisterOutcome(r, d, other).Conflict? <==> other != publicKey)
            && RegisterOutcome(Revoke(r, d), d, publicKey).Conflict?
  {
  }

  /** A revoked device stays revoked, with its key. */
  ghost predicate StaysRevoked(t: Table, u: Table) {
    forall d | d in t && t[d].revoked :: d in u && u[d] == t[d]
  }

  lemma TransactionsStayRevoked(t: Table, d: DeviceId, publicKey: nat, now: int, out: set<DeviceId>)
    requires RegisterOutcome(t, d, publicKey).Registered? ==> LeastRecent(t, Excess(t), out)
    ensures StaysRevoked(t, Register(t, d, publicKey, now, out)) && StaysRevoked(t, Revoke(t, d))
  {
  }
}
