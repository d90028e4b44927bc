/**
 * The access device as the session manager changes it: a list of login users
 * and a table of simple queues, each row carrying an id the device assigns.
 * The manager issues five commands: `add` and `remove` on /user, and `add`,
 * `set disabled=...` and `remove` on /queue/simple. A query
 * (`select().where(...)`) returns the ids of the matching rows in table order.
 *
 * The tables the manager only reads (DHCP leases, ARP, wireless
 * registrations, hotspot users) are constants of the Router class.
 */
module Router {
  import opened Common
  import opened ConnectedDevices

  datatype DeviceUser = DeviceUser(id: nat, name: string, password: string, group: string)

  datatype SimpleQueue = SimpleQueue(id: nat, name: string, target: string, maxLimit: string, disabled: bool)

  datatype Mutation =
    | AddUser(userName: string, password: string, group: string)
    | RemoveUser(userId: nat)
    | AddQueue(queueName: string, target: string, maxLimit: string)
    | SetQueueDisabled(queueId: nat, disabled: bool)
    | RemoveQueue(queueId: nat)

  datatype RouterState = RouterState(users: seq<DeviceUser>, queues: seq<SimpleQueue>, nextId: nat)

  // ---------------------------------------------------------------------
  // Ids
  // ---------------------------------------------------------------------

  function UserIds(us: seq<DeviceUser>): set<nat> {
    if us == [] then {} else {us[0].id} + UserIds(us[1..])
  }

  function QueueIds(qs: seq<SimpleQueue>): set<nat> {
    if qs == [] then {} else {qs[0].id} + QueueIds(qs[1..])
  }

  predicate DistinctUserIds(us: seq<DeviceUser>) {
    us == [] || (us[0].id !in UserIds(us[1..]) && DistinctUserIds(us[1..]))
  }

  predicate DistinctQueueIds(qs: seq<SimpleQueue>) {
    qs == [] || (qs[0].id !in QueueIds(qs[1..]) && DistinctQueueIds(qs[1..]))
  }

  /** No id is used twice in a table, and every id is below the next one to be handed out. */
  predicate WellFormed(s: RouterState) {
    && DistinctUserIds(s.users)
    && DistinctQueueIds(s.queues)
    && (forall id | id in UserIds(s.users) :: id < s.nextId)
    && (forall id | id in QueueIds(s.queues) :: id < s.nextId)
  }

  // ---------------------------------------------------------------------
  // Single commands
  // ---------------------------------------------------------------------

  /** The users without the one whose id is `id`. */
  function DropUser(us: seq<DeviceUser>, id: nat): seq<DeviceUser> {
    if us == [] then []
    else (if us[0].id == id then [] else [us[0]]) + DropUser(us[1..], id)
  }

  /** The queues without the one whose id is `id`. */
  function DropQueue(qs: seq<SimpleQueue>, id: nat): seq<SimpleQueue> {
    if qs == [] then []
    else (if qs[0].id == id then [] else [qs[0]]) + DropQueue(qs[1..], id)
  }

  /** The queues with the one whose id is `id` given the disabled flag `d`. */
  function SetDisabled(qs: seq<SimpleQueue>, id: nat, d: bool): seq<SimpleQueue> {
    if qs == [] then []
    else [if qs[0].id == id then qs[0].(disabled := d) else qs[0]] + SetDisabled(qs[1..], id, d)
  }

  /**
   * The effect of one command. A new row takes the next id; a new queue is
   * enabled. Removing or setting an id that is not there changes nothing (the
   * manager only issues ids a query has just returned).
   */
  function Apply(s: RouterState, m: Mutation): RouterState {
    match m
    case AddUser(n, p, g) =>
      s.(users := s.users + [DeviceUser(s.nextId, n, p, g)], nextId := s.nextId + 1)
    case RemoveUser(id) =>
      s.(users := DropUser(s.users, id))
    case AddQueue(n, t, l) =>
      s.(queues := s.queues + [SimpleQueue(s.nextId, n, t, l, false)], nextId := s.nextId + 1)
    case SetQueueDisabled(id, d) =>
      s.(queues := SetDisabled(s.queues, id, d))
    case RemoveQueue(id) =>
      s.(queues := DropQueue(s.queues, id))
  }

  /** The commands of `ms` applied in order. */
  function ApplyAll(s: RouterState, ms: seq<Mutation>): RouterState {
    if ms == [] then s else Apply(ApplyAll(s, ms[..|ms| - 1]), ms[|ms| - 1])
  }

  lemma {:induction false} ApplyAllAppend(s: RouterState, a: seq<Mutation>, b: seq<Mutation>)
    ensures ApplyAll(s, a + b) == ApplyAll(ApplyAll(s, a), b)
    decreases |b|
  {
    if b == [] {
      assert a + b == a;
    } else {
      assert (a + b)[..|a + b| - 1] == a + b[..|b| - 1];
      ApplyAllAppend(s, a, b[..|b| - 1]);
    }
  }

  // ---------------------------------------------------------------------
  // Queries and what removing or setting their results amounts to
  // ---------------------------------------------------------------------

  /** `select().where(name=n)` on /user: the ids of the users named n, in table order. */
  function UserIdsNamed(us: seq<DeviceUser>, n: string): (r: seq<nat>)
    ensures forall id :: id in r <==> exists i :: 0 <= i < |us| && us[i].id == id && us[i].name == n
  {
    if us == [] then []
    else
      var rest := UserIdsNamed(us[1..], n);
      assert forall i :: 0 < i < |us| ==> us[i] == us[1..][i - 1];
      (if us[0].name == n then [us[0].id] else []) + rest
  }

  /** `select().where(name__contains=p)` on /queue/simple: the ids of the queues whose name contains p. */
  function QueueIdsContaining(qs: seq<SimpleQueue>, p: string): (r: seq<nat>)
    ensures forall id :: id in r <==> exists i :: 0 <= i < |qs| && qs[i].id == id && Contains(qs[i].name, p)
  {
    if qs == [] then []
    else
      var rest := QueueIdsContaining(qs[1..], p);
      assert forall i :: 0 < i < |qs| ==> qs[i] == qs[1..][i - 1];
      (if Contains(qs[0].name, p) then [qs[0].id] else []) + rest
  }

  /** The users not named n, in order. */
  function UsersNotNamed(us: seq<DeviceUser>, n: string): seq<DeviceUser> {
    if us == [] then []
    else (if us[0].name == n then [] else [us[0]]) + UsersNotNamed(us[1..], n)
  }

  /** The queues whose name does not contain p, in order. */
  function QueuesNotContaining(qs: seq<SimpleQueue>, p: string): seq<SimpleQueue> {
    if qs == [] then []
    else (if Contains(qs[0].name, p) then [] else [qs[0]]) + QueuesNotContaining(qs[1..], p)
  }

  /** The queues, with those whose name contains p given the disabled flag d. */
  function DisabledWhereContaining(qs: seq<SimpleQueue>, p: string, d: bool): seq<SimpleQueue> {
    if qs == [] then []
    else [if Contains(qs[0].name, p) then qs[0].(disabled := d) else qs[0]]
         + DisabledWhereContaining(qs[1..], p, d)
  }

  /** The users whose id is not in `gone`, in order. */
  function UsersOutside(us: seq<DeviceUser>, gone: set<nat>): seq<DeviceUser> {
    if us == [] then []
    else (if us[0].id in gone then [] else [us[0]]) + UsersOutside(us[1..], gone)
  }

  function QueuesOutside(qs: seq<SimpleQueue>, gone: set<nat>): seq<SimpleQueue> {
    if qs == [] then []
    else (if qs[0].id in gone then [] else [qs[0]]) + QueuesOutside(qs[1..], gone)
  }

  function QueuesToggled(qs: seq<SimpleQueue>, ids: set<nat>, d: bool): seq<SimpleQueue> {
    if qs == [] then []
    else [if qs[0].id in ids then qs[0].(disabled := d) else qs[0]] + QueuesToggled(qs[1..], ids, d)
  }

  lemma {:induction false} DropUserOutside(us: seq<DeviceUser>, gone: set<nat>, id: nat)
    ensures DropUser(UsersOutside(us, gone), id) == UsersOutside(us, gone + {id})
  {
    if us != [] {
      DropUserOutside(us[1..], gone, id);
      var head := if us[0].id in gone then [] else [us[0]];
      DropUserAppend(head, UsersOutside(us[1..], gone), id);
    }
  }

  lemma {:induction false} DropUserAppend(a: seq<DeviceUser>, b: seq<DeviceUser>, id: nat)
    ensures DropUser(a + b, id) == DropUser(a, id) + DropUser(b, id)
  {
    if a != [] {
      assert (a + b)[1..] == a[1..] + b;
      DropUserAppend(a[1..], b, id);
    } else {
      assert a + b == b;
    }
  }

  lemma {:induction false} DropQueueAppend(a: seq<SimpleQueue>, b: seq<SimpleQueue>, id: nat)
    ensures DropQueue(a + b, id) == DropQueue(a, id) + DropQueue(b, id)
  {
    if a != [] {
      assert (a + b)[1..] == a[1..] + b;
      DropQueueAppend(a[1..], b, id);
    } else {
      assert a + b == b;
    }
  }

  lemma {:induction false} SetDisabledAppend(a: seq<SimpleQueue>, b: seq<SimpleQueue>, id: nat, d: bool)
    ensures SetDisabled(a + b, id, d) == SetDisabled(a, id, d) + SetDisabled(b, id, d)
  {
    if a != [] {
      assert (a + b)[1..] == a[1..] + b;
      SetDisabledAppend(a[1..], b, id, d);
    } else {
      assert a + b == b;
    }
  }

  lemma {:induction false} DropQueueOutside(qs: seq<SimpleQueue>, gone: set<nat>, id: nat)
    ensures DropQueue(QueuesOutside(qs, gone), id) == QueuesOutside(qs, gone + {id})
  {
    if qs != [] {
      DropQueueOutside(qs[1..], gone, id);
      var head := if qs[0].id in gone then [] else [qs[0]];
      DropQueueAppend(head, QueuesOutside(qs[1..], gone), id);
    }
  }

  lemma {:induction false} SetDisabledToggled(qs: seq<SimpleQueue>, ids: set<nat>, id: nat, d: bool)
    ensures SetDisabled(QueuesToggled(qs, ids, d), id, d) == QueuesToggled(qs, ids + {id}, d)
  {
    if qs != [] {
      SetDisabledToggled(qs[1..], ids, id, d);
      var head := [if qs[0].id in ids then qs[0].(disabled := d) else qs[0]];
      SetDisabledAppend(head, QueuesToggled(qs[1..], ids, d), id, d);
    }
  }

  /** Removing by a set of ids that picks out exactly the users named n is removing by name. */
  lemma {:induction false} OutsideIsNotNamed(us: seq<DeviceUser>, gone: set<nat>, n: string)
    requires forall i :: 0 <= i < |us| ==> (us[i].id in gone <==> us[i].name == n)
    ensures UsersOutside(us, gone) == UsersNotNamed(us, n)
  {
    if us != [] {
      assert forall i :: 0 <= i < |us[1..]| ==> us[1..][i] == us[i + 1];
      OutsideIsNotNamed(us[1..], gone, n);
    }
  }

  lemma {:induction false} OutsideIsNotContaining(qs: seq<SimpleQueue>, gone: set<nat>, p: string)
    requires forall i :: 0 <= i < |qs| ==> (qs[i].id in gone <==> Contains(qs[i].name, p))
    ensures QueuesOutside(qs, gone) == QueuesNotContaining(qs, p)
  {
    if qs != [] {
      assert forall i :: 0 <= i < |qs[1..]| ==> qs[1..][i] == qs[i + 1];
      OutsideIsNotContaining(qs[1..], gone, p);
    }
  }

  lemma {:induction false} ToggledIsContaining(qs: seq<SimpleQueue>, ids: set<nat>, p: string, d: bool)
    requires forall i :: 0 <= i < |qs| ==> (qs[i].id in ids <==> Contains(qs[i].name, p))
    ensures QueuesToggled(qs, ids, d) == DisabledWhereContaining(qs, p, d)
  {
    if qs != [] {
      assert forall i :: 0 <= i < |qs[1..]| ==> qs[1..][i] == qs[i + 1];
      ToggledIsContaining(qs[1..], ids, p, d);
    }
  }

  /** With distinct ids, an id belongs to one row only. */
  lemma {:induction false} DistinctUserIdsUnique(us: seq<DeviceUser>, i: int, j: int)
    requires DistinctUserIds(us)
    requires 0 <= i < |us| && 0 <= j < |us| && us[i].id == us[j].id
    ensures i == j
  {
    if i != 0 && j != 0 {
      DistinctUserIdsUnique(us[1..], i - 1, j - 1);
    } else if i != j {
      var k := if i == 0 then j else i;
      UserIdsHas(us[1..], k - 1);
    }
  }

  lemma {:induction false} DistinctQueueIdsUnique(qs: seq<SimpleQueue>, i: int, j: int)
    requires DistinctQueueIds(qs)
    requires 0 <= i < |qs| && 0 <= j < |qs| && qs[i].id == qs[j].id
    ensures i == j
  {
    if i != 0 && j != 0 {
      DistinctQueueIdsUnique(qs[1..], i - 1, j - 1);
    } else if i != j {
      var k := if i == 0 then j else i;
      QueueIdsHas(qs[1..], k - 1);
    }
  }

  lemma {:induction false} UserIdsHas(us: seq<DeviceUser>, i: int)
    requires 0 <= i < |us|
    ensures us[i].id in UserIds(us)
  {
    if i > 0 {
      UserIdsHas(us[1..], i - 1);
    }
  }

  lemma {:induction false} QueueIdsHas(qs: seq<SimpleQueue>, i: int)
    requires 0 <= i < |qs|
    ensures qs[i].id in QueueIds(qs)
  {
    if i > 0 {
      QueueIdsHas(qs[1..], i - 1);
    }
  }

  // ---------------------------------------------------------------------
  // Well-formedness is kept by every command
  // ---------------------------------------------------------------------

  lemma {:induction false} UserIdsAppend(us: seq<DeviceUser>, u: DeviceUser)
    ensures UserIds(us + [u]) == UserIds(us) + {u.id}
    ensures DistinctUserIds(us) && u.id !in UserIds(us) ==> DistinctUserIds(us + [u])
  {
    if us != [] {
      assert (us + [u])[1..] == us[1..] + [u];
      UserIdsAppend(us[1..], u);
    }
  }

  lemma {:induction false} QueueIdsAppend(qs: seq<SimpleQueue>, q: SimpleQueue)
    ensures QueueIds(qs + [q]) == QueueIds(qs) + {q.id}
    ensures DistinctQueueIds(qs) && q.id !in QueueIds(qs) ==> DistinctQueueIds(qs + [q])
  {
    if qs != [] {
      assert (qs + [q])[1..] == qs[1..] + [q];
      QueueIdsAppend(qs[1..], q);
    }
  }

  lemma {:induction false} DropUserIds(us: seq<DeviceUser>, id: nat)
    ensures UserIds(DropUser(us, id)) <= UserIds(us)
    ensures DistinctUserIds(us) ==> DistinctUserIds(DropUser(us, id))
  {
    if us != [] {
      DropUserIds(us[1..], id);
      var r := DropUser(us, id);
      if us[0].id != id {
        assert r == [us[0]] + DropUser(us[1..], id);
        assert r[1..] == DropUser(us[1..], id);
        assert UserIds(r) == {us[0].id} + UserIds(DropUser(us[1..], id));
      } else {
        assert r == [] + DropUser(us[1..], id);
        assert r == DropUser(us[1..], id);
        assert UserIds(us) == {us[0].id} + UserIds(us[1..]);
      }
    }
  }

  lemma {:induction false} DropQueueIds(qs: seq<SimpleQueue>, id: nat)
    ensures QueueIds(DropQueue(qs, id)) <= QueueIds(qs)
    ensures DistinctQueueIds(qs) ==> DistinctQueueIds(DropQueue(qs, id))
  {
    if qs != [] {
      DropQueueIds(qs[1..], id);
      var r := DropQueue(qs, id);
      if qs[0].id != id {
        assert r == [qs[0]] + DropQueue(qs[1..], id);
        assert r[1..] == DropQueue(qs[1..], id);
        assert QueueIds(r) == {qs[0].id} + QueueIds(DropQueue(qs[1..], id));
      } else {
        assert r == [] + DropQueue(qs[1..], id);
        assert r == DropQueue(qs[1..], id);
        assert QueueIds(qs) == {qs[0].id} + QueueIds(qs[1..]);
      }
    }
  }

  lemma {:induction false} SetDisabledIds(qs: seq<SimpleQueue>, id: nat, d: bool)
    ensures QueueIds(SetDisabled(qs, id, d)) == QueueIds(qs)
    ensures DistinctQueueIds(qs) ==> DistinctQueueIds(SetDisabled(qs, id, d))
  {
    if qs != [] {
      SetDisabledIds(qs[1..], id, d);
      var r := SetDisabled(qs, id, d);
      assert r[1..] == SetDisabled(qs[1..], id, d);
    }
  }

  /** Every command keeps ids distinct and below the next id. */
  lemma ApplyKeepsWellFormed(s: RouterState, m: Mutation)
    requires WellFormed(s)
    ensures WellFormed(Apply(s, m))
  {
    match m
    case AddUser(n, p, g) =>
      UserIdsAppend(s.users, DeviceUser(s.nextId, n, p, g));
    case RemoveUser(id) =>
      DropUserIds(s.users, id);
    case AddQueue(n, t, l) =>
      QueueIdsAppend(s.queues, SimpleQueue(s.nextId, n, t, l, false));
    case SetQueueDisabled(id, d) =>
      SetDisabledIds(s.queues, id, d);
    case RemoveQueue(id) =>
      DropQueueIds(s.queues, id);
  }

  // ---------------------------------------------------------------------
  // The device
  // ---------------------------------------------------------------------

  class Router {
    var users: seq<DeviceUser>
    var queues: seq<SimpleQueue>
    var nextId: nat
    const leases: seq<Lease>
    const arp: seq<ArpEntry>
    /** None when the wireless package is not available (the query raises). */
    const wireless: Option<seq<WirelessClient>>
    /** None when the hotspot is not enabled (the query raises). */
    const hotspot: Option<seq<HotspotUser>>

    function State(): RouterState
      reads this
    {
      RouterState(users, queues, nextId)
    }

    ghost predicate Valid()
      reads this
    {
      WellFormed(State())
    }

    constructor (s: RouterState, leases: seq<Lease>, arp: seq<ArpEntry>,
                 wireless: Option<seq<WirelessClient>>, hotspot: Option<seq<HotspotUser>>)
      requires WellFormed(s)
      ensures Valid() && State() == s
      ensures this.leases == leases && this.arp == arp
      ensures this.wireless == wireless && this.hotspot == hotspot
    {
      users := s.users;
      queues := s.queues;
      nextId := s.nextId;
      this.leases := leases;
      this.arp := arp;
      this.wireless := wireless;
      this.hotspot := hotspot;
    }

    /** `/user add`: returns the new row's id. */
    method UserAdd(name: string, password: string, group: string) returns (id: nat)
      requires Valid()
      modifies this
      ensures Valid()
      ensures State() == Apply(old(State()), AddUser(name, password, group))
      ensures id == old(nextId)
    {
      ApplyKeepsWellFormed(State(), AddUser(name, password, group));
      id := nextId;
      users := users + [DeviceUser(id, name, password, group)];
      nextId := nextId + 1;
    }

    /** `/user remove`. */
    method UserRemove(id: nat)
      requires Valid()
      modifies this
      ensures Valid()
      ensures State() == Apply(old(State()), RemoveUser(id))
    {
      ApplyKeepsWellFormed(State(), RemoveUser(id));
      users := DropUser(users, id);
    }

    /** `/queue/simple add`: a new queue is enabled. */
    method QueueAdd(name: string, target: string, maxLimit: string) returns (id: nat)
      requires Valid()
      modifies this
      ensures Valid()
      ensures State() == Apply(old(State()), AddQueue(name, target, maxLimit))
      ensures id == old(nextId)
    {
      ApplyKeepsWellFormed(State(), AddQueue(name, target, maxLimit));
      id := nextId;
      queues := queues + [SimpleQueue(id, name, target, maxLimit, false)];
      nextId := nextId + 1;
    }

    /** `/queue/simple set disabled=...`. */
    method QueueSet(id: nat, disabled: bool)
      requires Valid()
      modifies this
      ensures Valid()
      ensures State() == Apply(old(State()), SetQueueDisabled(id, disabled))
    {
      ApplyKeepsWellFormed(State(), SetQueueDisabled(id, disabled));
      queues := SetDisabled(queues, id, disabled);
    }

    /** `/queue/simple remove`. */
    method QueueRemove(id: nat)
      requires Valid()
      modifies this
      ensures Valid()
      ensures State() == Apply(old(State()), RemoveQueue(id))
    {
      ApplyKeepsWellFormed(State(), RemoveQueue(id));
      queues := DropQueue(queues, id);
    }

    /** Issues command m. */
    method Execute(m: Mutation)
      requires Valid()
      modifies this
      ensures Valid()
      ensures State() == Apply(old(State()), m)
    {
      match m
      case AddUser(n, p, g) =>
        var _ := UserAdd(n, p, g);
      case RemoveUser(id) =>
        UserRemove(id);
      case AddQueue(n, t, l) =>
        var _ := QueueAdd(n, t, l);
      case SetQueueDisabled(id, d) =>
        QueueSet(id, d);
      case RemoveQueue(id) =>
        QueueRemove(id);
    }
  }
}
