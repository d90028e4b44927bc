/**
 * MikrotikSessionManager: keeps a session on the access device and its rows
 * in the database moving together (create, usage update, terminate, pause,
 * resume), and reports the devices connected to the router.
 *
 * Failures. Each operation opens a connection, issues its device calls in a
 * fixed order (queries and commands, numbered from 0) and closes the
 * connection at the end. `Fault` says what goes wrong, if anything:
 * `DeviceError(k)` makes device call k and every later one raise (a refused
 * connection makes the first one raise); `CloseError` makes the final close
 * raise after everything else has happened. Any raise makes the operation
 * return false, and nothing already done is undone.
 */
module Networking {
  import opened Common
  import opened Tenants
  import opened Router
  import opened ConnectedDevices
  import opened SessionStore

  datatype Fault = NoFault | DeviceError(call: nat) | CloseError

  /** A plan of `calls` device calls is cut short by the fault. */
  predicate Raises(f: Fault, calls: nat) {
    f.DeviceError? && f.call < calls
  }

  /** How many of `calls` device calls complete. */
  function Reached(f: Fault, calls: nat): (r: nat)
    ensures r <= calls
    ensures r < calls <==> Raises(f, calls)
  {
    if Raises(f, calls) then f.call else calls
  }

  datatype Call = Query | Command(m: Mutation)

  /** The commands among the calls, in order. */
  function Mutations(cs: seq<Call>): seq<Mutation> {
    if cs == [] then []
    else Mutations(cs[..|cs| - 1]) + (if cs[|cs| - 1].Command? then [cs[|cs| - 1].m] else [])
  }

  lemma {:induction false} MutationsAppend(a: seq<Call>, b: seq<Call>)
    ensures Mutations(a + b) == Mutations(a) + Mutations(b)
    decreases |b|
  {
    if b == [] {
      assert a + b == a;
    } else {
      assert (a + b)[..|a + b| - 1] == a + b[..|b| - 1];
      MutationsAppend(a, b[..|b| - 1]);
    }
  }

  // =====================================================================
  // Device plans
  // =====================================================================

  const BillingGroup: string := "billing-users"
  const DefaultUploadMbps: int := 10
  const DefaultDownloadMbps: int := 50

  /** A speed that is missing or 0 (falsy) takes the default. */
  function Speed(given: Option<int>, default: int): (r: int)
    ensures given.Some? && given.value != 0 ==> r == given.value
    ensures given.None? || given.value == 0 ==> r == default
  {
    if given.None? || given.value == 0 then default else given.value
  }

  /** The prefix every queue of the session carries. */
  function SessionTag(sessionId: string): string {
    "session-" + sessionId
  }

  function QueueName(sessionId: string, username: string): string {
    SessionTag(sessionId) + "-" + username
  }

  /** "{down}M/{up}M". */
  function MaxLimit(down: int, up: int): string {
    IntToString(down) + "M/" + IntToString(up) + "M"
  }

  /** create_session: add the user, then its queue. */
  function CreatePlan(sessionId: string, username: string, password: string,
                      upload: Option<int>, download: Option<int>): seq<Call>
  {
    [ Command(AddUser(username, password, BillingGroup)),
      Command(AddQueue(QueueName(sessionId, username), username,
                       MaxLimit(Speed(download, DefaultDownloadMbps), Speed(upload, DefaultUploadMbps)))) ]
  }

  function RemoveUsersPlan(ids: seq<nat>): seq<Call> {
    if ids == [] then [] else RemoveUsersPlan(ids[..|ids| - 1]) + [Command(RemoveUser(ids[|ids| - 1]))]
  }

  function RemoveQueuesPlan(ids: seq<nat>): seq<Call> {
    if ids == [] then [] else RemoveQueuesPlan(ids[..|ids| - 1]) + [Command(RemoveQueue(ids[|ids| - 1]))]
  }

  function ToggleQueuesPlan(ids: seq<nat>, d: bool): seq<Call> {
    if ids == [] then [] else ToggleQueuesPlan(ids[..|ids| - 1], d) + [Command(SetQueueDisabled(ids[|ids| - 1], d))]
  }

  /**
   * terminate_session: query the users named `username` and remove each, then
   * query the queues whose name contains the session tag and remove each.
   * The queue query comes after the user removals, which leave the queues as
   * they were, so it can be read off the initial state.
   */
  function TerminatePlan(s: RouterState, sessionId: string, username: string): seq<Call> {
    [Query] + RemoveUsersPlan(UserIdsNamed(s.users, username))
    + [Query] + RemoveQueuesPlan(QueueIdsContaining(s.queues, SessionTag(sessionId)))
  }

  /** pause_session / resume_session: query the session's queues and set each one's disabled flag. */
  function TogglePlan(s: RouterState, sessionId: string, d: bool): seq<Call> {
    [Query] + ToggleQueuesPlan(QueueIdsContaining(s.queues, SessionTag(sessionId)), d)
  }

  function Elems(ids: seq<nat>): set<nat> {
    set x | x in ids
  }

  lemma UsersOutsideNothing(us: seq<DeviceUser>)
    ensures UsersOutside(us, {}) == us
  {
  }

  lemma QueuesOutsideNothing(qs: seq<SimpleQueue>)
    ensures QueuesOutside(qs, {}) == qs
  {
  }

  lemma QueuesToggledNothing(qs: seq<SimpleQueue>, d: bool)
    ensures QueuesToggled(qs, {}, d) == qs
  {
  }

  lemma {:induction false} RemoveUsersEffect(s: RouterState, ids: seq<nat>)
    ensures ApplyAll(s, Mutations(RemoveUsersPlan(ids))) == s.(users := UsersOutside(s.users, Elems(ids)))
  {
    if ids == [] {
      UsersOutsideNothing(s.users);
      assert Elems(ids) == {};
    } else {
      var init := ids[..|ids| - 1];
      var x := ids[|ids| - 1];
      var p := RemoveUsersPlan(init) + [Command(RemoveUser(x))];
      assert p[..|p| - 1] == RemoveUsersPlan(init);
      assert Mutations(p) == Mutations(RemoveUsersPlan(init)) + [RemoveUser(x)];
      var ms := Mutations(RemoveUsersPlan(init)) + [RemoveUser(x)];
      assert ms[..|ms| - 1] == Mutations(RemoveUsersPlan(init));
      RemoveUsersEffect(s, init);
      DropUserOutside(s.users, Elems(init), x);
      assert ids == init + [x];
      assert Elems(ids) == Elems(init) + {x};
    }
  }

  lemma {:induction false} RemoveQueuesEffect(s: RouterState, ids: seq<nat>)
    ensures ApplyAll(s, Mutations(RemoveQueuesPlan(ids))) == s.(queues := QueuesOutside(s.queues, Elems(ids)))
  {
    if ids == [] {
      QueuesOutsideNothing(s.queues);
      assert Elems(ids) == {};
    } else {
      var init := ids[..|ids| - 1];
      var x := ids[|ids| - 1];
      var p := RemoveQueuesPlan(init) + [Command(RemoveQueue(x))];
      assert p[..|p| - 1] == RemoveQueuesPlan(init);
      assert Mutations(p) == Mutations(RemoveQueuesPlan(init)) + [RemoveQueue(x)];
      var ms := Mutations(RemoveQueuesPlan(init)) + [RemoveQueue(x)];
      assert ms[..|ms| - 1] == Mutations(RemoveQueuesPlan(init));
      RemoveQueuesEffect(s, init);
      DropQueueOutside(s.queues, Elems(init), x);
      assert ids == init + [x];
      assert Elems(ids) == Elems(init) + {x};
    }
  }

  lemma {:induction false} ToggleQueuesEffect(s: RouterState, ids: seq<nat>, d: bool)
    ensures ApplyAll(s, Mutations(ToggleQueuesPlan(ids, d))) == s.(queues := QueuesToggled(s.queues, Elems(ids), d))
  {
    if ids == [] {
      QueuesToggledNothing(s.queues, d);
      assert Elems(ids) == {};
    } else {
      var init := ids[..|ids| - 1];
      var x := ids[|ids| - 1];
      var p := ToggleQueuesPlan(init, d) + [Command(SetQueueDisabled(x, d))];
      assert p[..|p| - 1] == ToggleQueuesPlan(init, d);
      assert Mutations(p) == Mutations(ToggleQueuesPlan(init, d)) + [SetQueueDisabled(x, d)];
      var ms := Mutations(ToggleQueuesPlan(init, d)) + [SetQueueDisabled(x, d)];
      assert ms[..|ms| - 1] == Mutations(ToggleQueuesPlan(init, d));
      ToggleQueuesEffect(s, init, d);
      SetDisabledToggled(s.queues, Elems(init), x, d);
      assert ids == init + [x];
      assert Elems(ids) == Elems(init) + {x};
    }
  }

  /** With distinct ids, the queried ids pick out exactly the users with that name. */
  lemma NamedIdsExact(us: seq<DeviceUser>, n: string)
    requires DistinctUserIds(us)
    ensures forall i :: 0 <= i < |us| ==> (us[i].id in Elems(UserIdsNamed(us, n)) <==> us[i].name == n)
  {
    forall i | 0 <= i < |us| && us[i].id in Elems(UserIdsNamed(us, n))
      ensures us[i].name == n
    {
      var k :| 0 <= k < |us| && us[k].id == us[i].id && us[k].name == n;
      DistinctUserIdsUnique(us, i, k);
    }
  }

  lemma ContainingIdsExact(qs: seq<SimpleQueue>, p: string)
    requires DistinctQueueIds(qs)
    ensures forall i :: 0 <= i < |qs| ==> (qs[i].id in Elems(QueueIdsContaining(qs, p)) <==> Contains(qs[i].name, p))
  {
    forall i | 0 <= i < |qs| && qs[i].id in Elems(QueueIdsContaining(qs, p))
      ensures Contains(qs[i].name, p)
    {
      var k :| 0 <= k < |qs| && qs[k].id == qs[i].id && Contains(qs[k].name, p);
      DistinctQueueIdsUnique(qs, i, k);
    }
  }

  /**
   * A completed terminate plan leaves the device without any user named
   * `username` and without any queue whose name contains the session tag;
   * every other row stays, in order.
   */
  lemma TerminatePlanMutations(s: RouterState, sessionId: string, username: string)
    ensures Mutations(TerminatePlan(s, sessionId, username))
            == Mutations(RemoveUsersPlan(UserIdsNamed(s.users, username)))
               + Mutations(RemoveQueuesPlan(QueueIdsContaining(s.queues, SessionTag(sessionId))))
  {
    var a := RemoveUsersPlan(UserIdsNamed(s.users, username));
    var b := RemoveQueuesPlan(QueueIdsContaining(s.queues, SessionTag(sessionId)));
    assert TerminatePlan(s, sessionId, username) == ([Query] + a) + ([Query] + b);
    QueryHasNoMutations();
    MutationsAppend([Query], a);
    MutationsAppend([Query], b);
    assert Mutations([Query] + a) == Mutations(a);
    assert Mutations([Query] + b) == Mutations(b);
    MutationsAppend([Query] + a, [Query] + b);
  }

  lemma QueryHasNoMutations()
    ensures Mutations([Query]) == []
  {
    assert [Query][..0] == [];
  }

  /**
   * A completed terminate plan leaves the device without any user named
   * `username` and without any queue whose name contains the session tag;
   * every other row stays, in order.
   */
  lemma TerminatePlanEffect(s: RouterState, sessionId: string, username: string)
    requires WellFormed(s)
    ensures ApplyAll(s, Mutations(TerminatePlan(s, sessionId, username)))
            == s.(users := UsersNotNamed(s.users, username),
                  queues := QueuesNotContaining(s.queues, SessionTag(sessionId)))
  {
    var tag := SessionTag(sessionId);
    var uids := UserIdsNamed(s.users, username);
    var qids := QueueIdsContaining(s.queues, tag);
    TerminatePlanMutations(s, sessionId, username);
    ApplyAllAppend(s, Mutations(RemoveUsersPlan(uids)), Mutations(RemoveQueuesPlan(qids)));
    RemoveUsersEffect(s, uids);
    NamedIdsExact(s.users, username);
    OutsideIsNotNamed(s.users, Elems(uids), username);
    var s1 := s.(users := UsersNotNamed(s.users, username));
    RemoveQueuesEffect(s1, qids);
    ContainingIdsExact(s.queues, tag);
    OutsideIsNotContaining(s.queues, Elems(qids), tag);
  }

  /** A completed toggle plan sets the flag on exactly the queues whose name contains the session tag. */
  lemma TogglePlanEffect(s: RouterState, sessionId: string, d: bool)
    requires WellFormed(s)
    ensures ApplyAll(s, Mutations(TogglePlan(s, sessionId, d)))
            == s.(queues := DisabledWhereContaining(s.queues, SessionTag(sessionId), d))
  {
    var tag := SessionTag(sessionId);
    var qids := QueueIdsContaining(s.queues, tag);
    MutationsAppend([Query], ToggleQueuesPlan(qids, d));
    QueryHasNoMutations();
    assert Mutations([Query]) + Mutations(ToggleQueuesPlan(qids, d)) == Mutations(ToggleQueuesPlan(qids, d));
    ToggleQueuesEffect(s, qids, d);
    ContainingIdsExact(s.queues, tag);
    ToggledIsContaining(s.queues, Elems(qids), tag, d);
  }

  /** The device state after the first k calls of create_session's plan. */
  function CreatedPrefix(s: RouterState, sessionId: string, username: string, password: string,
                         upload: Option<int>, download: Option<int>, k: nat): RouterState
    requires k <= 2
  {
    ApplyAll(s, Mutations(CreatePlan(sessionId, username, password, upload, download)[..k]))
  }

  /**
   * create_session adds the user before the queue and undoes nothing: if the
   * queue command fails, the user stays on the device.
   */
  lemma CreatePlanEffect(s: RouterState, sessionId: string, username: string, password: string,
                         upload: Option<int>, download: Option<int>)
    ensures CreatedPrefix(s, sessionId, username, password, upload, download, 0) == s
    ensures CreatedPrefix(s, sessionId, username, password, upload, download, 1)
            == s.(users := s.users + [DeviceUser(s.nextId, username, password, BillingGroup)], nextId := s.nextId + 1)
    ensures CreatedPrefix(s, sessionId, username, password, upload, download, 2)
            == s.(users := s.users + [DeviceUser(s.nextId, username, password, BillingGroup)],
                  queues := s.queues + [SimpleQueue(s.nextId + 1, QueueName(sessionId, username), username,
                                                    MaxLimit(Speed(download, 50), Speed(upload, 10)), false)],
                  nextId := s.nextId + 2)
  {
    var plan := CreatePlan(sessionId, username, password, upload, download);
    var m0 := plan[0].m;
    var m1 := plan[1].m;
    assert plan[..0] == [];
    assert Mutations(plan[..1]) == [m0] by {
      assert plan[..1][..0] == [];
    }
    assert Mutations(plan[..2]) == [m0, m1] by {
      assert plan[..2][..1] == plan[..1];
    }
    assert ApplyAll(s, [m0]) == Apply(s, m0) by {
      assert [m0][..0] == [];
    }
    assert ApplyAll(s, [m0, m1]) == Apply(Apply(s, m0), m1) by {
      assert [m0, m1][..1] == [m0];
    }
  }

  /** The queue match is by substring: session "1"'s tag also matches session "12"'s queues. */
  lemma TagMatchesLongerSessionId()
    ensures Contains(QueueName("12", "bob"), SessionTag("1"))
    ensures QueueName("12", "bob") != QueueName("1", "bob")
  {
    assert SessionTag("1") == "session-1";
    assert QueueName("12", "bob") == "session-12-bob";
    assert StartsWith("session-12-bob", "session-1");
    assert QueueName("12", "bob")[9] != QueueName("1", "bob")[9];
  }

  /** Terminating session "1" removes the queue of session "12". */
  lemma TerminateRemovesOtherSessionsQueue(s: RouterState, q: SimpleQueue)
    requires WellFormed(s)
    requires q in s.queues && q.name == QueueName("12", "bob")
    ensures q !in ApplyAll(s, Mutations(TerminatePlan(s, "1", "bob"))).queues
  {
    TerminatePlanEffect(s, "1", "bob");
    TagMatchesLongerSessionId();
    NotContainingExcludes(s.queues, SessionTag("1"), q);
  }

  lemma {:induction false} NotContainingExcludes(qs: seq<SimpleQueue>, p: string, q: SimpleQueue)
    requires Contains(q.name, p)
    ensures q !in QueuesNotContaining(qs, p)
  {
    if qs != [] {
      NotContainingExcludes(qs[1..], p, q);
    }
  }

  // =====================================================================
  // Database effects
  // =====================================================================

  /**
   * update_session_data: the session's usage is assigned; the linked
   * subscription's usage is increased by the same amount and the
   * subscription saved (which fills an unset expiry).
   */
  function UsageStore(st: Store, id: string, mb: int, now: int): Store
    requires Linked(st) && id in st.sessions
  {
    var row := st.sessions[id];
    var st1 := st.(sessions := st.sessions[id := row.(dataUsedMb := mb)]);
    if row.subscription.None? then st1
    else
      var k := row.subscription.value;
      var sub := st.subscriptions[k];
      st1.(subscriptions := st.subscriptions[k := sub.(dataUsedMb := sub.dataUsedMb + mb).Saved(now)])
  }

  /** terminate_session's database part: the row, if there is one, is terminated now. */
  function TerminateStore(st: Store, id: string, now: int): Store {
    if id in st.sessions then st.(sessions := st.sessions[id := st.sessions[id].AfterTerminate(now)])
    else st
  }

  /** The pause record pause_session creates. */
  function NewPause(id: string, reason: Option<string>, pausedBy: Option<string>, now: int): (p: PauseRow)
    ensures p.session == id && p.pausedAt == now && p.IsActivePause() && p.pausedBy == pausedBy
    ensures p.reason == UserRequest <==> reason.None? || reason.value == ""
    ensures p.reason == UserRequest ==> p.description == Some("Session paused")
    ensures p.reason != UserRequest ==> p.reason == AdminAction && p.description == reason
  {
    if reason.None? || reason.value == "" then PauseRow(id, now, None, UserRequest, Some("Session paused"), pausedBy)
    else PauseRow(id, now, None, AdminAction, reason, pausedBy)
  }

  /** pause_session's database part: the status step, then one new pause record. */
  function PauseStore(st: Store, id: string, reason: Option<string>, pausedBy: Option<string>, now: int): Store
    requires id in st.sessions
  {
    st.(sessions := st.sessions[id := st.sessions[id].AfterPause()],
        pauses := st.pauses + [NewPause(id, reason, pausedBy, now)])
  }

  /** resume_session's database part: the status step, then the latest open pause is closed. */
  function ResumeStore(st: Store, id: string, now: int): Store
    requires id in st.sessions
  {
    var st1 := st.(sessions := st.sessions[id := st.sessions[id].AfterResume()]);
    var i := LatestOpenPause(st.pauses, id);
    if i.None? then st1 else st1.(pauses := st.pauses[i.value := st.pauses[i.value].Closed(now)])
  }

  /** The session a pause step may proceed on. */
  predicate PauseAllowed(st: Store, id: string) {
    id in st.sessions && !st.sessions[id].IsPaused()
  }

  predicate ResumeAllowed(st: Store, id: string) {
    id in st.sessions && st.sessions[id].IsPaused()
  }

  lemma DatabaseStepsKeepLinked(st: Store, id: string, mb: int, reason: Option<string>, pausedBy: Option<string>, now: int)
    requires Linked(st)
    ensures id in st.sessions ==> Linked(UsageStore(st, id, mb, now))
    ensures Linked(TerminateStore(st, id, now))
    ensures id in st.sessions ==> Linked(PauseStore(st, id, reason, pausedBy, now))
    ensures id in st.sessions ==> Linked(ResumeStore(st, id, now))
  {
  }

  /** Usage reported twice: the session keeps the last figure, the subscription counts both. */
  lemma UsageAsymmetry(st: Store, id: string, mb: int, now: int)
    requires Linked(st) && id in st.sessions && st.sessions[id].subscription.Some?
    ensures var k := st.sessions[id].subscription.value;
      var once := UsageStore(st, id, mb, now);
      var twice := UsageStore(once, id, mb, now);
      && twice.sessions[id].dataUsedMb == mb
      && twice.subscriptions[k].dataUsedMb == st.subscriptions[k].dataUsedMb + 2 * mb
      && twice.subscriptions[k].expiryDate.Some?
  {
  }

  /** A pause on a terminated session keeps its status and still records a new open pause. */
  lemma PauseRecordedWithoutStatusChange(st: Store, id: string, reason: Option<string>, pausedBy: Option<string>, now: int)
    requires id in st.sessions && st.sessions[id].status == Terminated
    ensures PauseAllowed(st, id)
    ensures PauseStore(st, id, reason, pausedBy, now).sessions == st.sessions
    ensures |PauseStore(st, id, reason, pausedBy, now).pauses| == |st.pauses| + 1
  {
  }

  /**
   * Pausing an active session and later resuming it restores its row and
   * closes exactly the record the pause created, provided no open pause of the
   * session is dated after the new one.
   */
  lemma PauseThenResume(st: Store, id: string, reason: Option<string>, pausedBy: Option<string>, t1: int, t2: int)
    requires id in st.sessions && st.sessions[id].IsActive()
    requires forall j :: 0 <= j < |st.pauses| && OpenPauseOf(st.pauses[j], id) ==> st.pauses[j].pausedAt <= t1
    ensures ResumeAllowed(PauseStore(st, id, reason, pausedBy, t1), id)
    ensures ResumeStore(PauseStore(st, id, reason, pausedBy, t1), id, t2)
            == st.(pauses := st.pauses + [NewPause(id, reason, pausedBy, t1).Closed(t2)])
  {
    var p := NewPause(id, reason, pausedBy, t1);
    LatestOpenPauseAppend(st.pauses, p);
    PauseResumeRoundTrip(st.sessions[id]);
    assert st.sessions[id := st.sessions[id]] == st.sessions;
    assert (st.pauses + [p])[|st.pauses| := p.Closed(t2)] == st.pauses + [p.Closed(t2)];
  }

  /** resume_session closes the open record paused last and leaves every other record as it was. */
  lemma ResumeClosesLatest(st: Store, id: string, now: int)
    requires id in st.sessions
    ensures var after := ResumeStore(st, id, now).pauses;
      && |after| == |st.pauses|
      && (forall j :: 0 <= j < |st.pauses| && after[j] != st.pauses[j] ==>
            LatestOpenPause(st.pauses, id) == Some(j) && after[j] == st.pauses[j].Closed(now))
      && ((forall j :: 0 <= j < |st.pauses| ==> !OpenPauseOf(st.pauses[j], id)) ==> after == st.pauses)
  {
  }

  // =====================================================================
  // The manager
  // =====================================================================

  class MikrotikSessionManager {
    const router: Router
    const db: Database

    constructor (router: Router, db: Database)
      ensures this.router == router && this.db == db
    {
      this.router := router;
      this.db := db;
    }

    /** Issues the calls of a plan in order until one raises. */
    method Run(plan: seq<Call>, fault: Fault) returns (raised: bool)
      requires router.Valid()
      modifies router
      ensures router.Valid()
      ensures raised == Raises(fault, |plan|)
      ensures router.State() == ApplyAll(old(router.State()), Mutations(plan[..Reached(fault, |plan|)]))
    {
      var i := 0;
      raised := false;
      while i < |plan| && !raised
        invariant 0 <= i <= |plan|
        invariant router.Valid()
        invariant !(fault.DeviceError? && fault.call < i)
        invariant raised ==> fault.DeviceError? && fault.call == i && i < |plan|
        invariant router.State() == ApplyAll(old(router.State()), Mutations(plan[..i]))
        decreases |plan| - i, if raised then 0 else 1
      {
        if fault.DeviceError? && fault.call == i {
          raised := true;
        } else {
          assert plan[..i + 1][..i] == plan[..i];
          assert plan[..i + 1][i] == plan[i];
          if plan[i].Command? {
            ghost var before := router.State();
            router.Execute(plan[i].m);
            assert router.State() == Apply(before, plan[i].m);
            var ms := Mutations(plan[..i]) + [plan[i].m];
            assert Mutations(plan[..i + 1]) == ms;
            assert ms[..|ms| - 1] == Mutations(plan[..i]);
            assert ApplyAll(old(router.State()), ms) == Apply(ApplyAll(old(router.State()), Mutations(plan[..i])), plan[i].m);
            assert before == ApplyAll(old(router.State()), Mutations(plan[..i]));
          } else {
            assert Mutations(plan[..i + 1]) == Mutations(plan[..i]);
          }
          i := i + 1;
          assert router.State() == ApplyAll(old(router.State()), Mutations(plan[..i]));
        }
      }
    }

    /**
     * create_session: user, then queue; no database write. The limit on data
     * is accepted and not used.
     */
    method CreateSession(sessionId: string, username: string, password: string, dataLimitMb: Option<int>,
                         upload: Option<int>, download: Option<int>, fault: Fault) returns (ok: bool)
      requires router.Valid()
      modifies router
      ensures router.Valid()
      ensures router.State() == CreatedPrefix(old(router.State()), sessionId, username, password, upload, download,
                                              Reached(fault, 2))
      ensures ok <==> !Raises(fault, 2) && !fault.CloseError?
    {
      var plan := CreatePlan(sessionId, username, password, upload, download);
      var raised := Run(plan, fault);
      ok := !raised && !fault.CloseError?;
    }

    /** update_session_data: a database step only; the connection is opened and closed around it. */
    method UpdateSessionData(sessionId: string, username: string, dataUsedMb: int, now: int, fault: Fault)
      returns (ok: bool)
      requires db.Valid()
      modifies db
      ensures db.Valid()
      ensures ok <==> sessionId in old(db.sessions) && !fault.CloseError?
      ensures db.State() == if sessionId in old(db.sessions) then UsageStore(old(db.State()), sessionId, dataUsedMb, now)
                            else old(db.State())
    {
      DatabaseStepsKeepLinked(db.State(), sessionId, dataUsedMb, None, None, now);
      var found := db.GetSession(sessionId);
      if found.None? {
        return false;
      }
      var session := found.value;
      session.SetUsage(dataUsedMb);
      db.SaveSession(sessionId, session);
      if session.subscription.Some? {
        var k := session.subscription.value;
        var sub := db.GetSubscription(k);
        if sub.Some? {
          var u := sub.value;
          u.AddUsage(dataUsedMb);
          u.Save(now);
          db.SaveSubscription(k, u);
        }
      }
      ok := !fault.CloseError?;
    }

    /**
     * terminate_session: remove the users and the session's queues, then
     * terminate the row. True also when there is no such row.
     */
    method TerminateSession(sessionId: string, username: string, now: int, fault: Fault) returns (ok: bool)
      requires router.Valid() && db.Valid()
      modifies router, db
      ensures router.Valid() && db.Valid()
      ensures var plan := TerminatePlan(old(router.State()), sessionId, username);
        && router.State() == ApplyAll(old(router.State()), Mutations(plan[..Reached(fault, |plan|)]))
        && db.State() == (if Raises(fault, |plan|) then old(db.State()) else TerminateStore(old(db.State()), sessionId, now))
        && (ok <==> !Raises(fault, |plan|) && !fault.CloseError?)
      ensures !fault.DeviceError? ==>
        router.State() == old(router.State()).(users := UsersNotNamed(old(router.users), username),
                                                queues := QueuesNotContaining(old(router.queues), SessionTag(sessionId)))
    {
      DatabaseStepsKeepLinked(db.State(), sessionId, 0, None, None, now);
      TerminatePlanEffect(router.State(), sessionId, username);
      var plan := TerminatePlan(router.State(), sessionId, username);
      assert plan[..|plan|] == plan;
      var raised := Run(plan, fault);
      if raised {
        return false;
      }
      var found := db.GetSession(sessionId);
      if found.Some? {
        var session := found.value;
        session.TerminateSession(now);
        db.SaveSession(sessionId, session);
      }
      ok := !fault.CloseError?;
    }

    /**
     * pause_session: refused, with nothing touched, when the row is missing or
     * already paused; otherwise disable the session's queues, step the status
     * and record the pause.
     */
    method PauseSession(sessionId: string, username: string, reason: Option<string>, pausedBy: Option<string>,
                        now: int, fault: Fault) returns (ok: bool)
      requires router.Valid() && db.Valid()
      modifies router, db
      ensures router.Valid() && db.Valid()
      ensures !PauseAllowed(old(db.State()), sessionId) ==>
        !ok && router.State() == old(router.State()) && db.State() == old(db.State())
      ensures PauseAllowed(old(db.State()), sessionId) ==>
        var plan := TogglePlan(old(router.State()), sessionId, true);
        && router.State() == ApplyAll(old(router.State()), Mutations(plan[..Reached(fault, |plan|)]))
        && db.State() == (if Raises(fault, |plan|) then old(db.State())
                          else PauseStore(old(db.State()), sessionId, reason, pausedBy, now))
        && (ok <==> !Raises(fault, |plan|) && !fault.CloseError?)
      ensures PauseAllowed(old(db.State()), sessionId) && !fault.DeviceError? ==>
        router.State() == old(router.State()).(queues := DisabledWhereContaining(old(router.queues), SessionTag(sessionId), true))
    {
      DatabaseStepsKeepLinked(db.State(), sessionId, 0, reason, pausedBy, now);
      TogglePlanEffect(router.State(), sessionId, true);
      var found := db.GetSession(sessionId);
      if found.None? {
        return false;
      }
      var session := found.value;
      if session.status == Paused {
        return false;
      }
      var plan := TogglePlan(router.State(), sessionId, true);
      assert plan[..|plan|] == plan;
      var raised := Run(plan, fault);
      if raised {
        return false;
      }
      session.PauseSession();
      db.SaveSession(sessionId, session);
      db.CreatePause(NewPause(sessionId, reason, pausedBy, now));
      ok := !fault.CloseError?;
    }

    /**
     * resume_session: refused, with nothing touched, when the row is missing or
     * not paused; otherwise enable the session's queues, step the status and
     * close the latest open pause record.
     */
    method ResumeSession(sessionId: string, username: string, now: int, fault: Fault) returns (ok: bool)
      requires router.Valid() && db.Valid()
      modifies router, db
      ensures router.Valid() && db.Valid()
      ensures !ResumeAllowed(old(db.State()), sessionId) ==>
        !ok && router.State() == old(router.State()) && db.State() == old(db.State())
      ensures ResumeAllowed(old(db.State()), sessionId) ==>
        var plan := TogglePlan(old(router.State()), sessionId, false);
        && router.State() == ApplyAll(old(router.State()), Mutations(plan[..Reached(fault, |plan|)]))
        && db.State() == (if Raises(fault, |plan|) then old(db.State())
                          else ResumeStore(old(db.State()), sessionId, now))
        && (ok <==> !Raises(fault, |plan|) && !fault.CloseError?)
      ensures ResumeAllowed(old(db.State()), sessionId) && !fault.DeviceError? ==>
        router.State() == old(router.State()).(queues := DisabledWhereContaining(old(router.queues), SessionTag(sessionId), false))
    {
      DatabaseStepsKeepLinked(db.State(), sessionId, 0, None, None, now);
      TogglePlanEffect(router.State(), sessionId, false);
      var found := db.GetSession(sessionId);
      if found.None? {
        return false;
      }
      var session := found.value;
      if session.status != Paused {
        return false;
      }
      var plan := TogglePlan(router.State(), sessionId, false);
      assert plan[..|plan|] == plan;
      var raised := Run(plan, fault);
      if raised {
        return false;
      }
      ResumeRecords(sessionId, now, session);
      ok := !fault.CloseError?;
    }

    /** The database steps of resume_session, once the device steps went through. */
    method ResumeRecords(sessionId: string, now: int, session: ActiveSession)
      requires sessionId in db.sessions && session.Row() == db.sessions[sessionId]
      modifies db, session
      ensures db.State() == ResumeStore(old(db.State()), sessionId, now)
    {
      session.ResumeSession();
      db.SaveSession(sessionId, session);
      ghost var afterStatus := db.State();
      var index, pause := db.FirstOpenPause(sessionId);
      if index.Some? {
        var owner := db.GetSession(sessionId);
        var again := owner.value;
        pause.Resume(now, again);
        db.SavePause(index.value, pause);
        db.SaveSession(sessionId, again);
        assert afterStatus.sessions[sessionId := again.Row()] == afterStatus.sessions;
      }
    }

    // -------------------------------------------------------------------
    // Connected devices
    // -------------------------------------------------------------------

    /**
     * What get_connected_devices returns: empty when the lease or ARP query
     * (calls 0 and 1) raises or the close does; the wireless query (call 2)
     * and the hotspot query (call 3) fall back to nothing when they raise.
     */
    function Answer(fault: Fault): seq<Device> {
      if Raises(fault, 2) || fault.CloseError? then []
      else Report(router.leases, router.arp,
                  if Raises(fault, 3) || router.wireless.None? then [] else router.wireless.value,
                  if Raises(fault, 4) then None else router.hotspot)
    }

    method GetConnectedDevices(fault: Fault) returns (devices: seq<Device>)
      ensures devices == Answer(fault)
    {
      if Raises(fault, 2) {
        return [];
      }
      var wireless: seq<WirelessClient> := [];
      if !Raises(fault, 3) && router.wireless.Some? {
        wireless := router.wireless.value;
      }
      var hotspot := if Raises(fault, 4) then None else router.hotspot;
      devices := BuildReport(router.leases, router.arp, wireless, hotspot);
      if fault.CloseError? {
        devices := [];
      }
    }

    /** get_device_by_mac: the first reported device with that MAC, ignoring case. */
    method GetDeviceByMac(mac: string, fault: Fault) returns (r: Option<Device>)
      ensures r == FirstWithMac(Answer(fault), mac)
    {
      var devices := GetConnectedDevices(fault);
      r := FindByMac(devices, mac);
    }

    /** get_devices_by_interface: the reported devices on that interface, in order. */
    method GetDevicesByInterface(interfaceName: string, fault: Fault) returns (r: seq<Device>)
      ensures r == DevicesOn(Answer(fault), interfaceName)
    {
      var devices := GetConnectedDevices(fault);
      r := SelectByInterface(devices, interfaceName);
    }
  }
}
