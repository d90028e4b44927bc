/**
 * The database tables the session manager touches: sessions and
 * subscriptions keyed by id, and the pause history in insertion order.
 * `objects.get` hands out a fresh model instance loaded from a row, and
 * `save` writes the instance's row back.
 */
module SessionStore {
  import opened Common
  import opened Tenants

  datatype Store = Store(
    sessions: map<string, SessionRow>,
    subscriptions: map<string, SubscriptionRow>,
    pauses: seq<PauseRow>)

  /** Every session's subscription reference resolves (the foreign key holds). */
  predicate Linked(st: Store) {
    forall id | id in st.sessions ::
      st.sessions[id].subscription.Some? ==> st.sessions[id].subscription.value in st.subscriptions
  }

  /** Record p is an open pause of session `id`. */
  predicate OpenPauseOf(p: PauseRow, id: string) {
    p.session == id && p.IsActivePause()
  }

  /**
   * `PausedSession.objects.filter(session=id, resumed_at__isnull=True).first()`
   * under the ordering by descending pause time: the open pause of the session
   * paused last. Among records paused at the same instant the later one is
   * taken (the store's order among equal keys is not fixed by the query).
   */
  function LatestOpenPause(ps: seq<PauseRow>, id: string): (r: Option<nat>)
    ensures r.Some? ==> r.value < |ps| && OpenPauseOf(ps[r.value], id)
    ensures r.Some? ==> forall j :: 0 <= j < |ps| && OpenPauseOf(ps[j], id) ==> ps[j].pausedAt <= ps[r.value].pausedAt
    ensures r.None? <==> forall j :: 0 <= j < |ps| ==> !OpenPauseOf(ps[j], id)
  {
    if ps == [] then None
    else
      var prev := LatestOpenPause(ps[..|ps| - 1], id);
      var last := ps[|ps| - 1];
      assert forall j :: 0 <= j < |ps| - 1 ==> ps[j] == ps[..|ps| - 1][j];
      if OpenPauseOf(last, id) && (prev.None? || ps[prev.value].pausedAt <= last.pausedAt) then Some(|ps| - 1)
      else prev
  }

  /** A new open pause of the session, paused no earlier than any other, is the one taken. */
  lemma LatestOpenPauseAppend(ps: seq<PauseRow>, p: PauseRow)
    requires p.IsActivePause()
    requires forall j :: 0 <= j < |ps| && OpenPauseOf(ps[j], p.session) ==> ps[j].pausedAt <= p.pausedAt
    ensures LatestOpenPause(ps + [p], p.session) == Some(|ps|)
  {
    var qs := ps + [p];
    assert qs[..|qs| - 1] == ps;
    var prev := LatestOpenPause(ps, p.session);
    if prev.Some? {
      assert OpenPauseOf(ps[prev.value], p.session);
    }
  }

  class Database {
    var sessions: map<string, SessionRow>
    var subscriptions: map<string, SubscriptionRow>
    var pauses: seq<PauseRow>

    function State(): Store
      reads this
    {
      Store(sessions, subscriptions, pauses)
    }

    ghost predicate Valid()
      reads this
    {
      Linked(State())
    }

    constructor (st: Store)
      ensures State() == st
    {
      sessions := st.sessions;
      subscriptions := st.subscriptions;
      pauses := st.pauses;
    }

    /** `ActiveSession.objects.get(id=...)`: None for DoesNotExist. */
    method GetSession(id: string) returns (s: Option<ActiveSession>)
      ensures s.None? <==> id !in sessions
      ensures s.Some? ==> fresh(s.value) && s.value.Row() == sessions[id]
    {
      if id in sessions {
        var a := new ActiveSession.Load(sessions[id]);
        s := Some(a);
      } else {
        s := None;
      }
    }

    method SaveSession(id: string, a: ActiveSession)
      modifies this
      ensures State() == old(State()).(sessions := old(sessions)[id := a.Row()])
    {
      sessions := sessions[id := a.Row()];
    }

    method GetSubscription(id: string) returns (s: Option<UserSubscription>)
      ensures s.None? <==> id !in subscriptions
      ensures s.Some? ==> fresh(s.value) && s.value.Row() == subscriptions[id]
    {
      if id in subscriptions {
        var u := new UserSubscription.Load(subscriptions[id]);
        s := Some(u);
      } else {
        s := None;
      }
    }

    method SaveSubscription(id: string, u: UserSubscription)
      modifies this
      ensures State() == old(State()).(subscriptions := old(subscriptions)[id := u.Row()])
    {
      subscriptions := subscriptions[id := u.Row()];
    }

    /** `PausedSession.objects.create(...)`. */
    method CreatePause(p: PauseRow)
      modifies this
      ensures State() == old(State()).(pauses := old(pauses) + [p])
    {
      pauses := pauses + [p];
    }

    /** The latest open pause of a session, as a fresh instance, with its position. */
    method FirstOpenPause(id: string) returns (found: Option<nat>, p: PausedSession?)
      ensures found == LatestOpenPause(pauses, id)
      ensures found.Some? ==> p != null && fresh(p) && p.Row() == pauses[found.value]
    {
      found := LatestOpenPause(pauses, id);
      if found.Some? {
        p := new PausedSession.Load(pauses[found.value]);
      } else {
        p := null;
      }
    }

    method SavePause(i: nat, p: PausedSession)
      requires i < |pauses|
      modifies this
      ensures State() == old(State()).(pauses := old(pauses)[i := p.Row()])
    {
      pauses := pauses[i := p.Row()];
    }
  }
}
