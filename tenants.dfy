/**
 * The tenant-side models that the session manager drives: a subscription to
 * a data package, a metered session and the history of its pauses.
 *
 * Each model instance is a class whose fields its methods assign (as the
 * Django model instances do); `Row()` is what `save()` writes to the store and
 * the `Load` constructor is what `objects.get` reads back. The read-only
 * properties of a model are functions of its row. Times are integers:
 * seconds for subscriptions and sessions.
 */
module Tenants {
  import opened Common
  import CoreUtils

  datatype SubscriptionStatus =
    | SubscriptionActive | SubscriptionPaused | SubscriptionExpired | SubscriptionCancelled

  /**
   * The statuses a session is given. `Terminated` is assigned by
   * ActiveSession.terminate_session although the shared status choices list
   * only active, paused, expired and cancelled (see README).
   */
  datatype SessionStatus = Active | Paused | Terminated | Expired | Cancelled

  datatype PauseReason = UserRequest | AdminAction | SystemAuto | PaymentIssue | Other

  // =====================================================================
  // UserSubscription
  // =====================================================================

  /** pause(): only an active subscription becomes paused. */
  function StatusAfterPause(st: SubscriptionStatus): (r: SubscriptionStatus)
    ensures st == SubscriptionActive ==> r == SubscriptionPaused
    ensures st != SubscriptionActive ==> r == st
  {
    if st == SubscriptionActive then SubscriptionPaused else st
  }

  /** unpause(): only a paused subscription becomes active. */
  function StatusAfterUnpause(st: SubscriptionStatus): (r: SubscriptionStatus)
    ensures st == SubscriptionPaused ==> r == SubscriptionActive
    ensures st != SubscriptionPaused ==> r == st
  {
    if st == SubscriptionPaused then SubscriptionActive else st
  }

  /** Pausing twice is pausing once; unpausing twice is unpausing once. */
  lemma PauseUnpauseIdempotent(st: SubscriptionStatus)
    ensures StatusAfterPause(StatusAfterPause(st)) == StatusAfterPause(st)
    ensures StatusAfterUnpause(StatusAfterUnpause(st)) == StatusAfterUnpause(st)
  {
  }

  /** Unpausing undoes a pause exactly when the subscription was not already paused. */
  lemma UnpauseUndoesPause(st: SubscriptionStatus)
    ensures StatusAfterUnpause(StatusAfterPause(st)) == st <==> st != SubscriptionPaused
  {
  }

  datatype SubscriptionRow = SubscriptionRow(
    status: SubscriptionStatus,
    expiryDate: Option<int>,
    packageDurationDays: nat,
    simultaneousConnections: nat,
    currentConnections: nat,
    dataUsedMb: int)
  {
    /** The comparison with the expiry is only reached for an active subscription. */
    predicate HasComparableExpiry() {
      status == SubscriptionActive ==> expiryDate.Some?
    }

    predicate IsActive(now: int)
      requires HasComparableExpiry()
    {
      status == SubscriptionActive && expiryDate.value >= now
    }

    predicate IsPaused() {
      status == SubscriptionPaused
    }

    predicate HasReachedConnectionLimit() {
      currentConnections >= simultaneousConnections
    }

    /** What save() leaves behind: the expiry is set from the package only when unset. */
    function Saved(now: int): SubscriptionRow {
      if expiryDate.None? then this.(expiryDate := Some(now + packageDurationDays * 86400))
      else this
    }

    function TimeRemaining(now: int): string
      requires HasComparableExpiry()
    {
      if !IsActive(now) then "Not active"
      else if expiryDate.value - now <= 0 then "Expired"
      else FormatRemaining(SplitSeconds(expiryDate.value - now))
    }
  }

  /** "{d}d {h}h {m}m", "{h}h {m}m" or "{m}m {s}s", by the largest non-zero unit. */
  function FormatRemaining(sp: Span): (r: string)
    ensures |r| > 0 && (r[|r| - 1] == 'm' || r[|r| - 1] == 's')
    ensures r[|r| - 1] == 's' <==> sp.days <= 0 && sp.hours == 0
  {
    if sp.days > 0 then
      IntToString(sp.days) + "d " + NatToString(sp.hours) + "h " + NatToString(sp.minutes) + "m"
    else if sp.hours > 0 then
      NatToString(sp.hours) + "h " + NatToString(sp.minutes) + "m"
    else
      NatToString(sp.minutes) + "m " + NatToString(sp.seconds) + "s"
  }

  /** The words of the remaining-time text, before they are joined. */
  function RemainingWords(sp: Span): seq<string> {
    var d, h, m, sec := IntToString(sp.days) + "d", NatToString(sp.hours) + "h",
                        NatToString(sp.minutes) + "m", NatToString(sp.seconds) + "s";
    if sp.days > 0 then [d, h, m] else if sp.hours > 0 then [h, m] else [m, sec]
  }

  /** Two words with a unit each, joined by a space. */
  lemma JoinTwo(x: string, u: char, y: string, v: char)
    ensures x + [u, ' '] + y + [v] == CoreUtils.JoinSpace([x + [u], y + [v]])
  {
    assert [x + [u], y + [v]][1..] == [y + [v]];
    assert x + [u, ' '] + y + [v] == (x + [u]) + " " + (y + [v]);
  }

  /** Three words with a unit each, joined by spaces. */
  lemma JoinThree(x: string, u: char, y: string, v: char, z: string, w: char)
    ensures x + [u, ' '] + y + [v, ' '] + z + [w] == CoreUtils.JoinSpace([x + [u], y + [v], z + [w]])
  {
    JoinTwo(y, v, z, w);
    assert [x + [u], y + [v], z + [w]][1..] == [y + [v], z + [w]];
    assert x + [u, ' '] + y + [v, ' '] + z + [w] == (x + [u]) + " " + (y + [v, ' '] + z + [w]);
  }

  lemma RemainingIsJoin(sp: Span)
    ensures FormatRemaining(sp) == CoreUtils.JoinSpace(RemainingWords(sp))
  {
    var d, h, m, sec := IntToString(sp.days), NatToString(sp.hours), NatToString(sp.minutes), NatToString(sp.seconds);
    if sp.days > 0 {
      JoinThree(d, 'd', h, 'h', m, 'm');
    } else if sp.hours > 0 {
      JoinTwo(h, 'h', m, 'm');
    } else {
      JoinTwo(m, 'm', sec, 's');
    }
  }

  /** The units and numbers of the words before they are joined. */
  lemma RemainingWordsReadBack(sp: Span)
    ensures LastChars(RemainingWords(sp)) == (if sp.days > 0 then "dhm" else if sp.hours > 0 then "hm" else "ms")
    ensures forall x | x in RemainingWords(sp) :: ReadsBackTo(x, sp) && ' ' !in x
  {
    PartReadsBack(sp.days, 'd');
    PartReadsBack(sp.hours, 'h');
    PartReadsBack(sp.minutes, 'm');
    PartReadsBack(sp.seconds, 's');
    var w := RemainingWords(sp);
    forall x | x in w ensures ReadsBackTo(x, sp) && ' ' !in x {
      NoSpaceInPart(x);
    }
    assert LastChars(w) == seq(|w|, i requires 0 <= i < |w| => LastChar(w[i]));
  }

  /**
   * What the remaining-time text says: split at its spaces, its words carry
   * the units d, h, m (with days), h, m (with hours but no days) or m, s, and
   * each word reads back to the count of its unit.
   */
  lemma FormatRemainingReadsBack(sp: Span)
    ensures var w := SplitSpace(FormatRemaining(sp));
      LastChars(w) == (if sp.days > 0 then "dhm" else if sp.hours > 0 then "hm" else "ms") &&
      forall i :: 0 <= i < |w| ==> ReadsBackTo(w[i], sp)
  {
    var w := RemainingWords(sp);
    RemainingWordsReadBack(sp);
    RemainingIsJoin(sp);
    CoreUtils.SplitJoin(w);
    assert SplitSpace(FormatRemaining(sp)) == w;
  }

  /** A day count shows iff there are days, and an hour count iff there are days or hours. */
  lemma FormatRemainingUnits(sp: Span)
    ensures ('d' in FormatRemaining(sp)) <==> sp.days > 0
    ensures ('h' in FormatRemaining(sp)) <==> sp.days > 0 || sp.hours > 0
  {
    NotInDigits(NatToString(sp.hours), 'd');
    NotInDigits(NatToString(sp.minutes), 'd');
    NotInDigits(NatToString(sp.seconds), 'd');
    NotInDigits(NatToString(sp.minutes), 'h');
    NotInDigits(NatToString(sp.seconds), 'h');
    if sp.days > 0 {
      NotInDigits(NatToString(sp.days), 'h');
    }
  }

  /** save() sets the expiry once; a later save keeps it. */
  lemma SaveKeepsExpiry(r: SubscriptionRow, t1: int, t2: int)
    ensures r.Saved(t1).expiryDate.Some?
    ensures r.Saved(t1).Saved(t2) == r.Saved(t1)
    ensures r.expiryDate.Some? ==> r.Saved(t1) == r
  {
  }

  /**
   * is_active and is_paused never hold together; activity only ends as time
   * passes (active at a later time means active now), and an active
   * subscription has not passed its expiry.
   */
  lemma SubscriptionActivity(r: SubscriptionRow, now: int, later: int)
    requires r.HasComparableExpiry()
    ensures !(r.IsActive(now) && r.IsPaused())
    ensures now <= later && r.IsActive(later) ==> r.IsActive(now)
    ensures r.IsActive(now) ==> r.status == SubscriptionActive && now <= r.expiryDate.value
  {
  }

  /**
   * The connection limit is reached exactly when one more connection would
   * exceed the allowance; a subscription allowing none is always at its limit.
   */
  lemma ConnectionLimitMeaning(r: SubscriptionRow, extra: nat)
    ensures r.HasReachedConnectionLimit() <==> r.currentConnections + 1 > r.simultaneousConnections
    ensures r.simultaneousConnections == 0 ==> r.HasReachedConnectionLimit()
    ensures r.HasReachedConnectionLimit() ==> r.(currentConnections := r.currentConnections + extra).HasReachedConnectionLimit()
  {
  }

  /** Right after the first save, a subscription is active iff its status is 'active'. */
  lemma FreshlySavedIsActive(r: SubscriptionRow, now: int)
    requires r.expiryDate.None?
    ensures r.Saved(now).IsActive(now) <==> r.status == SubscriptionActive
  {
  }

  /** The three outcomes of time_remaining and when each is produced. */
  lemma TimeRemainingCases(r: SubscriptionRow, now: int)
    requires r.HasComparableExpiry()
    ensures r.TimeRemaining(now) == "Not active" <==> !r.IsActive(now)
    ensures r.TimeRemaining(now) == "Expired" <==> r.IsActive(now) && r.expiryDate.value == now
    ensures r.IsActive(now) && r.expiryDate.value > now ==>
              r.TimeRemaining(now) == FormatRemaining(SplitSeconds(r.expiryDate.value - now))
  {
    var t := r.TimeRemaining(now);
    if r.IsActive(now) && r.expiryDate.value > now {
      assert t[|t| - 1] == 'm' || t[|t| - 1] == 's';
      assert "Not active"[9] == 'e';
      assert "Expired"[6] == 'd';
    }
  }

  class UserSubscription {
    var status: SubscriptionStatus
    var expiryDate: Option<int>
    var packageDurationDays: nat
    var simultaneousConnections: nat
    var currentConnections: nat
    var dataUsedMb: int

    function Row(): SubscriptionRow
      reads this
    {
      SubscriptionRow(status, expiryDate, packageDurationDays, simultaneousConnections,
                      currentConnections, dataUsedMb)
    }

    constructor Load(r: SubscriptionRow)
      ensures Row() == r
    {
      status := r.status;
      expiryDate := r.expiryDate;
      packageDurationDays := r.packageDurationDays;
      simultaneousConnections := r.simultaneousConnections;
      currentConnections := r.currentConnections;
      dataUsedMb := r.dataUsedMb;
    }

    /** save(): fill in the expiry date from the package duration when it is unset. */
    method Save(now: int)
      modifies this
      ensures Row() == old(Row()).Saved(now)
    {
      if expiryDate.None? {
        expiryDate := Some(now + packageDurationDays * 86400);
      }
    }

    method Pause()
      modifies this
      ensures Row() == old(Row()).(status := StatusAfterPause(old(status)))
    {
      if status == SubscriptionActive {
        status := SubscriptionPaused;
      }
    }

    method Unpause()
      modifies this
      ensures Row() == old(Row()).(status := StatusAfterUnpause(old(status)))
    {
      if status == SubscriptionPaused {
        status := SubscriptionActive;
      }
    }

    /** Adds `mb` to the accumulated usage (what the session manager does to the linked subscription). */
    method AddUsage(mb: int)
      modifies this
      ensures Row() == old(Row()).(dataUsedMb := old(dataUsedMb) + mb)
    {
      dataUsedMb := dataUsedMb + mb;
    }
  }

  // =====================================================================
  // ActiveSession
  // =====================================================================

  datatype SessionRow = SessionRow(
    subscription: Option<string>,
    status: SessionStatus,
    startTime: int,
    endTime: Option<int>,
    dataUsedMb: int)
  {
    predicate IsActive() {
      status == Active
    }

    predicate IsPaused() {
      status == Paused
    }

    /** duration: until the end time when there is one, else until now. */
    function Duration(now: int): int {
      (if endTime.Some? then endTime.value else now) - startTime
    }

    /** pause_session(): only an active session becomes paused. */
    function AfterPause(): (r: SessionRow)
      ensures r.IsPaused() <==> IsActive() || IsPaused()
      ensures !IsActive() ==> r == this
      ensures r == this.(status := r.status)
    {
      if status == Active then this.(status := Paused) else this
    }

    /** resume_session(): only a paused session becomes active. */
    function AfterResume(): (r: SessionRow)
      ensures r.IsActive() <==> IsActive() || IsPaused()
      ensures !IsPaused() ==> r == this
      ensures r == this.(status := r.status)
    {
      if status == Paused then this.(status := Active) else this
    }

    /** terminate_session(): terminated, ended now, from any status. */
    function AfterTerminate(now: int): (r: SessionRow)
      ensures r.status == Terminated && r.endTime == Some(now)
      ensures r.startTime == startTime && r.dataUsedMb == dataUsedMb && r.subscription == subscription
    {
      this.(status := Terminated, endTime := Some(now))
    }
  }

  /** Pause then resume brings an active session back; resume then pause brings a paused one back. */
  lemma PauseResumeRoundTrip(r: SessionRow)
    ensures r.IsActive() ==> r.AfterPause().AfterResume() == r
    ensures r.IsPaused() ==> r.AfterResume().AfterPause() == r
  {
  }

  /** Once terminated, the duration is frozen at the termination time. */
  lemma TerminationFreezesDuration(r: SessionRow, t: int, later: int)
    requires r.endTime.None?
    ensures r.Duration(t) == t - r.startTime
    ensures r.AfterTerminate(t).Duration(later) == r.Duration(t)
  {
  }

  /**
   * The duration of an open session grows with the clock; a session with an
   * end time has a fixed duration; pausing and resuming leave it unchanged.
   */
  lemma DurationRunsWithClock(r: SessionRow, t1: int, t2: int)
    ensures r.endTime.None? ==> r.Duration(t2) - r.Duration(t1) == t2 - t1
    ensures r.endTime.Some? ==> r.Duration(t2) == r.Duration(t1)
    ensures r.AfterPause().Duration(t1) == r.Duration(t1) && r.AfterResume().Duration(t1) == r.Duration(t1)
  {
  }

  /** Neither pause nor resume leaves the terminated state. */
  lemma TerminatedIsAbsorbing(r: SessionRow, now: int)
    ensures r.AfterTerminate(now).AfterPause() == r.AfterTerminate(now)
    ensures r.AfterTerminate(now).AfterResume() == r.AfterTerminate(now)
  {
  }

  class ActiveSession {
    var subscription: Option<string>
    var status: SessionStatus
    var startTime: int
    var endTime: Option<int>
    var dataUsedMb: int

    function Row(): SessionRow
      reads this
    {
      SessionRow(subscription, status, startTime, endTime, dataUsedMb)
    }

    constructor Load(r: SessionRow)
      ensures Row() == r
    {
      subscription := r.subscription;
      status := r.status;
      startTime := r.startTime;
      endTime := r.endTime;
      dataUsedMb := r.dataUsedMb;
    }

    method PauseSession()
      modifies this
      ensures Row() == old(Row()).AfterPause()
    {
      if status == Active {
        status := Paused;
      }
    }

    method ResumeSession()
      modifies this
      ensures Row() == old(Row()).AfterResume()
    {
      if status == Paused {
        status := Active;
      }
    }

    method TerminateSession(now: int)
      modifies this
      ensures Row() == old(Row()).AfterTerminate(now)
    {
      status := Terminated;
      endTime := Some(now);
    }

    /** The manager's usage update assigns the session's figure (it does not add to it). */
    method SetUsage(mb: int)
      modifies this
      ensures Row() == old(Row()).(dataUsedMb := mb)
    {
      dataUsedMb := mb;
    }
  }

  // =====================================================================
  // PausedSession
  // =====================================================================

  datatype PauseRow = PauseRow(
    session: string,
    pausedAt: int,
    resumedAt: Option<int>,
    reason: PauseReason,
    description: Option<string>,
    pausedBy: Option<string>)
  {
    predicate IsActivePause() {
      resumedAt.None?
    }

    function PauseDuration(now: int): int {
      if resumedAt.Some? then resumedAt.value - pausedAt else now - pausedAt
    }

    /** resume() on the record: the resume time is set only while it is unset. */
    function Closed(now: int): (r: PauseRow)
      ensures !r.IsActivePause()
      ensures IsActivePause() ==> r.resumedAt == Some(now)
      ensures !IsActivePause() ==> r == this
      ensures r.(resumedAt := resumedAt) == this
    {
      if resumedAt.None? then this.(resumedAt := Some(now)) else this
    }
  }

  /** An open pause's duration grows with the clock; a resumed pause's is fixed. */
  lemma PauseDurationRunsWithClock(p: PauseRow, t1: int, t2: int)
    ensures p.IsActivePause() ==> p.PauseDuration(t2) - p.PauseDuration(t1) == t2 - t1
    ensures !p.IsActivePause() ==> p.PauseDuration(t2) == p.PauseDuration(t1) == p.resumedAt.value - p.pausedAt
  {
  }

  /** Closing a pause twice is closing it once, and freezes its duration. */
  lemma ClosingIsIdempotent(p: PauseRow, t1: int, t2: int, later: int)
    ensures p.Closed(t1).Closed(t2) == p.Closed(t1)
    ensures p.IsActivePause() ==> p.Closed(t1).PauseDuration(later) == p.PauseDuration(t1)
  {
  }

  class PausedSession {
    var session: string
    var pausedAt: int
    var resumedAt: Option<int>
    var reason: PauseReason
    var description: Option<string>
    var pausedBy: Option<string>

    function Row(): PauseRow
      reads this
    {
      PauseRow(session, pausedAt, resumedAt, reason, description, pausedBy)
    }

    constructor Load(r: PauseRow)
      ensures Row() == r
    {
      session := r.session;
      pausedAt := r.pausedAt;
      resumedAt := r.resumedAt;
      reason := r.reason;
      description := r.description;
      pausedBy := r.pausedBy;
    }

    /**
     * resume(): while the record is open, set the resume time and resume the
     * session it belongs to (`owner` is that session, loaded through the
     * record's foreign key). An already closed record is left alone.
     */
    method Resume(now: int, owner: ActiveSession)
      modifies this, owner
      ensures Row() == old(Row()).Closed(now)
      ensures owner.Row() == if old(resumedAt).None? then old(owner.Row()).AfterResume() else old(owner.Row())
    {
      if resumedAt.None? {
        resumedAt := Some(now);
        owner.ResumeSession();
      }
    }
  }
}
