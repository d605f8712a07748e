/**
 * The dashboard's grouping of sessions (src/app/dashboard/page.tsx): the
 * upcoming and the active sessions drawn from the user's own and invited
 * sessions, each in its order, the recent past sessions as fetched, and the
 * role a session card shows.
 *
 * Times are integers (milliseconds), `now` a parameter; the fetch is outside
 * the model.
 */
module Dashboard {
  import opened Common
  import opened Types

  datatype DashboardData = DashboardData(
    mySessions: seq<Session>, invitedSessions: seq<Session>, recentPastSessions: seq<Session>)

  datatype SessionRole = Creator | Invited | Past

  /** Scheduled for later and not ended. */
  predicate IsUpcoming(s: Session, now: int) {
    s.scheduled_start_time.Some? && s.scheduled_start_time.value > now && s.status != Ended
  }

  /** Active, and either unscheduled or due. */
  predicate IsActive(s: Session, now: int) {
    s.status == Active && (s.scheduled_start_time.None? || s.scheduled_start_time.value <= now)
  }

  /** The sort key of the upcoming list: the scheduled start, or 0. */
  function StartKey(s: Session): int {
    if s.scheduled_start_time.Some? then s.scheduled_start_time.value else 0
  }

  /** The active list is sorted by `created_at`, newest first. */
  function NewestFirstKey(s: Session): int {
    -s.created_at
  }

  /** Both lists are drawn from the user's sessions followed by the invited
      ones, with nothing removed. */
  function Candidates(d: DashboardData): seq<Session> {
    d.mySessions + d.invitedSessions
  }

  function Upcoming(d: DashboardData, now: int): seq<Session> {
    SortBy(Filter(Candidates(d), s => IsUpcoming(s, now)), StartKey)
  }

  function ActiveSessions(d: DashboardData, now: int): seq<Session> {
    SortBy(Filter(Candidates(d), s => IsActive(s, now)), NewestFirstKey)
  }

  function PastSessions(d: DashboardData): seq<Session> {
    d.recentPastSessions
  }

  /** `getSessionRole` for the signed-in user. */
  function RoleOf(s: Session, userId: string): SessionRole {
    if s.status == Ended then Past
    else if s.creator_user_id == Some(userId) then Creator
    else Invited
  }

  /** The upcoming list holds each upcoming session as often as it occurs in
      the two fetched lists together, and nothing else; it runs from the
      earliest start to the latest, sessions starting together keeping their
      fetched order. */
  lemma {:induction false} UpcomingSpec(d: DashboardData, now: int)
    ensures var u := Upcoming(d, now);
      && (forall x :: multiset(u)[x] ==
            if IsUpcoming(x, now) then multiset(d.mySessions)[x] + multiset(d.invitedSessions)[x] else 0)
      && (forall i :: 0 <= i < |u| ==> IsUpcoming(u[i], now))
      && (forall i, j :: 0 <= i < j < |u| ==> u[i].scheduled_start_time.value <= u[j].scheduled_start_time.value)
      && (forall k :: WithKey(u, StartKey, k) == WithKey(Filter(Candidates(d), s => IsUpcoming(s, now)), StartKey, k))
  {
    var u := Upcoming(d, now);
    FilterSortSpec(Candidates(d), s => IsUpcoming(s, now), StartKey);
    forall i, j | 0 <= i < j < |u| ensures u[i].scheduled_start_time.value <= u[j].scheduled_start_time.value {
      assert StartKey(u[i]) <= StartKey(u[j]);
    }
  }

  /** The active list holds each active session as often as it occurs in the
      two fetched lists together, and nothing else, newest first; sessions
      created at the same moment keep their fetched order. */
  lemma {:induction false} ActiveSpec(d: DashboardData, now: int)
    ensures var a := ActiveSessions(d, now);
      && (forall x :: multiset(a)[x] ==
            if IsActive(x, now) then multiset(d.mySessions)[x] + multiset(d.invitedSessions)[x] else 0)
      && (forall i :: 0 <= i < |a| ==> IsActive(a[i], now))
      && (forall i, j :: 0 <= i < j < |a| ==> a[i].created_at >= a[j].created_at)
      && (forall k :: WithKey(a, NewestFirstKey, k) == WithKey(Filter(Candidates(d), s => IsActive(s, now)), NewestFirstKey, k))
  {
    var a := ActiveSessions(d, now);
    FilterSortSpec(Candidates(d), s => IsActive(s, now), NewestFirstKey);
    forall i, j | 0 <= i < j < |a| ensures a[i].created_at >= a[j].created_at {
      assert NewestFirstKey(a[i]) <= NewestFirstKey(a[j]);
    }
  }

  /** No session is both upcoming and active. */
  lemma {:induction false} UpcomingActiveDisjoint(d: DashboardData, now: int)
    ensures forall x :: !(x in Upcoming(d, now) && x in ActiveSessions(d, now))
  {
    FilterSortSpec(Candidates(d), s => IsUpcoming(s, now), StartKey);
    FilterSortSpec(Candidates(d), s => IsActive(s, now), NewestFirstKey);
  }

  /** A session fetched both as the user's own and as an invited one is
      listed twice. */
  lemma {:induction false} ListedTwice(d: DashboardData, now: int, x: Session)
    requires x in d.mySessions && x in d.invitedSessions
    ensures IsUpcoming(x, now) ==> multiset(Upcoming(d, now))[x] >= 2
    ensures IsActive(x, now) ==> multiset(ActiveSessions(d, now))[x] >= 2
  {
    FilterSortSpec(Candidates(d), s => IsUpcoming(s, now), StartKey);
    FilterSortSpec(Candidates(d), s => IsActive(s, now), NewestFirstKey);
    assert x in multiset(d.mySessions) && x in multiset(d.invitedSessions);
  }

  /** Ended sessions are past; otherwise the user's own sessions are theirs
      to run and all others are invitations. */
  lemma {:induction false} RoleOfSpec(s: Session, userId: string)
    ensures RoleOf(s, userId) == Past <==> s.status == Ended
    ensures RoleOf(s, userId) == Creator <==> s.status != Ended && s.creator_user_id == Some(userId)
    ensures RoleOf(s, userId) == Invited <==> s.status != Ended && s.creator_user_id != Some(userId)
  {
  }

  /** Sessions in the upcoming and the active lists are never shown as past. */
  lemma {:induction false} ListedNeverPast(d: DashboardData, now: int, userId: string)
    ensures var u := Upcoming(d, now); forall i :: 0 <= i < |u| ==> RoleOf(u[i], userId) != Past
    ensures var a := ActiveSessions(d, now); forall i :: 0 <= i < |a| ==> RoleOf(a[i], userId) != Past
  {
    UpcomingSpec(d, now);
    ActiveSpec(d, now);
  }
}
