/** The history of one task: the committed events on its row, oldest first, and
    what every reachable row owes to its history. */
module Trails {
  import opened Wrappers
  import opened Domain
  import opened RowEvents

  datatype Trail = Born(at: Time) | Then(before: Trail, event: Event, at: Time)

  function Claims(t: Trail): nat {
    match t
    case Born(_) => 0
    case Then(b, e, _) => Claims(b) + if e.Claim? then 1 else 0
  }

  function Releases(t: Trail): nat {
    match t
    case Born(_) => 0
    case Then(b, e, _) => Releases(b) + if e.Release? then 1 else 0
  }

  function Suspends(t: Trail): nat {
    match t
    case Born(_) => 0
    case Then(b, e, _) => Suspends(b) + if e.Suspend? then 1 else 0
  }

  function Signals(t: Trail): nat {
    match t
    case Born(_) => 0
    case Then(b, e, _) => Signals(b) + if e.Signal? then 1 else 0
  }

  /** Events that moved the row to another status. */
  function Moves(t: Trail): nat {
    match t
    case Born(_) => 0
    case Then(b, e, _) => Moves(b) + if ChangesStatus(e) then 1 else 0
  }

  /** The data of the latest successful checkpoint write. */
  function LatestWrite(t: Trail): Option<Json> {
    match t
    case Born(_) => None
    case Then(b, Checkpoint(_, data), _) => Some(data)
    case Then(b, _, _) => LatestWrite(b)
  }

  /** The payload of the latest signal, which may itself be absent. */
  function LatestSignal(t: Trail): Option<Json> {
    match t
    case Born(_) => None
    case Then(b, Signal(payload), _) => payload
    case Then(b, _, _) => LatestSignal(b)
  }

  // ---- claims --------------------------------------------------------------

  /** The attempt number of a claim that ends the trail: what it left in the row. */
  function Number(t: Trail): nat {
    Claims(t) + Releases(t)
  }

  /** The worker and the attempt number of the latest claim. */
  function LatestClaim(t: Trail): Option<(WorkerId, nat)> {
    match t
    case Born(_) => None
    case Then(_, Claim(worker, _), _) => Some((worker, Number(t)))
    case Then(b, _, _) => LatestClaim(b)
  }

  /** The history up to the claim with the given attempt number. */
  function AtClaim(t: Trail, attempt: nat): (p: Option<Trail>)
    ensures p.Some? ==> p.value.Then? && p.value.event.Claim? && Number(p.value) == attempt && attempt <= Number(t)
  {
    match t
    case Born(_) => None
    case Then(b, e, _) => if e.Claim? && Number(t) == attempt then Some(t) else AtClaim(b, attempt)
  }

  /** Later events hide no claim: each new claim has a higher number. */
  lemma AtClaimStays(t: Trail, e: Event, at: Time, attempt: nat)
    requires AtClaim(t, attempt).Some?
    ensures AtClaim(Then(t, e, at), attempt) == AtClaim(t, attempt)
  {
  }

  lemma {:induction false} LatestIsAt(t: Trail)
    requires LatestClaim(t).Some?
    ensures var (worker, attempt) := LatestClaim(t).value;
            attempt <= Number(t) && AtClaim(t, attempt).Some? && AtClaim(t, attempt).value.event.worker == worker
  {
    if !t.event.Claim? {
      LatestIsAt(t.before);
    }
  }

  /** The latest checkpoint write after the claim with the given number. */
  function WrittenSince(t: Trail, attempt: nat): Option<Json> {
    match t
    case Born(_) => None
    case Then(b, e, _) =>
      if e.Claim? && Number(t) == attempt then None
      else if e.Checkpoint? then Some(e.data)
      else WrittenSince(b, attempt)
  }

  /** The payload of the latest signal after that claim. */
  function SignalledSince(t: Trail, attempt: nat): Option<Option<Json>> {
    match t
    case Born(_) => None
    case Then(b, e, _) =>
      if e.Claim? && Number(t) == attempt then None
      else if e.Signal? then Some(e.payload)
      else SignalledSince(b, attempt)
  }

  lemma {:induction false} LatestSince(t: Trail, attempt: nat)
    requires AtClaim(t, attempt).Some?
    ensures LatestWrite(t) == if WrittenSince(t, attempt).Some? then WrittenSince(t, attempt)
                              else LatestWrite(AtClaim(t, attempt).value)
    ensures LatestSignal(t) == if SignalledSince(t, attempt).Some? then SignalledSince(t, attempt).value
                               else LatestSignal(AtClaim(t, attempt).value)
  {
    if !(t.event.Claim? && Number(t) == attempt) {
      LatestSince(t.before, attempt);
    }
  }

  // ---- the shape of a row --------------------------------------------------

  predicate Shaped(r: Row, now: Time) {
    && (r.status.Running? ==> r.claimedBy.Some? && r.scheduledAt <= now)
    && (r.claimedBy.Some? <==> r.claimedUntil.Some?)
    && (r.status.Pending? || r.status.Suspended? || r.status.Cancelled? ==> r.claimedBy.None?)
    && (r.status.Suspended? ==> r.suspendedAt.Some? && r.suspendedAt.value <= now && r.scheduledAt <= now)
    && (r.status.Pending? || r.status.Running? ==> r.suspendedAt.None?)
    && r.createdAt <= r.updatedAt <= now
  }

  // ---- the attempt budget --------------------------------------------------

  function One(b: bool): nat {
    if b then 1 else 0
  }

  predicate Budgeted(r: Row, t: Trail) {
    && r.attempts == Claims(t) + Releases(t)
    && r.attempts + One(r.status.Pending?) <= r.maxAttempts + 2 * Releases(t) + Signals(t)
  }

  /** Every move spends from what claims and signals bring in. */
  predicate Counted(r: Row, t: Trail) {
    && Moves(t) + One(r.status.Running?) + One(!Terminal(r.status)) <= 2 * Claims(t) + Signals(t) + 1
    && Signals(t) + One(r.status.Suspended?) <= Suspends(t)
  }

  predicate Remembers(r: Row, t: Trail) {
    && r.checkpoint == (if r.status.Completed? then None else LatestWrite(t))
    && r.signalPayload == LatestSignal(t)
  }

  predicate Explained(r: Row, t: Trail) {
    r.status.Failed? ==>
      r.attempts >= r.maxAttempts || (r.lastError == Some(SUSPEND_TIMEOUT) && Signals(t) < Suspends(t))
  }

  /** A running row runs under its latest claim. */
  predicate Owned(r: Row, t: Trail) {
    r.status.Running? ==> r.claimedBy.Some? && LatestClaim(t) == Some((r.claimedBy.value, r.attempts))
  }

  predicate Sound(r: Row, t: Trail, now: Time) {
    Shaped(r, now) && Budgeted(r, t) && Counted(r, t) && Remembers(r, t) && Explained(r, t) && Owned(r, t)
  }

  lemma BirthIsSound(r: Row, now: Time)
    requires r.status.Pending? && r.attempts == 0 && r.claimedBy.None? && r.claimedUntil.None?
    requires r.suspendedAt.None? && r.checkpoint.None? && r.signalPayload.None?
    requires r.createdAt == r.updatedAt == now
    ensures Sound(r, Born(now), now)
  {
  }

  lemma TimePasses(r: Row, t: Trail, now: Time, later: Time)
    requires Sound(r, t, now) && now <= later
    ensures Sound(r, t, later)
  {
  }

  lemma EventKeepsSound(r: Row, t: Trail, e: Event, now: Time)
    requires Sound(r, t, now) && Allowed(e, r, now)
    ensures Sound(Apply(e, r, now), Then(t, e, now), now)
  {
  }

  lemma MovesAreStatusChanges(r: Row, e: Event, now: Time)
    requires Allowed(e, r, now)
    ensures ChangesStatus(e) <==> Apply(e, r, now).status != r.status
  {
  }
}
