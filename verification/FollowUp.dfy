/** Follow-up attempts claimed and marked by many workers (db/repository.py). One
    row of the attempts table, each operation one atomic step on it. */
module FollowUp {
  import opened Commercial
  import opened Runs

  datatype Status = Claimed | Sent | Failed | Skipped

  /** An attempt row; times in seconds. */
  datatype Row = NoRow | Row(status: Status, count: nat, claimedAt: int)

  /** A claim older than twenty minutes can be taken over. */
  const STALE := 20 * 60

  predicate Retriable(row: Row, now: int, max: int) {
    && row != NoRow
    && (|| (row.status == Failed && row.count < max)
        || (row.status == Claimed && row.claimedAt < now - STALE && row.count < max))
  }

  /** `claim_followup_attempt`: the row it returns, if any. */
  function Claim(row: Row, now: int, max: int): Option<Row> {
    if row == NoRow then Some(Row(Claimed, 0, now))
    else if Retriable(row, now, max) then Some(row.(status := Claimed, claimedAt := now))
    else None
  }

  datatype Outcome = Delivered | Broken | Dropped

  /** `mark_followup_sent`, `mark_followup_failed`, `mark_followup_skipped`: by the
      row's identity alone, whatever its status. */
  function Mark(row: Row, outcome: Outcome): Row {
    if row == NoRow then NoRow
    else
      match outcome
      case Delivered => row.(status := Sent, count := row.count + 1)
      case Broken => row.(status := Failed, count := row.count + 1)
      case Dropped => row.(status := Skipped)
  }

  /** The condition on the attempt under which a lead is listed as a candidate. */
  predicate Candidate(row: Row, now: int, max: int) {
    row == NoRow || Retriable(row, now, max)
  }

  /** The list and the claim never disagree: a lead is listed exactly when a claim
      at the same moment succeeds. */
  lemma CandidatesCanBeClaimed(row: Row, now: int, max: int)
    ensures Candidate(row, now, max) <==> Claim(row, now, max).Some?
  {
  }

  /** The row as the database changes it. */
  class AttemptRow {
    var exists_: bool
    var status: Status
    var count: nat
    var claimedAt: int

    constructor ()
      ensures Value() == NoRow
    {
      exists_, status, count, claimedAt := false, Claimed, 0, 0;
    }

    function Value(): Row
      reads this
    {
      if exists_ then Row(status, count, claimedAt) else NoRow
    }

    method TryClaim(now: int, max: int) returns (granted: bool)
      modifies this
      ensures granted <==> Claim(old(Value()), now, max).Some?
      ensures Value() == if granted then Claim(old(Value()), now, max).value else old(Value())
    {
      if !exists_ {
        exists_, status, count, claimedAt := true, Claimed, 0, now;
        return true;
      }
      if (status == Failed && count < max) || (status == Claimed && claimedAt < now - STALE && count < max) {
        status := Claimed;
        claimedAt := now;
        return true;
      }
      return false;
    }

    method MarkAs(outcome: Outcome)
      modifies this
      ensures Value() == Mark(old(Value()), outcome)
    {
      match outcome {
        case Delivered =>
          status := Sent;
          count := count + 1;
        case Broken =>
          status := Failed;
          count := count + 1;
        case Dropped =>
          status := Skipped;
      }
    }
  }

  // ---------- many workers ----------

  /** A granted claim: when, whether a failure was marked since the one before,
      and whether its worker has marked the outcome. */
  datatype Grant = Grant(time: int, afterFailure: bool, marked: bool)

  /** The row with its history. */
  datatype World = World(row: Row, now: int, grants: seq<Grant>, failedSince: bool, sent: nat, failed: nat)

  const START: World := World(NoRow, 0, [], false, 0, 0)

  datatype Event = TryClaim(at: int) | MarkOutcome(grant: nat, outcome: Outcome, at: int)

  function Next(max: int): (World, Event) -> World {
    (w, e) => Happens(w, e, max)
  }

  function Happens(w: World, e: Event, max: int): World {
    match e
    case TryClaim(at) =>
      var claimed := Claim(w.row, at, max);
      if claimed.None? then w.(now := at)
      else w.(row := claimed.value, now := at, grants := w.grants + [Grant(at, w.failedSince, false)],
              failedSince := false)
    case MarkOutcome(g, outcome, at) =>
      w.(row := Mark(w.row, outcome), now := at,
         grants := if g < |w.grants| then w.grants[g := w.grants[g].(marked := true)] else w.grants,
         failedSince := w.failedSince || outcome == Broken,
         sent := w.sent + if outcome == Delivered then 1 else 0,
         failed := w.failed + if outcome == Broken then 1 else 0)
  }

  /** Time does not run backwards, and only who was granted a claim marks. */
  predicate Honest(w: World, e: Event) {
    e.at >= w.now && (e.MarkOutcome? ==> e.grant < |w.grants|)
  }

  /** Moreover a mark comes from the worker whose claim is the last one granted,
      and is its first. */
  predicate Owned(w: World, e: Event) {
    && Honest(w, e)
    && (e.MarkOutcome? ==> e.grant == |w.grants| - 1 && !w.grants[e.grant].marked)
  }

  // ---------- what holds without any discipline ----------

  ghost predicate Separated(grants: seq<Grant>) {
    forall i :: 0 < i < |grants| ==> grants[i].afterFailure || grants[i].time > grants[i - 1].time + STALE
  }

  ghost predicate Accounted(w: World) {
    && (w.row == NoRow <==> w.grants == [])
    && (w.grants != [] ==>
          && w.row.claimedAt == w.grants[|w.grants| - 1].time
          && w.row.count == w.sent + w.failed
          && (w.row.status == Failed ==> w.failedSince))
    && (w.grants == [] ==> w.sent == 0 && w.failed == 0)
    && Separated(w.grants)
  }

  lemma HonestStepAccounts(w: World, e: Event, max: int)
    requires Accounted(w) && Honest(w, e)
    ensures Accounted(Happens(w, e, max))
  {
    var after := Happens(w, e, max).grants;
    forall i | 0 < i < |after| ensures after[i].afterFailure || after[i].time > after[i - 1].time + STALE {
      assert i < |w.grants| ==> w.grants[i].afterFailure || w.grants[i].time > w.grants[i - 1].time + STALE;
    }
  }

  /** With any number of workers, however they behave: two claims granted in turn
      are separated by a mark of failure or by more than twenty minutes, and the
      attempt count is the number of sent and failed marks. */
  lemma ClaimsAreSeparated(events: seq<Event>, max: int)
    requires Throughout(Next(max), START, events, (w, e) => Honest(w, e))
    ensures Accounted(Run(Next(max), START, events))
  {
    forall w, e | Accounted(w) && Honest(w, e) ensures Accounted(Next(max)(w, e)) {
      HonestStepAccounts(w, e, max);
    }
    RunKeepsWhile(Next(max), START, events, w => Accounted(w), (w, e) => Honest(w, e));
  }

  // ---------- what ownership adds ----------

  /** The last claim is marked exactly when the row has left the claimed status,
      and nothing follows a sent mark. */
  ghost predicate Orderly(w: World, max: int) {
    && Accounted(w)
    && (w.grants != [] ==> (w.row.status == Claimed <==> !w.grants[|w.grants| - 1].marked))
    && (w.grants != [] ==> w.row.count <= max && (w.row.status == Claimed ==> w.row.count < max))
    && w.sent <= 1
    && (w.grants != [] ==> (w.sent == 1 <==> w.row.status == Sent))
  }

  lemma OwnedStepIsOrderly(w: World, e: Event, max: int)
    requires Orderly(w, max) && Owned(w, e) && max >= 1
    ensures Orderly(Happens(w, e, max), max)
  {
    HonestStepAccounts(w, e, max);
  }

  /** If every mark comes from the worker who holds the claim, a follow-up is sent
      at most once and attempted at most `max` times. */
  lemma AtMostOneFollowUp(events: seq<Event>, max: int)
    requires max >= 1 && Throughout(Next(max), START, events, (w, e) => Owned(w, e))
    ensures var w := Run(Next(max), START, events);
            w.sent <= 1 && (w.row != NoRow ==> w.row.count == w.sent + w.failed <= max)
  {
    forall w, e | Orderly(w, max) && Owned(w, e) ensures Orderly(Next(max)(w, e), max) {
      OwnedStepIsOrderly(w, e, max);
    }
    RunKeepsWhile(Next(max), START, events, w => Orderly(w, max), (w, e) => Owned(w, e));
  }

  predicate Final(row: Row) {
    row != NoRow && (row.status == Sent || row.status == Skipped)
  }

  /** The marks that leave a final row as it is: dropping what was dropped. */
  predicate Harmless(row: Row, e: Event) {
    e.MarkOutcome? ==> e.outcome == Dropped && row != NoRow && row.status == Skipped
  }

  /** Sent and skipped are then final: no further event changes the row. Nobody
      holds the claim any more, so that every mark is without one. */
  lemma {:induction false} SentAndSkippedAreFinal(start: World, events: seq<Event>, max: int)
    requires max >= 1 && Orderly(start, max) && Final(start.row)
    requires Throughout(Next(max), start, events, (w, e) => Owned(w, e))
    ensures Orderly(Run(Next(max), start, events), max) && Run(Next(max), start, events).row == start.row
    ensures forall i :: 0 <= i < |events| ==> !events[i].MarkOutcome?
  {
    if events != [] {
      var n := |events| - 1;
      SentAndSkippedAreFinal(start, events[..n], max);
      OwnedStepIsOrderly(Run(Next(max), start, events[..n]), events[n], max);
      forall i | 0 <= i < |events| ensures !events[i].MarkOutcome? {
        assert i < n ==> events[..n][i] == events[i];
      }
    }
  }

  // ---------- what any marks do to a final row ----------

  ghost predicate AllHarmless(row: Row, events: seq<Event>) {
    forall i :: 0 <= i < |events| ==> Harmless(row, events[i])
  }

  ghost predicate OnlyDropped(events: seq<Event>) {
    forall i :: 0 <= i < |events| ==> events[i].MarkOutcome? ==> events[i].outcome == Dropped
  }

  /** Whatever the workers do, a sent or skipped row is unchanged at the end
      exactly when every mark since was a dropping of a dropped attempt. */
  lemma {:induction false} FinalRowFate(start: World, events: seq<Event>, max: int)
    requires Final(start.row)
    ensures var row := Run(Next(max), start, events).row;
            && row != NoRow && (row.count == start.row.count <==> OnlyDropped(events))
            && (row == start.row <==> AllHarmless(start.row, events))
            && (OnlyDropped(events) && row != start.row ==> row == start.row.(status := Skipped))
            && row.count >= start.row.count
  {
    if events != [] {
      var n := |events| - 1;
      FinalRowFate(start, events[..n], max);
      assert OnlyDropped(events) <==>
          OnlyDropped(events[..n]) && (events[n].MarkOutcome? ==> events[n].outcome == Dropped);
      assert AllHarmless(start.row, events) <==>
          AllHarmless(start.row, events[..n]) && Harmless(start.row, events[n]);
    }
  }

  // ---------- marking in time ----------

  /** Each claim is marked at most once, and before it is stale. */
  predicate Disciplined(w: World, e: Event) {
    && Honest(w, e)
    && (e.MarkOutcome? ==> !w.grants[e.grant].marked && e.at <= w.grants[e.grant].time + STALE)
  }

  /** Every claim but the last is marked or stale. */
  ghost predicate Timely(w: World, max: int) {
    && Orderly(w, max)
    && forall i :: 0 <= i < |w.grants| - 1 ==> w.grants[i].marked || w.grants[i].time + STALE < w.now
  }

  /** Who marks in time marks a claim nobody has taken over. */
  lemma InTimeIsOwned(w: World, e: Event, max: int)
    requires Timely(w, max) && Disciplined(w, e) && max >= 1
    ensures Owned(w, e) && Timely(Happens(w, e, max), max)
  {
    if e.MarkOutcome? {
      var grant := w.grants[e.grant];
      assert !(grant.time + STALE < w.now) && !grant.marked;
    }
    OwnedStepIsOrderly(w, e, max);
    var after := Happens(w, e, max);
    forall i | 0 <= i < |after.grants| - 1
      ensures after.grants[i].marked || after.grants[i].time + STALE < after.now
    {
      assert i < |w.grants| - 1 ==> w.grants[i].marked || w.grants[i].time + STALE < w.now;
    }
  }

  /** So the results on owned marks hold of all runs in which every claim is marked
      at most once and within twenty minutes. */
  lemma {:induction false} DisciplinedRunsAreOwned(start: World, events: seq<Event>, max: int)
    requires Timely(start, max) && max >= 1
    requires Throughout(Next(max), start, events, (w, e) => Disciplined(w, e))
    ensures Throughout(Next(max), start, events, (w, e) => Owned(w, e))
    ensures Timely(Run(Next(max), start, events), max)
  {
    if events != [] {
      DisciplinedRunsAreOwned(start, events[..|events| - 1], max);
      InTimeIsOwned(Run(Next(max), start, events[..|events| - 1]), events[|events| - 1], max);
    }
  }

  /** Ownership is needed: a worker whose claim was taken over and who marks a
      failure late reopens an attempt that was sent, and it is sent again. */
  lemma LateMarkSendsTwice()
    ensures var w0 := Happens(START, TryClaim(0), 3);
            var w1 := Happens(w0, TryClaim(1201), 3);
            var w2 := Happens(w1, MarkOutcome(1, Delivered, 1210), 3);
            var w3 := Happens(w2, MarkOutcome(0, Broken, 1220), 3);
            var w4 := Happens(w3, TryClaim(1230), 3);
            var w5 := Happens(w4, MarkOutcome(2, Delivered, 1240), 3);
            && Disciplined(START, TryClaim(0)) && Disciplined(w0, TryClaim(1201))
            && Disciplined(w1, MarkOutcome(1, Delivered, 1210)) && Final(w2.row)
            && Honest(w2, MarkOutcome(0, Broken, 1220)) && !Owned(w2, MarkOutcome(0, Broken, 1220))
            && Disciplined(w3, TryClaim(1230)) && Disciplined(w4, MarkOutcome(2, Delivered, 1240))
            && w5.sent == 2
  {
  }
}
