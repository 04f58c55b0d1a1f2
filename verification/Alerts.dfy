/**
 Alerts: raised when a threshold is breached or a circuit opens, repeated at most once per
 cooldown while they stay active, cleared when their condition is gone.
 */
module Alerts {
  import opened Options

  datatype AlertId =
    | ErrorRateHigh
    | P95LatencyHigh
    | QueueDepthHigh(gatewayId: string)
    | CircuitOpen(gatewayId: string)

  /** A notification; `renewal` if the alert was active already. */
  datatype Notice = Notice(id: AlertId, now: int, renewal: bool)

  datatype Board = Board(active: map<AlertId, int>, lastRaised: map<AlertId, int>, notices: seq<Notice>)

  const EMPTY_BOARD := Board(map[], map[], [])

  datatype Depth = Depth(gatewayId: string, waiting: int)

  datatype Reading = Reading(errorRate: real, p95Ms: Option<int>, depths: seq<Depth>)

  datatype Thresholds = Thresholds(errorRate: real, p95LatencyMs: int, queueDepth: int, cooldownMs: int)

  // ---------- one alert ----------

  function Raise(b: Board, id: AlertId, now: int): Board {
    Board(b.active[id := now], b.lastRaised[id := now], b.notices + [Notice(id, now, false)])
  }

  function Renew(b: Board, id: AlertId, now: int): Board {
    b.(lastRaised := b.lastRaised[id := now], notices := b.notices + [Notice(id, now, true)])
  }

  function LastRaised(b: Board, id: AlertId): int {
    if id in b.lastRaised then b.lastRaised[id] else 0
  }

  function Evaluate(b: Board, id: AlertId, condition: bool, now: int, cooldownMs: int): Board {
    if !condition then b
    else if id !in b.active then Raise(b, id, now)
    else if now - LastRaised(b, id) >= cooldownMs then Renew(b, id, now)
    else b
  }

  function Drop(b: Board, id: AlertId): Board {
    b.(active := b.active - {id})
  }

  // ---------- a refresh ----------

  /** The depth the first entry for a gateway reports, or zero. */
  function WaitingOf(depths: seq<Depth>, gatewayId: string): int
    decreases |depths|
  {
    if depths == [] then 0
    else if depths[0].gatewayId == gatewayId then depths[0].waiting
    else WaitingOf(depths[1..], gatewayId)
  }

  /** Is the condition of an alert met?  An open circuit is cleared by its own event only. */
  predicate Holds(m: Thresholds, r: Reading, id: AlertId) {
    match id
    case ErrorRateHigh => r.errorRate > m.errorRate
    case P95LatencyHigh => r.p95Ms.Some? && r.p95Ms.value > m.p95LatencyMs
    case QueueDepthHigh(g) => WaitingOf(r.depths, g) > m.queueDepth
    case CircuitOpen(_) => true
  }

  /** The alerts a refresh evaluates, in order. */
  function Checked(depths: seq<Depth>): seq<AlertId> {
    [ErrorRateHigh, P95LatencyHigh] + seq(|depths|, i requires 0 <= i < |depths| => QueueDepthHigh(depths[i].gatewayId))
  }

  function EvaluateAll(b: Board, ids: seq<AlertId>, m: Thresholds, r: Reading, now: int): Board {
    if ids == [] then b
    else
      var n := |ids| - 1;
      Evaluate(EvaluateAll(b, ids[..n], m, r, now), ids[n], Holds(m, r, ids[n]), now, m.cooldownMs)
  }

  function ClearStale(b: Board, m: Thresholds, r: Reading): Board {
    b.(active := map id | id in b.active && Holds(m, r, id) :: b.active[id])
  }

  function Refresh(b: Board, m: Thresholds, r: Reading, now: int): Board {
    ClearStale(EvaluateAll(b, Checked(r.depths), m, r, now), m, r)
  }

  predicate DistinctGateways(depths: seq<Depth>) {
    forall i, j :: 0 <= i < j < |depths| ==> depths[i].gatewayId != depths[j].gatewayId
  }

  lemma {:induction false} WaitingOfListed(depths: seq<Depth>, i: nat)
    requires DistinctGateways(depths) && i < |depths|
    ensures WaitingOf(depths, depths[i].gatewayId) == depths[i].waiting
    decreases |depths|
  {
    if i > 0 {
      WaitingOfListed(depths[1..], i - 1);
    }
  }

  lemma {:induction false} WaitingOfUnlisted(depths: seq<Depth>, gatewayId: string)
    requires forall i :: 0 <= i < |depths| ==> depths[i].gatewayId != gatewayId
    ensures WaitingOf(depths, gatewayId) == 0
    decreases |depths|
  {
    if depths != [] {
      WaitingOfUnlisted(depths[1..], gatewayId);
    }
  }

  lemma {:induction false} EvaluatedAreActive(b: Board, ids: seq<AlertId>, m: Thresholds, r: Reading, now: int)
    ensures var b' := EvaluateAll(b, ids, m, r, now);
            forall id :: id in b'.active <==> id in b.active || (id in ids && Holds(m, r, id))
  {
    if ids != [] {
      var n := |ids| - 1;
      EvaluatedAreActive(b, ids[..n], m, r, now);
      forall id
        ensures id in ids <==> id in ids[..n] || id == ids[n]
      {
        assert ids == ids[..n] + [ids[n]];
      }
    }
  }

  /** A refresh leaves active what it found or checked, if its condition holds. */
  lemma RefreshedAreActive(b: Board, m: Thresholds, r: Reading, now: int)
    ensures forall id :: id in Refresh(b, m, r, now).active <==>
                         (id in b.active || id in Checked(r.depths)) && Holds(m, r, id)
  {
    EvaluatedAreActive(b, Checked(r.depths), m, r, now);
  }

  lemma CheckedAre(depths: seq<Depth>, id: AlertId)
    ensures id in Checked(depths) <==>
            id == ErrorRateHigh || id == P95LatencyHigh
            || exists i :: 0 <= i < |depths| && id == QueueDepthHigh(depths[i].gatewayId)
  {
    var ids := Checked(depths);
    assert ids[0] == ErrorRateHigh && ids[1] == P95LatencyHigh;
    assert forall i :: 0 <= i < |depths| ==> ids[i + 2] == QueueDepthHigh(depths[i].gatewayId);
  }

  predicate Listed(depths: seq<Depth>, gatewayId: string) {
    exists i :: 0 <= i < |depths| && depths[i].gatewayId == gatewayId
  }

  /**
   After a refresh the threshold alerts that are active are exactly those whose condition
   holds in its reading, and circuit alerts are left as they were.
   */
  lemma RefreshAgrees(b: Board, m: Thresholds, r: Reading, now: int)
    ensures var active := Refresh(b, m, r, now).active;
            && (ErrorRateHigh in active <==> r.errorRate > m.errorRate)
            && (P95LatencyHigh in active <==> r.p95Ms.Some? && r.p95Ms.value > m.p95LatencyMs)
            && (forall g :: CircuitOpen(g) in active <==> CircuitOpen(g) in b.active)
  {
    RefreshedAreActive(b, m, r, now);
    CheckedAre(r.depths, ErrorRateHigh);
    CheckedAre(r.depths, P95LatencyHigh);
    forall g
      ensures CircuitOpen(g) !in Checked(r.depths)
    {
      CheckedAre(r.depths, CircuitOpen(g));
    }
  }

  /**
   The same for queue depths, one alert per listed gateway.  A gateway that the reading does
   not list counts as empty: its alert goes, unless the depth threshold is negative.
   */
  lemma RefreshAgreesOnDepths(b: Board, m: Thresholds, r: Reading, now: int)
    requires DistinctGateways(r.depths)
    ensures var active := Refresh(b, m, r, now).active;
            && (forall i :: 0 <= i < |r.depths| ==>
                  (QueueDepthHigh(r.depths[i].gatewayId) in active <==> r.depths[i].waiting > m.queueDepth))
            && (forall g :: !Listed(r.depths, g) ==>
                  (QueueDepthHigh(g) in active <==> QueueDepthHigh(g) in b.active && 0 > m.queueDepth))
  {
    RefreshedAreActive(b, m, r, now);
    forall i | 0 <= i < |r.depths|
      ensures QueueDepthHigh(r.depths[i].gatewayId) in Checked(r.depths)
      ensures WaitingOf(r.depths, r.depths[i].gatewayId) == r.depths[i].waiting
    {
      CheckedAre(r.depths, QueueDepthHigh(r.depths[i].gatewayId));
      WaitingOfListed(r.depths, i);
    }
    forall g | !Listed(r.depths, g)
      ensures QueueDepthHigh(g) !in Checked(r.depths)
      ensures WaitingOf(r.depths, g) == 0
    {
      CheckedAre(r.depths, QueueDepthHigh(g));
      WaitingOfUnlisted(r.depths, g);
    }
  }

  // ---------- notifications ----------

  /** What happens to a board: one alert evaluated, one dropped, or a whole refresh. */
  datatype BoardEvent =
    | EvaluateAt(id: AlertId, condition: bool, now: int)
    | DropAt(id: AlertId)
    | RefreshAt(reading: Reading, now: int)

  function BoardNext(b: Board, e: BoardEvent, m: Thresholds): Board {
    match e
    case EvaluateAt(id, condition, now) => Evaluate(b, id, condition, now, m.cooldownMs)
    case DropAt(id) => Drop(b, id)
    case RefreshAt(reading, now) => Refresh(b, m, reading, now)
  }

  function BoardRun(es: seq<BoardEvent>, m: Thresholds): Board {
    if es == [] then EMPTY_BOARD else BoardNext(BoardRun(es[..|es| - 1], m), es[|es| - 1], m)
  }

  function LastNotice(notices: seq<Notice>, id: AlertId): Option<int> {
    if notices == [] then None
    else
      var n := notices[|notices| - 1];
      if n.id == id then Some(n.now) else LastNotice(notices[..|notices| - 1], id)
  }

  /** A notification at `now` would come less than a cooldown after the one before. */
  predicate TooSoon(last: Option<int>, now: int, cooldownMs: int) {
    last.Some? && now - last.value < cooldownMs
  }

  /** Every renewal comes at least a cooldown after the previous notification of its alert. */
  predicate Paced(notices: seq<Notice>, cooldownMs: int) {
    notices == [] ||
    (var before := notices[..|notices| - 1];
     var n := notices[|notices| - 1];
     && Paced(before, cooldownMs)
     && (n.renewal ==> LastNotice(before, n.id).Some? && !TooSoon(LastNotice(before, n.id), n.now, cooldownMs)))
  }

  /** Every notification at all comes at least a cooldown after the previous one of its alert. */
  predicate AllPaced(notices: seq<Notice>, cooldownMs: int) {
    notices == [] ||
    (var before := notices[..|notices| - 1];
     var n := notices[|notices| - 1];
     AllPaced(before, cooldownMs) && !TooSoon(LastNotice(before, n.id), n.now, cooldownMs))
  }

  predicate Remembers(b: Board, id: AlertId) {
    LastNotice(b.notices, id) == if id in b.lastRaised then Some(b.lastRaised[id]) else None
  }

  /** The board remembers the last notification of every alert, and active alerts have had one. */
  ghost predicate BoardFits(b: Board, cooldownMs: int) {
    && (forall id :: id in b.active ==> id in b.lastRaised)
    && (forall id :: Remembers(b, id))
    && Paced(b.notices, cooldownMs)
  }

  lemma NoticeOneMore(notices: seq<Notice>, n: Notice)
    ensures (notices + [n])[..|notices|] == notices
    ensures forall id :: LastNotice(notices + [n], id) == if n.id == id then Some(n.now) else LastNotice(notices, id)
  {
    assert (notices + [n])[..|notices|] == notices;
  }

  /** An alert returns: its condition holds, it is not active, and its last notification is too recent. */
  predicate ReturnsTooSoon(b: Board, id: AlertId, condition: bool, now: int, cooldownMs: int) {
    condition && id !in b.active && id in b.lastRaised && now - b.lastRaised[id] < cooldownMs
  }

  /** One evaluation keeps the board fit, and breaks the pace exactly if the alert returns too soon. */
  lemma EvaluationPaced(b: Board, id: AlertId, condition: bool, now: int, cooldownMs: int)
    requires BoardFits(b, cooldownMs)
    ensures var b' := Evaluate(b, id, condition, now, cooldownMs);
            && BoardFits(b', cooldownMs)
            && (AllPaced(b'.notices, cooldownMs) <==>
                  AllPaced(b.notices, cooldownMs) && !ReturnsTooSoon(b, id, condition, now, cooldownMs))
  {
    var b' := Evaluate(b, id, condition, now, cooldownMs);
    assert Remembers(b, id);
    NoticeOneMore(b.notices, Notice(id, now, id in b.active));
    forall x
      ensures Remembers(b', x)
    {
      assert Remembers(b, x);
    }
  }

  /** What evaluating a list of alerts leaves of an alert that is not on it. */
  lemma {:induction false} UncheckedIsKept(b: Board, ids: seq<AlertId>, m: Thresholds, r: Reading, now: int, id: AlertId)
    requires id !in ids
    ensures var b' := EvaluateAll(b, ids, m, r, now);
            && (id in b'.active <==> id in b.active)
            && (id in b'.lastRaised <==> id in b.lastRaised)
            && (id in b.lastRaised ==> b'.lastRaised[id] == b.lastRaised[id])
  {
    if ids != [] {
      UncheckedIsKept(b, ids[..|ids| - 1], m, r, now, id);
    }
  }

  /** Some alert on the list returns too soon. */
  predicate OneReturnsTooSoon(b: Board, ids: seq<AlertId>, m: Thresholds, r: Reading, now: int) {
    exists id :: id in ids && ReturnsTooSoon(b, id, Holds(m, r, id), now, m.cooldownMs)
  }

  /** An alert met twice on the list was decided the first time. */
  lemma NextOnTheList(b: Board, ids: seq<AlertId>, m: Thresholds, r: Reading, now: int, id: AlertId)
    ensures var b' := EvaluateAll(b, ids, m, r, now);
            ReturnsTooSoon(b', id, Holds(m, r, id), now, m.cooldownMs) <==>
              id !in ids && ReturnsTooSoon(b, id, Holds(m, r, id), now, m.cooldownMs)
  {
    EvaluatedAreActive(b, ids, m, r, now);
    if id !in ids {
      UncheckedIsKept(b, ids, m, r, now, id);
    }
  }

  lemma OneMoreOnTheList(b: Board, ids: seq<AlertId>, m: Thresholds, r: Reading, now: int, id: AlertId)
    ensures OneReturnsTooSoon(b, ids + [id], m, r, now) <==>
            OneReturnsTooSoon(b, ids, m, r, now) || (id !in ids && ReturnsTooSoon(b, id, Holds(m, r, id), now, m.cooldownMs))
  {
    assert forall x :: x in ids + [id] <==> x in ids || x == id;
  }

  lemma {:induction false} EvaluationsPaced(b: Board, ids: seq<AlertId>, m: Thresholds, r: Reading, now: int)
    requires BoardFits(b, m.cooldownMs)
    ensures var b' := EvaluateAll(b, ids, m, r, now);
            && BoardFits(b', m.cooldownMs)
            && (AllPaced(b'.notices, m.cooldownMs) <==>
                  AllPaced(b.notices, m.cooldownMs) && !OneReturnsTooSoon(b, ids, m, r, now))
  {
    if ids != [] {
      var n := |ids| - 1;
      EvaluationsPaced(b, ids[..n], m, r, now);
      EvaluationPaced(EvaluateAll(b, ids[..n], m, r, now), ids[n], Holds(m, r, ids[n]), now, m.cooldownMs);
      NextOnTheList(b, ids[..n], m, r, now, ids[n]);
      OneMoreOnTheList(b, ids[..n], m, r, now, ids[n]);
      assert ids == ids[..n] + [ids[n]];
    }
  }

  /** The event raises again an alert whose last notification is less than a cooldown ago. */
  predicate ReraisesTooSoon(b: Board, e: BoardEvent, m: Thresholds) {
    match e
    case EvaluateAt(id, condition, now) => ReturnsTooSoon(b, id, condition, now, m.cooldownMs)
    case DropAt(_) => false
    case RefreshAt(reading, now) => OneReturnsTooSoon(b, Checked(reading.depths), m, reading, now)
  }

  /** Losing active alerts does not touch what was notified. */
  lemma ClearingKeepsFit(b: Board, b': Board, cooldownMs: int)
    requires BoardFits(b, cooldownMs)
    requires b'.active.Keys <= b.active.Keys && b'.lastRaised == b.lastRaised && b'.notices == b.notices
    ensures BoardFits(b', cooldownMs)
  {
    forall id
      ensures Remembers(b', id)
    {
      assert Remembers(b, id);
    }
  }

  lemma BoardStepPaced(b: Board, e: BoardEvent, m: Thresholds)
    requires BoardFits(b, m.cooldownMs)
    ensures var b' := BoardNext(b, e, m);
            && BoardFits(b', m.cooldownMs)
            && (AllPaced(b'.notices, m.cooldownMs) <==>
                  AllPaced(b.notices, m.cooldownMs) && !ReraisesTooSoon(b, e, m))
  {
    match e
    case EvaluateAt(id, condition, now) =>
      EvaluationPaced(b, id, condition, now, m.cooldownMs);
    case DropAt(id) =>
      ClearingKeepsFit(b, Drop(b, id), m.cooldownMs);
    case RefreshAt(reading, now) =>
      EvaluationsPaced(b, Checked(reading.depths), m, reading, now);
      var evaluated := EvaluateAll(b, Checked(reading.depths), m, reading, now);
      ClearingKeepsFit(evaluated, ClearStale(evaluated, m, reading), m.cooldownMs);
  }

  /** No event of the run raises an alert again within its cooldown. */
  predicate NeverReraisedTooSoon(es: seq<BoardEvent>, m: Thresholds) {
    es == [] ||
    (var before := es[..|es| - 1];
     NeverReraisedTooSoon(before, m) && !ReraisesTooSoon(BoardRun(before, m), es[|es| - 1], m))
  }

  lemma {:induction false} RunPaced(es: seq<BoardEvent>, m: Thresholds)
    ensures BoardFits(BoardRun(es, m), m.cooldownMs)
    ensures AllPaced(BoardRun(es, m).notices, m.cooldownMs) <==> NeverReraisedTooSoon(es, m)
  {
    if es != [] {
      RunPaced(es[..|es| - 1], m);
      BoardStepPaced(BoardRun(es[..|es| - 1], m), es[|es| - 1], m);
    }
  }

  /** Within one active episode, notifications of an alert are at least the cooldown apart. */
  lemma EpisodesArePaced(es: seq<BoardEvent>, m: Thresholds)
    ensures Paced(BoardRun(es, m).notices, m.cooldownMs)
  {
    RunPaced(es, m);
  }

  /**
   Across episodes: over every run of evaluations, drops and refreshes, all notifications of
   every alert are at least a cooldown apart if and only if no event raises an alert that had
   cleared, less than a cooldown after its last notification.
   */
  lemma NotificationsArePacedIff(es: seq<BoardEvent>, m: Thresholds)
    ensures AllPaced(BoardRun(es, m).notices, m.cooldownMs) <==> NeverReraisedTooSoon(es, m)
  {
    RunPaced(es, m);
  }

  // ---------- notifications are given ----------

  /** Is an alert whose condition holds due for a notification at `now`? */
  predicate Due(b: Board, id: AlertId, now: int, cooldownMs: int) {
    id !in b.active || LastNotice(b.notices, id).None? || now - LastNotice(b.notices, id).value >= cooldownMs
  }

  lemma EvaluationNotifies(b: Board, id: AlertId, condition: bool, now: int, cooldownMs: int)
    requires BoardFits(b, cooldownMs)
    ensures Evaluate(b, id, condition, now, cooldownMs).notices
            == if condition && Due(b, id, now, cooldownMs) then b.notices + [Notice(id, now, id in b.active)] else b.notices
  {
    assert Remembers(b, id);
  }

  /**
   In every run an evaluation notifies if and only if the condition holds and the alert is
   not active or was last notified at least a cooldown ago: a condition that stays is
   notified again and again.
   */
  lemma NotifiedIffDue(es: seq<BoardEvent>, m: Thresholds, id: AlertId, condition: bool, now: int)
    ensures var b := BoardRun(es, m);
            var notices := BoardRun(es + [EvaluateAt(id, condition, now)], m).notices;
            notices == if condition && Due(b, id, now, m.cooldownMs) then b.notices + [Notice(id, now, id in b.active)]
                       else b.notices
  {
    RunPaced(es, m);
    EvaluationNotifies(BoardRun(es, m), id, condition, now, m.cooldownMs);
    assert (es + [EvaluateAt(id, condition, now)])[..|es|] == es;
  }

  lemma EvaluationLeavesOthers(b: Board, id: AlertId, condition: bool, now: int, cooldownMs: int, other: AlertId)
    requires other != id
    ensures LastNotice(Evaluate(b, id, condition, now, cooldownMs).notices, other) == LastNotice(b.notices, other)
  {
    NoticeOneMore(b.notices, Notice(id, now, id in b.active));
  }

  lemma EvaluationIsLast(b: Board, id: AlertId, now: int, cooldownMs: int)
    requires BoardFits(b, cooldownMs)
    ensures var b' := Evaluate(b, id, true, now, cooldownMs);
            && id in b'.active
            && LastNotice(b'.notices, id) == if Due(b, id, now, cooldownMs) then Some(now) else LastNotice(b.notices, id)
  {
    EvaluationNotifies(b, id, true, now, cooldownMs);
    NoticeOneMore(b.notices, Notice(id, now, id in b.active));
  }

  lemma {:induction false} EvaluationsNotify(b: Board, ids: seq<AlertId>, m: Thresholds, r: Reading, now: int, id: AlertId)
    requires BoardFits(b, m.cooldownMs)
    requires Holds(m, r, id)
    ensures var b' := EvaluateAll(b, ids, m, r, now);
            && (id in ids ==> id in b'.active)
            && (id !in ids ==> (id in b'.active <==> id in b.active))
            && LastNotice(b'.notices, id)
               == if id in ids && Due(b, id, now, m.cooldownMs) then Some(now) else LastNotice(b.notices, id)
  {
    if ids != [] {
      var n := |ids| - 1;
      var before := EvaluateAll(b, ids[..n], m, r, now);
      EvaluationsPaced(b, ids[..n], m, r, now);
      EvaluationsNotify(b, ids[..n], m, r, now, id);
      assert ids == ids[..n] + [ids[n]];
      if ids[n] == id {
        EvaluationIsLast(before, id, now, m.cooldownMs);
      } else {
        EvaluationLeavesOthers(before, ids[n], Holds(m, r, ids[n]), now, m.cooldownMs, id);
      }
    }
  }

  /** A refresh leaves no alert that it finds due without a notification. */
  lemma RefreshNotifies(es: seq<BoardEvent>, m: Thresholds, r: Reading, now: int, id: AlertId)
    requires id in Checked(r.depths) && Holds(m, r, id)
    ensures var b := BoardRun(es, m);
            LastNotice(Refresh(b, m, r, now).notices, id)
            == if Due(b, id, now, m.cooldownMs) then Some(now) else LastNotice(b.notices, id)
  {
    RunPaced(es, m);
    EvaluationsNotify(BoardRun(es, m), Checked(r.depths), m, r, now, id);
  }

  // ---------- since when an alert is active ----------

  /** The last notification that began an episode. */
  function LastRaise(notices: seq<Notice>, id: AlertId): Option<int> {
    if notices == [] then None
    else
      var n := notices[|notices| - 1];
      if n.id == id && !n.renewal then Some(n.now) else LastRaise(notices[..|notices| - 1], id)
  }

  predicate ActiveSinceRaised(b: Board) {
    forall id :: id in b.active ==> LastRaise(b.notices, id) == Some(b.active[id])
  }

  lemma EvaluationKeepsSince(b: Board, id: AlertId, condition: bool, now: int, cooldownMs: int)
    requires ActiveSinceRaised(b)
    ensures ActiveSinceRaised(Evaluate(b, id, condition, now, cooldownMs))
  {
    var raised, renewed := b.notices + [Notice(id, now, false)], b.notices + [Notice(id, now, true)];
    assert raised[..|b.notices|] == b.notices && renewed[..|b.notices|] == b.notices;
    assert forall x :: LastRaise(renewed, x) == LastRaise(b.notices, x);
    assert forall x :: LastRaise(raised, x) == if x == id then Some(now) else LastRaise(b.notices, x);
  }

  lemma {:induction false} EvaluationsKeepSince(b: Board, ids: seq<AlertId>, m: Thresholds, r: Reading, now: int)
    requires ActiveSinceRaised(b)
    ensures ActiveSinceRaised(EvaluateAll(b, ids, m, r, now))
  {
    if ids != [] {
      var n := |ids| - 1;
      EvaluationsKeepSince(b, ids[..n], m, r, now);
      EvaluationKeepsSince(EvaluateAll(b, ids[..n], m, r, now), ids[n], Holds(m, r, ids[n]), now, m.cooldownMs);
    }
  }

  /** In every run an active alert carries the time at which its episode began. */
  lemma {:induction false} ActiveSinceItsRaise(es: seq<BoardEvent>, m: Thresholds)
    ensures ActiveSinceRaised(BoardRun(es, m))
  {
    if es != [] {
      var before := BoardRun(es[..|es| - 1], m);
      ActiveSinceItsRaise(es[..|es| - 1], m);
      match es[|es| - 1]
      case EvaluateAt(id, condition, now) => EvaluationKeepsSince(before, id, condition, now, m.cooldownMs);
      case DropAt(_) =>
      case RefreshAt(reading, now) => EvaluationsKeepSince(before, Checked(reading.depths), m, reading, now);
    }
  }

  /** The cooldown does not reach across episodes: an alert that clears and returns notifies at once. */
  lemma FlappingIgnoresCooldown(id: AlertId, now: int, m: Thresholds)
    ensures var es := [EvaluateAt(id, true, now), DropAt(id), EvaluateAt(id, true, now)];
            && BoardRun(es, m).notices == [Notice(id, now, false), Notice(id, now, false)]
            && (m.cooldownMs > 0 ==> !AllPaced(BoardRun(es, m).notices, m.cooldownMs))
  {
    var raise, drop := EvaluateAt(id, true, now), DropAt(id);
    var es := [raise, drop, raise];
    assert es[..2] == [raise, drop] && [raise, drop][..1] == [raise] && [raise][..0] == [];
    assert BoardRun([], m) == EMPTY_BOARD;
    var b1 := BoardNext(EMPTY_BOARD, raise, m);
    assert BoardRun([raise], m) == b1 && b1 == Raise(EMPTY_BOARD, id, now);
    assert BoardRun([raise, drop], m) == Drop(b1, id);
    NotificationsArePacedIff(es, m);
  }

  // ---------- the code ----------

  lemma TwoChecks(b: Board, r: Reading, m: Thresholds, now: int)
    ensures var ids := Checked(r.depths);
            EvaluateAll(b, ids[..2], m, r, now)
            == Evaluate(Evaluate(b, ErrorRateHigh, Holds(m, r, ErrorRateHigh), now, m.cooldownMs),
                        P95LatencyHigh, Holds(m, r, P95LatencyHigh), now, m.cooldownMs)
  {
    var ids := Checked(r.depths);
    assert ids[..2][..1] == ids[..1] && ids[..1][..0] == [];
    assert ids[..1] == [ErrorRateHigh] && ids[..2] == [ErrorRateHigh, P95LatencyHigh];
    assert EvaluateAll(b, ids[..1], m, r, now) == Evaluate(b, ErrorRateHigh, Holds(m, r, ErrorRateHigh), now, m.cooldownMs);
  }

  class AlertBoard {
    const thresholds: Thresholds
    var alerts: map<AlertId, int>
    var lastRaisedAt: map<AlertId, int>
    ghost var notices: seq<Notice>

    ghost function Model(): Board
      reads this
    {
      Board(alerts, lastRaisedAt, notices)
    }

    constructor (m: Thresholds)
      ensures thresholds == m && Model() == EMPTY_BOARD
    {
      thresholds, alerts, lastRaisedAt, notices := m, map[], map[], [];
    }

    method EvaluateOne(id: AlertId, condition: bool, now: int)
      modifies this
      ensures Model() == Evaluate(old(Model()), id, condition, now, thresholds.cooldownMs)
    {
      if condition {
        var lastRaised := if id in lastRaisedAt then lastRaisedAt[id] else 0;
        if id !in alerts {
          alerts := alerts[id := now];
          lastRaisedAt := lastRaisedAt[id := now];
          notices := notices + [Notice(id, now, false)];
        } else if now - lastRaised >= thresholds.cooldownMs {
          lastRaisedAt := lastRaisedAt[id := now];
          notices := notices + [Notice(id, now, true)];
        }
      }
    }

    method SetCircuitAlert(gatewayId: string, open: bool, now: int)
      modifies this
      ensures Model() == if open then Evaluate(old(Model()), CircuitOpen(gatewayId), true, now, thresholds.cooldownMs)
                         else Drop(old(Model()), CircuitOpen(gatewayId))
    {
      if open {
        EvaluateOne(CircuitOpen(gatewayId), true, now);
      } else {
        alerts := alerts - {CircuitOpen(gatewayId)};
      }
    }

    /** Delete, one by one, the alerts whose condition is gone. */
    method Clear(r: Reading)
      modifies `alerts
      ensures Model() == ClearStale(old(Model()), thresholds, r)
    {
      var todo := alerts.Keys;
      ghost var was := alerts;
      while todo != {}
        invariant todo <= was.Keys
        invariant alerts == map id | id in was && (id in todo || Holds(thresholds, r, id)) :: was[id]
        decreases todo
      {
        var id :| id in todo;
        todo := todo - {id};
        if !Holds(thresholds, r, id) {
          alerts := alerts - {id};
        }
      }
    }

    /** Evaluate every threshold against a fresh reading, then clear what no longer holds. */
    method RefreshNow(r: Reading, now: int)
      requires DistinctGateways(r.depths)
      modifies this
      ensures Model() == Refresh(old(Model()), thresholds, r, now)
    {
      ghost var b := Model();
      var ids := Checked(r.depths);
      EvaluateOne(ErrorRateHigh, r.errorRate > thresholds.errorRate, now);
      EvaluateOne(P95LatencyHigh, r.p95Ms.Some? && r.p95Ms.value > thresholds.p95LatencyMs, now);
      TwoChecks(b, r, thresholds, now);
      for i := 0 to |r.depths|
        invariant Model() == EvaluateAll(b, ids[..i + 2], thresholds, r, now)
      {
        WaitingOfListed(r.depths, i);
        assert ids[..i + 3][..i + 2] == ids[..i + 2] && ids[i + 2] == QueueDepthHigh(r.depths[i].gatewayId);
        EvaluateOne(ids[i + 2], r.depths[i].waiting > thresholds.queueDepth, now);
      }
      assert ids[..|ids|] == ids;
      Clear(r);
    }
  }
}

/** Circuit alerts and the breakers they speak of. */
module CircuitAlerts {
  import opened Alerts
  import CB = CircuitBreaker

  /** One gateway's breaker and the alert board. */
  datatype Watch = Watch(breaker: CB.Breaker, board: Board)

  datatype WatchEvent =
    | Call(event: CB.BreakerEvent)
    | RefreshAt(reading: Reading, now: int)
    | OtherCircuit(gatewayId: string, open: bool, now: int)
    | Reset

  /** The callbacks of a breaker fire when it opens, from either mode, and when it closes. */
  predicate FiresOpened(p: CB.Params, b: CB.Breaker, e: CB.BreakerEvent) {
    e.RecordAt? && CB.Play(p, b, e).tripCount > b.tripCount
  }

  predicate FiresClosed(p: CB.Params, b: CB.Breaker, e: CB.BreakerEvent) {
    e.RecordAt? && b.mode.HALF_OPEN? && e.ok
  }

  function SetAlert(b: Board, gatewayId: string, open: bool, now: int, cooldownMs: int): Board {
    if open then Evaluate(b, CircuitOpen(gatewayId), true, now, cooldownMs) else Drop(b, CircuitOpen(gatewayId))
  }

  function WatchNext(p: CB.Params, m: Thresholds, id: string, w: Watch, e: WatchEvent): Watch {
    match e
    case Call(event) =>
      var board := if FiresOpened(p, w.breaker, event) then SetAlert(w.board, id, true, event.now, m.cooldownMs)
                   else if FiresClosed(p, w.breaker, event) then SetAlert(w.board, id, false, event.now, m.cooldownMs)
                   else w.board;
      Watch(CB.Play(p, w.breaker, event), board)
    case RefreshAt(reading, now) => w.(board := Refresh(w.board, m, reading, now))
    case OtherCircuit(other, open, now) =>
      if other == id then w else w.(board := SetAlert(w.board, other, open, now, m.cooldownMs))
    case Reset => w.(breaker := CB.FRESH)
  }

  function WatchRun(p: CB.Params, m: Thresholds, id: string, es: seq<WatchEvent>): Watch {
    if es == [] then Watch(CB.FRESH, EMPTY_BOARD)
    else WatchNext(p, m, id, WatchRun(p, m, id, es[..|es| - 1]), es[|es| - 1])
  }

  predicate AlertMatches(w: Watch, id: string) {
    CircuitOpen(id) in w.board.active <==> !w.breaker.mode.CLOSED?
  }

  /** A step keeps alert and breaker in agreement, except a reset of a breaker that is not CLOSED. */
  lemma StepKeepsMatch(p: CB.Params, m: Thresholds, id: string, w: Watch, e: WatchEvent)
    requires AlertMatches(w, id)
    ensures AlertMatches(WatchNext(p, m, id, w, e), id) <==> !e.Reset? || w.breaker.mode.CLOSED?
  {
    if e.RefreshAt? {
      RefreshAgrees(w.board, m, e.reading, e.now);
    }
  }

  /** No reset of the run hits a breaker that is not CLOSED. */
  predicate ResetsWhenClosed(p: CB.Params, m: Thresholds, id: string, es: seq<WatchEvent>) {
    es == [] ||
    (&& ResetsWhenClosed(p, m, id, es[..|es| - 1])
     && (es[|es| - 1].Reset? ==> WatchRun(p, m, id, es[..|es| - 1]).breaker.mode.CLOSED?))
  }

  /** A circuit alert is active exactly while its breaker is not CLOSED, after every step. */
  predicate AlwaysMatches(p: CB.Params, m: Thresholds, id: string, es: seq<WatchEvent>) {
    AlertMatches(WatchRun(p, m, id, es), id) && (es == [] || AlwaysMatches(p, m, id, es[..|es| - 1]))
  }

  /**
   Over every run of calls, refreshes, other circuits and resets, the circuit alert agrees
   with its breaker after every step if and only if no reset hit a breaker that was not
   CLOSED: a reset closes the breaker without a closed event.
   */
  lemma {:induction false} CircuitAlertsAgreeIff(p: CB.Params, m: Thresholds, id: string, es: seq<WatchEvent>)
    ensures AlwaysMatches(p, m, id, es) <==> ResetsWhenClosed(p, m, id, es)
  {
    if es != [] {
      var before := es[..|es| - 1];
      CircuitAlertsAgreeIff(p, m, id, before);
      if AlwaysMatches(p, m, id, before) {
        StepKeepsMatch(p, m, id, WatchRun(p, m, id, before), es[|es| - 1]);
      }
    }
  }

  /** One failed call opens the breaker and raises the alert; a reset then leaves the alert behind. */
  lemma ResetLeavesTheAlert(m: Thresholds, id: string)
    ensures var w := WatchRun(CB.Params(60000, 1.0, 1, 1000), m, id, [Call(CB.RecordAt(0, false)), Reset]);
            CircuitOpen(id) in w.board.active && w.breaker.mode.CLOSED? && !AlertMatches(w, id)
  {
    var p := CB.Params(60000, 1.0, 1, 1000);
    var es := [Call(CB.RecordAt(0, false)), Reset];
    assert es[..1] == [es[0]] && [es[0]][..0] == [];
    assert WatchRun(p, m, id, []) == Watch(CB.FRESH, EMPTY_BOARD);
    CB.OneFailureTrips(60000, 1000, 0);
    assert WatchRun(p, m, id, [es[0]]).breaker.mode.OPEN?;
  }
}
