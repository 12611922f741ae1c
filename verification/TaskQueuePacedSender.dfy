/** The wake-up protocol of the task-queue pacer: which delayed tasks are posted, which of them
    are still meant, and why a wake-up is never lost. Times and delays are in microseconds. */
module TaskQueuePacedSender {
  import opened Collections
  import opened Units

  const MILLI := 1000

  /** A delayed task that will call MaybeProcessPackets with `id`, not before `due`. */
  datatype Task = Task(id: Timestamp, due: int)

  /** What one call reads from the clock, the pacing controller and the packet-size filter: the
      next send time before and after packets are processed, whether the controller is probing,
      and the time an average packet takes, if rate and size are known. `nested` are the calls made
      while packets are processed, by senders that report outstanding data from the same queue. */
  datatype Reading = Reading(now: int, before: Timestamp, after: Timestamp, probing: bool, packetTime: Option<nat>, nested: seq<Reading>) {
    predicate Ok() {
      before != PlusInfinity && after != PlusInfinity && forall i :: 0 <= i < |nested| ==> nested[i].Ok()
    }

    function NextSend(processed: bool): Timestamp {
      if processed then after else before
    }
  }

  /** What the task queue runs, in any order: API tasks that may process, pausing, which does not,
      delayed tasks picked by position, and the shutdown posted by the destructor. */
  datatype Event = Start(r: Reading) | Api(r: Reading) | Pause | Delayed(position: nat, r: Reading) | Shutdown

  predicate EventOk(e: Event) {
    (e.Start? || e.Api? || e.Delayed?) ==> e.r.Ok()
  }

  /** The conversion of a delay to milliseconds, which may round up or down. */
  ghost predicate Converts(toMillis: nat -> nat) {
    forall t: nat :: t - MILLI < MILLI * toMillis(t) < t + MILLI
  }

  function LaterOf(t: Timestamp, us: int): int {
    match t
    case At(at) => Max(at, us)
    case _ => us
  }

  function MinusDelta(t: Timestamp, us: int): Timestamp {
    match t
    case At(at) => At(at - us)
    case _ => t
  }

  function RoundDownToMillis(us: nat): nat {
    us - us % MILLI
  }

  /** How long to sleep before the next wake-up; none if the one already scheduled will do. */
  function Sleep(next: Timestamp, scheduled: Timestamp, r: Reading, holdBack: nat): Option<nat>
    requires next != PlusInfinity
  {
    if r.probing && next != scheduled then
      Some(if next.At? && next.us >= r.now then RoundDownToMillis(next.us - r.now) else 0)
    else if scheduled == MinusInfinity || next.AtMost(MinusDelta(scheduled, holdBack)) then
      Some(if next.At? then Max(next.us - r.now, holdBack) else holdBack)
    else
      None
  }

  /** The delayed task to post, if any. */
  function Posted(next: Timestamp, scheduled: Timestamp, r: Reading, holdBack: nat, toMillis: nat -> nat): seq<Task>
    requires next != PlusInfinity
  {
    match Sleep(next, scheduled, r, holdBack)
    case None => []
    case Some(delay) => [Task(next, r.now + MILLI * toMillis(delay))]
  }

  /** A pending task is meant for the scheduled time and due by then, or one window after the
      latest clock reading, up to a millisecond. */
  ghost predicate WakesUp(pending: seq<Task>, scheduled: Timestamp, latest: int, window: nat) {
    exists t :: t in pending && t.id == scheduled && t.due < LaterOf(scheduled, latest + window) + MILLI
  }

  lemma WakesUpLater(pending: seq<Task>, scheduled: Timestamp, latest: int, window: nat, later: int)
    requires WakesUp(pending, scheduled, latest, window) && latest <= later
    ensures WakesUp(pending, scheduled, later, window)
  {
    var t :| t in pending && t.id == scheduled && t.due < LaterOf(scheduled, latest + window) + MILLI;
    assert t.due < LaterOf(scheduled, later + window) + MILLI;
  }

  /** Some pending task is meant for the scheduled time, and due no later than a window after
      `deadline`, up to a millisecond. */
  ghost predicate Prompt(pending: seq<Task>, scheduled: Timestamp, deadline: int, window: nat) {
    exists t :: t in pending && t.id == scheduled && t.due < deadline + window + MILLI
  }

  lemma PromptLater(pending: seq<Task>, scheduled: Timestamp, next: Timestamp, latest: int, newest: int, window: nat)
    requires Prompt(pending, scheduled, LaterOf(next, latest), window) && latest <= newest
    ensures Prompt(pending, scheduled, LaterOf(next, newest), window)
  {
    var t :| t in pending && t.id == scheduled && t.due < LaterOf(next, latest) + window + MILLI;
    assert t.due < LaterOf(next, newest) + window + MILLI;
  }

  /** A delayed task is never due before the time it is meant for, up to two milliseconds of rounding. */
  ghost predicate NotEarly(t: Task) {
    t.id.At? ==> t.due > t.id.us - 2 * MILLI
  }

  ghost predicate NoneEarly(pending: seq<Task>) {
    forall i :: 0 <= i < |pending| ==> NotEarly(pending[i])
  }

  /** When a call posts and for when. While probing, always if the next time is not the scheduled one,
      and for that very time or now; else only if nothing is scheduled or the next time is a hold-back
      window earlier, and for that time or the end of the window; up to a millisecond of rounding. */
  lemma PostedOnTime(scheduled: Timestamp, next: Timestamp, r: Reading, holdBack: nat, toMillis: nat -> nat)
    requires Converts(toMillis) && next != PlusInfinity && scheduled != PlusInfinity
    ensures var posted := Posted(next, scheduled, r, holdBack, toMillis); var forProbe := r.probing && next != scheduled;
      && (posted != [] <==> forProbe || scheduled == MinusInfinity || next == MinusInfinity || (next.At? && next.us <= scheduled.us - holdBack))
      && (posted != [] ==>
            && posted == [posted[0]] && posted[0].id == next && NotEarly(posted[0])
            && var earliest := r.now + (if forProbe then 0 else holdBack);
               LaterOf(next, earliest) - 2 * MILLI < posted[0].due < LaterOf(next, earliest) + MILLI)
  {
    var sleep := Sleep(next, scheduled, r, holdBack);
    if sleep.Some? {
      assert sleep.value - MILLI < MILLI * toMillis(sleep.value) < sleep.value + MILLI;
    }
  }

  lemma MoreNotEarly(pending: seq<Task>, posted: seq<Task>)
    requires NoneEarly(pending) && NoneEarly(posted)
    ensures NoneEarly(pending + posted)
  {
  }

  lemma FewerNotEarly(pending: seq<Task>, position: nat)
    requires NoneEarly(pending) && position < |pending|
    ensures NoneEarly(pending[..position] + pending[position + 1..])
  {
  }

  /** A kept schedule is good enough: it was kept because the new time is within one hold-back
      window of it, so its task, due at most a window late itself, is not due later than allowed. */
  lemma KeptScheduleIsPrompt(pending: seq<Task>, scheduled: Timestamp, latest: int, window: nat, next: Timestamp, r: Reading, holdBack: nat)
    requires WakesUp(pending, scheduled, latest, window) && holdBack <= window
    requires next != PlusInfinity && scheduled != PlusInfinity
    requires Sleep(next, scheduled, r, holdBack) == None
    ensures Prompt(pending, scheduled, LaterOf(next, Max(latest, r.now)), window)
    ensures WakesUp(pending, scheduled, Max(latest, r.now), window)
  {
    var t :| t in pending && t.id == scheduled && t.due < LaterOf(scheduled, latest + window) + MILLI;
    assert next == scheduled || (next.At? && scheduled.At? && scheduled.us < next.us + holdBack);
    assert t.due < LaterOf(next, Max(latest, r.now)) + window + MILLI;
    assert t.due < LaterOf(scheduled, Max(latest, r.now) + window) + MILLI;
  }

  /** A newly posted task is due on time, whatever else is pending. */
  lemma PostedTaskIsPrompt(pending: seq<Task>, scheduled: Timestamp, latest: int, window: nat, next: Timestamp, r: Reading, holdBack: nat, toMillis: nat -> nat)
    requires Converts(toMillis) && holdBack <= window && next != PlusInfinity
    requires Sleep(next, scheduled, r, holdBack).Some?
    ensures var task := Task(next, r.now + MILLI * toMillis(Sleep(next, scheduled, r, holdBack).value));
      Prompt(pending + [task], next, LaterOf(next, Max(latest, r.now)), window) &&
      WakesUp(pending + [task], next, Max(latest, r.now), window)
  {
    var delay := Sleep(next, scheduled, r, holdBack).value;
    var task := Task(next, r.now + MILLI * toMillis(delay));
    assert MILLI * toMillis(delay) < delay + MILLI;
    assert task in pending + [task];
    assert task.due < LaterOf(next, Max(latest, r.now)) + window + MILLI;
    assert task.due < LaterOf(next, Max(latest, r.now) + window) + MILLI;
  }

  // ----- What a call does to the schedule -----

  datatype Settings = Settings(maxHoldBackWindow: nat, maxHoldBackWindowInPackets: int, toMillis: nat -> nat)

  /** The delayed tasks posted and not yet run, and the scheduled time. */
  datatype View = View(pending: seq<Task>, next: Timestamp)

  /** The hold-back window, cut to the time a few average packets take. */
  function HoldBack(s: Settings, r: Reading): (window: nat)
    ensures window <= s.maxHoldBackWindow
    ensures s.maxHoldBackWindowInPackets <= 0 || r.packetTime.None? ==> window == s.maxHoldBackWindow
    ensures s.maxHoldBackWindowInPackets > 0 && r.packetTime.Some? ==>
      window <= r.packetTime.value * s.maxHoldBackWindowInPackets &&
      (window == s.maxHoldBackWindow || window == r.packetTime.value * s.maxHoldBackWindowInPackets)
  {
    if s.maxHoldBackWindowInPackets > 0 && r.packetTime.Some? then
      TimesNonNegative(r.packetTime.value, s.maxHoldBackWindowInPackets);
      Min(s.maxHoldBackWindow, r.packetTime.value * s.maxHoldBackWindowInPackets)
    else s.maxHoldBackWindow
  }

  /** When a call processes: it is the scheduled one, or the next send time has come and either
      nothing is scheduled or the schedule moved forward. */
  predicate MustProcess(scheduled: Timestamp, called: Timestamp, r: Reading) {
    called == scheduled || (r.before.AtMost(At(r.now)) && (scheduled == MinusInfinity || r.before.LessThan(scheduled)))
  }

  /** In times: a call that is not the scheduled one processes exactly if the next send time has come,
      and nothing is scheduled or only something later than that. */
  lemma ProcessedOnTime(scheduled: Timestamp, called: Timestamp, r: Reading)
    requires scheduled != PlusInfinity && r.before != PlusInfinity
    ensures MustProcess(scheduled, called, r) <==>
      || called == scheduled
      || r.before == MinusInfinity
      || (r.before.us <= r.now && (scheduled == MinusInfinity || r.before.us < scheduled.us))
  {
  }

  /** The schedule as a call finds it once it has cleared its own. */
  function Cleared(v: View, called: Timestamp): View {
    if v.next == called then v.(next := MinusInfinity) else v
  }

  /** The schedule after the first `n` calls made while packets are processed. */
  function During(s: Settings, v: View, r: Reading, n: nat): (w: View)
    requires r.Ok() && v.next != PlusInfinity && n <= |r.nested|
    ensures w.next != PlusInfinity
    decreases r, n
  {
    if n == 0 then v else Handle(s, During(s, v, r, n - 1), MinusInfinity, r.nested[n - 1])
  }

  /** The schedule when a call decides about its next wake-up. */
  function Decided(s: Settings, v: View, called: Timestamp, r: Reading): (w: View)
    requires r.Ok() && v.next != PlusInfinity
    ensures w.next != PlusInfinity
    decreases r, |r.nested| + 1
  {
    if MustProcess(v.next, called, r) then During(s, Cleared(v, called), r, |r.nested|) else v
  }

  /** The task a call posts at its end, if any. */
  function PostedBy(s: Settings, v: View, called: Timestamp, r: Reading): seq<Task>
    requires r.Ok() && v.next != PlusInfinity
    decreases r, |r.nested| + 2
  {
    Posted(r.NextSend(MustProcess(v.next, called, r)), Decided(s, v, called, r).next, r, HoldBack(s, r), s.toMillis)
  }

  /** The schedule after a call of MaybeProcessPackets on a started sender. */
  function Handle(s: Settings, v: View, called: Timestamp, r: Reading): (w: View)
    requires r.Ok() && v.next != PlusInfinity
    ensures w.next != PlusInfinity
    decreases r, |r.nested| + 3
  {
    var decided, posted := Decided(s, v, called, r), PostedBy(s, v, called, r);
    View(decided.pending + posted, if posted == [] then decided.next else r.NextSend(MustProcess(v.next, called, r)))
  }

  // ----- The latest reading of the clock -----

  /** The latest clock reading once the first `n` nested calls are made. */
  function LatestDuring(s: Settings, v: View, r: Reading, latest: int, n: nat): int
    requires r.Ok() && v.next != PlusInfinity && n <= |r.nested|
    decreases r, n
  {
    if n == 0 then latest
    else LatestOf(s, During(s, v, r, n - 1), MinusInfinity, r.nested[n - 1], LatestDuring(s, v, r, latest, n - 1))
  }

  /** The latest clock reading after a call of MaybeProcessPackets on a started sender. */
  function LatestOf(s: Settings, v: View, called: Timestamp, r: Reading, latest: int): int
    requires r.Ok() && v.next != PlusInfinity
    decreases r, |r.nested| + 1
  {
    var own := Max(latest, r.now);
    if MustProcess(v.next, called, r) then LatestDuring(s, Cleared(v, called), r, own, |r.nested|) else own
  }

  /** The newest reading of a call and of the first `n` calls nested in it. */
  function NewestAmong(r: Reading, n: nat): (t: int)
    requires n <= |r.nested|
    ensures t >= r.now
    decreases r, n
  {
    if n == 0 then r.now else Max(NewestAmong(r, n - 1), Newest(r.nested[n - 1]))
  }

  function Newest(r: Reading): (t: int)
    ensures t >= r.now && (r.nested == [] ==> t == r.now)
    decreases r, |r.nested| + 1
  {
    NewestAmong(r, |r.nested|)
  }

  /** The latest reading is one of this call, or an earlier one if the clock went back. */
  lemma {:induction false} LatestIsRead(s: Settings, v: View, called: Timestamp, r: Reading, latest: int)
    requires r.Ok() && v.next != PlusInfinity
    ensures Max(latest, r.now) <= LatestOf(s, v, called, r, latest) <= Max(latest, Newest(r))
    decreases r, |r.nested| + 1
  {
    LatestDuringIsRead(s, Cleared(v, called), r, Max(latest, r.now), |r.nested|);
  }

  lemma {:induction false} LatestDuringIsRead(s: Settings, v: View, r: Reading, latest: int, n: nat)
    requires r.Ok() && v.next != PlusInfinity && n <= |r.nested|
    ensures latest <= LatestDuring(s, v, r, latest, n) <= Max(latest, NewestAmong(r, n))
    decreases r, n
  {
    if n > 0 {
      LatestDuringIsRead(s, v, r, latest, n - 1);
      LatestIsRead(s, During(s, v, r, n - 1), MinusInfinity, r.nested[n - 1], LatestDuring(s, v, r, latest, n - 1));
    }
  }

  // ----- How many tasks are valid at a time -----

  /** At most one pending task carries the scheduled time. */
  ghost predicate AtMostOne(v: View) {
    forall i, j :: 0 <= i < j < |v.pending| ==> !(v.pending[i].id == v.pending[j].id == v.next)
  }

  /** A task is posted for a time that a pending task carries already. */
  ghost predicate Repeats(pending: seq<Task>, posted: seq<Task>) {
    posted != [] && exists t :: t in pending && t.id == posted[0].id
  }

  /** Posting at the end of a call: at most one task is valid afterwards exactly if nothing is
      posted or no task already pending carries the posted time. */
  lemma PostingKeepsOne(pending: seq<Task>, kept: Timestamp, next: Timestamp, r: Reading, holdBack: nat, toMillis: nat -> nat)
    requires next != PlusInfinity && (kept == MinusInfinity || AtMostOne(View(pending, kept)))
    ensures var posted := Posted(next, kept, r, holdBack, toMillis);
      AtMostOne(View(pending + posted, if posted == [] then kept else next)) <==> !Repeats(pending, posted)
  {
    var posted := Posted(next, kept, r, holdBack, toMillis);
    if posted == [] {
      assert pending + posted == pending;
    } else {
      var all := pending + posted;
      assert all[|pending|] == posted[0] && posted[0].id == next;
      if Repeats(pending, posted) {
        var t :| t in pending && t.id == posted[0].id;
        var i :| 0 <= i < |pending| && pending[i] == t;
        assert all[i].id == all[|pending|].id == next;
      } else {
        forall i, j | 0 <= i < j < |all|
          ensures !(all[i].id == all[j].id == next)
        {
          assert all[i] in pending;
        }
      }
    }
  }

  /** A call finds at most one valid task, or it is the scheduled call, which clears the schedule. */
  ghost predicate Ready(v: View, called: Timestamp) {
    v.next == called || AtMostOne(v)
  }

  /** At most one task is valid after the call and after every call nested in it. */
  ghost predicate Single(s: Settings, v: View, called: Timestamp, r: Reading)
    requires r.Ok() && v.next != PlusInfinity
    decreases r, |r.nested| + 1
  {
    && (MustProcess(v.next, called, r) ==> SingleDuring(s, Cleared(v, called), r, |r.nested|))
    && AtMostOne(Handle(s, v, called, r))
  }

  ghost predicate SingleDuring(s: Settings, v: View, r: Reading, n: nat)
    requires r.Ok() && v.next != PlusInfinity && n <= |r.nested|
    decreases r, n
  {
    n == 0 || (SingleDuring(s, v, r, n - 1) && Single(s, During(s, v, r, n - 1), MinusInfinity, r.nested[n - 1]))
  }

  /** No posting of the call, nor of a call nested in it, repeats a pending time. */
  ghost predicate Clean(s: Settings, v: View, called: Timestamp, r: Reading)
    requires r.Ok() && v.next != PlusInfinity
    decreases r, |r.nested| + 1
  {
    && (MustProcess(v.next, called, r) ==> CleanDuring(s, Cleared(v, called), r, |r.nested|))
    && !Repeats(Decided(s, v, called, r).pending, PostedBy(s, v, called, r))
  }

  ghost predicate CleanDuring(s: Settings, v: View, r: Reading, n: nat)
    requires r.Ok() && v.next != PlusInfinity && n <= |r.nested|
    decreases r, n
  {
    n == 0 || (CleanDuring(s, v, r, n - 1) && Clean(s, During(s, v, r, n - 1), MinusInfinity, r.nested[n - 1]))
  }

  /** At most one valid task at a time, exactly if no posting repeats a pending time. */
  lemma {:induction false} SingleIfClean(s: Settings, v: View, called: Timestamp, r: Reading)
    requires r.Ok() && v.next != PlusInfinity && Ready(v, called)
    ensures Single(s, v, called, r) <==> Clean(s, v, called, r)
    decreases r, |r.nested| + 1
  {
    hide AtMostOne, Repeats, Posted, HoldBack;
    var processed := MustProcess(v.next, called, r);
    if processed {
      SingleIfCleanDuring(s, Cleared(v, called), r, |r.nested|);
    }
    var decided, posted := Decided(s, v, called, r), PostedBy(s, v, called, r);
    assert posted == Posted(r.NextSend(processed), decided.next, r, HoldBack(s, r), s.toMillis);
    assert Handle(s, v, called, r) == View(decided.pending + posted, if posted == [] then decided.next else r.NextSend(processed));
    assert !processed ==> AtMostOne(decided);
    if decided.next == MinusInfinity || AtMostOne(decided) {
      PostingKeepsOne(decided.pending, decided.next, r.NextSend(processed), r, HoldBack(s, r), s.toMillis);
      assert View(decided.pending, decided.next) == decided;
    }
  }

  lemma {:induction false} SingleIfCleanDuring(s: Settings, v: View, r: Reading, n: nat)
    requires r.Ok() && v.next != PlusInfinity && n <= |r.nested| && (v.next == MinusInfinity || AtMostOne(v))
    ensures SingleDuring(s, v, r, n) <==> CleanDuring(s, v, r, n)
    ensures SingleDuring(s, v, r, n) ==> During(s, v, r, n).next == MinusInfinity || AtMostOne(During(s, v, r, n))
    decreases r, n
  {
    hide AtMostOne, Repeats, Posted, HoldBack;
    if n > 0 {
      SingleIfCleanDuring(s, v, r, n - 1);
      if SingleDuring(s, v, r, n - 1) {
        SingleIfClean(s, During(s, v, r, n - 1), MinusInfinity, r.nested[n - 1]);
      }
    }
  }

  // ----- Whole runs -----

  datatype State = State(view: View, started: bool, shutdown: bool, latest: int) {
    predicate Active() {
      started && !shutdown
    }
  }

  function Removed(v: View, position: nat): View
    requires position < |v.pending|
  {
    v.(pending := v.pending[..position] + v.pending[position + 1..])
  }

  /** The call an event makes, if any: what it finds, and the time it was posted for. */
  function CallOf(st: State, e: Event): Option<(View, Timestamp)> {
    match e
    case Start(_) => if st.shutdown then None else Some((st.view, MinusInfinity))
    case Api(_) => if st.Active() then Some((st.view, MinusInfinity)) else None
    case Delayed(position, _) =>
      if st.Active() && position < |st.view.pending| then Some((Removed(st.view, position), st.view.pending[position].id)) else None
    case _ => None
  }

  function Next(s: Settings, st: State, e: Event): (t: State)
    requires EventOk(e) && st.view.next != PlusInfinity
    ensures t.view.next != PlusInfinity
  {
    var view :=
      match CallOf(st, e)
      case Some((v, called)) => Handle(s, v, called, e.r)
      case None => if e.Delayed? && e.position < |st.view.pending| then Removed(st.view, e.position) else st.view;
    var latest :=
      match CallOf(st, e)
      case Some((v, called)) => LatestOf(s, v, called, e.r, st.latest)
      case None => st.latest;
    State(view, st.started || e.Start?, st.shutdown || e.Shutdown?, latest)
  }

  function After(s: Settings, st: State, events: seq<Event>): (t: State)
    requires st.view.next != PlusInfinity && forall i :: 0 <= i < |events| ==> EventOk(events[i])
    ensures t.view.next != PlusInfinity
  {
    if events == [] then st else Next(s, After(s, st, events[..|events| - 1]), events[|events| - 1])
  }

  /** The newest reading of a run, or `start` if that is later. */
  function Clock(start: int, events: seq<Event>): int {
    if events == [] then start
    else
      var before, e := Clock(start, events[..|events| - 1]), events[|events| - 1];
      if e.Start? || e.Api? || e.Delayed? then Max(before, Newest(e.r)) else before
  }

  lemma NextIsRead(s: Settings, st: State, e: Event)
    requires EventOk(e) && st.view.next != PlusInfinity
    ensures st.latest <= Next(s, st, e).latest
    ensures Next(s, st, e).latest <= if e.Start? || e.Api? || e.Delayed? then Max(st.latest, Newest(e.r)) else st.latest
  {
    match CallOf(st, e)
    case Some((v, called)) => LatestIsRead(s, v, called, e.r, st.latest);
    case None =>
  }

  lemma {:induction false} RunIsRead(s: Settings, st: State, events: seq<Event>)
    requires st.view.next != PlusInfinity && forall i :: 0 <= i < |events| ==> EventOk(events[i])
    ensures st.latest <= After(s, st, events).latest <= Clock(st.latest, events)
  {
    hide Next;
    if events != [] {
      RunIsRead(s, st, events[..|events| - 1]);
      NextIsRead(s, After(s, st, events[..|events| - 1]), events[|events| - 1]);
    }
  }

  ghost predicate SingleEvent(s: Settings, st: State, e: Event)
    requires EventOk(e) && st.view.next != PlusInfinity
  {
    && AtMostOne(Next(s, st, e).view)
    && match CallOf(st, e)
       case Some((v, called)) => Single(s, v, called, e.r)
       case None => true
  }

  ghost predicate CleanEvent(s: Settings, st: State, e: Event)
    requires EventOk(e) && st.view.next != PlusInfinity
  {
    match CallOf(st, e)
    case Some((v, called)) => Clean(s, v, called, e.r)
    case None => true
  }

  lemma RemovedKeepsOne(v: View, position: nat)
    requires position < |v.pending| && AtMostOne(v)
    ensures AtMostOne(Removed(v, position))
  {
    var w := Removed(v, position);
    forall i, j | 0 <= i < j < |w.pending|
      ensures !(w.pending[i].id == w.pending[j].id == w.next)
    {
      var k, l := if i < position then i else i + 1, if j < position then j else j + 1;
      assert w.pending[i] == v.pending[k] && w.pending[j] == v.pending[l];
    }
  }

  lemma SingleEventIfClean(s: Settings, st: State, e: Event)
    requires EventOk(e) && st.view.next != PlusInfinity && AtMostOne(st.view)
    ensures SingleEvent(s, st, e) <==> CleanEvent(s, st, e)
  {
    hide AtMostOne;
    if e.Delayed? && e.position < |st.view.pending| {
      RemovedKeepsOne(st.view, e.position);
    }
    match CallOf(st, e)
    case Some((v, called)) => SingleIfClean(s, v, called, e.r);
    case None =>
  }

  /** At most one task is valid after every call of the run. */
  ghost predicate AlwaysSingle(s: Settings, st: State, events: seq<Event>)
    requires st.view.next != PlusInfinity && forall i :: 0 <= i < |events| ==> EventOk(events[i])
  {
    events == [] ||
    (AlwaysSingle(s, st, events[..|events| - 1]) && SingleEvent(s, After(s, st, events[..|events| - 1]), events[|events| - 1]))
  }

  /** No call of the run posts a task for a time that a pending task carries already. */
  ghost predicate AlwaysClean(s: Settings, st: State, events: seq<Event>)
    requires st.view.next != PlusInfinity && forall i :: 0 <= i < |events| ==> EventOk(events[i])
  {
    events == [] ||
    (AlwaysClean(s, st, events[..|events| - 1]) && CleanEvent(s, After(s, st, events[..|events| - 1]), events[|events| - 1]))
  }

  /** "Only one valid delayed task in flight" holds all through a run, from a state where it holds,
      exactly if no call of the run posts a task for a time that a pending task carries already. */
  lemma {:induction false} OneValidTask(s: Settings, st: State, events: seq<Event>)
    requires st.view.next != PlusInfinity && AtMostOne(st.view) && forall i :: 0 <= i < |events| ==> EventOk(events[i])
    ensures AlwaysSingle(s, st, events) <==> AlwaysClean(s, st, events)
    ensures AlwaysSingle(s, st, events) ==> AtMostOne(After(s, st, events).view)
    decreases |events|
  {
    hide AtMostOne, Next, CleanEvent;
    if events != [] {
      var before, last := events[..|events| - 1], events[|events| - 1];
      OneValidTask(s, st, before);
      if AlwaysSingle(s, st, before) {
        SingleEventIfClean(s, After(s, st, before), last);
      }
    }
  }

  class TaskQueuePacedSender {
    const maxHoldBackWindow: nat
    const maxHoldBackWindowInPackets: int
    const toMillis: nat -> nat

    var nextProcessTime: Timestamp
    var isStarted: bool
    var isShutdown: bool
    /** The delayed tasks posted and not yet run. */
    var pending: seq<Task>
    /** The latest clock reading so far. */
    ghost var latest: int

    predicate Active()
      reads this
    {
      isStarted && !isShutdown
    }

    ghost predicate Base()
      reads this
    {
      && Converts(toMillis)
      && nextProcessTime != PlusInfinity
      && NoneEarly(pending)
      && (!isStarted ==> pending == [] && nextProcessTime == MinusInfinity)
    }

    ghost predicate Valid()
      reads this
    {
      Base() && (Active() ==> WakesUp(pending, nextProcessTime, latest, maxHoldBackWindow))
    }

    constructor (maxHoldBackWindow: nat, maxHoldBackWindowInPackets: int, toMillis: nat -> nat, start: int)
      requires Converts(toMillis)
      ensures Valid() && !isStarted && !isShutdown && latest == start && pending == []
      ensures this.maxHoldBackWindow == maxHoldBackWindow
    {
      this.maxHoldBackWindow, this.maxHoldBackWindowInPackets, this.toMillis := maxHoldBackWindow, maxHoldBackWindowInPackets, toMillis;
      nextProcessTime, isStarted, isShutdown, pending, latest := MinusInfinity, false, false, [], start;
    }

    function Config(): Settings {
      Settings(maxHoldBackWindow, maxHoldBackWindowInPackets, toMillis)
    }

    ghost function Schedule(): View
      reads this
    {
      View(pending, nextProcessTime)
    }

    ghost function Now(): State
      reads this
    {
      State(Schedule(), isStarted, isShutdown, latest)
    }

    /** The wake-up is due within the window after the next send time or the newest reading of the
        call, whichever is later; earlier readings count only if the clock went back since. */
    ghost predicate DueInTime(r: Reading, processed: bool, earlier: int)
      reads `pending, `nextProcessTime
    {
      Prompt(pending, nextProcessTime, LaterOf(if processed then r.after else r.before, Max(earlier, Newest(r))), maxHoldBackWindow)
    }

    /** The calls made while packets are processed, each as if nothing else were scheduled. */
    method ProcessPackets(r: Reading)
      requires Base() && r.Ok() && Active()
      requires nextProcessTime != MinusInfinity ==> Valid()
      modifies `nextProcessTime, `pending, `latest
      ensures Base() && (nextProcessTime != MinusInfinity ==> Valid())
      ensures Schedule() == During(Config(), old(Schedule()), r, |r.nested|)
      ensures latest == LatestDuring(Config(), old(Schedule()), r, old(latest), |r.nested|) >= old(latest)
      ensures old(pending) <= pending
      decreases r, 0
    {
      hide HoldBack, Posted, WakesUp, Converts, NoneEarly, Handle, LatestOf, DueInTime, Prompt, MustProcess;
      for i := 0 to |r.nested|
        invariant Base() && Active() && (nextProcessTime != MinusInfinity ==> Valid())
        invariant Schedule() == During(Config(), old(Schedule()), r, i)
        invariant latest == LatestDuring(Config(), old(Schedule()), r, old(latest), i)
        invariant old(latest) <= latest && old(pending) <= pending
      {
        var processed := MaybeProcessPackets(MinusInfinity, r.nested[i]);
      }
    }

    /** Processes if this is the scheduled call, or if it is time to and nothing is scheduled or
        the schedule moved forward; then posts a task unless the one scheduled will do. On return
        the scheduled task is pending and prompt. */
    method MaybeProcessPackets(scheduledProcessTime: Timestamp, r: Reading) returns (processed: bool)
      requires Base() && r.Ok()
      requires Active() && nextProcessTime != scheduledProcessTime ==> Valid()
      modifies `nextProcessTime, `pending, `latest
      ensures Valid() && old(latest) <= latest
      ensures !Active() ==> !processed && Schedule() == old(Schedule()) && latest == old(latest)
      ensures Active() ==> latest == LatestOf(Config(), old(Schedule()), scheduledProcessTime, r, old(latest))
      ensures Active() ==> (processed <==> MustProcess(old(nextProcessTime), scheduledProcessTime, r))
      ensures Active() && r.probing ==> nextProcessTime == if processed then r.after else r.before
      ensures Active() ==> Schedule() == Handle(Config(), old(Schedule()), scheduledProcessTime, r)
      ensures Active() ==> r.now <= latest && DueInTime(r, processed, old(latest))
      ensures old(pending) <= pending
      decreases r, 1
    {
      hide Prompt, WakesUp, Converts, NoneEarly, LaterOf, HoldBack, Posted;
      ProcessedOnTime(nextProcessTime, scheduledProcessTime, r);
      processed := false;
      if isShutdown || !isStarted {
        return;
      }
      ghost var found, earlier := Schedule(), latest;
      latest := Max(latest, r.now);
      if nextProcessTime != scheduledProcessTime {
        WakesUpLater(pending, nextProcessTime, earlier, maxHoldBackWindow, latest);
      }
      var next := r.before;
      var isScheduledCall := nextProcessTime == scheduledProcessTime;
      if isScheduledCall {
        nextProcessTime := MinusInfinity;
      }
      if isScheduledCall || (next.AtMost(At(r.now)) && (nextProcessTime.IsInfinite() || next.LessThan(nextProcessTime))) {
        processed := true;
        ProcessPackets(r);
        next := r.after;
      }
      assert Schedule() == Decided(Config(), found, scheduledProcessTime, r);
      Reschedule(next, r);
      LatestIsRead(Config(), found, scheduledProcessTime, r, earlier);
      PromptLater(pending, nextProcessTime, next, latest, Max(earlier, Newest(r)), maxHoldBackWindow);
    }

    /** Posts a delayed task and makes its time the scheduled one, unless the one scheduled will do. */
    method Reschedule(next: Timestamp, r: Reading)
      requires Base() && Active() && r.now <= latest && next != PlusInfinity
      requires nextProcessTime != MinusInfinity ==> Valid()
      modifies `nextProcessTime, `pending
      ensures Valid() && Prompt(pending, nextProcessTime, LaterOf(next, latest), maxHoldBackWindow)
      ensures var posted := Posted(next, old(nextProcessTime), r, HoldBack(Config(), r), toMillis);
        pending == old(pending) + posted && nextProcessTime == if posted == [] then old(nextProcessTime) else next
      ensures r.probing ==> nextProcessTime == next
    {
      hide Prompt, WakesUp, Converts, LaterOf, HoldBack, NotEarly;
      var holdBack := HoldBack(Config(), r);
      PostedOnTime(nextProcessTime, next, r, holdBack, toMillis);
      MoreNotEarly(pending, Posted(next, nextProcessTime, r, holdBack, toMillis));
      var timeToNextProcess := Sleep(next, nextProcessTime, r, holdBack);
      if timeToNextProcess.Some? {
        PostedTaskIsPrompt(pending, nextProcessTime, latest, maxHoldBackWindow, next, r, holdBack, toMillis);
        pending := pending + [Task(next, r.now + MILLI * toMillis(timeToNextProcess.value))];
        nextProcessTime := next;
      } else {
        KeptScheduleIsPrompt(pending, nextProcessTime, latest, maxHoldBackWindow, next, r, holdBack);
        assert pending + [] == pending;
      }
    }

    /** The first call finds nothing scheduled, so it processes and schedules the first wake-up. */
    method EnsureStarted(r: Reading) returns (processed: bool)
      requires Valid() && r.Ok()
      modifies `isStarted, `nextProcessTime, `pending, `latest
      ensures Valid() && old(latest) <= latest && Now() == Next(Config(), old(Now()), Start(r))
      ensures !isShutdown ==> DueInTime(r, processed, old(latest))
      ensures !old(isStarted) && !isShutdown ==> processed
      ensures isShutdown ==> !processed && pending == old(pending)
    {
      hide Prompt, WakesUp, Converts, NoneEarly, Handle;
      isStarted := true;
      processed := MaybeProcessPackets(MinusInfinity, r);
    }

    /** Enqueueing, probe clusters, rates, windows, overheads and resuming all end like this. */
    method ApiTask(r: Reading) returns (processed: bool)
      requires Valid() && r.Ok()
      modifies `nextProcessTime, `pending, `latest
      ensures Valid() && old(latest) <= latest && Now() == Next(Config(), old(Now()), Api(r))
      ensures Active() ==> DueInTime(r, processed, old(latest))
      ensures Active() && r.before.AtMost(At(r.now)) && (old(nextProcessTime) == MinusInfinity || r.before.LessThan(old(nextProcessTime))) ==> processed
      ensures isShutdown ==> !processed && pending == old(pending)
    {
      hide Prompt, WakesUp, Converts, NoneEarly, Handle;
      processed := MaybeProcessPackets(MinusInfinity, r);
    }

    /** Runs a delayed task. If it is the one meant, packets are processed; if it is stale, the one
        meant stays pending. After shutdown nothing is posted any more, so the queue drains. */
    method RunDelayed(position: nat, r: Reading) returns (processed: bool)
      requires Valid() && r.Ok() && position < |pending|
      modifies `nextProcessTime, `pending, `latest
      ensures Valid() && old(latest) <= latest && Now() == Next(Config(), old(Now()), Delayed(position, r))
      ensures Active() ==> DueInTime(r, processed, old(latest))
      ensures Active() && old(pending)[position].id == old(nextProcessTime) ==> processed
      ensures isShutdown ==> !processed && |pending| == |old(pending)| - 1
    {
      hide Prompt, WakesUp, Converts, NoneEarly, Handle, LatestOf, DueInTime;
      var task := pending[position];
      var others := pending[..position] + pending[position + 1..];
      if Active() && task.id != nextProcessTime {
        StaleTaskRemoved(pending, position, nextProcessTime, latest, maxHoldBackWindow);
      }
      FewerNotEarly(pending, position);
      pending := others;
      processed := MaybeProcessPackets(task.id, r);
    }

    /** Marks the queue as shutting down. */
    method Shutdown()
      requires Valid()
      modifies `isShutdown
      ensures Valid() && isShutdown && Now() == Next(Config(), old(Now()), Event.Shutdown)
    {
      isShutdown := true;
    }

    /** Every interleaving: after any events, if the sender is started and not shut down, the
        scheduled wake-up is pending, and due by its time or within the window of the newest reading
        of the run. With a clock that does not go back that is the last reading. */
    method Run(events: seq<Event>) returns (processed: seq<bool>)
      requires Valid() && forall i :: 0 <= i < |events| ==> EventOk(events[i])
      modifies this
      ensures Valid() && |processed| == |events| && Now() == After(Config(), old(Now()), events)
      ensures Active() ==> WakesUp(pending, nextProcessTime, Clock(old(latest), events), maxHoldBackWindow)
      ensures NoneEarly(pending)
      ensures old(latest) <= latest <= Clock(old(latest), events)
      ensures old(isShutdown) ==> |pending| <= |old(pending)| && forall i :: 0 <= i < |processed| ==> !processed[i]
    {
      hide Next, WakesUp, Converts, NoneEarly;
      processed := [];
      for i := 0 to |events|
        invariant Valid() && |processed| == i
        invariant Now() == After(Config(), old(Now()), events[..i])
        invariant old(isShutdown) ==> isShutdown && |pending| <= |old(pending)|
        invariant old(isShutdown) ==> forall j :: 0 <= j < i ==> !processed[j]
      {
        assert events[..i + 1][..i] == events[..i];
        var p := Step(events[i]);
        processed := processed + [p];
      }
      assert events[..|events|] == events;
      RunIsRead(Config(), old(Now()), events);
      if Active() {
        WakesUpLater(pending, nextProcessTime, latest, maxHoldBackWindow, Clock(old(latest), events));
      }
    }

    method Step(e: Event) returns (processed: bool)
      requires Valid() && EventOk(e)
      modifies this
      ensures Valid() && Now() == Next(Config(), old(Now()), e)
      ensures old(isShutdown) ==> isShutdown && !processed && |pending| <= |old(pending)|
    {
      hide WakesUp, Converts, NoneEarly, Handle;
      processed := false;
      match e
      case Start(r) => processed := EnsureStarted(r);
      case Api(r) => processed := ApiTask(r);
      case Pause =>
      case Delayed(position, r) =>
        if position < |pending| {
          processed := RunDelayed(position, r);
        }
      case Shutdown => Shutdown();
    }
  }

  /** An instance of a repeated time: an earlier send time is scheduled and met, and then the send
      time is the first one again, whose stale task is still pending. Each of the two would process. */
  lemma TwoTasksForOneTime(s: Settings)
    requires s.maxHoldBackWindow == 0
    ensures var events := [Start(Quiet(0, 9_000, 9_000)), Api(Quiet(0, 5_000, 5_000)), Delayed(1, Quiet(5_000, 5_000, 9_000))];
      var t := After(s, State(View([], MinusInfinity), false, false, 0), events);
      && |t.view.pending| == 2 && t.view.pending[0].id == t.view.pending[1].id == t.view.next == At(9_000)
      && !AtMostOne(t.view)
  {
    var e0, e1, e2 := Start(Quiet(0, 9_000, 9_000)), Api(Quiet(0, 5_000, 5_000)), Delayed(1, Quiet(5_000, 5_000, 9_000));
    var st := State(View([], MinusInfinity), false, false, 0);
    var first, second, third := Task(At(9_000), MILLI * s.toMillis(9_000)), Task(At(5_000), MILLI * s.toMillis(5_000)),
      Task(At(9_000), 5_000 + MILLI * s.toMillis(4_000));
    QuietCall(s, st.view, MinusInfinity, 0, 9_000, 9_000);
    assert Next(s, st, e0) == State(View([first], At(9_000)), true, false, 0);
    QuietCall(s, View([first], At(9_000)), MinusInfinity, 0, 5_000, 5_000);
    var st2 := State(View([first, second], At(5_000)), true, false, 0);
    assert Next(s, Next(s, st, e0), e1) == st2;
    assert [first, second][..1] + [first, second][2..] == [first];
    QuietCall(s, View([first], At(5_000)), At(5_000), 5_000, 5_000, 9_000);
    assert Next(s, st2, e2).view == View([first, third], At(9_000));
    hide Next;
    AfterThree(s, st, e0, e1, e2);
  }

  lemma AfterOne(s: Settings, st: State, events: seq<Event>, e: Event)
    requires st.view.next != PlusInfinity && EventOk(e) && forall i :: 0 <= i < |events| ==> EventOk(events[i])
    ensures After(s, st, events + [e]) == Next(s, After(s, st, events), e)
    ensures events == [] ==> After(s, st, events) == st
  {
    hide Next, EventOk;
    assert (events + [e])[..|events|] == events;
  }

  lemma AfterThree(s: Settings, st: State, e0: Event, e1: Event, e2: Event)
    requires EventOk(e0) && EventOk(e1) && EventOk(e2) && st.view.next != PlusInfinity
    ensures After(s, st, [e0, e1, e2]) == Next(s, Next(s, Next(s, st, e0), e1), e2)
  {
    hide Next, After, EventOk;
    AfterOne(s, st, [], e0);
    AfterOne(s, st, [e0], e1);
    AfterOne(s, st, [e0, e1], e2);
    assert [] + [e0] == [e0] && [e0] + [e1] == [e0, e1] && [e0, e1] + [e2] == [e0, e1, e2];
  }

  /** A call without probing or nested calls, with no hold-back window, that posts. */
  lemma QuietCall(s: Settings, v: View, called: Timestamp, now: int, before: int, after: int)
    requires s.maxHoldBackWindow == 0 && v.next != PlusInfinity && now <= before && now <= after
    requires v.next == called || (v.next.At? && now < before <= v.next.us)
    ensures var next := if v.next == called then after else before;
      Handle(s, v, called, Quiet(now, before, after)) == View(v.pending + [Task(At(next), now + MILLI * s.toMillis(next - now))], At(next))
  {
    var r := Quiet(now, before, after);
    var kept := Cleared(v, called);
    assert HoldBack(s, r) == 0 && During(s, kept, r, 0) == kept;
    assert Decided(s, v, called, r) == kept;
    var next := r.NextSend(MustProcess(v.next, called, r));
    assert Sleep(next, kept.next, r, 0) == Some(next.us - now);
  }

  /** A reading without probing, packet sizes or nested calls. */
  function Quiet(now: int, before: int, after: int): Reading {
    Reading(now, At(before), At(after), false, None, [])
  }

  lemma TimesNonNegative(a: nat, b: nat)
    ensures a * b >= 0
  {
  }

  /** Running a stale task does not take the wake-up away. */
  lemma StaleTaskRemoved(pending: seq<Task>, position: nat, scheduled: Timestamp, latest: int, window: nat)
    requires position < |pending| && pending[position].id != scheduled
    requires WakesUp(pending, scheduled, latest, window)
    ensures WakesUp(pending[..position] + pending[position + 1..], scheduled, latest, window)
  {
    var others := pending[..position] + pending[position + 1..];
    var t :| t in pending && t.id == scheduled && t.due < LaterOf(scheduled, latest + window) + MILLI;
    var k :| 0 <= k < |pending| && pending[k] == t;
    assert others[if k < position then k else k - 1] == t;
  }
}
