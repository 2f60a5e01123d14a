/** The rate-limit notice debounce. The adapter holds two slots, the notice
    on screen and the pending hide timer. A 429 while idle shows a
    long-lived notice and schedules a hide 5000 ms later; a 429 while the
    notice is up clears the pending hide and schedules a new one; when the
    hide runs, the notice is hidden and both slots are emptied. Time is a
    logical clock in milliseconds; the timer is a deadline in the state. */
module RateLimitNotice {
  import opened Wrappers

  /** Delay of the hide timer after the latest 429. */
  const HideDelay := 5000
  /** Display duration handed to the notice widget, which hides itself
      after that long on its own. The model records it but does not model
      that expiry: while 429s keep arriving less than `HideDelay` apart, the
      hide timer keeps moving and the widget's own expiry can come first. */
  const RateLimitDuration := 250000
  const RateLimitMessage :=
    "Rate limit exceeded. Check the \"Rate limits\" section in the plugin settings for more information."
  /** The one-shot notice shown for a 401. */
  const ApiKeyDuration := 5000
  const ApiKeyMessage :=
    "API key appears to be invalid. Please double-check your API key and base URL in the plugin settings."

  /** A scheduled hide: the handle `setTimeout` returned and when it runs. */
  datatype Timer = Timer(handle: nat, deadline: int)

  /** The two slots, plus how many notices and timers were ever created
      (the source of fresh identities). */
  datatype Notices = Notices(notice: Option<nat>, timeout: Option<Timer>, created: nat, scheduled: nat)

  /** Both slots empty, as at construction. */
  const Initial := Notices(None, None, 0, 0)

  /** What a transition does to the outside world. */
  datatype Effect =
    | ShowNotice(id: nat, message: string, duration: int)
    | HideNotice(id: nat)
    | SetTimer(handle: nat, deadline: int)
    | ClearTimer(handle: nat)
    | TimerExpired(handle: nat)
    | ShowApiKeyNotice(message: string, duration: int)

  datatype Step = Step(state: Notices, effects: seq<Effect>)

  /** The slot invariant: a hide is pending exactly when a notice is up, and
      both refer to things already created. */
  predicate Consistent(s: Notices) {
    && (s.notice.Some? <==> s.timeout.Some?)
    && (s.notice.Some? ==> s.notice.value < s.created)
    && (s.timeout.Some? ==> s.timeout.value.handle < s.scheduled)
  }

  /** The abstract state machine: idle, or a notice up until a deadline. */
  datatype Phase = Idle | Active(notice: nat, deadline: int)

  function PhaseOf(s: Notices): Phase
    requires Consistent(s)
  {
    if s.notice.Some? then Active(s.notice.value, s.timeout.value.deadline) else Idle
  }

  /** Number of notices an effect list shows. */
  function Shows(es: seq<Effect>): nat {
    if es == [] then 0 else (if es[0].ShowNotice? then 1 else 0) + Shows(es[1..])
  }

  /** `create_rate_limit_notice` at time `now`. Whatever the state, the
      result is active with the hide due at `now + 5000`. From idle it shows
      exactly one new notice; while active it shows none, keeps the notice,
      and clears the pending hide before scheduling the new one. */
  function RateLimited(s: Notices, now: int): (r: Step)
    requires Consistent(s)
    ensures Consistent(r.state)
    ensures PhaseOf(r.state).Active? && PhaseOf(r.state).deadline == now + HideDelay
    ensures s.notice.None? ==> PhaseOf(r.state).notice == s.created && Shows(r.effects) == 1
    ensures s.notice.Some? ==> r.state.notice == s.notice && Shows(r.effects) == 0
    ensures s.notice.Some? ==> |r.effects| > 0 && r.effects[0] == ClearTimer(s.timeout.value.handle)
    ensures r.state.timeout.value.handle !in TimerHandles(s)
  {
    var t := Timer(s.scheduled, now + HideDelay);
    if s.notice.Some? then
      var es := [ClearTimer(s.timeout.value.handle), SetTimer(t.handle, t.deadline)];
      PairLemmas(es);
      Step(s.(timeout := Some(t), scheduled := s.scheduled + 1), es)
    else
      var id := s.created;
      var es := [ShowNotice(id, RateLimitMessage, RateLimitDuration), SetTimer(t.handle, t.deadline)];
      PairLemmas(es);
      Step(Notices(Some(id), Some(t), s.created + 1, s.scheduled + 1), es)
  }

  /** Unfolds `Shows` and `Replay` over a two-effect list. */
  lemma PairLemmas(es: seq<Effect>)
    requires |es| == 2
    ensures Shows(es) == (if es[0].ShowNotice? then 1 else 0) + (if es[1].ShowNotice? then 1 else 0)
    ensures forall sc :: Replay(sc, es) == Apply(Apply(sc, es[0]), es[1])
  {
    assert es[1..][1..] == [];
    forall sc: Screen ensures Replay(sc, es) == Apply(Apply(sc, es[0]), es[1]) {
      calc {
        Replay(sc, es);
        Replay(Apply(sc, es[0]), es[1..]);
        Replay(Apply(Apply(sc, es[0]), es[1]), es[1..][1..]);
      }
    }
  }

  /** The handles of the timers the state still refers to. */
  function TimerHandles(s: Notices): set<nat> {
    if s.timeout.Some? then {s.timeout.value.handle} else {}
  }

  function NoticeIds(s: Notices): set<nat> {
    if s.notice.Some? then {s.notice.value} else {}
  }

  /** The hide callback runs for timer `handle`. Only the pending timer can
      run: one that was cleared never does, so its handle changes nothing.
      When it runs it hides the notice and empties both slots. */
  function TimerFired(s: Notices, handle: nat): (r: Step)
    requires Consistent(s)
    ensures Consistent(r.state)
    ensures handle in TimerHandles(s) ==> PhaseOf(r.state) == Idle && r.effects == [TimerExpired(handle), HideNotice(s.notice.value)]
    ensures handle !in TimerHandles(s) ==> r == Step(s, [])
  {
    if s.timeout.Some? && s.timeout.value.handle == handle then
      var hidden := if s.notice.Some? then [HideNotice(s.notice.value)] else [];
      Step(s.(notice := None, timeout := None), [TimerExpired(handle)] + hidden)
    else
      Step(s, [])
  }

  /** The logical clock reaches `now`: the pending hide runs if it is due. */
  function Tick(s: Notices, now: int): (r: Step)
    requires Consistent(s)
    ensures Consistent(r.state)
    ensures PhaseOf(r.state) ==
              (if PhaseOf(s).Active? && PhaseOf(s).deadline <= now then Idle else PhaseOf(s))
  {
    if s.timeout.Some? && s.timeout.value.deadline <= now then TimerFired(s, s.timeout.value.handle) else Step(s, [])
  }

  /** After a 429 while active, the hide it replaced can no longer run: the
      timer never fires twice for one notice. */
  lemma ReplacedTimerIsInert(s: Notices, now: int)
    requires Consistent(s) && s.notice.Some?
    ensures TimerFired(RateLimited(s, now).state, s.timeout.value.handle) == Step(RateLimited(s, now).state, [])
  {
  }

  /** The debounce seen through the clock: a second 429 at `t1`, before the
      first hide at `t0 + 5000` ran, keeps the one notice up past that
      original deadline, and it goes away 5000 ms after the last 429. */
  lemma DebounceTrace(t0: int, t1: int)
    requires t0 < t1 < t0 + HideDelay
    ensures var first := RateLimited(Initial, t0);
            var second := RateLimited(first.state, t1);
            && Shows(first.effects) + Shows(second.effects) == 1
            && Tick(second.state, t0 + HideDelay) == Step(second.state, [])
            && PhaseOf(Tick(second.state, t1 + HideDelay - 1).state) == Active(0, t1 + HideDelay)
            && PhaseOf(Tick(second.state, t1 + HideDelay).state) == Idle
  {
    var first := RateLimited(Initial, t0);
    var second := RateLimited(first.state, t1);
    assert PhaseOf(first.state) == Active(0, t0 + HideDelay);
    assert PhaseOf(second.state) == Active(0, t1 + HideDelay);
    assert Shows(first.effects) + Shows(second.effects) == 1;
    assert Tick(second.state, t0 + HideDelay) == Step(second.state, []);
    assert PhaseOf(Tick(second.state, t1 + HideDelay - 1).state) == Active(0, t1 + HideDelay);
    assert PhaseOf(Tick(second.state, t1 + HideDelay).state) == Idle;
  }

  /** The screen as the effects leave it: notices on display and timers
      pending. */
  datatype Screen = Screen(visible: set<nat>, pending: set<nat>)

  function Apply(sc: Screen, e: Effect): Screen {
    match e
    case ShowNotice(id, _, _) => sc.(visible := sc.visible + {id})
    case HideNotice(id) => sc.(visible := sc.visible - {id})
    case SetTimer(h, _) => sc.(pending := sc.pending + {h})
    case ClearTimer(h) => sc.(pending := sc.pending - {h})
    case TimerExpired(h) => sc.(pending := sc.pending - {h})
    case ShowApiKeyNotice(_, _) => sc
  }

  function Replay(sc: Screen, es: seq<Effect>): Screen
    decreases |es|
  {
    if es == [] then sc else Replay(Apply(sc, es[0]), es[1..])
  }

  lemma {:induction false} ReplayAppend(sc: Screen, a: seq<Effect>, b: seq<Effect>)
    ensures Replay(sc, a + b) == Replay(Replay(sc, a), b)
    decreases |a|
  {
    if a == [] {
      assert a + b == b;
    } else {
      assert (a + b)[0] == a[0];
      assert (a + b)[1..] == a[1..] + b;
      ReplayAppend(Apply(sc, a[0]), a[1..], b);
    }
  }

  /** The screen that matches a state: its notice, if any, and its pending
      timer, if any. */
  function ScreenOf(s: Notices): Screen {
    Screen(NoticeIds(s), TimerHandles(s))
  }

  /** Inputs to the debounce: a 429 at some time, or the clock moving on. */
  datatype Event = TooManyRequests(at: int) | Clock(at: int)

  function Handle(s: Notices, e: Event): (r: Step)
    requires Consistent(s)
    ensures Consistent(r.state)
  {
    match e
    case TooManyRequests(t) => RateLimited(s, t)
    case Clock(t) => Tick(s, t)
  }

  /** Each transition moves the screen from the old state's to the new
      state's. */
  lemma HandleMovesScreen(s: Notices, e: Event)
    requires Consistent(s)
    ensures Replay(ScreenOf(s), Handle(s, e).effects) == ScreenOf(Handle(s, e).state)
  {
    var es := Handle(s, e).effects;
    if |es| == 2 {
      PairLemmas(es);
    }
  }

  /** Runs a sequence of events from `s`, collecting the effects in order. */
  function Run(s: Notices, events: seq<Event>): (r: Step)
    requires Consistent(s)
    ensures Consistent(r.state)
    decreases |events|
  {
    if events == [] then Step(s, [])
    else
      var before := Run(s, events[..|events| - 1]);
      var last := Handle(before.state, events[|events| - 1]);
      Step(last.state, before.effects + last.effects)
  }

  /** Over any history, replaying the effects from an empty screen leaves
      exactly the state's notice and timer on it: at most one rate-limit
      notice is ever visible and at most one hide is ever pending. */
  lemma {:induction false} RunMatchesScreen(events: seq<Event>)
    ensures Replay(Screen({}, {}), Run(Initial, events).effects) == ScreenOf(Run(Initial, events).state)
    ensures |ScreenOf(Run(Initial, events).state).visible| <= 1
    ensures |ScreenOf(Run(Initial, events).state).pending| <= 1
    decreases |events|
  {
    if events != [] {
      var prefix := events[..|events| - 1];
      var before := Run(Initial, prefix);
      var last := Handle(before.state, events[|events| - 1]);
      RunMatchesScreen(prefix);
      ReplayAppend(Screen({}, {}), before.effects, last.effects);
      HandleMovesScreen(before.state, events[|events| - 1]);
    }
  }
}
