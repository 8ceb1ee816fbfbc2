/** Cancellation-proof cleanup (scripts/acceptance_prepared_domain.py, `_await_owned_cleanup` and the
    nested `_shield_abort` / `_shield_close`; reused by the legacy `close`).

    `cancel()` acts on what a task is suspended on: the outer future of a shield is cancelled by itself,
    a task awaited directly is cancelled in turn. After each CancelledError the loop waits again. */
module OwnedCleanup {
  import opened Results

  // How a task ends. A cleanup coroutine that is itself cancelled ends RaisedCancelled.
  datatype Outcome = Returned | RaisedCancelled | RaisedFailure(error: string)

  // `task.result()` first, the caller's own cancellation only after it.
  function Conclude(cancelled: bool, task: Outcome): Outcome {
    if task != Returned then task else if cancelled then RaisedCancelled else Returned
  }

  // What a wait is suspended on: the outer future of a new shield, or the task itself.
  datatype Await = OnShield | OnTask

  // ----- wrappers around wrappers, in any interleaving

  datatype Level = Level(
    waits: nat, wait: Await,                             // waits completed; what the present one is on
    outerCancelled: bool, mustCancel: bool,              // a CancelledError is due at the next wake-up
    cancelled: bool,                                     // the loop's own flag
    hit: bool,                                           // cancel() was called before it finished
    outcome: Option<Outcome>)

  // levels[0] awaits the owned cleanup, levels[l] awaits the task that runs levels[l - 1]. `policy`
  // says what the n-th wait of the loop is on; `requests` counts cancellations reaching the cleanup.
  datatype System = System(policy: nat -> Await, cleanup: Option<Outcome>, requests: nat, levels: seq<Level>)

  datatype Event = CancelAt(level: nat) | CleanupDone(outcome: Outcome) | WakeUp(level: nat)

  function Awaited(s: System, l: nat): Option<Outcome>
    requires l < |s.levels|
  {
    if l == 0 then s.cleanup else s.levels[l - 1].outcome
  }

  // `task.cancel()` on the task that runs level l.
  function Cancel(s: System, l: nat): System
    requires l < |s.levels|
    decreases l
  {
    var v := s.levels[l].(hit := true);
    if v.outcome.Some? then s
    else if v.outerCancelled || v.mustCancel || Awaited(s, l).Some? then
      s.(levels := s.levels[l := v.(mustCancel := true)])
    else if v.wait == OnShield then s.(levels := s.levels[l := v.(outerCancelled := true)])
    else
      var u := s.(levels := s.levels[l := v]);
      if l > 0 then Cancel(u, l - 1) else u.(requests := u.requests + 1)
  }

  predicate Due(s: System, l: nat)
    requires l < |s.levels|
  {
    s.levels[l].outerCancelled || s.levels[l].mustCancel
  }

  // The coroutine of level l runs until it waits again or ends.
  function Resumed(s: System, l: nat): Level
    requires l < |s.levels|
  {
    var v := s.levels[l];
    var done := Awaited(s, l);
    if Due(s, l) then
      if done.Some? then v.(cancelled := true, outcome := Some(Conclude(true, done.value)))
      else v.(waits := v.waits + 1, wait := s.policy(v.waits + 1), outerCancelled := false, mustCancel := false,
              cancelled := true)
    else if done.None? then v
    else if done.value.RaisedFailure? then v.(outcome := done)
    else
      var cancelled := v.cancelled || done.value == RaisedCancelled;
      v.(cancelled := cancelled, outcome := Some(Conclude(cancelled, done.value)))
  }

  function Apply(s: System, e: Event): System {
    match e
    case CancelAt(l) => if l < |s.levels| then Cancel(s, l) else s
    case CleanupDone(o) => if s.cleanup.None? then s.(cleanup := Some(o)) else s
    case WakeUp(l) =>
      if l < |s.levels| && s.levels[l].outcome.None? then s.(levels := s.levels[l := Resumed(s, l)]) else s
  }

  function Exec(s: System, events: seq<Event>): System {
    if events == [] then s else Apply(Exec(s, events[..|events| - 1]), events[|events| - 1])
  }

  // Every wrapper is at its first wait.
  function Start(policy: nat -> Await, depth: nat): System {
    System(policy, None, 0, seq(depth, i => Level(0, policy(0), false, false, false, false, None)))
  }

  ghost predicate AlwaysShields(policy: nat -> Await) { forall n: nat :: policy(n) == OnShield }

  // ----- the invariant

  ghost predicate LevelSound(s: System, l: nat)
    requires l < |s.levels|
  {
    var v := s.levels[l];
    && v.wait == s.policy(v.waits)
    && (v.outcome.None? ==> (v.hit <==> v.cancelled || Due(s, l)))
    && (v.outcome.Some? ==> Awaited(s, l).Some? && v.outcome.value == Conclude(v.hit, Awaited(s, l).value))
  }

  ghost predicate Sound(s: System) {
    AlwaysShields(s.policy) && s.requests == 0 && forall l :: 0 <= l < |s.levels| ==> LevelSound(s, l)
  }

  // With the present wait on a shield, a cancellation stops there.
  lemma CancelStops(s: System, l: nat)
    requires Sound(s) && l < |s.levels|
    ensures var t := Cancel(s, l);
      && t == s.(levels := t.levels) && |t.levels| == |s.levels|
      && (forall k :: 0 <= k < |s.levels| && k != l ==> t.levels[k] == s.levels[k])
      && t.levels[l].outcome == s.levels[l].outcome && LevelSound(t, l)
  {
    assert LevelSound(s, l);
  }

  lemma CancelKeeps(s: System, l: nat)
    requires Sound(s) && l < |s.levels|
    ensures Sound(Cancel(s, l)) && |Cancel(s, l).levels| == |s.levels|
  {
    CancelStops(s, l);
    var t := Cancel(s, l);
    hide Cancel;
    forall k | 0 <= k < |t.levels| ensures LevelSound(t, k) {
      assert LevelSound(s, k);
    }
  }

  lemma WakeKeeps(s: System, l: nat)
    requires Sound(s) && l < |s.levels| && s.levels[l].outcome.None?
    ensures Sound(s.(levels := s.levels[l := Resumed(s, l)]))
  {
    var t := s.(levels := s.levels[l := Resumed(s, l)]);
    forall k | 0 <= k < |t.levels| ensures LevelSound(t, k) {
      assert LevelSound(s, k) && LevelSound(s, l);
    }
  }

  lemma DoneKeeps(s: System, o: Outcome)
    requires Sound(s) && s.cleanup.None?
    ensures Sound(s.(cleanup := Some(o)))
  {
    var t := s.(cleanup := Some(o));
    forall k | 0 <= k < |t.levels| ensures LevelSound(t, k) { assert LevelSound(s, k); }
  }

  lemma ApplyKeeps(s: System, e: Event)
    requires Sound(s)
    ensures Sound(Apply(s, e)) && |Apply(s, e).levels| == |s.levels|
  {
    hide LevelSound, Cancel, Resumed;
    match e
    case CancelAt(l) => if l < |s.levels| { CancelKeeps(s, l); }
    case WakeUp(l) => if l < |s.levels| && s.levels[l].outcome.None? { WakeKeeps(s, l); }
    case CleanupDone(o) => if s.cleanup.None? { DoneKeeps(s, o); }
  }

  lemma {:induction false} ExecKeeps(s: System, events: seq<Event>)
    requires Sound(s)
    ensures Sound(Exec(s, events)) && |Exec(s, events).levels| == |s.levels|
    decreases |events|
  {
    hide Sound, Apply;
    if events != [] {
      ExecKeeps(s, events[..|events| - 1]);
      ApplyKeeps(Exec(s, events[..|events| - 1]), events[|events| - 1]);
    }
  }

  lemma StartSound(policy: nat -> Await, depth: nat)
    requires AlwaysShields(policy)
    ensures Sound(Start(policy, depth))
  { }

  // ----- outcomes

  ghost predicate HitUpTo(s: System, l: int) {
    exists k :: 0 <= k <= l && k < |s.levels| && s.levels[k].hit
  }

  lemma {:induction false} LevelConclusion(s: System, l: nat)
    requires Sound(s) && l < |s.levels| && s.levels[l].outcome.Some?
    ensures s.cleanup.Some?
    ensures s.levels[l].outcome.value == Conclude(HitUpTo(s, l), s.cleanup.value)
    ensures !s.cleanup.value.Returned? ==> s.levels[l].outcome == s.cleanup
    ensures s.cleanup.value.Returned? ==> (s.levels[l].outcome == Some(RaisedCancelled) <==> HitUpTo(s, l))
  {
    assert LevelSound(s, l);
    if l > 0 {
      assert Awaited(s, l) == s.levels[l - 1].outcome;
      LevelConclusion(s, l - 1);
      assert HitUpTo(s, l) <==> HitUpTo(s, l - 1) || s.levels[l].hit;
    } else {
      assert HitUpTo(s, 0) <==> s.levels[0].hit;
    }
  }

  // Some event of the schedule cancelled this wrapper while it was unfinished.
  ghost predicate CancelledAt(s: System, events: seq<Event>, l: nat, i: nat)
    requires i < |events|
  {
    events[i] == CancelAt(l) && l < |Exec(s, events[..i]).levels| && Exec(s, events[..i]).levels[l].outcome.None?
  }

  ghost predicate WasCancelled(s: System, events: seq<Event>, l: nat) {
    exists i :: 0 <= i < |events| && CancelledAt(s, events, l, i)
  }

  lemma HitStep(s: System, e: Event, l: nat)
    requires Sound(s) && l < |s.levels|
    ensures |Apply(s, e).levels| == |s.levels|
    ensures Apply(s, e).levels[l].hit <==> s.levels[l].hit || (e == CancelAt(l) && s.levels[l].outcome.None?)
  {
    ApplyKeeps(s, e);
    if e.CancelAt? && e.level < |s.levels| { CancelStops(s, e.level); }
    assert LevelSound(s, l);
  }

  lemma WasCancelledStep(s: System, events: seq<Event>, l: nat)
    requires events != []
    ensures WasCancelled(s, events, l)
       <==> WasCancelled(s, events[..|events| - 1], l) || CancelledAt(s, events, l, |events| - 1)
  {
    hide Exec;
    var init := events[..|events| - 1];
    forall i | 0 <= i < |init| ensures CancelledAt(s, events, l, i) <==> CancelledAt(s, init, l, i) {
      assert init[..i] == events[..i];
    }
  }

  lemma {:induction false} HitExactly(s: System, events: seq<Event>, l: nat)
    requires Sound(s) && l < |s.levels| && !s.levels[l].hit
    ensures |Exec(s, events).levels| == |s.levels|
    ensures Exec(s, events).levels[l].hit <==> WasCancelled(s, events, l)
    decreases |events|
  {
    hide Apply, Sound;
    if events != [] {
      var init, n := events[..|events| - 1], |events| - 1;
      HitExactly(s, init, l);
      ExecKeeps(s, init);
      HitStep(Exec(s, init), events[n], l);
      WasCancelledStep(s, events, l);
    }
  }

  // Somebody cancelled this wrapper or one it waits for.
  ghost predicate AnyCancelled(s: System, events: seq<Event>, l: nat) {
    exists k: nat :: k <= l && WasCancelled(s, events, k)
  }

  /** However deeply wrapped and however often cancelled at any level: no cancellation reaches the
      cleanup; a wrapper ends only after it; its failure wins; cancellation is raised only if it
      succeeded; a normal return means it succeeded and no unfinished wrapper was cancelled. */
  lemma CleanupIsProtected(policy: nat -> Await, depth: nat, events: seq<Event>, l: nat)
    requires AlwaysShields(policy) && l < depth
    ensures var start := Start(policy, depth);
      var s := Exec(start, events);
      && s.requests == 0 && |s.levels| == depth
      && (s.levels[l].outcome.Some? ==>
            && s.cleanup.Some?
            && (!s.cleanup.value.Returned? ==> s.levels[l].outcome == s.cleanup)
            && (s.cleanup.value.Returned? ==>
                  s.levels[l].outcome.value == if AnyCancelled(start, events, l) then RaisedCancelled else Returned))
  {
    hide Apply, Exec;
    var start := Start(policy, depth);
    StartSound(policy, depth);
    ExecKeeps(start, events);
    var s := Exec(start, events);
    if s.levels[l].outcome.Some? {
      LevelConclusion(s, l);
      forall k | 0 <= k <= l ensures s.levels[k].hit <==> WasCancelled(start, events, k) {
        HitExactly(start, events, k);
      }
      assert HitUpTo(s, l) <==> AnyCancelled(start, events, l);
    }
  }

  // ----- every wait must be shielded

  // n cancellations, each followed by a new wait.
  function Rounds(n: nat): seq<Event> {
    if n == 0 then [] else Rounds(n - 1) + [CancelAt(0), WakeUp(0)]
  }

  lemma ExecOne(s: System, events: seq<Event>, e: Event)
    ensures Exec(s, events + [e]) == Apply(Exec(s, events), e)
  {
    assert (events + [e])[..|events|] == events;
  }

  lemma ExecTwo(s: System, events: seq<Event>, d: Event, e: Event)
    ensures Exec(s, events + [d, e]) == Apply(Apply(Exec(s, events), d), e)
  {
    assert events + [d, e] == events + [d] + [e];
    ExecOne(s, events + [d], e);
    ExecOne(s, events, d);
  }

  lemma {:induction false} AfterRounds(policy: nat -> Await, n: nat)
    requires forall m: nat :: m < n ==> policy(m) == OnShield
    ensures Exec(Start(policy, 1), Rounds(n))
         == System(policy, None, 0, [Level(n, policy(n), false, false, n > 0, n > 0, None)])
  {
    if n > 0 {
      AfterRounds(policy, n - 1);
      var s := Exec(Start(policy, 1), Rounds(n - 1));
      ExecTwo(Start(policy, 1), Rounds(n - 1), CancelAt(0), WakeUp(0));
      var t := Apply(s, CancelAt(0));
      assert t.levels == [s.levels[0].(hit := true, outerCancelled := true)];
      assert Apply(t, WakeUp(0)).levels == [Resumed(t, 0)];
    }
  }

  lemma DirectWaitCancelsCleanup(policy: nat -> Await, n: nat)
    requires policy(n) == OnTask && forall m: nat :: m < n ==> policy(m) == OnShield
    ensures Exec(Start(policy, 1), Rounds(n) + [CancelAt(0)]).requests == 1
  {
    AfterRounds(policy, n);
    ExecOne(Start(policy, 1), Rounds(n), CancelAt(0));
  }

  lemma {:induction false} FirstDirectWait(policy: nat -> Await, n: nat) returns (m: nat)
    requires policy(n) == OnTask
    ensures policy(m) == OnTask && forall k: nat :: k < m ==> policy(k) == OnShield
  {
    if k: nat :| k < n && policy(k) == OnTask {
      m := FirstDirectWait(policy, k);
    } else {
      m := n;
    }
  }

  /** The cleanup is out of reach of every schedule exactly when every wait, not only the first, is on a
      shield. */
  lemma ProtectedExactly(policy: nat -> Await)
    ensures (forall events :: Exec(Start(policy, 1), events).requests == 0) <==> AlwaysShields(policy)
  {
    if AlwaysShields(policy) {
      forall events ensures Exec(Start(policy, 1), events).requests == 0 { CleanupIsProtected(policy, 1, events, 0); }
    } else {
      var n: nat :| policy(n) == OnTask;
      var m := FirstDirectWait(policy, n);
      DirectWaitCancelsCleanup(policy, m);
    }
  }

  /** Shielding the first wait and awaiting the task directly after a cancellation would let the second
      cancel() of a caller reach the cleanup. */
  lemma DirectAwaitCancelsCleanup()
    ensures var policy := (n: nat) => if n == 0 then OnShield else OnTask;
      Exec(Start(policy, 1), Rounds(1) + [CancelAt(0)]).requests == 1
  {
    var policy := (n: nat) => if n == 0 then OnShield else OnTask;
    DirectWaitCancelsCleanup(policy, 1);
  }

  // ----- the loop

  datatype Signal = CallerCancel | TaskDone(outcome: Outcome)

  // The events one signal stands for: it happens and the waiting coroutine runs.
  function Script(schedule: seq<Signal>): seq<Event> {
    if schedule == [] then []
    else
      var last := schedule[|schedule| - 1];
      Script(schedule[..|schedule| - 1])
      + (match last case CallerCancel => [CancelAt(0), WakeUp(0)] case TaskDone(o) => [CleanupDone(o), WakeUp(0)])
  }

  function Shields(): nat -> Await { (n: nat) => OnShield }

  ghost function After(schedule: seq<Signal>): System { Exec(Start(Shields(), 1), Script(schedule)) }

  lemma CancelRound(schedule: seq<Signal>, i: nat, cancelled: bool)
    requires i < |schedule| && schedule[i].CallerCancel?
    requires After(schedule[..i]) ==
      System(Shields(), None, 0, [Level(i, OnShield, false, false, cancelled, cancelled, None)])
    ensures After(schedule[..i + 1]) ==
      System(Shields(), None, 0, [Level(i + 1, OnShield, false, false, true, true, None)])
  {
    assert schedule[..i + 1][..i] == schedule[..i];
    var s := After(schedule[..i]);
    ExecTwo(Start(Shields(), 1), Script(schedule[..i]), CancelAt(0), WakeUp(0));
    var t := Apply(s, CancelAt(0));
    assert t.levels == [s.levels[0].(hit := true, outerCancelled := true)];
    assert Apply(t, WakeUp(0)).levels == [Resumed(t, 0)];
  }

  lemma DoneRound(schedule: seq<Signal>, i: nat, cancelled: bool)
    requires i < |schedule| && schedule[i].TaskDone?
    requires After(schedule[..i]) ==
      System(Shields(), None, 0, [Level(i, OnShield, false, false, cancelled, cancelled, None)])
    ensures |After(schedule[..i + 1]).levels| == 1
    ensures After(schedule[..i + 1]).levels[0].outcome == Some(Conclude(cancelled, schedule[i].outcome))
    ensures After(schedule[..i + 1]).requests == 0
  {
    assert schedule[..i + 1][..i] == schedule[..i];
    var o := schedule[i].outcome;
    ExecTwo(Start(Shields(), 1), Script(schedule[..i]), CleanupDone(o), WakeUp(0));
    var t := Apply(After(schedule[..i]), CleanupDone(o));
    assert Apply(t, WakeUp(0)).levels == [Resumed(t, 0)];
  }

  /** The loop against any schedule of caller cancellations does what the system above does: it waits
      exactly while the task is not done, concludes from the task's own result first, and passes no
      cancellation on to the task. */
  method AwaitOwnedCleanup(schedule: seq<Signal>) returns (r: Option<Outcome>, used: nat)
    ensures used <= |schedule| && |After(schedule[..used]).levels| == 1
    ensures r == After(schedule[..used]).levels[0].outcome && After(schedule[..used]).requests == 0
    ensures r.None? <==> used == |schedule| && forall i :: 0 <= i < |schedule| ==> schedule[i].CallerCancel?
    ensures r.Some? ==> 0 < used && schedule[used - 1].TaskDone?
    ensures r.Some? ==> forall i :: 0 <= i < used - 1 ==> schedule[i].CallerCancel?
    ensures r.Some? && !schedule[used - 1].outcome.Returned? ==> r == Some(schedule[used - 1].outcome)
    ensures r.Some? && schedule[used - 1].outcome.Returned? ==>
      r == Some(if used > 1 then RaisedCancelled else Returned)
  {
    var cancelled := false;
    used := 0;
    ghost var shields := Shields();
    while used < |schedule|
      invariant used <= |schedule| && cancelled == (used > 0)
      invariant forall i :: 0 <= i < used ==> schedule[i].CallerCancel?
      invariant After(schedule[..used])
             == System(shields, None, 0, [Level(used, OnShield, false, false, cancelled, cancelled, None)])
    {
      match schedule[used] {
        case CallerCancel =>
          CancelRound(schedule, used, cancelled);
          cancelled := true;
        case TaskDone(o) =>
          DoneRound(schedule, used, cancelled);
          used := used + 1;
          if o != Returned { return Some(o), used; }
          return Some(if cancelled then RaisedCancelled else Returned), used;
      }
      used := used + 1;
    }
    r := None;
  }
}
