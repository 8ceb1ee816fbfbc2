/** PIDs, generations and PID reuse (scripts/acceptance_fresh_domain.py, `process_identity`).

    A generation is one process from fork to reap. Processes may exit, be reaped and have their PID
    reused at any moment. */
module Generations {
  import opened Results

  datatype Host = Host(slot: map<nat, nat>, exited: set<nat>, next: nat)   // PID -> generation

  datatype Event = Fork(pid: nat) | Exit(pid: nat) | Reap(pid: nat)

  predicate Enabled(h: Host, e: Event) {
    match e
    case Fork(pid) => pid !in h.slot
    case Exit(pid) => pid in h.slot
    case Reap(pid) => pid in h.slot && h.slot[pid] in h.exited
  }

  function Apply(h: Host, e: Event): Host
    requires Enabled(h, e)
  {
    match e
    case Fork(pid) => Host(h.slot[pid := h.next], h.exited, h.next + 1)
    case Exit(pid) => h.(exited := h.exited + {h.slot[pid]})
    case Reap(pid) => h.(slot := h.slot - {pid})
  }

  ghost predicate Step(h: Host, k: Host) {
    exists e :: Enabled(h, e) && k == Apply(h, e)
  }

  ghost predicate Moves(r: seq<Host>, i: int)
    requires 0 <= i < |r| - 1
  {
    Step(r[i], r[i + 1])
  }

  ghost predicate IsRun(r: seq<Host>) {
    r != [] && (forall pid :: pid in r[0].slot ==> r[0].slot[pid] < r[0].next)
    && forall i :: 0 <= i < |r| - 1 ==> Moves(r, i)
  }

  predicate Is(h: Host, pid: nat, g: nat) { pid in h.slot && h.slot[pid] == g }

  // ----- generations never return

  lemma EventOf(r: seq<Host>, i: nat) returns (e: Event)
    requires IsRun(r) && i + 1 < |r|
    ensures Enabled(r[i], e) && r[i + 1] == Apply(r[i], e)
  {
    assert Moves(r, i);
    e :| Enabled(r[i], e) && r[i + 1] == Apply(r[i], e);
  }

  lemma {:induction false} Bounded(r: seq<Host>, i: nat)
    requires IsRun(r) && i < |r|
    ensures forall pid :: pid in r[i].slot ==> r[i].slot[pid] < r[i].next
  {
    if i > 0 {
      Bounded(r, i - 1);
      var e := EventOf(r, i - 1);
    }
  }

  lemma {:induction false} GoneForGood(r: seq<Host>, j: nat, k: nat, pid: nat, g: nat)
    requires IsRun(r) && j <= k < |r| && g < r[j].next && !Is(r[j], pid, g)
    ensures !Is(r[k], pid, g) && g < r[k].next
    decreases k
  {
    if j < k {
      GoneForGood(r, j, k - 1, pid, g);
      var e := EventOf(r, k - 1);
    }
  }

  lemma {:induction false} NextGrows(r: seq<Host>, i: nat, j: nat)
    requires IsRun(r) && i <= j < |r|
    ensures r[i].next <= r[j].next && r[i].exited <= r[j].exited
    decreases j
  {
    if i < j {
      NextGrows(r, i, j - 1);
      var e := EventOf(r, j - 1);
    }
  }

  /** A PID that names the same generation at two moments named it at every moment between. */
  lemma GenerationIsContinuous(r: seq<Host>, i: nat, j: nat, k: nat, pid: nat, g: nat)
    requires IsRun(r) && i <= j <= k < |r| && Is(r[i], pid, g) && Is(r[k], pid, g)
    ensures Is(r[j], pid, g)
  {
    Bounded(r, i);
    NextGrows(r, i, j);
    if !Is(r[j], pid, g) { GoneForGood(r, j, k, pid, g); }
  }

  // The generation a pidfd opened now is bound to; opening fails when the PID is free.
  function Opened(h: Host, pid: nat): Option<nat> {
    if pid in h.slot then Some(h.slot[pid]) else None
  }

  // ----- collection of an exit

  ghost predicate Collects(r: seq<Host>, m: nat, pid: nat, g: nat)
    requires m + 1 < |r|
  {
    Is(r[m], pid, g) && !Is(r[m + 1], pid, g)
  }

  // Somebody collected the exit of this generation between two moments.
  ghost predicate Collected(r: seq<Host>, i: nat, j: nat, pid: nat, g: nat)
    requires i <= j < |r|
  {
    exists m :: i <= m < j && Collects(r, m, pid, g)
  }

  lemma {:induction false} UncollectedIsKept(r: seq<Host>, i: nat, j: nat, pid: nat, g: nat)
    requires i <= j < |r| && Is(r[i], pid, g) && !Collected(r, i, j, pid, g)
    ensures Is(r[j], pid, g)
    decreases j
  {
    if i < j {
      assert !Collected(r, i, j - 1, pid, g) && !Collects(r, j - 1, pid, g);
      UncollectedIsKept(r, i, j - 1, pid, g);
    }
  }

  lemma KeptUnlessCollected(r: seq<Host>, i: nat, j: nat, pid: nat, g: nat)
    requires IsRun(r) && i <= j < |r| && Is(r[i], pid, g)
    ensures Is(r[j], pid, g) <==> !Collected(r, i, j, pid, g)
  {
    if Collected(r, i, j, pid, g) {
      Bounded(r, i);
      var m :| i <= m < j && Collects(r, m, pid, g);
      NextGrows(r, i, m + 1);
      GoneForGood(r, m + 1, j, pid, g);
    } else {
      UncollectedIsKept(r, i, j, pid, g);
    }
  }

  // ----- a PID in use again

  // The process behind PID 7 exits, is collected, and a new process gets its PID.
  ghost function ReuseRun(): (r: seq<Host>)
    ensures IsRun(r) && |r| == 4
    ensures r[0] == Host(map[7 := 1], {}, 2) && r[3] == Host(map[7 := 2], {1}, 3)
  {
    var a := Host(map[7 := 1], {}, 2);
    var b := Apply(a, Exit(7));
    var c := Apply(b, Reap(7));
    var d := Apply(c, Fork(7));
    assert c.slot == map[] && d.slot == map[7 := 2] && b.exited == {1};
    assert Step(a, b) && Step(b, c) && Step(c, d);
    var r := [a, b, c, d];
    assert Moves(r, 0) && Moves(r, 1) && Moves(r, 2);
    r
  }

  // A check before pidfd_open alone proves nothing.
  lemma FirstCheckAloneIsNotEnough() returns (r: seq<Host>)
    ensures IsRun(r) && |r| == 4 && Is(r[0], 7, 1) && 1 !in r[0].exited && Opened(r[3], 7) == Some(2)
  {
    r := ReuseRun();
  }
}
