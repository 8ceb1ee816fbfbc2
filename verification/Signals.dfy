/** The code that signals owned processes, statement by statement
    (scripts/acceptance_fresh_domain.py `abort_owned`, scripts/acceptance_prepared_domain.py
    `_reap_child`, scripts/acceptance_ci_legacy_environment.py `_cleanup_body`).

    Before every statement any number of host events may happen: processes exit, are collected by
    another thread, and their PIDs are reused. The run of host states is arbitrary and fixed in
    advance; time moves along it. */
module Signals {
  import opened Results
  import opened Generations

  // A `Popen` object together with the identity recorded when the child was created.
  datatype Process = Process(pid: nat, generation: nat)

  // Signals sent since `before`, all to generations in `allowed`.
  ghost predicate OnlyTo(before: seq<nat>, after: seq<nat>, allowed: set<nat>) {
    before <= after && forall i :: |before| <= i < |after| ==> after[i] in allowed
  }

  lemma OnlyToCompose(a: seq<nat>, b: seq<nat>, c: seq<nat>, early: set<nat>, late: set<nat>)
    requires OnlyTo(a, b, early) && OnlyTo(b, c, late)
    ensures OnlyTo(a, c, early + late)
  { }

  // What the environment answers: anything, but nothing fails while all is quiet.
  method Answer(quiet: bool) returns (ok: bool)
    ensures quiet ==> ok
  {
    ok := *;
    ok := ok || quiet;
  }

  // At some moment the PID did not name the process.
  ghost predicate Vanished(r: seq<Host>, i: nat, j: nat, p: Process) {
    exists m :: i <= m <= j && m < |r| && !Is(r[m], p.pid, p.generation)
  }

  // At some moment no process of this generation was left to signal.
  ghost predicate Unreachable(r: seq<Host>, i: nat, j: nat, generation: nat) {
    exists m :: i <= m <= j && m < |r| && generation !in r[m].slot.Values
  }

  lemma UnreachableVanished(r: seq<Host>, i: nat, j: nat, p: Process)
    ensures Unreachable(r, i, j, p.generation) ==> Vanished(r, i, j, p)
  {
    if Unreachable(r, i, j, p.generation) {
      var m :| i <= m <= j && m < |r| && p.generation !in r[m].slot.Values;
      assert !Is(r[m], p.pid, p.generation);
    }
  }

  // ----- the legacy child's handle

  // What its two checks and the open between them saw. The first comparison really happened: a child
  // whose exit status was known at the first check is not opened. The second may have been skipped.
  datatype Sighting = Sighting(first: nat, openAt: nat, second: nat, compared: bool)

  ghost predicate LenientlyOpened(r: seq<Host>, p: Process, s: Sighting, handle: nat) {
    && s.first <= s.openAt <= s.second < |r|
    && Is(r[s.first], p.pid, p.generation) && Opened(r[s.openAt], p.pid) == Some(handle)
    && (if s.compared then Is(r[s.second], p.pid, p.generation) else p.generation in r[s.second].exited)
  }

  /** The legacy child's handle is the original one exactly when the child's exit was not collected
      between the first comparison and pidfd_open; in particular if the second one was made. */
  lemma LegacyChildHandle(r: seq<Host>, p: Process, s: Sighting, handle: nat)
    requires IsRun(r) && LenientlyOpened(r, p, s, handle)
    ensures handle == p.generation <==> !Collected(r, s.first, s.openAt, p.pid, p.generation)
    ensures s.compared ==> handle == p.generation
  {
    KeptUnlessCollected(r, s.first, s.openAt, p.pid, p.generation);
    if s.compared { GenerationIsContinuous(r, s.first, s.openAt, s.second, p.pid, p.generation); }
  }

  /** It does fail: the child exits, is collected and its PID reused after the first comparison; the
      second check passes without comparing, and the handle is bound to the new process. */
  lemma LegacyChildCanBeMisdirected() returns (r: seq<Host>, s: Sighting)
    ensures IsRun(r) && LenientlyOpened(r, Process(7, 1), s, 2)
  {
    r, s := ReuseRun(), Sighting(0, 3, 3, false);
  }

  // ----- system calls

  class Kernel {
    const run: seq<Host>
    var now: nat
    var returned: set<nat>          // generations whose exit status is recorded in their Popen
    var handles: map<nat, nat>      // open pidfds
    var nextFd: nat                 // descriptor numbers in use are below this one
    var sent: seq<nat>              // generations that were sent a signal

    ghost predicate Valid()
      reads this
    {
      IsRun(run) && now < |run| && returned <= run[now].exited && forall h :: h in handles ==> h < nextFd
    }

    constructor (run: seq<Host>)
      requires IsRun(run)
      ensures Valid() && this.run == run && sent == [] && handles == map[] && returned == {}
    {
      this.run, now, returned, handles, nextFd, sent := run, 0, {}, map[], 0, [];
    }

    // Anything may happen elsewhere, including another thread recording an exit status.
    method Elapse()
      requires Valid()
      modifies this`now, this`returned
      ensures Valid() && old(now) <= now && old(returned) <= returned
    {
      var later: nat, noted: set<nat> := *, *;
      if now <= later < |run| {
        NextGrows(run, now, later);
        now := later;
      }
      returned := returned + (noted * run[now].exited);
    }

    // `poll()`: a recorded exit status stays; None may also mean another thread is just collecting it.
    method Poll(p: Process) returns (running: bool)
      requires Valid()
      modifies this`now, this`returned
      ensures Valid() && old(now) <= now && old(returned) <= returned
      ensures running <==> p.generation !in returned
    {
      Elapse();
      running := p.generation !in returned;
    }

    // `process_identity(pid)` against the recorded identity; unless all is quiet the read may raise.
    method SameIdentity(p: Process, quiet: bool) returns (same: bool)
      requires Valid()
      modifies this`now, this`returned
      ensures Valid() && old(now) <= now && old(returned) <= returned
      ensures same ==> Is(run[now], p.pid, p.generation)
      ensures quiet ==> (same <==> Is(run[now], p.pid, p.generation))
    {
      Elapse();
      var readable := Answer(quiet);
      same := readable && Is(run[now], p.pid, p.generation);
    }

    // Opening fails exactly when nobody has the PID.
    method PidfdOpen(p: Process) returns (fd: Option<nat>)
      requires Valid()
      modifies this`now, this`returned, this`handles, this`nextFd
      ensures Valid() && old(now) <= now && old(returned) <= returned
      ensures fd.None? <==> p.pid !in run[now].slot
      ensures fd.None? ==> handles == old(handles)
      ensures fd.Some? ==> fd.value !in old(handles) && handles == old(handles)[fd.value := run[now].slot[p.pid]]
    {
      Elapse();
      if p.pid !in run[now].slot { return None; }
      fd := Some(nextFd);
      handles, nextFd := handles[nextFd := run[now].slot[p.pid]], nextFd + 1;
    }

    // `pidfd_send_signal`: raises once the process has been collected.
    method SendSignal(fd: nat) returns (ok: bool)
      requires Valid() && fd in handles
      modifies this`now, this`returned, this`sent
      ensures Valid() && old(now) <= now && old(returned) <= returned
      ensures ok <==> handles[fd] in run[now].slot.Values
      ensures sent == if ok then old(sent) + [handles[fd]] else old(sent)
    {
      Elapse();
      ok := handles[fd] in run[now].slot.Values;
      if ok { sent := sent + [handles[fd]]; }
    }

    // `wait(timeout=2)`
    method Wait(p: Process) returns (exited: bool)
      requires Valid()
      modifies this`now, this`returned
      ensures Valid() && old(now) <= now && old(returned) <= returned
      ensures exited <==> p.generation in returned
    {
      Elapse();
      exited := p.generation in returned;
    }

    // ----- what the owners do with them

    // `_verify_process`, the prepared `_verify_child` and the legacy `verify`: an exited child raises.
    method VerifyLive(p: Process, quiet: bool) returns (ok: bool, ghost at: nat)
      requires Valid()
      modifies this`now, this`returned
      ensures Valid() && old(now) <= at <= now && old(returned) <= returned
      ensures ok ==> Is(run[at], p.pid, p.generation)
      ensures quiet && !ok ==> p.generation in returned || !Is(run[at], p.pid, p.generation)
    {
      ok := Poll(p);
      at := now;
      if !ok { return; }
      ok := SameIdentity(p, quiet);
      at := now;
      if !ok { return; }
      Elapse();
      ok := Answer(quiet);                                // receipts, storage, executable, listener
    }

    /** A pidfd opened between two strict checks is bound to the original generation. Unless something else
        fails, refusing means an exit is recorded or the process had lost its PID. */
    method OpenVerified(p: Process, quiet: bool) returns (ok: bool, fd: Option<nat>)
      requires Valid()
      modifies this`now, this`returned, this`handles, this`nextFd
      ensures Valid() && old(now) <= now && old(returned) <= returned
      ensures forall h :: h in old(handles) ==> h in handles && handles[h] == old(handles)[h]
      ensures ok ==> fd.Some? && fd.value in handles && handles[fd.value] == p.generation
      ensures quiet && !ok ==> p.generation in returned || Vanished(run, old(now), now, p)
    {
      fd := None;
      ghost var first, second;
      ok, first := VerifyLive(p, quiet);
      if !ok { return; }
      fd := PidfdOpen(p);
      if fd.None? {
        assert !Is(run[now], p.pid, p.generation);
        return false, None;
      }
      ghost var openAt := now;
      ok, second := VerifyLive(p, quiet);
      if ok { GenerationIsContinuous(run, first, openAt, second, p.pid, p.generation); }
    }

    // SIGTERM, two seconds, SIGKILL, two seconds. Giving up means both were sent in vain, or that the
    // handle's process had been collected.
    method Terminate(p: Process, fd: nat) returns (ok: bool)
      requires Valid() && fd in handles
      modifies this`now, this`returned, this`sent
      ensures Valid() && old(now) <= now && old(returned) <= returned
      ensures OnlyTo(old(sent), sent, {handles[fd]})
      ensures ok ==> p.generation in returned && |sent| > |old(sent)|
      ensures !ok ==> |sent| == |old(sent)| + 2 || Unreachable(run, old(now), now, handles[fd])
    {
      ok := SendSignal(fd);
      if !ok { return; }
      ok := Wait(p);
      if ok { return; }
      ok := SendSignal(fd);
      if !ok { return; }
      ok := Wait(p);
    }

    /** `abort_owned`, up to the handle: a running child is identified twice around pidfd_open; one
        that has exited needs no handle. */
    method Identify(p: Process, quiet: bool) returns (ok: bool, fd: Option<nat>)
      requires Valid()
      modifies this`now, this`returned, this`handles, this`nextFd
      ensures Valid() && old(now) <= now && old(returned) <= returned
      ensures ok && fd.Some? ==> fd.value in handles && handles[fd.value] == p.generation
      ensures ok && fd.None? ==> p.generation in returned
      ensures quiet && p.generation in old(returned) ==> ok && fd.None?
      ensures quiet && !ok ==> p.generation in returned || Vanished(run, old(now), now, p)
    {
      var running := Poll(p);
      if running {
        ok, fd := OpenVerified(p, quiet);
      } else {
        ok := Answer(quiet);                              // storage identity after the exit
        fd := None;
      }
    }

    /** `_reap_child`: whatever dies and whatever PID is reused meanwhile, every signal goes to the
        child that was registered. */
    method ReapChild(p: Process, quiet: bool) returns (ok: bool)
      requires Valid()
      modifies this
      ensures Valid() && old(now) <= now && old(returned) <= returned
      ensures OnlyTo(old(sent), sent, {p.generation})
      ensures ok ==> p.generation in returned
      ensures quiet && p.generation in old(returned) ==> ok && sent == old(sent)
      ensures quiet && !ok ==>
        p.generation in returned || |sent| == |old(sent)| + 2 || Vanished(run, old(now), now, p)
    {
      var running := Poll(p);
      ok := true;
      if running {
        var fd;
        ok, fd := OpenVerified(p, quiet);
        if !ok { return; }
        ok := Terminate(p, fd.value);
        if !ok {
          UnreachableVanished(run, old(now), now, p);
          return;
        }
      }
      ok := Answer(quiet);                                // probe_reaped receipt, captured output
    }

    // The legacy `_verify_child` compares identities only while no exit status is recorded.
    method VerifyUnlessExited(p: Process, quiet: bool) returns (ok: bool, compared: bool, ghost at: nat)
      requires Valid()
      modifies this`now, this`returned
      ensures Valid() && old(now) <= at <= now && old(returned) <= returned
      ensures ok && compared ==> Is(run[at], p.pid, p.generation)
      ensures !compared ==> ok && p.generation in returned && p.generation in run[at].exited
      ensures quiet && !ok ==> !Is(run[at], p.pid, p.generation)
    {
      compared := Poll(p);
      at := now;
      ok := true;
      if compared {
        ok := SameIdentity(p, quiet);
        at := now;
      }
    }
  }
}
