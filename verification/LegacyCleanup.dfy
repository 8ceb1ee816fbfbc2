/** Teardown of the legacy environment (scripts/acceptance_ci_legacy_environment.py, `_cleanup_body`).
    Every check, server call, signal, wait and receipt write may fail, and host events happen between
    any two statements; the log keeps what this process did. */
module LegacyCleanup {
  import opened Results
  import opened Generations
  import opened Signals

  datatype Action =
    | ReceiptsOk | StorageOk | RedisOk | ChildOk         // checks that succeeded
    | ChildExited                                        // child check passed without a comparison
    | CheckFailed
    | RedisLive | ChildLive                              // poll() was None
    | OpenRedis | OpenChild                              // pidfd_open
    | AclWrite | SignalRedis | SignalChild | DeleteStorage

  predicate Effect(a: Action) { a.AclWrite? || a.SignalRedis? || a.SignalChild? || a.DeleteStorage? }

  predicate Guarded(a: Action) { a.AclWrite? || a.SignalRedis? || a.SignalChild? }

  ghost predicate ChecksOnly(t: seq<Action>) { forall a :: a in t ==> !Effect(a) }

  // The handle was opened between a successful identity comparison and a second check.
  ghost predicate Bracketed(t: seq<Action>, check: Action, handle: Action, again: set<Action>) {
    exists a, b, c :: 0 <= a < b < c < |t| && t[a] == check && t[b] == handle && t[c] in again
  }

  // A pidfd of the live process was opened between two checks. The child's second check may have found
  // an exit status instead of comparing.
  ghost predicate RedisHeld(t: seq<Action>) { Bracketed(t, RedisOk, OpenRedis, {RedisOk}) }

  ghost predicate ChildHeld(t: seq<Action>) { Bracketed(t, ChildOk, OpenChild, {ChildOk, ChildExited}) }

  // The process was identified while alive, or its exit status was already recorded.
  ghost predicate RedisIdentified(t: seq<Action>, generation: nat, known: set<nat>) {
    ReceiptsOk in t && StorageOk in t && (RedisHeld(t) || generation in known)
  }

  ghost predicate ChildIdentified(t: seq<Action>, generation: nat, known: set<nat>) {
    ChildHeld(t) || generation in known
  }

  lemma BracketedLeft(u: seq<Action>, v: seq<Action>, check: Action, handle: Action, again: set<Action>)
    requires Bracketed(u, check, handle, again)
    ensures Bracketed(u + v, check, handle, again)
  {
    var a, b, c :| 0 <= a < b < c < |u| && u[a] == check && u[b] == handle && u[c] in again;
    var t := u + v;
    assert t[a] == check && t[b] == handle && t[c] in again;
  }

  lemma BracketedRight(u: seq<Action>, v: seq<Action>, check: Action, handle: Action, again: set<Action>)
    requires Bracketed(v, check, handle, again)
    ensures Bracketed(u + v, check, handle, again)
  {
    var a, b, c :| 0 <= a < b < c < |v| && v[a] == check && v[b] == handle && v[c] in again;
    var t := u + v;
    assert t[|u| + a] == check && t[|u| + b] == handle && t[|u| + c] in again;
  }

  ghost predicate DeletesChecked(t: seq<Action>) {
    forall i :: 0 <= i < |t| && t[i] == DeleteStorage ==> i > 0 && t[i - 1] == StorageOk
  }

  // Signals and ACL writes need a handle that was opened between two checks.
  ghost predicate EffectsHeld(checks: seq<Action>, rest: seq<Action>) {
    && (AclWrite in rest || SignalRedis in rest ==> RedisHeld(checks))
    && (SignalChild in rest ==> ChildHeld(checks))
  }

  lemma NoDeletes(s: seq<Action>)
    requires forall a :: a in s ==> Guarded(a)
    ensures DeletesChecked(s)
  {
    forall i | 0 <= i < |s| ensures s[i] != DeleteStorage { assert s[i] in s; }
  }

  lemma AppendDelete(s: seq<Action>, d: seq<Action>)
    requires (forall a :: a in s ==> Guarded(a)) && DeletesChecked(d)
    ensures DeletesChecked(s + d)
  {
    var t := s + d;
    forall i | 0 <= i < |t| && t[i] == DeleteStorage ensures i > 0 && t[i - 1] == StorageOk {
      assert forall k :: 0 <= k < |s| ==> s[k] in s && s[k] == t[k];
      assert i >= |s|;
      assert d[i - |s|] == DeleteStorage;
    }
  }

  lemma HeldByBracket(t: seq<Action>, compared: bool)
    requires t == [ChildOk] + [ChildLive, OpenChild, if compared then ChildOk else ChildExited]
    ensures ChildHeld(t) && CheckFailed !in t
  {
    assert t[0] == ChildOk && t[2] == OpenChild && t[3] in {ChildOk, ChildExited};
  }

  // What the open and the second check saw.
  ghost predicate SecondSighting(r: seq<Host>, p: Process, s: Sighting, handle: nat) {
    && s.openAt <= s.second < |r| && Opened(r[s.openAt], p.pid) == Some(handle)
    && (if s.compared then Is(r[s.second], p.pid, p.generation) else p.generation in r[s.second].exited)
  }

  ghost predicate KeepsHandles(before: map<nat, nat>, after: map<nat, nat>) {
    forall h :: h in before ==> h in after && after[h] == before[h]
  }

  // The child's handle, and exactly when it is the original child.
  ghost predicate ChildHandle(r: seq<Host>, p: Process, s: Sighting, handle: nat) {
    && LenientlyOpened(r, p, s, handle)
    && (handle == p.generation <==> !Collected(r, s.first, s.openAt, p.pid, p.generation))
  }

  // A strict check may refuse a process that has exited or lost its PID.
  ghost predicate Lost(r: seq<Host>, i: nat, j: nat, p: Process, returned: set<nat>) {
    p.generation in returned || Vanished(r, i, j, p)
  }

  // Two signals were in vain, or there was nobody to signal any more.
  ghost predicate StopFails(r: seq<Host>, i: nat, j: nat, redis: nat, child: nat, signals: int) {
    signals >= 2 || Unreachable(r, i, j, redis) || Unreachable(r, i, j, child)
  }

  // An open pidfd is bound to this generation.
  ghost predicate Bound(handles: map<nat, nat>, fd: Option<nat>, generation: nat) {
    fd.Some? ==> fd.value in handles && handles[fd.value] == generation
  }

  class OwnedLegacyEnvironment {
    const kernel: Kernel
    const redis: Process
    const child: Process
    var hasProcess: bool
    var hasChild: bool
    var hasClient: bool
    var hasRoot: bool
    var closed: bool
    var cleanupError: bool
    var log: seq<Action>

    constructor (kernel: Kernel, redis: Process, child: Process,
                 hasProcess: bool, hasChild: bool, hasClient: bool, hasRoot: bool)
      ensures !closed && !cleanupError && log == []
      ensures this.kernel == kernel && this.redis == redis && this.child == child
      ensures this.hasProcess == hasProcess && this.hasChild == hasChild
    {
      this.kernel, this.redis, this.child := kernel, redis, child;
      this.hasProcess, this.hasChild, this.hasClient, this.hasRoot := hasProcess, hasChild, hasClient, hasRoot;
      closed, cleanupError, log := false, false, [];
    }

    method Note(ok: bool, a: Action) returns (ghost t: seq<Action>)
      modifies this`log
      ensures t == [if ok then a else CheckFailed] && log == old(log) + t
    {
      log, t := log + [if ok then a else CheckFailed], [if ok then a else CheckFailed];
    }

    // Receipts and the storage they describe.
    method VerifyFiles(quiet: bool) returns (ok: bool, ghost t: seq<Action>)
      modifies this`log
      ensures log == old(log) + t && ChecksOnly(t)
      ensures ok ==> t == [ReceiptsOk, StorageOk]
      ensures quiet ==> ok
    {
      ok := Answer(quiet);
      t := Note(ok, ReceiptsOk);
      if !ok { return; }
      ok := Answer(quiet);
      ghost var u := Note(ok, StorageOk);
      t := t + u;
    }

    // The live Redis: verify, open its pidfd, verify again.
    method BracketRedis(quiet: bool) returns (ok: bool, fd: Option<nat>, ghost t: seq<Action>)
      requires kernel.Valid()
      modifies this`log, kernel`now, kernel`returned, kernel`handles, kernel`nextFd
      ensures kernel.Valid() && log == old(log) + t && ChecksOnly(t)
      ensures old(kernel.returned) <= kernel.returned
      ensures old(kernel.now) <= kernel.now
      ensures ok ==> t == [RedisLive, RedisOk, OpenRedis, RedisOk] && fd.Some?
      ensures ok ==> Bound(kernel.handles, fd, redis.generation)
      ensures quiet && !ok ==> Lost(kernel.run, old(kernel.now), kernel.now, redis, kernel.returned)
    {
      hide IsRun;
      ghost var u: seq<Action>, first, second;
      fd := None;
      log, t := log + [RedisLive], [RedisLive];
      ok, first := kernel.VerifyLive(redis, quiet);
      u := Note(ok, RedisOk);
      t := t + u;
      if !ok { return; }
      fd := kernel.PidfdOpen(redis);
      if fd.None? {
        assert !Is(kernel.run[kernel.now], redis.pid, redis.generation);
        return false, fd, t;
      }
      ghost var openAt := kernel.now;
      log, t := log + [OpenRedis], t + [OpenRedis];
      ok, second := kernel.VerifyLive(redis, quiet);
      u := Note(ok, RedisOk);
      t := t + u;
      if ok { GenerationIsContinuous(kernel.run, first, openAt, second, redis.pid, redis.generation); }
    }

    method VerifyRedis(quiet: bool) returns (ok: bool, fd: Option<nat>, ghost t: seq<Action>)
      requires kernel.Valid()
      modifies this`log, kernel`now, kernel`returned, kernel`handles, kernel`nextFd
      ensures kernel.Valid() && log == old(log) + t && ChecksOnly(t)
      ensures old(kernel.returned) <= kernel.returned
      ensures ok ==> ReceiptsOk in t && StorageOk in t && CheckFailed !in t
      ensures old(kernel.now) <= kernel.now
      ensures ok && fd.Some? ==> RedisHeld(t)
      ensures quiet && !ok ==> Lost(kernel.run, old(kernel.now), kernel.now, redis, kernel.returned)
      ensures ok && fd.None? ==> redis.generation in kernel.returned
      ensures ok ==> Bound(kernel.handles, fd, redis.generation)
    {
      hide IsRun;
      fd := None;
      ok, t := VerifyFiles(quiet);
      if !ok { return; }
      var live := kernel.Poll(redis);
      if live {
        ghost var u: seq<Action>;
        ok, fd, u := BracketRedis(quiet);
        t := t + u;
        if ok {
          assert t == [ReceiptsOk, StorageOk, RedisLive, RedisOk, OpenRedis, RedisOk];
          assert t[3] == RedisOk && t[4] == OpenRedis && t[5] == RedisOk;
        }
      }
    }

    // `_verify_child`, noting whether the identity was compared.
    method CheckChild(quiet: bool) returns (ok: bool, compared: bool, ghost at: nat, ghost t: seq<Action>)
      requires kernel.Valid()
      modifies this`log, kernel`now, kernel`returned
      ensures kernel.Valid() && old(kernel.now) <= at <= kernel.now && old(kernel.returned) <= kernel.returned
      ensures ok && compared ==> Is(kernel.run[at], child.pid, child.generation)
      ensures !compared ==> child.generation in kernel.returned && child.generation in kernel.run[at].exited
      ensures quiet && !ok ==> !Is(kernel.run[at], child.pid, child.generation)
      ensures t == [if !ok then CheckFailed else if compared then ChildOk else ChildExited] && log == old(log) + t
    {
      ok, compared, at := kernel.VerifyUnlessExited(child, quiet);
      t := Note(ok, if compared then ChildOk else ChildExited);
    }

    // The child still runs: open its pidfd and check again.
    method BracketChild(quiet: bool) returns (ok: bool, fd: Option<nat>, ghost t: seq<Action>, ghost seen: Sighting)
      requires kernel.Valid()
      modifies this`log, kernel`now, kernel`returned, kernel`handles, kernel`nextFd
      ensures kernel.Valid() && log == old(log) + t && ChecksOnly(t)
      ensures KeepsHandles(old(kernel.handles), kernel.handles)
      ensures old(kernel.returned) <= kernel.returned
      ensures old(kernel.now) <= kernel.now
      ensures quiet && !ok ==> Vanished(kernel.run, old(kernel.now), kernel.now, child)
      ensures ok ==> t == [ChildLive, OpenChild, if seen.compared then ChildOk else ChildExited]
      ensures ok ==> fd.Some? && fd.value in kernel.handles && old(kernel.now) <= seen.openAt
      ensures ok ==> SecondSighting(kernel.run, child, seen, kernel.handles[fd.value])
    {
      hide IsRun, OnlyTo;
      seen := Sighting(0, 0, 0, false);
      log, t := log + [ChildLive], [ChildLive];
      fd := kernel.PidfdOpen(child);
      if fd.None? {
        assert !Is(kernel.run[kernel.now], child.pid, child.generation);
        return false, fd, t, seen;
      }
      ghost var openAt := kernel.now;
      log, t := log + [OpenChild], t + [OpenChild];
      ghost var second, u;
      var again;
      ok, again, second, u := CheckChild(quiet);
      t := t + u;
      seen := Sighting(0, openAt, second, again);
    }

    // The child: `_verify_child` first, and again after the open.
    method VerifyChild(quiet: bool) returns (ok: bool, fd: Option<nat>, ghost t: seq<Action>, ghost seen: Sighting)
      requires kernel.Valid()
      modifies this`log, kernel`now, kernel`returned, kernel`handles, kernel`nextFd
      ensures kernel.Valid() && log == old(log) + t && ChecksOnly(t)
      ensures KeepsHandles(old(kernel.handles), kernel.handles)
      ensures old(kernel.returned) <= kernel.returned && (ok ==> CheckFailed !in t)
      ensures old(kernel.now) <= kernel.now
      ensures ok && fd.Some? ==> ChildHeld(t)
      ensures quiet && !ok ==> Vanished(kernel.run, old(kernel.now), kernel.now, child)
      ensures ok && fd.None? ==> child.generation in kernel.returned
      ensures ok && fd.Some? ==> fd.value in kernel.handles
      ensures ok && fd.Some? ==> LenientlyOpened(kernel.run, child, seen, kernel.handles[fd.value])
    {
      hide IsRun, OnlyTo;
      fd, seen := None, Sighting(0, 0, 0, false);
      ghost var first, u;
      var compared;
      ok, compared, first, t := CheckChild(quiet);
      if !ok { return; }
      var live := kernel.Poll(child);
      if !live { return; }
      ok, fd, u, seen := BracketChild(quiet);
      seen := seen.(first := first);
      t := t + u;
      if ok { HeldByBracket(t, seen.compared); }
    }

    // Every identity, before anything is touched.
    method VerifyAll(quiet: bool)
      returns (ok: bool, redisFd: Option<nat>, childFd: Option<nat>, ghost t: seq<Action>, ghost seen: Sighting)
      requires kernel.Valid()
      modifies this`log, kernel`now, kernel`returned, kernel`handles, kernel`nextFd
      ensures kernel.Valid() && log == old(log) + t && ChecksOnly(t)
      ensures old(kernel.returned) <= kernel.returned && (ok ==> CheckFailed !in t)
      ensures old(kernel.now) <= kernel.now
      ensures quiet && !ok ==>
        || Lost(kernel.run, old(kernel.now), kernel.now, redis, kernel.returned)
        || Vanished(kernel.run, old(kernel.now), kernel.now, child)
      ensures ok && hasProcess ==> RedisIdentified(t, redis.generation, kernel.returned)
      ensures ok && hasChild ==> ChildIdentified(t, child.generation, kernel.returned)
      ensures ok ==> (redisFd.Some? ==> RedisHeld(t)) && (childFd.Some? ==> ChildHeld(t))
      ensures ok ==> Bound(kernel.handles, redisFd, redis.generation)
      ensures ok && childFd.Some? ==> childFd.value in kernel.handles
      ensures ok && childFd.Some? ==> LenientlyOpened(kernel.run, child, seen, kernel.handles[childFd.value])
    {
      hide IsRun, Bracketed, LenientlyOpened;
      ok, redisFd, childFd, seen := true, None, None, Sighting(0, 0, 0, false);
      ghost var u: seq<Action>, v: seq<Action> := [], [];
      if hasProcess { ok, redisFd, u := VerifyRedis(quiet); }
      if ok && hasChild { ok, childFd, v, seen := VerifyChild(quiet); }
      t := u + v;
      if redisFd.Some? && RedisHeld(u) { BracketedLeft(u, v, RedisOk, OpenRedis, {RedisOk}); }
      if childFd.Some? && ChildHeld(v) { BracketedRight(u, v, ChildOk, OpenChild, {ChildOk, ChildExited}); }
    }

    // SIGTERM, a bounded wait, SIGKILL if it ran out, and the receipt.
    method Stop(p: Process, fd: Option<nat>, signal: Action, quiet: bool) returns (ok: bool, ghost t: seq<Action>)
      requires signal == SignalRedis || signal == SignalChild
      requires kernel.Valid() && (fd.Some? ==> fd.value in kernel.handles)
      modifies this`log, kernel`now, kernel`returned, kernel`sent
      ensures kernel.Valid() && log == old(log) + t && (forall a :: a in t ==> a == signal) && (t != [] ==> fd.Some?)
      ensures old(kernel.returned) <= kernel.returned
      ensures old(kernel.now) <= kernel.now && |t| == |kernel.sent| - |old(kernel.sent)|
      ensures fd.None? ==> kernel.sent == old(kernel.sent) && (quiet ==> ok)
      ensures quiet && !ok && fd.Some? ==>
        |t| == 2 || Unreachable(kernel.run, old(kernel.now), kernel.now, kernel.handles[fd.value])
      ensures fd.Some? ==> OnlyTo(old(kernel.sent), kernel.sent, {kernel.handles[fd.value]})
    {
      hide IsRun;
      t := [];
      ok := true;
      if fd.Some? {
        ok := kernel.SendSignal(fd.value);
        if !ok { return; }
        log, t := log + [signal], [signal];
        ok := kernel.Wait(p);
        if !ok {
          ok := kernel.SendSignal(fd.value);
          if !ok { return; }
          log, t := log + [signal], [signal, signal];
          ok := kernel.Wait(p);
        }
      }
      var recorded := Answer(quiet);
      ok := ok && recorded;
    }

    // Revoke the credential (failures are collected), then signal child and Redis in that order.
    method RevokeAndStop(redisFd: Option<nat>, childFd: Option<nat>, ghost handle: nat, quiet: bool)
      returns (ok: bool, clean: bool, ghost t: seq<Action>)
      requires kernel.Valid() && Bound(kernel.handles, redisFd, redis.generation)
      requires Bound(kernel.handles, childFd, handle)
      modifies this`log, kernel`now, kernel`returned, kernel`sent
      ensures kernel.Valid() && log == old(log) + t && (forall a :: a in t ==> Guarded(a))
      ensures old(kernel.returned) <= kernel.returned
      ensures (SignalRedis in t || AclWrite in t ==> redisFd.Some?) && (SignalChild in t ==> childFd.Some?)
      ensures old(kernel.now) <= kernel.now && (quiet ==> clean)
      ensures quiet && !ok ==> StopFails(kernel.run, old(kernel.now), kernel.now, redis.generation, handle,
                                        |kernel.sent| - |old(kernel.sent)|)
      ensures OnlyTo(old(kernel.sent), kernel.sent, {redis.generation, handle})
      ensures childFd.None? ==> OnlyTo(old(kernel.sent), kernel.sent, {redis.generation})
    {
      hide IsRun;
      ghost var r: seq<Action> := [];
      clean := true;
      if hasClient && redisFd.Some? {
        log, r := log + [AclWrite], [AclWrite];
        clean := Answer(quiet);
      }
      ghost var c: seq<Action> := [];
      ghost var d: seq<Action> := [];
      ok := true;
      if hasChild { ok, c := Stop(child, childFd, SignalChild, quiet); }
      if ok && hasProcess { ok, d := Stop(redis, redisFd, SignalRedis, quiet); }
      t := r + c + d;
    }

    // Descriptors, clients, and the storage right after its own check.
    method RemoveStorage(quiet: bool) returns (ok: bool, ghost t: seq<Action>)
      modifies this`log
      ensures quiet ==> ok
      ensures log == old(log) + t && DeletesChecked(t) && (forall a :: a in t ==> !Guarded(a))
      ensures ok && hasRoot ==> DeleteStorage in t
    {
      t := [];
      ok := Answer(quiet);
      if !ok || !hasRoot { return; }
      ok := Answer(quiet);
      t := Note(ok, StorageOk);
      if !ok { return; }
      log, t := log + [DeleteStorage], t + [DeleteStorage];
    }

    // Everything after the checks.
    method StopAndRemove(redisFd: Option<nat>, childFd: Option<nat>, ghost handle: nat, quiet: bool)
      returns (raised: bool, ghost rest: seq<Action>)
      requires kernel.Valid() && Bound(kernel.handles, redisFd, redis.generation)
      requires Bound(kernel.handles, childFd, handle)
      modifies this`log, this`closed, kernel`now, kernel`returned, kernel`sent
      ensures kernel.Valid() && log == old(log) + rest && DeletesChecked(rest)
      ensures (AclWrite in rest || SignalRedis in rest ==> redisFd.Some?) && (SignalChild in rest ==> childFd.Some?)
      ensures old(kernel.returned) <= kernel.returned
      ensures !raised ==> closed && (hasRoot ==> DeleteStorage in rest)
      ensures old(kernel.now) <= kernel.now
      ensures quiet && raised ==> StopFails(kernel.run, old(kernel.now), kernel.now, redis.generation, handle,
                                           |kernel.sent| - |old(kernel.sent)|)
      ensures OnlyTo(old(kernel.sent), kernel.sent, {redis.generation, handle})
      ensures childFd.None? ==> OnlyTo(old(kernel.sent), kernel.sent, {redis.generation})
    {
      hide IsRun, DeletesChecked, OnlyTo, Bound;
      var ok, clean;
      ok, clean, rest := RevokeAndStop(redisFd, childFd, handle, quiet);
      NoDeletes(rest);
      if !ok { return true, rest; }
      ghost var d: seq<Action>;
      ok, d := RemoveStorage(quiet);
      AppendDelete(rest, d);
      rest := rest + d;
      if !ok { return true, rest; }
      closed := true;
      var recorded := Answer(quiet);                      // DISPOSED receipt
      raised := !clean || !recorded;
    }

    /** `_cleanup_body`. Whatever fails and whatever happens on the host: no signal and no ACL write
        unless every owned process was identified first or had exited (`known` are the exits recorded when
        the checks ended); signals and ACL writes need a handle; a failed block is followed by nothing;
        storage is deleted only right after its own check; a finished cleanup is not repeated but keeps
        raising its error. Every signal goes to the original Redis or through the child's handle, and
        that handle is the original child exactly when the child's exit was not collected between the
        first comparison and the open. */
    method CleanupBody(quiet: bool)
      returns (raised: bool, ghost checks: seq<Action>, ghost rest: seq<Action>,
               ghost handle: Option<nat>, ghost seen: Sighting, ghost known: set<nat>)
      requires kernel.Valid()
      modifies this`log, this`closed, this`cleanupError, kernel
      ensures kernel.Valid() && log == old(log) + checks + rest && ChecksOnly(checks)
      ensures old(closed) ==> checks == [] && rest == [] && raised == old(cleanupError)
      ensures old(closed) ==> closed && cleanupError == old(cleanupError) && kernel.sent == old(kernel.sent)
      ensures old(kernel.returned) <= known <= kernel.returned
      ensures rest != [] && hasProcess ==> RedisIdentified(checks, redis.generation, known)
      ensures rest != [] && hasChild ==> ChildIdentified(checks, child.generation, known)
      ensures EffectsHeld(checks, rest) && DeletesChecked(rest)
      ensures AclWrite in rest || SignalRedis in rest ==> redis.generation in kernel.handles.Values
      ensures CheckFailed in checks ==> rest == [] && raised && kernel.sent == old(kernel.sent)
      ensures !raised && !old(closed) ==> closed && (hasRoot ==> DeleteStorage in rest)
      ensures !old(closed) && raised ==> cleanupError
      ensures quiet && raised && !old(closed) ==>
        || Lost(kernel.run, old(kernel.now), kernel.now, redis, kernel.returned)
        || Vanished(kernel.run, old(kernel.now), kernel.now, child)
        || StopFails(kernel.run, old(kernel.now), kernel.now, redis.generation,
                     if handle.Some? then handle.value else 0, |kernel.sent| - |old(kernel.sent)|)
      ensures handle.None? ==> SignalChild !in rest && OnlyTo(old(kernel.sent), kernel.sent, {redis.generation})
      ensures handle.Some? ==> OnlyTo(old(kernel.sent), kernel.sent, {redis.generation, handle.value})
      ensures handle.Some? ==> ChildHandle(kernel.run, child, seen, handle.value)
    {
      hide IsRun, LenientlyOpened, Collected, Bracketed;
      checks, rest, handle, seen, known := [], [], None, Sighting(0, 0, 0, false), kernel.returned;
      if closed { return cleanupError, checks, rest, handle, seen, known; }
      var ok, redisFd, childFd;
      ok, redisFd, childFd, checks, seen := VerifyAll(quiet);
      known := kernel.returned;
      if !ok { cleanupError := true; return true, checks, [], handle, seen, known; }
      if childFd.Some? {
        handle := Some(kernel.handles[childFd.value]);
        LegacyChildHandle(kernel.run, child, seen, handle.value);
      }
      raised, rest := StopAndRemove(redisFd, childFd, if handle.Some? then handle.value else 0, quiet);
      if raised { cleanupError := true; }
    }
  }
}
