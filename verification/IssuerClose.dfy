/** Teardown of a prepared domain (scripts/acceptance_prepared_domain.py, `PreparedDomainIssuer._close`,
    `finish`, `abort` and `ScenarioLease`). Every sub-step and every receipt write may fail. */
module IssuerClose {
  import opened Results
  import opened Snapshot
  import opened OwnerBijection
  import opened FreshDomain
  import opened Generations
  import opened Signals

  type FileIdentity = (nat, nat)

  // ----- what a close may do, on the issuer's status

  datatype Status = Status(registered: bool, closed: bool, error: bool, phase: Option<Phase>)

  // The request, and whether the two final receipts can be written.
  datatype Request = Request(retain: bool, validate: bool, closedRecorded: bool, holdRecorded: bool)

  function End(retain: bool): Option<Phase> { Some(if retain then VerifiedRetained else Disposed) }

  // `failed`: this call collected an error.
  ghost predicate CloseRel(s: Status, t: Status, q: Request, failed: bool, raised: bool) {
    if s.closed then t == s && raised == s.error && !failed
    else
      && !t.registered && t.error == (s.error || failed) && raised == t.error
      && (t.closed <==> !failed || q.holdRecorded)
      && (!q.closedRecorded ==> failed)
      && (if failed then t.phase in {Some(Hold), Some(Disposed)}
          else t.phase == End(q.retain) && (q.validate ==> s.phase == Some(DomainReleased)))
  }

  // A stored error on an issuer that is still unclosed has already put the domain on HOLD or beyond.
  ghost predicate Consistent(s: Status) {
    s.error && !s.closed ==> s.phase == Some(Hold) || s.phase == Some(Disposed)
  }

  /** A close ends DISPOSED, HOLD or VERIFIED_RETAINED; retained only for a validated retain without any
      error, stored now or before; without a stored error exactly the requested end was reached. */
  lemma CloseEnds(s: Status, t: Status, q: Request, failed: bool, raised: bool)
    requires CloseRel(s, t, q, failed, raised) && Consistent(s) && !s.closed && (q.retain ==> q.validate)
    ensures Consistent(t) && !t.registered
    ensures t.phase in {Some(Disposed), Some(Hold), Some(VerifiedRetained)}
    ensures t.phase == Some(VerifiedRetained) ==> q.retain && q.validate && !t.error && !raised
    ensures !t.error ==> t.closed && t.phase == End(q.retain)
  { }

  /** A close leaves the issuer unclosed exactly when it collected an error and the issuer_hold receipt
      could not be written. */
  lemma UnclosedExactly(s: Status, t: Status, q: Request, failed: bool, raised: bool)
    requires CloseRel(s, t, q, failed, raised) && !s.closed
    ensures !t.closed <==> failed && !q.holdRecorded
    ensures !t.closed ==> !t.registered && t.error && raised
  { }

  /** Told from the inputs: a close of an open issuer is sure to leave it closed, whatever else fails,
      exactly when the issuer_hold receipt can be written. */
  lemma SureToClose(s: Status, q: Request)
    requires !s.closed
    ensures (forall t, failed, raised :: CloseRel(s, t, q, failed, raised) ==> t.closed) <==> q.holdRecorded
  {
    if !q.holdRecorded {
      var t := Status(false, false, true, Some(Hold));
      assert CloseRel(s, t, q, true, true) && !t.closed;
    }
  }

  ghost predicate CloseStep(s: Status, t: Status) {
    exists q, failed, raised :: CloseRel(s, t, q, failed, raised)
  }

  ghost predicate Moves(r: seq<Status>, i: int)
    requires 0 <= i < |r| - 1
  {
    CloseStep(r[i], r[i + 1])
  }

  ghost predicate Closes(r: seq<Status>) {
    r != [] && forall i :: 0 <= i < |r| - 1 ==> Moves(r, i)
  }

  lemma StoredErrorRaises(s: Status, t: Status, q: Request, failed: bool, raised: bool)
    requires CloseRel(s, t, q, failed, raised) && s.error
    ensures raised && t.error
  { }

  /** Over any number of closes: once closed nothing changes, a stored error is never lost, and a call
      that finds it raises. */
  lemma {:induction false} ErrorsAreKept(r: seq<Status>, i: nat, j: nat)
    requires Closes(r) && i <= j < |r|
    ensures r[i].closed ==> r[j] == r[i]
    ensures r[i].error ==> r[j].error
    ensures r[i].error ==> forall t, q, failed, raised :: CloseRel(r[j], t, q, failed, raised) ==> raised
    decreases j
  {
    if i < j {
      ErrorsAreKept(r, i, j - 1);
      assert Moves(r, j - 1);
    }
    forall t, q, failed, raised | r[i].error && CloseRel(r[j], t, q, failed, raised) ensures raised {
      StoredErrorRaises(r[j], t, q, failed, raised);
    }
  }

  // ----- abort and finish

  ghost predicate AbortStep(s: Status, t: Status, closedRecorded: bool, holdRecorded: bool, raised: bool) {
    exists failed :: CloseRel(s, t, Request(false, false, closedRecorded, holdRecorded), failed, raised)
  }

  ghost predicate FinishStep(s: Status, t: Status, expired: bool, retain: bool,
                             closedRecorded: bool, holdRecorded: bool, raised: bool) {
    if expired then raised && exists r :: AbortStep(s, t, closedRecorded, holdRecorded, r)
    else exists failed :: CloseRel(s, t, Request(retain, true, closedRecorded, holdRecorded), failed, raised)
  }

  /** A normal return has the requested end if and only if the issuer was not yet closed, or its earlier
      end was the requested one. */
  lemma FinishEndsExactly(s: Status, t: Status, expired: bool, retain: bool, cr: bool, hr: bool)
    requires FinishStep(s, t, expired, retain, cr, hr, false)
    ensures !expired && t.closed && !t.error && (s.closed ==> t == s)
    ensures t.phase == End(retain) <==> !s.closed || s.phase == End(retain)
  { }

  lemma AbortEndsExactly(s: Status, t: Status, cr: bool, hr: bool)
    requires AbortStep(s, t, cr, hr, false)
    ensures t.closed && !t.error && (s.closed ==> t == s)
    ensures t.phase == End(false) <==> !s.closed || s.phase == End(false)
  { }

  const OPEN := Status(true, false, false, Some(DomainReleased))

  /** It does happen: an abort after a retained finish returns normally, and the domain stays retained. */
  lemma AbortAfterRetain() returns (t: Status)
    ensures FinishStep(OPEN, t, false, true, true, true, false) && t.phase == Some(VerifiedRetained)
    ensures AbortStep(t, t, true, true, false)
  {
    t := Status(false, true, false, Some(VerifiedRetained));
    assert CloseRel(OPEN, t, Request(true, true, true, true), false, false);
    assert CloseRel(t, t, Request(false, false, true, true), false, false);
  }

  /** And a retaining finish after an abort returns normally, although the domain is gone. */
  lemma RetainAfterAbort() returns (t: Status)
    ensures AbortStep(OPEN, t, true, true, false) && t.phase == Some(Disposed)
    ensures FinishStep(t, t, false, true, true, true, false)
  {
    t := Status(false, true, false, Some(Disposed));
    assert CloseRel(OPEN, t, Request(false, false, true, true), false, false);
    assert CloseRel(t, t, Request(true, true, true, true), false, false);
  }

  /** A failed issuer_hold receipt leaves the issuer unclosed; the next close runs again and, whatever it
      achieves, raises. */
  lemma UnclosedThenRaises() returns (t: Status, u: Status)
    ensures CloseRel(OPEN, t, Request(false, false, false, false), true, true) && !t.closed && !t.registered
    ensures CloseRel(t, u, Request(false, false, true, true), false, true)
    ensures u.closed && u.error && u.phase == Some(Disposed)
  {
    t := Status(false, false, true, Some(Hold));
    u := Status(false, true, true, Some(Disposed));
  }

  lemma QuiesceKeepsOwned(cfg: Config, s: Domain, t: Domain, q: QuiesceSteps, ok: bool)
    requires QuiesceRel(cfg, s, t, q, ok)
    ensures t.owned == s.owned && (ok ==> s.Now() == Some(DomainReleased) && t.Now() == Some(Quiescent))
  {
    hide Proven, IsSnapshot;
  }

  // A checkpoint can be taken and is found unchanged right after it.
  ghost predicate Retainable(cfg: Config, s: Domain, q: QuiesceSteps, obs: Observation, again: Observation,
                             third: Observation) {
    Quiescible(cfg, s, q, obs, again) && Complete(s.db, third)
  }

  // Not disposed of yet, the last receipt can be written, and the checkpoint asked for can be taken.
  ghost predicate Discardable(cfg: Config, s: Domain, r: Request, q: QuiesceSteps,
                              obs: Observation, again: Observation) {
    r.closedRecorded && s.Now() != Some(Disposed) && (r.validate ==> Quiescible(cfg, s, q, obs, again))
  }

  lemma OwnFloorKept(cfg: Config, s: Domain, t: Domain)
    requires Bijective(cfg.decode(t.db), OwnersOf(t.db), s.floor)
    ensures Bijective(cfg.decode(t.db), OwnersOf(t.db), OwnersOf(t.db))
  { }

  lemma QuiescedIsVerifiable(cfg: Config, s: Domain, t: Domain, q: QuiesceSteps, obs: Observation)
    requires QuiesceRel(cfg, s, t, q, true)
    ensures t.db == s.db && (Verifiable(cfg, t, obs) <==> Complete(t.db, obs))
  {
    hide IsSnapshot, Excluded, ValidateHeader, Complete;
    assert Proven(cfg, t.acl, t.clients, t.header, t.db, s.floor);
    assert Proven(cfg, t.acl, t.clients, t.header, t.db, t.floor) by { OwnFloorKept(cfg, s, t); }
  }

  // ----- the objects

  // Every recorded descriptor still names the object it was opened on.
  ghost predicate Unchanged(fds: map<nat, FileIdentity>, actual: map<nat, FileIdentity>) {
    forall fd :: fd in fds ==> fd in actual && actual[fd] == fds[fd]
  }

  // Only descriptors that are still the ones this issuer opened are closed.
  method CloseDescriptors(fds: map<nat, FileIdentity>, actual: map<nat, FileIdentity>, quiet: bool)
    returns (released: set<nat>, clean: bool)
    ensures forall fd :: fd in released ==> fd in fds && fd in actual && actual[fd] == fds[fd]
    ensures clean ==> released == fds.Keys
    ensures clean ==> Unchanged(fds, actual)
    ensures quiet ==> (clean <==> Unchanged(fds, actual))
  {
    released, clean := {}, true;
    var rest := fds.Keys;
    while rest != {}
      invariant rest <= fds.Keys && released <= fds.Keys - rest
      invariant forall fd :: fd in released ==> fd in actual && actual[fd] == fds[fd]
      invariant clean ==> released == fds.Keys - rest
      invariant quiet && !clean ==> !Unchanged(fds, actual)
      decreases rest
    {
      var fd :| fd in rest;
      var closes := Answer(quiet);
      if fd in actual && actual[fd] == fds[fd] && closes {
        released := released + {fd};
      } else {
        clean := false;
      }
      rest := rest - {fd};
    }
  }

  // The separately pooled client handed to the scenario.
  class ScenarioLease {
    const issuer: PreparedDomainIssuer
    var closed: bool
    var clientClosed: bool

    constructor (issuer: PreparedDomainIssuer)
      ensures this.issuer == issuer && !closed && !clientClosed
    {
      this.issuer, closed, clientClosed := issuer, false, false;
    }

    // `client` raises unless the lease is open and its issuer is live.
    method Client(now: nat, sameCreator: bool) returns (given: bool)
      ensures given <==> !closed && issuer.Live(now) && sameCreator
    {
      given := !closed && issuer.Live(now) && sameCreator;
    }

    method Close(quiet: bool) returns (ok: bool)
      modifies this
      ensures closed && (ok ==> clientClosed) && (quiet ==> ok)
    {
      closed := true;
      ok := true;
      if !clientClosed {
        ok := Answer(quiet);
        if ok { clientClosed := true; }
      }
    }
  }

  class PreparedDomainIssuer {
    const domain: OwnedFreshDomain
    var registered: bool
    var closed: bool
    var error: bool
    var deadline: Option<nat>
    var lease: Option<ScenarioLease>
    var child: Option<Process>
    var fds: map<nat, FileIdentity>

    constructor (domain: OwnedFreshDomain)
      ensures this.domain == domain && registered && !closed && !error
      ensures deadline == None && lease == None && child == None && fds == map[]
    {
      this.domain, registered, closed, error := domain, true, false, false;
      deadline, lease, child, fds := None, None, None, map[];
    }

    predicate Timely(now: nat)
      reads this
    {
      deadline.Some? ==> now < deadline.value
    }

    // `_live`, apart from the creator-process comparison.
    predicate Live(now: nat)
      reads this
    {
      registered && !closed && (deadline.Some? ==> now < deadline.value)
    }

    ghost function View(): Status
      reads this, domain
    {
      Status(registered, closed, error, domain.phase)
    }

    ghost predicate Valid()
      reads this, domain, domain.kernel
    {
      domain.Valid() && domain.owned && Consistent(View())
    }

    // The processes this issuer may signal.
    ghost function Targets(): set<nat>
      reads this
    {
      {domain.process.generation} + if child.Some? then {child.value.generation} else {}
    }

    // Reap the child, close the private descriptors and the lease; false if anything failed.
    method ReleaseResources(actual: map<nat, FileIdentity>, quiet: bool) returns (clean: bool)
      requires domain.kernel.Valid()
      modifies this`fds, domain.kernel, if lease.Some? then {lease.value} else {}
      ensures domain.kernel.Valid() && fds == map[]
      ensures lease.Some? ==> lease.value.closed
      ensures clean && child.Some? ==> child.value.generation in domain.kernel.returned
      ensures quiet && child.None? ==> (clean <==> Unchanged(old(fds), actual))
      ensures old(domain.kernel.returned) <= domain.kernel.returned
      ensures OnlyTo(old(domain.kernel.sent), domain.kernel.sent, Targets())
    {
      hide IsRun;
      var reaped := true;
      if child.Some? { reaped := domain.kernel.ReapChild(child.value, quiet); }
      var released, fdsClean := CloseDescriptors(fds, actual, quiet);
      fds := map[];
      var leaseClean := true;
      if lease.Some? { leaseClean := lease.value.Close(quiet); }
      clean := reaped && fdsClean && leaseClean;
    }

    // The protected part: validate and retain, or abort.
    method Settle(q: Request, clean: bool, steps: QuiesceSteps,
                  obs: Observation, again: Observation, third: Observation, quiet: bool)
      returns (ok: bool)
      requires domain.Valid() && domain.owned && (q.retain ==> q.validate)
      requires Observes(domain.server.db, obs) && Observes(domain.server.db, again)
      requires Observes(domain.server.db, third)
      modifies domain, domain.server, domain.kernel
      ensures domain.Valid() && domain.owned
      ensures ok ==> q.closedRecorded
      ensures ok && clean && q.validate ==> old(domain.phase) == Some(DomainReleased)
      ensures ok && clean ==> domain.phase == End(q.retain)
      ensures old(domain.kernel.returned) <= domain.kernel.returned
      ensures quiet && clean && q.retain ==>
        (ok <==> q.closedRecorded && Retainable(domain.cfg, old(domain.View()), steps, obs, again, third))
      ensures quiet && clean && !q.retain && domain.process.generation in old(domain.kernel.returned) ==>
        (Discardable(domain.cfg, old(domain.View()), q, steps, obs, again) ==> ok)
      ensures OnlyTo(old(domain.kernel.sent), domain.kernel.sent, {domain.process.generation})
    {
      hide Protected, StaysReleased, Proven, IsSnapshot, Observes, RevokeOrNot, IsRun, Quiescible, Verifiable, Complete;
      ok := true;
      if q.validate && clean {
        ok := domain.Quiesce(steps, obs, again, quiet);
        QuiesceKeepsOwned(domain.cfg, old(domain.View()), domain.View(), steps, ok);
        if ok && q.retain {
          QuiescedIsVerifiable(domain.cfg, old(domain.View()), domain.View(), steps, third);
          ok := domain.VerifyRetained(third, quiet);
        }
      }
      if ok && (!q.retain || !clean) { ok := domain.AbortOwned(quiet); }
      ok := ok && q.closedRecorded;                        // issuer_closed receipt
    }

    // A failure of the protected part is followed by one more abort.
    method SettleOrAbort(q: Request, clean: bool, steps: QuiesceSteps,
                         obs: Observation, again: Observation, third: Observation, quiet: bool)
      returns (ok: bool)
      requires domain.Valid() && domain.owned && (q.retain ==> q.validate)
      requires Observes(domain.server.db, obs) && Observes(domain.server.db, again)
      requires Observes(domain.server.db, third)
      modifies domain, domain.server, domain.kernel
      ensures domain.Valid() && domain.owned
      ensures ok ==> q.closedRecorded
      ensures ok && clean && q.validate ==> old(domain.phase) == Some(DomainReleased)
      ensures ok && clean ==> domain.phase == End(q.retain)
      ensures old(domain.kernel.returned) <= domain.kernel.returned
      ensures quiet && clean && q.retain ==>
        (ok <==> q.closedRecorded && Retainable(domain.cfg, old(domain.View()), steps, obs, again, third))
      ensures quiet && clean && !q.retain && domain.process.generation in old(domain.kernel.returned) ==>
        (Discardable(domain.cfg, old(domain.View()), q, steps, obs, again) ==> ok)
      ensures OnlyTo(old(domain.kernel.sent), domain.kernel.sent, {domain.process.generation})
    {
      hide IsRun, Observes, AbortRel, Retainable, Discardable;
      ok := Settle(q, clean, steps, obs, again, third, quiet);
      if !ok && domain.phase != Some(Disposed) {
        var cleaned := domain.AbortOwned(quiet);
      }
    }

    // Everything `_close` does before it looks at the collected errors.
    method Unwind(q: Request, actual: map<nat, FileIdentity>, steps: QuiesceSteps,
                  obs: Observation, again: Observation, third: Observation, quiet: bool)
      returns (failed: bool)
      requires domain.Valid() && domain.owned && (q.retain ==> q.validate)
      requires Observes(domain.server.db, obs) && Observes(domain.server.db, again)
      requires Observes(domain.server.db, third)
      modifies this`fds, if lease.Some? then {lease.value} else {}, domain, domain.server, domain.kernel
      ensures domain.Valid() && domain.owned && fds == map[] && (lease.Some? ==> lease.value.closed)
      ensures !failed ==> domain.phase == End(q.retain) && q.closedRecorded
      ensures !failed && q.validate ==> old(domain.phase) == Some(DomainReleased)
      ensures !failed && child.Some? ==> child.value.generation in domain.kernel.returned
      ensures quiet && child.None? && q.retain ==>
        (!failed <==> && Unchanged(old(fds), actual) && q.closedRecorded
                      && Retainable(domain.cfg, old(domain.View()), steps, obs, again, third))
      ensures quiet && child.None? && !q.retain && domain.process.generation in old(domain.kernel.returned) ==>
        (Discardable(domain.cfg, old(domain.View()), q, steps, obs, again) && Unchanged(old(fds), actual) ==> !failed)
      ensures OnlyTo(old(domain.kernel.sent), domain.kernel.sent, Targets())
    {
      hide IsRun, Observes, Unchanged, Retainable, Discardable, OnlyTo;
      var clean := ReleaseResources(actual, quiet);
      ghost var released := domain.kernel.sent;
      var ok := SettleOrAbort(q, clean, steps, obs, again, third, quiet);
      OnlyToCompose(old(domain.kernel.sent), released, domain.kernel.sent, Targets(), {domain.process.generation});
      assert Targets() + {domain.process.generation} == Targets();
      failed := !ok || !clean;
    }

    /** `_close`: see `CloseRel` for the status; an already closed issuer's domain is not touched, and
        every signal goes to the launched Redis or to the registered child. If nothing else fails and no
        child was started, a retaining close succeeds exactly when the domain can be retained, and a
        discarding one whenever the process has exited. */
    method Close(q: Request, actual: map<nat, FileIdentity>, steps: QuiesceSteps,
                 obs: Observation, again: Observation, third: Observation, quiet: bool)
      returns (raised: bool, failed: bool)
      requires Valid() && (q.retain ==> q.validate)
      requires Observes(domain.server.db, obs) && Observes(domain.server.db, again)
      requires Observes(domain.server.db, third)
      modifies this`registered, this`closed, this`error, this`fds, if lease.Some? then {lease.value} else {}
      modifies domain, domain.server, domain.kernel
      ensures Valid() && CloseRel(old(View()), View(), q, failed, raised)
      ensures old(closed) ==> fds == old(fds) && domain.View() == old(domain.View())
      ensures !old(closed) ==> fds == map[] && (lease.Some? ==> lease.value.closed)
      ensures !old(closed) && !failed && child.Some? ==> child.value.generation in domain.kernel.returned
      ensures quiet && !old(closed) && child.None? && q.retain ==>
        (!failed <==> && Unchanged(old(fds), actual) && q.closedRecorded
                      && Retainable(domain.cfg, old(domain.View()), steps, obs, again, third))
      ensures quiet && !old(closed) && child.None? && !q.retain
                && domain.process.generation in old(domain.kernel.returned) ==>
        (Discardable(domain.cfg, old(domain.View()), q, steps, obs, again) && Unchanged(old(fds), actual) ==> !failed)
      ensures OnlyTo(old(domain.kernel.sent), domain.kernel.sent, Targets())
    {
      hide IsRun, Observes, Unchanged, Retainable, Discardable;
      if closed { return error, false; }
      registered := false;
      failed := Unwind(q, actual, steps, obs, again, third, quiet);
      if failed {
        error := true;
        if domain.phase != Some(Disposed) { domain.Enter(Hold); }
        if !q.holdRecorded { return true, true; }          // issuer_hold receipt; its failure escapes unclosed
      }
      closed := true;
      raised := error;
    }

    // `abort`
    method Abort(closedRecorded: bool, holdRecorded: bool, actual: map<nat, FileIdentity>, obs: Observation,
                 quiet: bool)
      returns (raised: bool)
      requires Valid() && Observes(domain.server.db, obs)
      modifies this`registered, this`closed, this`error, this`fds, if lease.Some? then {lease.value} else {}
      modifies domain, domain.server, domain.kernel
      ensures Valid() && AbortStep(old(View()), View(), closedRecorded, holdRecorded, raised)
      ensures old(closed) ==> fds == old(fds) && domain.View() == old(domain.View())
      ensures OnlyTo(old(domain.kernel.sent), domain.kernel.sent, Targets())
    {
      hide Observes, OnlyTo, CloseRel;
      var failed;
      var steps := QuiesceSteps(NotApplied, false, false); // not used without validation
      raised, failed := Close(Request(false, false, closedRecorded, holdRecorded), actual, steps, obs, obs, obs, quiet);
    }

    /** `finish`: an expired scenario never completes normally; see `FinishEndsExactly` for the end a
        normal return has. */
    method Finish(now: nat, retain: bool, closedRecorded: bool, holdRecorded: bool,
                  actual: map<nat, FileIdentity>, steps: QuiesceSteps,
                  obs: Observation, again: Observation, third: Observation, quiet: bool)
      returns (raised: bool)
      requires Valid()
      requires Observes(domain.server.db, obs) && Observes(domain.server.db, again)
      requires Observes(domain.server.db, third)
      modifies this`registered, this`closed, this`error, this`fds, if lease.Some? then {lease.value} else {}
      modifies domain, domain.server, domain.kernel
      ensures Valid()
      ensures quiet && !old(closed) && !old(error) && child.None? && retain && Timely(now) ==>
        (!raised <==> && Unchanged(old(fds), actual) && closedRecorded
                      && Retainable(domain.cfg, old(domain.View()), steps, obs, again, third))
      ensures FinishStep(old(View()), View(), deadline.Some? && now >= deadline.value, retain,
                         closedRecorded, holdRecorded, raised)
      ensures old(closed) ==> fds == old(fds) && domain.View() == old(domain.View())
      ensures OnlyTo(old(domain.kernel.sent), domain.kernel.sent, Targets())
    {
      hide Observes, OnlyTo, Unchanged, Retainable;
      if deadline.Some? && now >= deadline.value {
        raised := Abort(closedRecorded, holdRecorded, actual, obs, quiet);
        return true;
      }
      var failed;
      var request := Request(retain, true, closedRecorded, holdRecorded);
      raised, failed := Close(request, actual, steps, obs, again, third, quiet);
    }
  }
}
