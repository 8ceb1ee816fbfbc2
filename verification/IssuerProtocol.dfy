/** The one-use grant protocol as steps between awaits
    (scripts/acceptance_prepared_domain.py, `PreparedDomainIssuer`).

    Any number of coroutines run `issue`, `redeem`, the child handoff and `_close`; they interleave
    at every await. An `Acquire` or `Resume` event runs one coroutine from its await to the next one,
    and carries what the environment answered. `Tick` moves the clock, `Rebind` changes what the
    lifecycle binding observes, `Cancel` cancels a coroutine at its await. The child process that got the
    credential builds a lease of its own, which never looks at the issuer's registry. */
module IssuerProtocol {
  import opened Results

  datatype Claim = Claim(grant: nat, scenario: string, acceptance: string, consumer: string)
  datatype Entry = Entry(claim: Claim, deadline: nat, binding: nat, used: bool)

  // What `_validate` saw when it compared everything.
  datatype Check = Check(registered: bool, closed: bool, now: nat, deadline: nat, used: bool, released: bool,
                         binding: nat, expected: nat)
  datatype Transport = InProcess | PrivatePipes
  datatype Handoff = Handoff(transport: Transport, claim: Claim, seen: Check, atHandoff: Check)

  datatype Task =
    | IssueWaiting(claim: Claim, timeout: nat) | IssueChecking(claim: Claim, timeout: nat) | IssueReleasing
    | RedeemWaiting(claim: Claim) | RedeemChecking(claim: Claim, seen: Check)
    | ChildWaiting(claim: Claim) | ChildChecking(claim: Claim, seen: Check) | ChildGreeting(claim: Claim)
    | ChildListening(claim: Claim)                       // waits for the response without the lock
    | ChildReturning(claim: Claim) | ChildRechecking(claim: Claim, seen: Check)
    | ChildSending(claim: Claim) | ChildDelivered
    | CloseWaiting | Closing
    | Finished

  // Which coroutines are inside `async with self._lock`.
  predicate Holds(t: Task) {
    || t.IssueChecking? || t.IssueReleasing? || t.RedeemChecking? || t.ChildChecking? || t.ChildGreeting?
    || t.ChildRechecking? || t.ChildSending? || t.Closing?
  }

  // The child process: started once, its lease, times that yielded its client, and its parent.
  datatype Child = Child(started: bool, running: bool, lease: bool, uses: nat, parentAlive: bool)

  datatype Core = Core(
    now: nat, binding: nat,
    registered: bool, closed: bool, error: bool,
    entry: Option<Entry>, issued: bool, released: bool,
    leased: bool, leaseOpen: bool,
    log: seq<Handoff>, uses: nat,                        // hand-offs made; times a lease yielded its client
    child: Child)

  datatype Issuer = Issuer(core: Core, lock: Option<nat>, tasks: map<nat, Task>)

  const INITIAL := Issuer(Core(0, 0, true, false, false, None, false, false, false, false, [], 0,
                               Child(false, false, false, 0, true)), None, map[])

  datatype Event =
    | Tick(delta: nat) | Rebind(value: nat)
    | Spawn(id: nat, task: Task)
    | Acquire(id: nat, ok: bool)
    | Resume(id: nat, ok: bool, effect: bool)
    | Cancel(id: nat, effect: bool)
    | ExpireFailed                                       // `_expire` records a failed deadline cleanup
    | UseLease
    | ChildAccepts                                       // the child got the credential and built its lease
    | UseChildLease
    | ChildEnds | CreatorLost

  predicate Live(c: Core) {
    c.registered && !c.closed && (c.entry.Some? ==> c.now < c.entry.value.deadline)
  }

  function Observe(c: Core): Check
    requires c.entry.Some?
  {
    Check(c.registered, c.closed, c.now, c.entry.value.deadline, c.entry.value.used, c.released,
          c.binding, c.entry.value.binding)
  }

  // The comparisons at the head of `_validate`; `ok` stands for receipts, phase details and host identity.
  predicate Matches(c: Core, claim: Claim, ok: bool) {
    && Live(c) && c.entry.Some? && c.entry.value.claim == claim && !c.entry.value.used
    && c.released && c.binding == c.entry.value.binding && ok
  }

  // `e['used'] = True` comes before the credential leaves the issuer.
  function HandOff(c: Core, transport: Transport, claim: Claim, seen: Check, made: bool): Core
    requires c.entry.Some?
  {
    c.(entry := Some(c.entry.value.(used := true)),
       leased := c.leased || (made && transport == InProcess),
       leaseOpen := c.leaseOpen || (made && transport == InProcess),
       log := if made then c.log + [Handoff(transport, claim, seen, Observe(c))] else c.log)
  }

  predicate Waits(t: Task) {
    t.IssueWaiting? || t.RedeemWaiting? || t.ChildWaiting? || t.ChildReturning? || t.CloseWaiting?
  }

  // The lock is free: run from its acquisition to the next await.
  function OnAcquire(c: Core, t: Task, ok: bool): (Core, Task)
    requires Waits(t)
  {
    match t
    case IssueWaiting(claim, timeout) =>
      (c, if Live(c) && !c.released && c.entry.None? && !c.issued && ok
          then IssueChecking(claim, timeout) else Finished)
    case RedeemWaiting(claim) => (c, if Matches(c, claim, ok) then RedeemChecking(claim, Observe(c)) else Finished)
    case ChildWaiting(claim) => (c, if Matches(c, claim, ok) then ChildChecking(claim, Observe(c)) else CloseWaiting)
    case ChildReturning(claim) =>
      (c, if Matches(c, claim, ok) then ChildRechecking(claim, Observe(c)) else CloseWaiting)
    case CloseWaiting => if c.closed then (c, Finished) else (c.(registered := false), Closing)
  }

  predicate Awaits(t: Task) { !Waits(t) && !t.Finished? }

  // An await of a running coroutine completes: run to its next await. `ok`: nothing raised so far;
  // `effect`: the last fallible action of the segment took effect.
  function OnResume(c: Core, t: Task, ok: bool, effect: bool): (Core, Task)
    requires Awaits(t)
  {
    match t
    case IssueChecking(claim, timeout) =>
      if ok then (c.(entry := Some(Entry(claim, c.now + timeout, c.binding, false)), issued := true), IssueReleasing)
      else (c, Finished)
    case IssueReleasing =>
      if ok then (c.(released := true), Finished) else (c.(released := c.released || effect), CloseWaiting)
    case RedeemChecking(claim, seen) =>
      if ok && Live(c) && c.entry.Some? then (HandOff(c, InProcess, claim, seen, effect), Finished) else (c, Finished)
    case ChildChecking(claim, _) =>
      if ok && Live(c) && !c.child.started then
        (c.(child := c.child.(started := true, running := true)), ChildGreeting(claim)) else (c, CloseWaiting)
    case ChildGreeting(claim) => (c, if ok then ChildListening(claim) else CloseWaiting)
    case ChildListening(claim) => (c, if ok then ChildReturning(claim) else CloseWaiting)
    case ChildRechecking(claim, seen) =>
      if ok && Live(c) && c.entry.Some? then (HandOff(c, PrivatePipes, claim, seen, true), ChildSending(claim))
      else (c, CloseWaiting)
    case ChildSending(_) => (c, if ok then ChildDelivered else CloseWaiting)
    case ChildDelivered => (c, CloseWaiting)
    case Closing =>
      // without an error the child has been reaped
      (c.(leaseOpen := false, released := false, closed := c.closed || ok, error := c.error || effect || !ok,
          child := c.child.(running := c.child.running && (effect || !ok))), Finished)
  }

  // Cancellation unwinds the coroutine; issue and the child handoff then abort. `_close` is shielded.
  // A release may have taken effect before its coroutine is cancelled.
  function OnCancel(c: Core, t: Task, effect: bool): (Core, Task) {
    if t.CloseWaiting? || t.Closing? || t.Finished? then (c, t)
    else if t.RedeemWaiting? || t.RedeemChecking? || t.IssueWaiting? || t.IssueChecking? then (c, Finished)
    else if t.IssueReleasing? then (c.(released := c.released || effect), CloseWaiting)
    else (c, CloseWaiting)
  }

  predicate Starts(t: Task) { t.IssueWaiting? || t.RedeemWaiting? || t.ChildWaiting? || t.CloseWaiting? }

  // Leaving `async with` frees the lock, entering takes it.
  function Move(s: Issuer, id: nat, core: Core, t: Task): Issuer {
    Issuer(core, if Holds(t) then Some(id) else if s.lock == Some(id) then None else s.lock, s.tasks[id := t])
  }

  predicate Delivered(c: Core) { c.log != [] && c.log[0].transport == PrivatePipes }

  // The child's own `valid`: the deadline it was told and the identity of its parent, nothing else.
  predicate ChildYields(c: Core) {
    c.child.lease && c.child.running && c.child.parentAlive && c.entry.Some? && c.now < c.entry.value.deadline
  }

  function World(c: Core, e: Event): Core {
    match e
    case Tick(d) => c.(now := c.now + d)
    case Rebind(b) => c.(binding := b)
    case ExpireFailed => if !c.registered then c.(closed := true, error := true) else c
    case UseLease => if c.leased && c.leaseOpen && Live(c) then c.(uses := c.uses + 1) else c
    case ChildAccepts => if Delivered(c) && c.child.running then c.(child := c.child.(lease := true)) else c
    case UseChildLease => if ChildYields(c) then c.(child := c.child.(uses := c.child.uses + 1)) else c
    case ChildEnds => c.(child := c.child.(running := false))
    case CreatorLost => c.(child := c.child.(parentAlive := false))
    case _ => c
  }

  function Apply(s: Issuer, e: Event): Issuer {
    match e
    case Spawn(id, t) => if id !in s.tasks && Starts(t) then Move(s, id, s.core, t) else s
    case Acquire(id, ok) =>
      if s.lock.None? && id in s.tasks && Waits(s.tasks[id]) then
        var (core, t) := OnAcquire(s.core, s.tasks[id], ok); Move(s, id, core, t)
      else s
    case Resume(id, ok, effect) =>
      if id in s.tasks && Awaits(s.tasks[id]) then
        var (core, t) := OnResume(s.core, s.tasks[id], ok, effect); Move(s, id, core, t)
      else s
    case Cancel(id, effect) =>
      if id in s.tasks then
        var (core, t) := OnCancel(s.core, s.tasks[id], effect); Move(s, id, core, t)
      else s
    case _ => s.(core := World(s.core, e))
  }

  function Exec(s: Issuer, events: seq<Event>): Issuer
    decreases |events|
  {
    if events == [] then s else Exec(Apply(s, events[0]), events[1..])
  }

  // ----- the invariant

  ghost predicate Clear(c: Check) {
    c.registered && !c.closed && c.now < c.deadline && !c.used
  }

  ghost predicate Validated(c: Check) { Clear(c) && c.released && c.binding == c.expected }

  ghost predicate LockExact(s: Issuer) {
    && (s.lock.Some? ==> s.lock.value in s.tasks)
    && forall id :: id in s.tasks ==> (Holds(s.tasks[id]) <==> s.lock == Some(id))
  }

  predicate Checking(t: Task) { t.RedeemChecking? || t.ChildChecking? || t.ChildRechecking? }

  // A coroutine past the comparisons still faces the same unused entry.
  ghost predicate TaskSound(c: Core, t: Task) {
    && (Checking(t) ==> c.entry.Some? && !c.entry.value.used && c.entry.value.claim == t.claim && Validated(t.seen))
    && (t.IssueChecking? ==> c.entry.None?)
    && (t.Closing? ==> !c.registered)
  }

  ghost predicate ChildSound(c: Core) {
    && (c.child.lease ==> Delivered(c)) && (c.child.running ==> c.child.started)
    && (c.child.uses > 0 ==> c.child.lease)
  }

  ghost predicate CoreSound(c: Core) {
    && |c.log| <= 1 && (c.log != [] ==> c.entry.Some? && c.entry.value.used)
    && (forall h :: h in c.log ==> h.claim == c.entry.value.claim && Validated(h.seen) && Clear(h.atHandoff))
    && (c.closed ==> !c.registered)
    && ChildSound(c)
  }

  ghost predicate Inv(s: Issuer) {
    LockExact(s) && CoreSound(s.core) && forall id :: id in s.tasks ==> TaskSound(s.core, s.tasks[id])
  }

  // ----- one segment of one coroutine

  lemma AcquireCore(c: Core, t: Task, ok: bool)
    requires Waits(t) && CoreSound(c)
    ensures var (c', t') := OnAcquire(c, t, ok);
      CoreSound(c') && c'.entry == c.entry && TaskSound(c', t') && (!c.registered ==> !c'.registered)
  { }

  lemma HandOffCore(c: Core, transport: Transport, claim: Claim, seen: Check, made: bool)
    requires CoreSound(c) && Live(c) && c.entry.Some? &&
      !c.entry.value.used && c.entry.value.claim == claim && Validated(seen)
    ensures CoreSound(HandOff(c, transport, claim, seen, made))
  {
    assert c.log == [];
  }

  lemma ResumeCore(c: Core, t: Task, ok: bool, effect: bool)
    requires Awaits(t) && CoreSound(c) && TaskSound(c, t)
    ensures CoreSound(OnResume(c, t, ok, effect).0)
  {
    hide Validated, Clear;
    match t
    case RedeemChecking(claim, seen) => if ok && Live(c) { HandOffCore(c, InProcess, claim, seen, effect); }
    case ChildRechecking(claim, seen) => if ok && Live(c) { HandOffCore(c, PrivatePipes, claim, seen, true); }
    case IssueChecking(_, _) =>
    case IssueReleasing =>
    case ChildChecking(_, _) =>
    case Closing =>
    case _ =>
  }

  lemma ResumeTask(c: Core, t: Task, ok: bool, effect: bool)
    requires Awaits(t) && TaskSound(c, t)
    ensures var (c', t') := OnResume(c, t, ok, effect);
      TaskSound(c', t') && c'.registered == c.registered && (!Holds(t) ==> c'.entry == c.entry && !Holds(t'))
  {
    hide Validated, Live;
  }

  // ----- one step of the whole issuer

  lemma MoveLocks(s: Issuer, id: nat, core: Core, t: Task)
    requires LockExact(s) && (Holds(t) ==> s.lock.None? || s.lock == Some(id))
    ensures LockExact(Move(s, id, core, t))
  {
    hide Holds;
  }

  lemma NotInside(s: Issuer, id: nat, other: nat)
    requires LockExact(s) && s.lock == Some(id) && other in s.tasks && other != id
    ensures !Checking(s.tasks[other]) && !s.tasks[other].IssueChecking?
  { }

  // The lock holder is alone inside the lock, so nobody else is past a check when the entry changes.
  lemma MoveKeeps(s: Issuer, id: nat, core: Core, t: Task)
    requires Inv(s) && CoreSound(core) && TaskSound(core, t) && (!s.core.registered ==> !core.registered)
    requires Holds(t) ==> s.lock.None? || s.lock == Some(id)
    requires core.entry != s.core.entry ==> s.lock == Some(id)
    ensures Inv(Move(s, id, core, t))
  {
    hide CoreSound, Validated, Holds;
    var u := Move(s, id, core, t);
    assert LockExact(u) by { MoveLocks(s, id, core, t); }
    forall o | o in u.tasks ensures TaskSound(u.core, u.tasks[o]) {
      if o != id && core.entry != s.core.entry { NotInside(s, id, o); }
    }
  }

  lemma SpawnKeeps(s: Issuer, id: nat, t: Task)
    requires Inv(s) && id !in s.tasks && Starts(t)
    ensures Inv(Move(s, id, s.core, t))
  {
    hide CoreSound, Validated;
    MoveKeeps(s, id, s.core, t);
  }

  lemma ResumeStep(s: Issuer, id: nat, ok: bool, effect: bool)
    requires Inv(s) && id in s.tasks && Awaits(s.tasks[id])
    ensures var (core, t) := OnResume(s.core, s.tasks[id], ok, effect); Inv(Move(s, id, core, t))
  {
    hide CoreSound, Validated, Holds, OnResume;
    ResumeCore(s.core, s.tasks[id], ok, effect);
    ResumeTask(s.core, s.tasks[id], ok, effect);
    var (core, t) := OnResume(s.core, s.tasks[id], ok, effect);
    assert Holds(s.tasks[id]) <==> s.lock == Some(id);
    MoveKeeps(s, id, core, t);
  }

  lemma CancelKeeps(s: Issuer, id: nat, effect: bool)
    requires Inv(s) && id in s.tasks
    ensures var (core, t) := OnCancel(s.core, s.tasks[id], effect); Inv(Move(s, id, core, t))
  {
    hide Validated;
    var (core, t) := OnCancel(s.core, s.tasks[id], effect);
    assert Holds(t) ==> t == s.tasks[id];
    MoveKeeps(s, id, core, t);
  }

  lemma WorldKeeps(s: Issuer, e: Event)
    requires Inv(s)
    ensures Inv(s.(core := World(s.core, e)))
  {
    hide Validated, Clear, Holds;
  }

  lemma ApplyKeeps(s: Issuer, e: Event)
    requires Inv(s)
    ensures Inv(Apply(s, e))
  {
    hide CoreSound, LockExact, Holds, Validated;
    match e
    case Spawn(id, t) => if id !in s.tasks && Starts(t) { SpawnKeeps(s, id, t); }
    case Acquire(id, ok) =>
      if s.lock.None? && id in s.tasks && Waits(s.tasks[id]) {
        AcquireCore(s.core, s.tasks[id], ok);
        var (core, t) := OnAcquire(s.core, s.tasks[id], ok);
        MoveKeeps(s, id, core, t);
      }
    case Resume(id, ok, effect) => if id in s.tasks && Awaits(s.tasks[id]) { ResumeStep(s, id, ok, effect); }
    case Cancel(id, effect) => if id in s.tasks { CancelKeeps(s, id, effect); }
    case _ => WorldKeeps(s, e);
  }

  lemma {:induction false} ExecKeeps(s: Issuer, events: seq<Event>)
    requires Inv(s)
    ensures Inv(Exec(s, events))
    decreases |events|
  {
    hide Inv, Apply;
    if events != [] {
      ApplyKeeps(s, events[0]);
      ExecKeeps(Apply(s, events[0]), events[1..]);
    }
  }

  /** In every interleaving one issuer hands its credential off at most once, over either transport,
      and only for the claim it was issued to, after a validation that saw it registered, unclosed,
      unexpired, unused and unchanged in binding; at the hand-off itself it is still registered,
      unclosed, unexpired and unused. */
  lemma OneHandoff(events: seq<Event>)
    ensures var c := Exec(INITIAL, events).core;
      && |c.log| <= 1
      && forall h :: h in c.log ==>
           && c.entry.Some? && c.entry.value.used && h.claim == c.entry.value.claim
           && h.seen.registered && !h.seen.closed && h.seen.now < h.seen.deadline && !h.seen.used
           && h.seen.released && h.seen.binding == h.seen.expected
           && h.atHandoff.registered && !h.atHandoff.closed
           && h.atHandoff.now < h.atHandoff.deadline && !h.atHandoff.used
  {
    hide Apply;
    ExecKeeps(INITIAL, events);
  }

  // ----- after the registry pop

  ghost predicate Silent(c: Core, d: Core) {
    !d.registered && d.uses == c.uses && d.log == c.log
  }

  lemma ResumeAfterPop(c: Core, t: Task, ok: bool, effect: bool)
    requires Awaits(t) && !c.registered
    ensures Silent(c, OnResume(c, t, ok, effect).0)
  { }

  lemma ApplyAfterPop(s: Issuer, e: Event)
    requires !s.core.registered
    ensures Silent(s.core, Apply(s, e).core)
  {
    hide OnResume;
    if e.Resume? && e.id in s.tasks && Awaits(s.tasks[e.id]) { ResumeAfterPop(s.core, s.tasks[e.id], e.ok, e.effect); }
  }

  /** From its registry pop on, an issuer makes no hand-off and no in-process lease yields its client. */
  lemma {:induction false} PopIsFinal(s: Issuer, events: seq<Event>)
    requires !s.core.registered
    ensures Silent(s.core, Exec(s, events).core)
    decreases |events|
  {
    hide Apply;
    if events != [] {
      ApplyAfterPop(s, events[0]);
      PopIsFinal(Apply(s, events[0]), events[1..]);
    }
  }

  // ----- the entry

  ghost predicate SameGrant(e: Option<Entry>, f: Option<Entry>) {
    e.Some? ==> f.Some? && f.value.(used := false) == e.value.(used := false) && (e.value.used ==> f.value.used)
  }

  lemma ResumeEntry(c: Core, t: Task, ok: bool, effect: bool)
    requires Awaits(t) && TaskSound(c, t)
    ensures SameGrant(c.entry, OnResume(c, t, ok, effect).0.entry)
  {
    hide Validated, Live, Observe;
    match t
    case IssueChecking(_, _) =>
    case RedeemChecking(_, _) =>
    case ChildRechecking(_, _) =>
    case _ =>
  }

  lemma ApplyEntry(s: Issuer, e: Event)
    requires Inv(s)
    ensures SameGrant(s.core.entry, Apply(s, e).core.entry)
  {
    hide CoreSound, LockExact, Holds, Validated, OnResume;
    if e.Resume? && e.id in s.tasks && Awaits(s.tasks[e.id]) { ResumeEntry(s.core, s.tasks[e.id], e.ok, e.effect); }
  }

  /** The entry is written once: its claim, deadline and binding never change, and a used grant is
      never unused again. */
  lemma {:induction false} EntryIsFinal(s: Issuer, events: seq<Event>)
    requires Inv(s)
    ensures SameGrant(s.core.entry, Exec(s, events).core.entry)
    decreases |events|
  {
    hide Apply, Inv;
    if events != [] {
      ApplyEntry(s, events[0]);
      ApplyKeeps(s, events[0]);
      EntryIsFinal(Apply(s, events[0]), events[1..]);
    }
  }

  lemma ResumeIssues(c: Core, t: Task, ok: bool, effect: bool)
    requires Awaits(t) && c.entry.None? && OnResume(c, t, ok, effect).0.entry.Some?
    ensures t.IssueChecking?
    ensures OnResume(c, t, ok, effect).0.entry == Some(Entry(t.claim, c.now + t.timeout, c.binding, false))
  {
    hide Live;
  }

  /** Every entry ever written is the issuing coroutine's: its claim, its timeout counted from now, the
      binding observed now, and not used. */
  lemma EntryIsIssued(s: Issuer, e: Event)
    requires s.core.entry.None? && Apply(s, e).core.entry.Some?
    ensures e.Resume? && e.id in s.tasks && s.tasks[e.id].IssueChecking?
    ensures var t := s.tasks[e.id];
      Apply(s, e).core.entry == Some(Entry(t.claim, s.core.now + t.timeout, s.core.binding, false))
  {
    hide OnResume, Live;
    if e.Resume? && e.id in s.tasks && Awaits(s.tasks[e.id]) { ResumeIssues(s.core, s.tasks[e.id], e.ok, e.effect); }
  }

  // ----- undisturbed coroutines

  lemma ExecThree(s: Issuer, a: Event, b: Event, c: Event)
    ensures Exec(s, [a, b, c]) == Apply(Apply(Apply(s, a), b), c)
  {
    hide Apply;
    assert [a, b, c][1..] == [b, c] && [b, c][1..] == [c] && [c][1..] == [];
    var s1 := Apply(s, a);
    var s2 := Apply(s1, b);
    assert Exec(s1, [b, c]) == Exec(s2, [c]) == Exec(Apply(s2, c), []);
  }

  // `issue` with nothing in between: acquired, checked, released.
  function Issuing(id: nat, claim: Claim, timeout: nat): seq<Event> {
    [Spawn(id, IssueWaiting(claim, timeout)), Acquire(id, true), Resume(id, true, true)]
  }

  // `redeem` with nothing in between.
  function Redeeming(id: nat, claim: Claim): seq<Event> {
    [Spawn(id, RedeemWaiting(claim)), Acquire(id, true), Resume(id, true, true)]
  }

  ghost predicate Idle(s: Issuer, id: nat) { s.lock.None? && id !in s.tasks }

  // The credential may be handed off for this claim.
  ghost predicate Redeemable(c: Core, claim: Claim) {
    && c.registered && !c.closed && c.released
    && c.entry.Some? && c.entry.value.claim == claim && !c.entry.value.used
    && c.now < c.entry.value.deadline && c.binding == c.entry.value.binding
  }

  /** At any time, an undisturbed redeem makes the one hand-off and opens the lease if and only if the
      claim is the issued one and everything is as it was issued; otherwise it changes nothing. */
  lemma RedeemExactly(s: Issuer, id: nat, claim: Claim)
    requires Idle(s, id)
    ensures var c, d := s.core, Exec(s, Redeeming(id, claim)).core;
      if Redeemable(c, claim) then
        && |d.log| == |c.log| + 1 && d.log[|c.log|].transport == InProcess && d.log[|c.log|].claim == claim
        && d.entry == Some(c.entry.value.(used := true)) && d.leased && d.leaseOpen && d.uses == c.uses
        && d.registered && !d.closed && d.now == c.now
      else d == c
  {
    ExecThree(s, Spawn(id, RedeemWaiting(claim)), Acquire(id, true), Resume(id, true, true));
    var s1 := Apply(s, Spawn(id, RedeemWaiting(claim)));
    var s2 := Apply(s1, Acquire(id, true));
    assert s2.core == s.core;
    assert s2.tasks[id] == if Redeemable(s.core, claim) then RedeemChecking(claim, Observe(s.core)) else Finished;
  }

  ghost predicate Issuable(c: Core) {
    c.registered && !c.closed && !c.released && c.entry.None? && !c.issued
  }

  /** At any time, an undisturbed issue writes the grant with its claim, a deadline counted from now and the
      present binding, if and only if the issuer is live and has issued nothing yet. */
  lemma IssueExactly(s: Issuer, id: nat, claim: Claim, timeout: nat)
    requires Idle(s, id)
    ensures var c, t := s.core, Exec(s, Issuing(id, claim, timeout));
      if Issuable(c) then
        && t.core == c.(entry := Some(Entry(claim, c.now + timeout, c.binding, false)), issued := true)
        && t.lock == Some(id) && t.tasks == s.tasks[id := IssueReleasing]
      else t.core == c
  {
    ExecThree(s, Spawn(id, IssueWaiting(claim, timeout)), Acquire(id, true), Resume(id, true, true));
    var s1 := Apply(s, Spawn(id, IssueWaiting(claim, timeout)));
    var s2 := Apply(s1, Acquire(id, true));
    assert s2.core == s.core && s2.tasks[id] == if Issuable(s.core) then IssueChecking(claim, timeout) else Finished;
    assert Exec(s, Issuing(id, claim, timeout)).tasks[id].IssueReleasing? ==>
        Exec(s, Issuing(id, claim, timeout)).tasks == s.tasks[id := IssueReleasing];
  }

  /** Issued at any time, released, and redeemed before its timeout has passed: the hand-off is made, and
      the lease yields its client. */
  lemma IssuedThenRedeemed(s: Issuer, id: nat, other: nat, claim: Claim, timeout: nat, delay: nat)
    requires Idle(s, id) && Idle(s, other) && other != id && Issuable(s.core) && delay < timeout
    ensures var t := Exec(s, Issuing(id, claim, timeout));
      var u := Apply(Apply(t, Resume(id, true, true)), Tick(delay));
      var v := Exec(u, Redeeming(other, claim));
      |v.core.log| == |s.core.log| + 1 && Apply(v, UseLease).core.uses == s.core.uses + 1
  {
    hide Exec, Issuing, Redeeming;
    IssueExactly(s, id, claim, timeout);
    var t := Exec(s, Issuing(id, claim, timeout));
    var u := Apply(Apply(t, Resume(id, true, true)), Tick(delay));
    assert u.lock.None? && u.tasks == s.tasks[id := Finished];
    assert Redeemable(u.core, claim);
    RedeemExactly(u, other, claim);
  }

  // ----- the child's lease

  lemma UseChild(s: Issuer)
    ensures var c, d := s.core, Apply(s, UseChildLease).core;
      d == if ChildYields(c) then c.(child := c.child.(uses := c.child.uses + 1)) else c
  { }

  /** The child's lease yields exactly while the child has the credential and runs, its parent lives and
      the deadline has not come; having it means the one hand-off went over the pipes. The registry and
      the issuer's closing do not matter. */
  lemma ChildLeaseExactly(events: seq<Event>)
    ensures var s := Exec(INITIAL, events);
      var c, d := s.core, Apply(s, UseChildLease).core;
      && (d.child.uses == c.child.uses + 1 <==> ChildYields(c))
      && (d.child.uses != c.child.uses ==> d.child.uses == c.child.uses + 1)
      && (ChildYields(c) ==>
          |c.log| == 1 && c.log[0].transport == PrivatePipes && c.child.started && c.entry.value.used)
      && (c.child.uses > 0 ==> |c.log| == 1 && c.log[0].transport == PrivatePipes)
  {
    hide Apply;
    ExecKeeps(INITIAL, events);
    UseChild(Exec(INITIAL, events));
  }

  // No child will run any more: it has run already, or the issuer takes no new one.
  ghost predicate ChildGone(c: Core) { !c.child.running && (c.child.started || !c.registered) }

  lemma ResumeAfterChild(c: Core, t: Task, ok: bool, effect: bool)
    requires Awaits(t) && ChildGone(c)
    ensures ChildGone(OnResume(c, t, ok, effect).0) && OnResume(c, t, ok, effect).0.child.uses == c.child.uses
  { }

  lemma AcquireAfterChild(c: Core, t: Task, ok: bool)
    requires Waits(t) && ChildGone(c)
    ensures ChildGone(OnAcquire(c, t, ok).0) && OnAcquire(c, t, ok).0.child.uses == c.child.uses
  { }

  lemma ApplyAfterChild(s: Issuer, e: Event)
    requires ChildGone(s.core)
    ensures ChildGone(Apply(s, e).core) && Apply(s, e).core.child.uses == s.core.child.uses
  {
    hide OnResume, Live, OnAcquire;
    if e.Resume? && e.id in s.tasks && Awaits(s.tasks[e.id]) {
      ResumeAfterChild(s.core, s.tasks[e.id], e.ok, e.effect);
    }
    if e.Acquire? && e.id in s.tasks && Waits(s.tasks[e.id]) { AcquireAfterChild(s.core, s.tasks[e.id], e.ok); }
  }

  /** Once the child has been reaped, or the registry popped without one running, its lease never yields
      again. */
  lemma {:induction false} ChildGoneIsFinal(s: Issuer, events: seq<Event>)
    requires ChildGone(s.core)
    ensures ChildGone(Exec(s, events).core) && Exec(s, events).core.child.uses == s.core.child.uses
    decreases |events|
  {
    hide Apply;
    if events != [] {
      ApplyAfterChild(s, events[0]);
      ChildGoneIsFinal(Apply(s, events[0]), events[1..]);
    }
  }

  /** After a close that collects no error (`IssuerClose` proves that it has then reaped the child) the
      child's lease never yields again, whatever happens. */
  lemma CleanCloseEndsChildLease(s: Issuer, id: nat, events: seq<Event>)
    requires Inv(s) && id in s.tasks && s.tasks[id].Closing?
    ensures var t := Apply(s, Resume(id, true, false)); Exec(t, events).core.child.uses == s.core.child.uses
  {
    hide CoreSound, Validated, Exec;
    ChildGoneIsFinal(Apply(s, Resume(id, true, false)), events);
  }

  // ----- the child's lease after the pop

  // The time in which the child's lease can yield: the credential went out over the pipes, the child and
  // its parent live, and the deadline has not come.
  predicate Window(c: Core) {
    Delivered(c) && c.child.running && c.child.parentAlive && c.entry.Some? && c.now < c.entry.value.deadline
  }

  // What a step after the pop can do to the child and the clock.
  ghost predicate OnlyFades(c: Core, d: Core) {
    && c.now <= d.now && (d.child.running ==> c.child.running) && (d.child.parentAlive ==> c.child.parentAlive)
    && (d.child.uses != c.child.uses ==> ChildYields(c))
  }

  lemma ResumeFades(c: Core, t: Task, ok: bool, effect: bool)
    requires Awaits(t) && !c.registered
    ensures OnlyFades(c, OnResume(c, t, ok, effect).0)
  {
    hide ChildYields;
  }

  lemma ApplyFades(s: Issuer, e: Event)
    requires !s.core.registered
    ensures OnlyFades(s.core, Apply(s, e).core)
  {
    hide OnResume;
    if e.Resume? && e.id in s.tasks && Awaits(s.tasks[e.id]) { ResumeFades(s.core, s.tasks[e.id], e.ok, e.effect); }
  }

  lemma WindowStaysShut(s: Issuer, e: Event)
    requires Inv(s) && !s.core.registered && !Window(s.core)
    ensures !Window(Apply(s, e).core) && Apply(s, e).core.child.uses == s.core.child.uses
    ensures Inv(Apply(s, e)) && !Apply(s, e).core.registered
  {
    ApplyKeeps(s, e);
    ApplyAfterPop(s, e);
    ApplyEntry(s, e);
    ApplyFades(s, e);
    hide Apply, LockExact, Validated, Clear;
  }

  lemma {:induction false} ShutForGood(s: Issuer, events: seq<Event>)
    requires Inv(s) && !s.core.registered && !Window(s.core)
    ensures Exec(s, events).core.child.uses == s.core.child.uses
    decreases |events|
  {
    hide Apply, Inv, Window;
    if events != [] {
      WindowStaysShut(s, events[0]);
      ShutForGood(Apply(s, events[0]), events[1..]);
    }
  }

  lemma OpenWindowYields(s: Issuer)
    requires Window(s.core)
    ensures Exec(s, [ChildAccepts, UseChildLease]).core.child.uses == s.core.child.uses + 1
  {
    var t := Apply(s, ChildAccepts);
    var u := Apply(t, UseChildLease);
    assert [ChildAccepts, UseChildLease][1..] == [UseChildLease] && [UseChildLease][1..] == [];
    assert Exec(t, [UseChildLease]) == Exec(u, []) == u;
  }

  /** After the registry pop the child's lease can still yield in some continuation if and only if the
      credential went out over the pipes, child and parent live, and the deadline has not come. */
  lemma ChildLeaseAfterPop(s: Issuer)
    requires Inv(s) && !s.core.registered
    ensures (exists events :: Exec(s, events).core.child.uses > s.core.child.uses) <==> Window(s.core)
  {
    hide Exec, Inv, Window;
    if Window(s.core) {
      OpenWindowYields(s);
    } else {
      forall events ensures Exec(s, events).core.child.uses == s.core.child.uses { ShutForGood(s, events); }
    }
  }

  ghost predicate Reachable(s: Issuer) { exists events :: Exec(INITIAL, events) == s }

  lemma {:induction false} ExecSnoc(s: Issuer, events: seq<Event>, e: Event)
    ensures Exec(s, events + [e]) == Apply(Exec(s, events), e)
    decreases |events|
  {
    hide Apply;
    if events == [] {
      assert [] + [e] == [e] && [e][1..] == [];
      assert Exec(Apply(s, e), []) == Apply(s, e);
    } else {
      assert (events + [e])[1..] == events[1..] + [e];
      ExecSnoc(Apply(s, events[0]), events[1..], e);
    }
  }

  lemma Reach(s: Issuer, e: Event) returns (t: Issuer)
    requires Reachable(s)
    ensures t == Apply(s, e) && Reachable(t)
  {
    hide Exec, Apply;
    var events :| Exec(INITIAL, events) == s;
    ExecSnoc(INITIAL, events, e);
    t := Apply(s, e);
  }

  lemma ReachableStart()
    ensures Reachable(INITIAL)
  {
    assert Exec(INITIAL, []) == INITIAL;
  }

  // A grant issued at time 0 for five units of time, by coroutine 0.
  lemma IssueRuns(claim: Claim) returns (s: Issuer)
    ensures Reachable(s) && s.lock.None? && s.tasks == map[0 := Finished] && s.core.released
    ensures Live(s.core) && s.core.entry == Some(Entry(claim, 5, 0, false)) && s.core.now == 0 && s.core.binding == 0
    ensures s.core.log == [] && s.core.child == Child(false, false, false, 0, true)
  {
    hide Reachable;
    ReachableStart();
    s := Reach(INITIAL, Spawn(0, IssueWaiting(claim, 5)));
    s := Reach(s, Acquire(0, true));
    s := Reach(s, Resume(0, true, true));
    s := Reach(s, Resume(0, true, true));
  }

  // Coroutine 1 runs the hand-off to the child and has got as far as `task`.
  ghost predicate Serving(s: Issuer, claim: Claim, task: Task, child: Child, used: bool) {
    && s.lock == (if Holds(task) then Some(1) else None) && s.tasks == map[0 := Finished, 1 := task]
    && Live(s.core) && s.core.released && s.core.now == 0 && s.core.binding == 0
    && s.core.entry == Some(Entry(claim, 5, 0, used)) && s.core.child == child
    && if used then Delivered(s.core) else s.core.log == []
  }

  lemma ChildStarts(claim: Claim) returns (s: Issuer)
    ensures Reachable(s) && Serving(s, claim, ChildGreeting(claim), Child(true, true, false, 0, true), false)
  {
    hide Reachable;
    s := IssueRuns(claim);
    s := Reach(s, Spawn(1, ChildWaiting(claim)));
    s := Reach(s, Acquire(1, true));
    s := Reach(s, Resume(1, true, true));
  }

  lemma ChildResponds(claim: Claim) returns (s: Issuer)
    ensures Reachable(s) && Serving(s, claim, ChildReturning(claim), Child(true, true, false, 0, true), false)
  {
    hide Reachable;
    s := ChildStarts(claim);
    s := Reach(s, Resume(1, true, true));
    s := Reach(s, Resume(1, true, true));
  }

  lemma ChildIsServed(claim: Claim) returns (s: Issuer)
    ensures Reachable(s) && Serving(s, claim, ChildSending(claim), Child(true, true, false, 0, true), true)
  {
    hide Reachable;
    s := ChildResponds(claim);
    s := Reach(s, Acquire(1, true));
    s := Reach(s, Resume(1, true, true));
  }

  lemma ChildHasLease(claim: Claim) returns (s: Issuer)
    ensures Reachable(s) && Serving(s, claim, ChildDelivered, Child(true, true, true, 0, true), true)
  {
    hide Reachable;
    s := ChildIsServed(claim);
    s := Reach(s, ChildAccepts);
    s := Reach(s, Resume(1, true, true));
  }

  /** It does happen: the registry has been popped, and the child's lease still yields its client. */
  lemma ChildLeaseOutlivesPop(claim: Claim) returns (s: Issuer)
    ensures Reachable(s) && !s.core.registered && Apply(s, UseChildLease).core.child.uses == s.core.child.uses + 1
  {
    hide Reachable;
    s := ChildHasLease(claim);
    s := Reach(s, Spawn(2, CloseWaiting));
    s := Reach(s, Acquire(2, true));
  }
}
