/** The two-pipe handshake between the legacy launcher and its pytest child
    (scripts/acceptance_ci_legacy_environment.py, `run_pytest` and `_child_handoff`), in every
    interleaving of the two processes; either may fail or time out at any point. */
module LegacyHandshake {
  import opened Results
  import opened Framing

  datatype Frame =
    | Challenge(nonce: nat, child: nat)
    | Response(nonce: nat, child: nat, challenge: nat)
    | Credential(nonce: nat, challenge: nat)
    | Ready(nonce: nat)

  datatype ParentState = Launching | AwaitResponse | AwaitReady | Released | ParentHold
  datatype ChildState = AwaitChallenge | AwaitCredential | Corroborated | ChildHold

  datatype State = State(
    parent: ParentState, nonce: nat, expected: nat,      // expected: identity the parent registered
    used: bool, sent: nat, echoed: nat,                  // credentials sent; challenge echoed with it
    accepted: Option<Frame>,                             // the answer they were sent upon
    child: ChildState, self: nat,                        // self: the child's own identity
    heard: nat, challenge: nat,                          // nonce heard and challenge drawn by the child
    toChild: seq<Frame>, toParent: seq<Frame>)           // unread frames

  datatype Event =
    | SendChallenge
    | Answer(challenge: nat, reply: Frame, ok: bool)     // the child reads a frame and answers it
    | SendCredential(ok: bool)
    | Corroborate(ok: bool)
    | Finish
    | ParentFails | ChildFails

  function Start(nonce: nat, expected: nat, self: nat): State {
    State(Launching, nonce, expected, false, 0, 0, None, AwaitChallenge, self, 0, 0, [], [])
  }

  function Apply(s: State, e: Event): State {
    match e
    case SendChallenge =>
      if s.parent != Launching then s
      else s.(parent := AwaitResponse, toChild := s.toChild + [Challenge(s.nonce, s.expected)])
    case Answer(challenge, reply, ok) =>
      if s.child != AwaitChallenge || s.toChild == [] then s
      else
        var f, rest := s.toChild[0], s.toChild[1..];
        if f.Challenge? && f.child == s.self && ok then
          s.(child := AwaitCredential, heard := f.nonce, challenge := challenge,
             toChild := rest, toParent := s.toParent + [reply])
        else s.(child := ChildHold, toChild := rest)
    case SendCredential(ok) =>
      if s.parent != AwaitResponse || s.toParent == [] then s
      else
        var f, rest := s.toParent[0], s.toParent[1..];
        if !s.used && f.Response? && f.nonce == s.nonce && f.child == s.expected && ok then
          s.(parent := AwaitReady, used := true, sent := s.sent + 1, echoed := f.challenge, accepted := Some(f),
             toParent := rest,
             toChild := s.toChild + [Credential(s.nonce, f.challenge)])
        else s.(parent := ParentHold, toParent := rest)
    case Corroborate(ok) =>
      if s.child != AwaitCredential || s.toChild == [] then s
      else
        var f, rest := s.toChild[0], s.toChild[1..];
        if f.Credential? && f.nonce == s.heard && f.challenge == s.challenge && ok then
          s.(child := Corroborated, toChild := rest, toParent := s.toParent + [Ready(s.heard)])
        else s.(child := ChildHold, toChild := rest)
    case Finish =>
      if s.parent != AwaitReady || s.toParent == [] then s
      else s.(parent := if s.toParent[0] == Ready(s.nonce) then Released else ParentHold, toParent := s.toParent[1..])
    case ParentFails => if s.parent == Released then s else s.(parent := ParentHold)
    case ChildFails => if s.child == Corroborated then s else s.(child := ChildHold)
  }

  function Exec(s: State, events: seq<Event>): State
    decreases |events|
  {
    if events == [] then s else Exec(Apply(s, events[0]), events[1..])
  }

  // ----- the invariant

  ghost predicate Alternates(s: State) {
    && |s.toChild| + |s.toParent| <= 1
    && (s.parent == Launching ==> s.toChild == [] && s.toParent == [] && s.child in {AwaitChallenge, ChildHold})
    && (s.child == AwaitChallenge ==> s.toParent == [] && s.parent in {Launching, AwaitResponse, ParentHold})
    && (s.child == AwaitCredential && s.parent == AwaitReady ==> s.toParent == [])
  }

  ghost predicate OneCredential(s: State) {
    && s.sent <= 1 && (s.used <==> s.sent == 1)
    && (s.sent == 1 ==> s.accepted == Some(Response(s.nonce, s.expected, s.echoed)))
    && (s.parent in {Launching, AwaitResponse} ==> !s.used)
    && (s.parent in {AwaitReady, Released} ==> s.used)
  }

  ghost predicate Agrees(s: State) {
    && (s.child in {AwaitCredential, Corroborated} ==> s.heard == s.nonce && s.self == s.expected)
    && (s.child == Corroborated ==> s.used && s.challenge == s.echoed)
    && (forall f :: f in s.toChild ==> (f.Challenge? ==> f == Challenge(s.nonce, s.expected)))
    && (forall f :: f in s.toChild ==> (f.Credential? ==> s.used && f == Credential(s.nonce, s.echoed)))
    && (s.parent == AwaitReady && s.toParent != [] ==> s.child == Corroborated || s.child == ChildHold)
    && (s.parent == AwaitReady && s.child == ChildHold ==> s.toParent == [])
    && (s.parent == Released ==> s.child == Corroborated)
  }

  ghost predicate Inv(s: State) { Alternates(s) && OneCredential(s) && Agrees(s) }

  lemma ApplyKeeps(s: State, e: Event)
    requires Inv(s)
    ensures Inv(Apply(s, e))
  { }

  lemma {:induction false} ExecKeeps(s: State, events: seq<Event>)
    requires Inv(s)
    ensures Inv(Exec(s, events)) && Exec(s, events).nonce == s.nonce && Exec(s, events).expected == s.expected
    decreases |events|
  {
    hide Inv;
    if events != [] {
      ApplyKeeps(s, events[0]);
      ExecKeeps(Apply(s, events[0]), events[1..]);
    }
  }

  /** In every interleaving at most one frame is unread on the two pipes together, the credential is
      sent at most once, and a completed handshake means both sides hold the same nonce, the same
      child identity and the same challenge. */
  lemma HandshakeSafety(nonce: nat, expected: nat, self: nat, events: seq<Event>)
    ensures var s := Exec(Start(nonce, expected, self), events);
      && |s.toChild| + |s.toParent| <= 1
      && s.sent <= 1
      && (s.sent == 1 ==> s.accepted == Some(Response(nonce, expected, s.echoed)))
      && (s.parent == Released ==> s.child == Corroborated && s.sent == 1)
      && (s.child == Corroborated ==> s.heard == s.nonce == nonce && s.self == s.expected && s.challenge == s.echoed)
  {
    hide Apply;
    ExecKeeps(Start(nonce, expected, self), events);
  }

  /** So the combined-frame rejection cannot fire: whichever pipe is read, and however its bytes are
      split into reads, the one frame on it is received whole. */
  lemma NeverCombined(nonce: nat, expected: nat, self: nat, events: seq<Event>,
                      encode: Frame -> Bytes, parts: seq<Bytes>,
                      towardsChild: bool)
    requires var s := Exec(Start(nonce, expected, self), events);
      var pipe := if towardsChild then s.toChild else s.toParent;
      && pipe != [] && NEWLINE !in encode(pipe[0]) && |encode(pipe[0])| + 1 <= LIMIT
      && Concat(parts) == Stream(Encoded(encode, pipe), [])
    ensures var s := Exec(Start(nonce, expected, self), events);
      var pipe := if towardsChild then s.toChild else s.toParent;
      LineAfter(parts, |parts|) && Concat(parts[..|parts|]) == encode(pipe[0]) + [NEWLINE]
  {
    hide Apply;
    HandshakeSafety(nonce, expected, self, events);
    var s := Exec(Start(nonce, expected, self), events);
    var pipe := if towardsChild then s.toChild else s.toParent;
    assert Encoded(encode, pipe) == [encode(pipe[0])];
    LoneFrameIsReceived(encode(pipe[0]), parts);
  }

  lemma ExecFive(s: State, a: Event, b: Event, c: Event, d: Event, e: Event)
    ensures Exec(s, [a, b, c, d, e]) == Apply(Apply(Apply(Apply(Apply(s, a), b), c), d), e)
  {
    hide Apply;
    assert [a, b, c, d, e][1..] == [b, c, d, e] && [b, c, d, e][1..] == [c, d, e];
    assert [c, d, e][1..] == [d, e] && [d, e][1..] == [e] && [e][1..] == [];
    var s2 := Apply(Apply(s, a), b);
    var s4 := Apply(Apply(s2, c), d);
    assert Exec(s, [a, b, c, d, e]) == Exec(Apply(s, a), [b, c, d, e]) == Exec(s2, [c, d, e]);
    assert Exec(s2, [c, d, e]) == Exec(Apply(s2, c), [d, e]) == Exec(s4, [e]);
    assert Exec(s4, [e]) == Exec(Apply(s4, e), []) == Apply(s4, e);
  }

  /** An honest child and no failure: the handshake completes. */
  lemma UndisturbedCompletes(nonce: nat, child: nat, drawn: nat)
    ensures var events := [SendChallenge, Answer(drawn, Response(nonce, child, drawn), true), SendCredential(true),
                           Corroborate(true), Finish];
      var s := Exec(Start(nonce, child, child), events);
      s.parent == Released && s.child == Corroborated && s.sent == 1
  {
    var reply := Response(nonce, child, drawn);
    var s0 := Start(nonce, child, child);
    ExecFive(s0, SendChallenge, Answer(drawn, reply, true), SendCredential(true), Corroborate(true), Finish);
    var s2 := Apply(Apply(s0, SendChallenge), Answer(drawn, reply, true));
    assert s2.toParent == [reply] && s2.toChild == [];
    var s4 := Apply(Apply(s2, SendCredential(true)), Corroborate(true));
    assert s4.toParent == [Ready(nonce)];
  }
}
