/** The handshake between a prepared issuer and its child process
    (scripts/acceptance_prepared_domain.py, `_run_child` and `_receive_child_lease`), in every
    interleaving of the two; either may fail or time out at any point. Unlike the legacy child, this one
    sends its result after `ready` without waiting for the parent. */
module PreparedHandshake {
  import opened Results
  import opened Framing

  datatype Frame =
    | Challenge(nonce: nat, challenge: nat, child: nat)
    | Response(nonce: nat, challenge: nat, child: nat, childChallenge: nat)
    | Credential(nonce: nat, childChallenge: nat)
    | Ready
    | Result

  datatype ParentState = Launching | AwaitResponse | AwaitReady | AwaitResult | Finished | ParentHold
  datatype ChildState = AwaitChallenge | AwaitCredential | Serving | Delivered | ChildHold

  datatype State = State(
    parent: ParentState, nonce: nat, challenge: nat, expected: nat,   // expected: identity of the child
    sent: nat, echoed: nat,                              // credentials sent; child challenge echoed with it
    accepted: Option<Frame>,                             // the answer they were sent upon
    child: ChildState, self: nat,                        // self: the child's own identity
    heard: nat, drawn: nat,                              // nonce heard and challenge drawn by the child
    toChild: seq<Frame>, toParent: seq<Frame>)           // unread frames

  datatype Event =
    | SendChallenge
    | Answer(drawn: nat, reply: Frame, ok: bool)         // the child reads a frame and answers it
    | SendCredential(ok: bool)
    | Corroborate(ok: bool)
    | SendResult
    | ReadReady | ReadResult
    | ParentFails | ChildFails

  function Start(nonce: nat, challenge: nat, expected: nat, self: nat): State {
    State(Launching, nonce, challenge, expected, 0, 0, None, AwaitChallenge, self, 0, 0, [], [])
  }

  function Apply(s: State, e: Event): State {
    match e
    case SendChallenge =>
      if s.parent != Launching then s
      else s.(parent := AwaitResponse, toChild := s.toChild + [Challenge(s.nonce, s.challenge, s.expected)])
    case Answer(drawn, reply, ok) =>
      if s.child != AwaitChallenge || s.toChild == [] then s
      else
        var f, rest := s.toChild[0], s.toChild[1..];
        if f.Challenge? && f.child == s.self && ok then
          s.(child := AwaitCredential, heard := f.nonce, drawn := drawn, toChild := rest,
             toParent := s.toParent + [reply])
        else s.(child := ChildHold, toChild := rest)
    case SendCredential(ok) =>
      if s.parent != AwaitResponse || s.toParent == [] then s
      else
        var f, rest := s.toParent[0], s.toParent[1..];
        if f.Response? && f.nonce == s.nonce && f.challenge == s.challenge && f.child == s.expected && ok then
          s.(parent := AwaitReady, sent := s.sent + 1, echoed := f.childChallenge, accepted := Some(f),
             toParent := rest,
             toChild := s.toChild + [Credential(s.nonce, f.childChallenge)])
        else s.(parent := ParentHold, toParent := rest)
    case Corroborate(ok) =>
      if s.child != AwaitCredential || s.toChild == [] then s
      else
        var f, rest := s.toChild[0], s.toChild[1..];
        if f.Credential? && f.nonce == s.heard && f.childChallenge == s.drawn && ok then
          s.(child := Serving, toChild := rest, toParent := s.toParent + [Ready])
        else s.(child := ChildHold, toChild := rest)
    case SendResult => if s.child != Serving then s else s.(child := Delivered, toParent := s.toParent + [Result])
    case ReadReady =>
      if s.parent != AwaitReady || s.toParent == [] then s
      else s.(parent := if s.toParent[0] == Ready then AwaitResult else ParentHold, toParent := s.toParent[1..])
    case ReadResult =>
      if s.parent != AwaitResult || s.toParent == [] then s
      else s.(parent := if s.toParent[0] == Result then Finished else ParentHold, toParent := s.toParent[1..])
    case ParentFails => if s.parent == Finished then s else s.(parent := ParentHold)
    case ChildFails => if s.child == Delivered then s else s.(child := ChildHold)
  }

  function Exec(s: State, events: seq<Event>): State
    decreases |events|
  {
    if events == [] then s else Exec(Apply(s, events[0]), events[1..])
  }

  // ----- the invariant

  // Unread frames towards the parent.
  ghost predicate Upward(s: State) {
    && (s.sent == 0 ==> |s.toParent| <= 1 && s.child !in {Serving, Delivered})
    && (s.sent == 0 && s.child == AwaitChallenge ==> s.toParent == [])
    && (s.sent == 1 ==> s.toParent in {[], [Ready], [Result], [Ready, Result]})
    && (s.sent == 1 && Ready in s.toParent ==>
          s.parent in {AwaitReady, ParentHold} && s.child in {Serving, Delivered, ChildHold})
    && (s.sent == 1 && Result in s.toParent ==> s.child == Delivered)
    && (s.sent == 1 && s.child in {AwaitChallenge, AwaitCredential} ==> s.toParent == [])
    && (s.parent == AwaitReady && s.child == Serving ==> s.toParent == [Ready])
    && (s.parent == AwaitReady && s.child == Delivered ==> s.toParent == [Ready, Result])
    && (s.sent == 1 && s.child == Serving ==> s.toParent in {[], [Ready]})
  }

  ghost predicate Downward(s: State) {
    && |s.toChild| <= 1
    && (s.sent == 0 && s.toParent != [] ==> s.toChild == [])
    && (s.parent == Launching ==> s.toChild == [] && s.toParent == [] && s.child in {AwaitChallenge, ChildHold})
    && (s.child == AwaitCredential && s.sent == 0 ==> s.toChild == [])
    && (s.child in {Serving, Delivered} ==> s.toChild == [])
    && (s.sent == 1 ==> s.child != AwaitChallenge)
    && (forall f :: f in s.toChild ==> (f.Challenge? ==> f == Challenge(s.nonce, s.challenge, s.expected)))
    && (forall f :: f in s.toChild ==> (f.Credential? ==> s.sent == 1 && f == Credential(s.nonce, s.echoed)))
  }

  ghost predicate Agrees(s: State) {
    && s.sent <= 1
    && (s.sent == 1 ==> s.accepted == Some(Response(s.nonce, s.challenge, s.expected, s.echoed)))
    && (s.parent in {Launching, AwaitResponse} ==> s.sent == 0)
    && (s.parent in {AwaitReady, AwaitResult, Finished} ==> s.sent == 1)
    && (s.child in {AwaitCredential, Serving, Delivered} ==> s.heard == s.nonce && s.self == s.expected)
    && (s.child in {Serving, Delivered} ==> s.sent == 1 && s.drawn == s.echoed)
    && (s.parent == AwaitResult ==> s.child in {Serving, Delivered, ChildHold})
    && (s.parent == Finished ==> s.child == Delivered)
  }

  ghost predicate Inv(s: State) { Upward(s) && Downward(s) && Agrees(s) }

  lemma ApplyKeeps(s: State, e: Event)
    requires Inv(s)
    ensures Inv(Apply(s, e))
  {
    var up, down := s.toParent, s.toChild;
    assert |up| == 1 ==> up[1..] == [] && up == [up[0]];
    assert up == [Ready, Result] ==> up[1..] == [Result];
    assert |down| == 1 ==> down[1..] == [];
    assert up == [] ==> up + [Ready] == [Ready] && up + [Result] == [Result];
    assert up == [Ready] ==> up + [Result] == [Ready, Result];
  }

  lemma {:induction false} ExecKeeps(s: State, events: seq<Event>)
    requires Inv(s)
    ensures Inv(Exec(s, events))
    ensures Exec(s, events).nonce == s.nonce && Exec(s, events).challenge == s.challenge
    ensures Exec(s, events).expected == s.expected
    decreases |events|
  {
    hide Inv;
    if events != [] {
      ApplyKeeps(s, events[0]);
      ExecKeeps(Apply(s, events[0]), events[1..]);
    }
  }

  /** In every interleaving the credential is sent at most once, and a finished handshake means both
      sides hold the same nonce, child identity and child challenge. The parent's pipe holds at most two
      unread frames, and two only when they are `ready` and `result`. */
  lemma HandshakeSafety(nonce: nat, challenge: nat, expected: nat, self: nat, events: seq<Event>)
    ensures var s := Exec(Start(nonce, challenge, expected, self), events);
      && s.sent <= 1 && |s.toChild| <= 1 && |s.toParent| <= 2
      && (s.sent == 1 ==> s.accepted == Some(Response(nonce, challenge, expected, s.echoed)))
      && (|s.toParent| == 2 ==> s.toParent == [Ready, Result] && s.child == Delivered && s.sent == 1)
      && (s.parent == Finished ==> s.child == Delivered && s.sent == 1)
      && (s.child in {Serving, Delivered} ==> s.heard == nonce && s.self == expected && s.drawn == s.echoed)
  {
    hide Apply;
    ExecKeeps(Start(nonce, challenge, expected, self), events);
  }

  // ----- two unread frames

  // An undisturbed handshake up to the point where the parent waits for `ready`.
  function Undisturbed(nonce: nat, challenge: nat, child: nat, drawn: nat): seq<Event> {
    [SendChallenge, Answer(drawn, Response(nonce, challenge, child, drawn), true), SendCredential(true),
     Corroborate(true), SendResult]
  }

  lemma ExecFive(s: State, a: Event, b: Event, c: Event, d: Event, e: Event)
    ensures Exec(s, [a, b, c, d, e]) == Apply(Apply(Apply(Apply(Apply(s, a), b), c), d), e)
  {
    hide Apply;
    assert [a, b, c, d, e][1..] == [b, c, d, e] && [b, c, d, e][1..] == [c, d, e];
    assert [c, d, e][1..] == [d, e] && [d, e][1..] == [e] && [e][1..] == [];
    var s2 := Apply(Apply(s, a), b);
    var s4 := Apply(Apply(s2, c), d);
    assert Exec(s, [a, b, c, d, e]) == Exec(Apply(s, a), [b, c, d, e]) == Exec(s2, [c, d, e]);
    assert Exec(s2, [c, d, e]) == Exec(Apply(s2, c), [d, e]) == Exec(s4, [e]);
    assert Exec(s4, [e]) == Exec(Apply(s4, e), []) == Apply(s4, e);
  }

  /** Without any failure both frames can be unread at once, while the parent still waits for the first. */
  lemma TwoFramesUnread(nonce: nat, challenge: nat, child: nat, drawn: nat)
    ensures var s := Exec(Start(nonce, challenge, child, child), Undisturbed(nonce, challenge, child, drawn));
      s.toParent == [Ready, Result] && s.parent == AwaitReady && s.child == Delivered
  {
    var reply := Response(nonce, challenge, child, drawn);
    var s0 := Start(nonce, challenge, child, child);
    ExecFive(s0, SendChallenge, Answer(drawn, reply, true), SendCredential(true), Corroborate(true), SendResult);
    var s2 := Apply(Apply(s0, SendChallenge), Answer(drawn, reply, true));
    assert s2.toParent == [reply] && s2.toChild == [];
    var s4 := Apply(Apply(s2, SendCredential(true)), Corroborate(true));
    assert s4.toParent == [Ready];
  }

  /** Then a read that returns both refuses them, although each was sent whole. */
  lemma ReadyAndResultCanBeRefused(nonce: nat, challenge: nat, child: nat, drawn: nat, encode: Frame -> Bytes)
    requires NEWLINE !in encode(Ready) && NEWLINE !in encode(Result)
    ensures var s := Exec(Start(nonce, challenge, child, child), Undisturbed(nonce, challenge, child, drawn));
      forall k :: 0 <= k <= 1 ==> !LineAfter([Stream(Encoded(encode, s.toParent), [])], k)
  {
    hide Exec, LineAfter, Stream;
    TwoFramesUnread(nonce, challenge, child, drawn);
    assert Encoded(encode, [Ready, Result]) == [encode(Ready), encode(Result)];
    AdjacentFramesCanBeRefused(encode(Ready), encode(Result));
  }
}
