/**
 What a run makes of the handshake: the replies, the groups, the version and the key ratchets, each read off the
 messages alone.
 */
module Handshake {
  import opened Bytes
  import opened Wrappers
  import opened Mls
  import opened VoiceClients
  import opened VoiceGateways
  import opened VoiceRuns
  import opened Opcodes

  /** A message that starts a new group: op 4 with a usable key, or op 24, for a call with DAVE and epoch 1. */
  predicate Announces(e: Event) {
    e.TextMessage? && match e.text
      case SessionDescription(dave, key) => dave >= 1 && key.Some?
      case Epoch(_, epoch) => epoch == 1
      case _ => false
  }

  /** A commit (op 29) or welcome (op 30) that names a transition and is processed. */
  predicate Decides(e: Event) { e.BinaryMessage? && |e.data| >= 5 && e.data[2] in {29, 30} && !e.answer.raises }

  /** A rejected commit or welcome is invalid, and so is a welcome without a result; a commit without one is not. */
  predicate Invalid(data: seq<Byte>, outcome: Outcome)
    requires |data| >= 5
  {
    outcome.Rejected? || (outcome.Missing? && data[2] == 30)
  }

  /** The reply a message calls for. */
  function Owed(e: Event): seq<WireFrame> {
    if Announces(e) then [BinaryFrame(26, Blob(e.answer.keyPackage))]
    else if Decides(e) then
      [JsonFrame(if Invalid(e.data, e.answer.outcome) then 31 else 23, TransitionId(U16(e.data[3..5])))]
    else
      match e
      case TextMessage(_, PrepareTransition(tid, _), _) => [JsonFrame(23, TransitionId(tid))]
      case BinaryMessage(data, a) =>
        if |data| >= 3 && data[2] == 27 && !a.raises && a.commit.Some? then [BinaryFrame(28, Blob(a.commit.value))]
        else []
      case _ => []
  }

  function AllOwed(es: seq<Event>): seq<WireFrame> {
    if es == [] then [] else AllOwed(es[..|es| - 1]) + Owed(es[|es| - 1])
  }

  /** What was owed for a step was sent, or its send failed and the loop ended. */
  predicate Sends(g: Gateway, t: Gateway, owed: seq<WireFrame>) {
    t.sent == g.sent + owed || (t.phase == Ended && |owed| == 1 && t.sent == g.sent)
  }

  lemma TextSends(g: Gateway, seqNo: Option<nat>, text: Text, a: Answer)
    requires Disciplined(g.client.mls)
    ensures Sends(g, OnText(g, text, a), Owed(TextMessage(seqNo, text, a)))
  {
    match text
    case Epoch(_, _) =>
    case SessionDescription(_, _) =>
    case PrepareTransition(_, _) =>
    case _ =>
  }

  lemma BinarySends(g: Gateway, data: seq<Byte>, a: Answer)
    ensures Sends(g, OnBinary(g, data, a), Owed(BinaryMessage(data, a)))
  {
    if |data| >= 5 {
      assert data[3..][..2] == data[3..5];
    }
  }

  lemma StepSends(env: Foreign, g: Gateway, e: Event)
    requires Disciplined(g.client.mls) && Step(env, g, e).Some?
    ensures Sends(g, Step(env, g, e).value, Owed(e))
    ensures g.phase == Ended ==> Owed(e) == [] && Step(env, g, e).value.phase == Ended
  {
    match e
    case TextMessage(seqNo, text, a) => TextSends(Sequenced(g, seqNo), seqNo, text, a);
    case BinaryMessage(data, a) => BinarySends(g, data, a);
    case _ =>
  }

  /** The reply trace. While the loop lives, what was sent is exactly what the messages call for, one for one and in
      order: transitions of ops 21, 29 and 30 answered by ops 23 and 31, groups by op 26, proposals by op 28, each in
      its form. A send that fails loses the last one at most. */
  lemma {:induction false} ReplyTrace(env: Foreign, channel: nat, es: seq<Event>, t: Gateway)
    requires Reaches(env, channel, es, t)
    ensures var owed := AllOwed(es);
      t.sent == owed || (t.phase == Ended && owed != [] && t.sent == owed[..|owed| - 1])
  {
    if es == [] {
      ReachesStart(env, channel, t);
    } else {
      var g := ReachesLast(env, channel, es, t);
      ReplyTrace(env, channel, es[..|es| - 1], g);
      StepSends(env, g, es[|es| - 1]);
    }
  }

  // ---- where the loop is ----

  /** A message that raises: one that is malformed, an op 4 without a usable key, a binary message that is too short,
      one that the session raises on, or a reply that cannot be sent. The loop ends with it. */
  predicate EndsLoop(e: Event) {
    match e
    case Close => true
    case TextMessage(_, text, a) =>
      || text.Malformed? || (text.SessionDescription? && text.key.None?)
      || (Owed(e) != [] && !a.sendOk)
    case BinaryMessage(data, a) =>
      || |data| < 3
      || (data[2] in {29, 30} && |data| < 5)
      || (data[2] in {25, 27, 29, 30} && a.raises)
      || (Owed(e) != [] && !a.sendOk)
    case _ => false
  }

  /** Where the loop is, read off the messages alone. */
  function PhaseOf(es: seq<Event>): Phase {
    if es == [] then Idle
    else if EndsLoop(es[|es| - 1]) then Ended
    else if Decides(es[|es| - 1]) then Parked
    else if es[|es| - 1].Resume? then Idle
    else PhaseOf(es[..|es| - 1])
  }

  lemma StepPhase(env: Foreign, g: Gateway, e: Event)
    requires Disciplined(g.client.mls) && Step(env, g, e).Some?
    ensures Step(env, g, e).value.phase ==
      if EndsLoop(e) then Ended else if Decides(e) then Parked else if e.Resume? then Idle else g.phase
  {
    match e
    case TextMessage(_, text, _) =>
      match text {
        case SessionDescription(_, _) =>
        case Epoch(_, _) =>
        case PrepareTransition(_, _) =>
        case _ =>
      }
    case BinaryMessage(data, a) => BinaryPhase(g, data, a);
    case _ =>
  }

  lemma BinaryPhase(g: Gateway, data: seq<Byte>, a: Answer)
    ensures OnBinary(g, data, a).phase ==
      var e := BinaryMessage(data, a); if EndsLoop(e) then Ended else if Decides(e) then Parked else g.phase
  {}

  /** The loop ends with the first message that raises, or when it is closed, and with nothing else; after a commit or
      welcome it stands before `on_mls_change`; otherwise it waits for the next message. */
  lemma {:induction false} PhaseFollows(env: Foreign, channel: nat, es: seq<Event>, t: Gateway)
    requires Reaches(env, channel, es, t)
    ensures t.phase == PhaseOf(es)
  {
    if es == [] {
      ReachesStart(env, channel, t);
    } else {
      var g := ReachesLast(env, channel, es, t);
      PhaseFollows(env, channel, es[..|es| - 1], g);
      StepPhase(env, g, es[|es| - 1]);
    }
  }

  /** What can come next: any message while the loop waits, but an accepted commit or welcome only once a group was
      announced; the rest of a dispatch exactly after a commit or welcome; a packet at any time. */
  lemma ComesNext(env: Foreign, channel: nat, es: seq<Event>, t: Gateway, e: Event)
    requires Reaches(env, channel, es, t) && Disciplined(t.client.mls)
    ensures Step(env, t, e).Some? <==>
      match e
      case TextMessage(_, _, _) => PhaseOf(es) == Idle
      case BinaryMessage(_, a) => PhaseOf(es) == Idle && (a.outcome.Advanced? ==> Groups(es) > 0)
      case Resume => PhaseOf(es) == Parked
      case _ => true
  {
    PhaseFollows(env, channel, es, t);
    StartedByGroup(env, channel, es, t);
  }

  lemma {:induction false} StartedByGroup(env: Foreign, channel: nat, es: seq<Event>, t: Gateway)
    requires Reaches(env, channel, es, t)
    ensures t.client.mls.session.started <==> Groups(es) > 0
  {
    if es == [] {
      ReachesStart(env, channel, t);
    } else {
      var g := ReachesLast(env, channel, es, t);
      StartedByGroup(env, channel, es[..|es| - 1], g);
      StepStarted(env, g, es[|es| - 1]);
    }
  }

  lemma StepStarted(env: Foreign, g: Gateway, e: Event)
    requires Disciplined(g.client.mls) && Step(env, g, e).Some?
    ensures Step(env, g, e).value.client.mls.session.started <==> g.client.mls.session.started || Announces(e)
  {
    match e
    case TextMessage(_, text, _) =>
      match text {
        case SessionDescription(_, _) =>
        case Epoch(_, _) =>
        case _ =>
      }
    case _ =>
  }

  /** Transitions and verdicts go out as text, key packages and commits in binary, and nothing else is sent. */
  predicate RightForm(f: WireFrame) {
    match f
    case JsonFrame(op, body) => op in {23, 31} && body.TransitionId?
    case BinaryFrame(op, body) => op in {26, 28} && body.Blob?
  }

  lemma {:induction false} OwedRightForm(es: seq<Event>)
    ensures forall k :: 0 <= k < |AllOwed(es)| ==> RightForm(AllOwed(es)[k])
  {
    if es != [] {
      OwedRightForm(es[..|es| - 1]);
    }
  }

  lemma SentRightForm(env: Foreign, channel: nat, es: seq<Event>, t: Gateway)
    requires Reaches(env, channel, es, t)
    ensures forall k :: 0 <= k < |t.sent| ==> RightForm(t.sent[k])
  {
    ReplyTrace(env, channel, es, t);
    OwedRightForm(es);
  }

  /** How many groups the messages announced, with which version last, and the ratchets of the last accepted commit or
      welcome since. */
  function Groups(es: seq<Event>): nat {
    if es == [] then 0 else Groups(es[..|es| - 1]) + if Announces(es[|es| - 1]) then 1 else 0
  }

  function LastVersion(es: seq<Event>): nat {
    if es == [] then 1
    else
      match es[|es| - 1]
      case TextMessage(_, SessionDescription(dave, _), _) => if dave == 0 then 1 else dave
      case TextMessage(_, Epoch(version, _), _) => version
      case _ => LastVersion(es[..|es| - 1])
  }

  function Exported(es: seq<Event>): map<User, Ratchet> {
    if es == [] then map[]
    else
      var e := es[|es| - 1];
      if Announces(e) then map[]
      else if Decides(e) && e.answer.outcome.Advanced? then e.answer.outcome.ratchets
      else Exported(es[..|es| - 1])
  }

  lemma StepSession(env: Foreign, g: Gateway, e: Event)
    requires Disciplined(g.client.mls) && Step(env, g, e).Some?
    ensures var s, t := g.client.mls.session, Step(env, g, e).value.client.mls.session;
      && t.inits == s.inits + (if Announces(e) then 1 else 0)
      && t.ratchets == if Announces(e) then map[]
                       else if Decides(e) && e.answer.outcome.Advanced? then e.answer.outcome.ratchets
                       else s.ratchets
  {
    match e
    case TextMessage(_, text, _) => TextSession(g, e);
    case BinaryMessage(data, a) => BinarySession(g, data, a);
    case _ =>
  }

  lemma BinarySession(g: Gateway, data: seq<Byte>, a: Answer)
    ensures var s, t := g.client.mls.session, OnBinary(g, data, a).client.mls.session;
      && t.inits == s.inits && t.asked == s.asked + Asks(data, g.client.mls.recognized)
      && t.ratchets == if Decides(BinaryMessage(data, a)) && a.outcome.Advanced? then a.outcome.ratchets
                       else s.ratchets
  {
    if |data| >= 3 {
      var f := DecodeBinary(data).value;
      var h := g.(lastSeq := f.seqNo);
      if f.opcode in {ANNOUNCE_COMMIT, WELCOME} {
        AdvanceSession(h, f.payload, a, f.opcode == WELCOME);
        if |data| >= 5 {
          assert data[3..][2..] == data[5..];
        }
      }
    }
  }

  /** What a binary message gives the session to process: an external sender as it is, proposals and a welcome with some
      users. */
  function Asks(data: seq<Byte>, users: set<User>): seq<Call> {
    if |data| < 3 then []
    else if data[2] == 25 then [SenderCall(data[3..])]
    else if data[2] == 27 then [ProposalsCall(data[3..], users)]
    else if |data| < 5 then []
    else if data[2] == 29 then [CommitCall(data[5..])]
    else if data[2] == 30 then [WelcomeCall(data[5..], users)]
    else []
  }

  /** What the session was given over a run: each time the users present then. */
  function AllAsked(es: seq<Event>): seq<Call> {
    if es == [] then []
    else
      var before, e := es[..|es| - 1], es[|es| - 1];
      AllAsked(before) + if e.BinaryMessage? then Asks(e.data, PresentUsers(before)) else []
  }

  lemma StepAsks(env: Foreign, g: Gateway, e: Event)
    requires Disciplined(g.client.mls) && Step(env, g, e).Some?
    ensures Step(env, g, e).value.client.mls.session.asked ==
      g.client.mls.session.asked + if e.BinaryMessage? then Asks(e.data, g.client.mls.recognized) else []
  {
    match e
    case BinaryMessage(data, a) => BinarySession(g, data, a);
    case TextMessage(_, text, _) => TextAsks(g, e);
    case _ =>
  }

  lemma TextAsks(g: Gateway, e: Event)
    requires Disciplined(g.client.mls) && e.TextMessage?
    ensures OnText(g, e.text, e.answer).client.mls.session.asked == g.client.mls.session.asked
  {
    match e.text
    case Epoch(_, _) =>
    case SessionDescription(_, _) =>
    case _ =>
  }

  /** The session is given every external sender, proposal, commit and welcome that comes, in order, and with proposals
      and welcomes exactly the users present at that point: those a connect or speaking event introduced and who did not
      disconnect since. */
  lemma {:induction false} AskedExactly(env: Foreign, channel: nat, es: seq<Event>, t: Gateway)
    requires Reaches(env, channel, es, t)
    ensures t.client.mls.session.asked == AllAsked(es)
  {
    if es == [] {
      ReachesStart(env, channel, t);
    } else {
      var g := ReachesLast(env, channel, es, t);
      AskedExactly(env, channel, es[..|es| - 1], g);
      RecognizedArePresent(env, channel, es[..|es| - 1], g);
      StepAsks(env, g, es[|es| - 1]);
    }
  }

  lemma TextSession(g: Gateway, e: Event)
    requires Disciplined(g.client.mls) && e.TextMessage?
    ensures var s, t := g.client.mls.session, OnText(g, e.text, e.answer).client.mls.session;
      && t.inits == s.inits + (if Announces(e) then 1 else 0)
      && t.ratchets == if Announces(e) then map[] else s.ratchets
  {
    match e.text
    case Epoch(_, _) =>
    case SessionDescription(_, _) =>
    case _ =>
  }

  lemma StepMlsVersion(env: Foreign, g: Gateway, e: Event)
    requires Disciplined(g.client.mls) && Step(env, g, e).Some?
    ensures Step(env, g, e).value.client.mls.version ==
      match e
      case TextMessage(_, SessionDescription(dave, _), _) => if dave == 0 then 1 else dave
      case TextMessage(_, Epoch(version, _), _) => version
      case _ => g.client.mls.version
  {
    match e
    case TextMessage(_, text, _) =>
      match text {
        case Epoch(_, _) =>
        case SessionDescription(_, _) =>
        case _ =>
      }
    case _ =>
  }

  /** The session follows the messages: one initialization for each announced group, the version announced last, also
      by op 24, and exactly the ratchets of the last accepted commit or welcome of the current group. */
  lemma {:induction false} SessionFollows(env: Foreign, channel: nat, es: seq<Event>, t: Gateway)
    requires Reaches(env, channel, es, t)
    ensures var m := t.client.mls;
      m.session.inits == Groups(es) && m.version == LastVersion(es) && m.session.ratchets == Exported(es)
  {
    if es == [] {
      ReachesStart(env, channel, t);
    } else {
      var g := ReachesLast(env, channel, es, t);
      SessionFollows(env, channel, es[..|es| - 1], g);
      StepSession(env, g, es[|es| - 1]);
      StepMlsVersion(env, g, es[|es| - 1]);
    }
  }

  function KeyPackages(sent: seq<WireFrame>): nat {
    if sent == [] then 0 else KeyPackages(sent[..|sent| - 1]) + if sent[|sent| - 1].op == 26 then 1 else 0
  }

  lemma KeyPackagesSnoc(sent: seq<WireFrame>, f: WireFrame)
    ensures KeyPackages(sent + [f]) == KeyPackages(sent) + if f.op == 26 then 1 else 0
  {
    assert (sent + [f])[..|sent|] == sent;
  }

  lemma OwedOne(e: Event)
    ensures Owed(e) == [] || exists f :: Owed(e) == [f]
    ensures Announces(e) <==> Owed(e) != [] && Owed(e)[0].op == 26
  {}

  lemma AppendKeyPackages(sent: seq<WireFrame>, e: Event)
    ensures KeyPackages(sent + Owed(e)) == KeyPackages(sent) + if Announces(e) then 1 else 0
  {
    OwedOne(e);
    if Owed(e) == [] {
      assert sent + Owed(e) == sent;
    } else {
      KeyPackagesSnoc(sent, Owed(e)[0]);
    }
  }

  lemma {:induction false} OwedKeyPackages(es: seq<Event>)
    ensures KeyPackages(AllOwed(es)) == Groups(es)
  {
    if es != [] {
      OwedKeyPackages(es[..|es| - 1]);
      AppendKeyPackages(AllOwed(es[..|es| - 1]), es[|es| - 1]);
    }
  }

  /** Each group the session was initialized with was published by one op 26, unless the last send failed. */
  lemma KeyPackagePerGroup(env: Foreign, channel: nat, es: seq<Event>, t: Gateway)
    requires Reaches(env, channel, es, t)
    ensures KeyPackages(t.sent) == t.client.mls.session.inits
            || (t.phase == Ended && KeyPackages(t.sent) + 1 == t.client.mls.session.inits)
  {
    ReplyTrace(env, channel, es, t);
    SessionFollows(env, channel, es, t);
    OwedKeyPackages(es);
    var owed := AllOwed(es);
    if t.sent != owed {
      assert owed == t.sent + [owed[|owed| - 1]];
      KeyPackagesSnoc(t.sent, owed[|owed| - 1]);
    }
  }
}
