/**
 dave_voice/mls.py. `dave.Session` and `dave.Decryptor` are foreign: a session is what its calls can be observed to
 have done, and a decryptor is the list of what was done to it since it was created, so that nothing is assumed
 about what it computes.
 */
module Mls {
  import opened Bytes
  import opened Wrappers
  import Opcodes

  type User = nat
  type Ssrc = nat

  datatype Ratchet = Ratchet(user: User, epoch: nat)

  /** What the session is given to process: a blob, and for proposals and welcomes the users it may admit. */
  datatype Call =
    | SenderCall(blob: seq<Byte>)
    | ProposalsCall(blob: seq<Byte>, recognized: set<User>)
    | CommitCall(blob: seq<Byte>)
    | WelcomeCall(blob: seq<Byte>, recognized: set<User>)

  /** As history, `inits` is how many groups the session was initialized with, and `asked` what it was given. */
  datatype Session = Session(started: bool, version: nat, group: nat, ratchets: map<User, Ratchet>, inits: nat,
                             asked: seq<Call>) {
    /** `init` must not be called on a session already initialized; a new group exports no keys. */
    function Init(v: nat, g: nat): Session
      requires !started
    {
      Session(true, v, g, map[], inits + 1, asked)
    }

    function Reset(): Session { this.(started := false, ratchets := map[]) }

    /** Only a session with a group has a protocol version to change. */
    function SetProtocolVersion(v: nat): Session
      requires started
    {
      this.(version := v)
    }
  }

  const NEW_SESSION := Session(false, 0, 0, map[], 0, [])

  /** What `process_commit` and `process_welcome` can answer: a reject, nothing, or the new epoch's key ratchets. */
  datatype Outcome = Rejected | Missing | Advanced(ratchets: map<User, Ratchet>)

  datatype DecOp = ToRatchet(r: Ratchet) | ToPassthrough | Frame(frame: seq<Byte>)

  datatype Decryptor = Decryptor(ratchet: Option<Ratchet>, log: seq<DecOp>)

  const NEW_DECRYPTOR := Decryptor(None, [])

  function Wire(d: Decryptor, r: Ratchet): Decryptor { Decryptor(Some(r), d.log + [ToRatchet(r)]) }

  /** The payload of a reply: the JSON object `{"transition_id": ...}`, or bytes. */
  datatype Body = TransitionId(tid: nat) | Blob(bytes: seq<Byte>)

  datatype Reply = Reply(op: nat, body: Body)

  /** The state of an `MLSManager`, and its methods as functions. */
  datatype MlsState = MlsState(version: nat, group: nat, initialized: bool, session: Session,
                         decryptors: map<Ssrc, Decryptor>, recognized: set<User>)

  /** Session discipline: the manager knows whether the session has a group, and then both agree on version and
      group id. */
  predicate Disciplined(m: MlsState) {
    m.initialized == m.session.started
    && (m.initialized ==> m.session.version == m.version && m.session.group == m.group)
  }

  function WithVersion(m: MlsState, v: nat): MlsState
    requires Disciplined(m)
  {
    m.(version := v, session := if m.initialized then m.session.SetProtocolVersion(v) else m.session)
  }

  function WithGroup(m: MlsState, v: nat): (t: MlsState)
    requires m.initialized == m.session.started
    ensures Disciplined(t) && t.initialized && t.session.ratchets == map[]
  {
    var blank := if m.initialized then m.session.Reset() else m.session;
    m.(version := v, session := blank.Init(v, m.group), initialized := true)
  }

  function PrepareEpoch(m: MlsState, v: nat, epoch: nat): MlsState
    requires Disciplined(m)
  {
    if epoch == 1 then WithGroup(m, v) else WithVersion(m, v)
  }

  /** The session is given something to process. */
  function Ask(m: MlsState, call: Call): MlsState {
    m.(session := m.session.(asked := m.session.asked + [call]))
  }

  /** `process_commit` and `process_welcome`: only an accepted message moves the session to a new epoch. */
  function Process(m: MlsState, outcome: Outcome): MlsState {
    m.(session := if outcome.Advanced? then m.session.(ratchets := outcome.ratchets) else m.session)
  }

  /** `_ready_or_invalid`: only a reject makes the reply op 31. */
  function ReadyOrInvalid(tid: nat, outcome: Outcome): Reply {
    Reply(if outcome.Rejected? then Opcodes.INVALID_COMMIT_WELCOME else Opcodes.TRANSITION_READY, TransitionId(tid))
  }

  /** The reply to a welcome: a missing result is invalid too. */
  function WelcomeReply(tid: nat, outcome: Outcome): Reply {
    if outcome.Missing? then Reply(Opcodes.INVALID_COMMIT_WELCOME, TransitionId(tid)) else ReadyOrInvalid(tid, outcome)
  }

  function Existing(decryptors: map<Ssrc, Decryptor>, ssrc: Ssrc): Decryptor {
    if ssrc in decryptors then decryptors[ssrc] else NEW_DECRYPTOR
  }

  /** The registry after `refresh_ratchets` visited a set of SSRCs: whoever has a ratchet is wired to it. */
  function Wired(decryptors: map<Ssrc, Decryptor>, ratchets: map<User, Ratchet>, users: map<Ssrc, User>,
                 which: set<Ssrc>): map<Ssrc, Decryptor>
  {
    map ssrc | ssrc in decryptors.Keys + (set s | s in which && s in users && users[s] in ratchets) ::
      if ssrc in which && ssrc in users && users[ssrc] in ratchets
      then Wire(Existing(decryptors, ssrc), ratchets[users[ssrc]])
      else decryptors[ssrc]
  }

  function Refresh(m: MlsState, users: map<Ssrc, User>): MlsState {
    m.(decryptors := Wired(m.decryptors, m.session.ratchets, users, users.Keys))
  }

  lemma WiredOne(decryptors: map<Ssrc, Decryptor>, ratchets: map<User, Ratchet>, users: map<Ssrc, User>,
                 which: set<Ssrc>, ssrc: Ssrc)
    requires ssrc in users && ssrc !in which
    ensures var t := Wired(decryptors, ratchets, users, which);
      Wired(decryptors, ratchets, users, which + {ssrc}) ==
        if users[ssrc] in ratchets then t[ssrc := Wire(Existing(t, ssrc), ratchets[users[ssrc]])] else t
  {}

  lemma WiredNone(decryptors: map<Ssrc, Decryptor>, ratchets: map<User, Ratchet>, users: map<Ssrc, User>)
    ensures Wired(decryptors, ratchets, users, {}) == decryptors
  {}

  class MlsManager {
    var version: nat
    var groupId: nat
    var initialized: bool
    var session: Session
    var decryptors: map<Ssrc, Decryptor>
    var recognized: set<User>

    function View(): MlsState
      reads this
    {
      MlsState(version, groupId, initialized, session, decryptors, recognized)
    }

    constructor (group: nat)
      ensures View() == MlsState(1, group, false, NEW_SESSION, map[], {}) && Disciplined(View())
    {
      version, groupId, initialized, session := 1, group, false, NEW_SESSION;
      decryptors, recognized := map[], {};
    }

    method SetVersion(v: nat)
      requires Disciplined(View())
      modifies `version, `session
      ensures View() == WithVersion(old(View()), v)
    {
      version := v;
      if initialized {
        session := session.SetProtocolVersion(v);
      }
    }

    method InitializeGroup(v: nat, keyPackage: seq<Byte>) returns (reply: Reply)
      requires initialized == session.started
      modifies `version, `session, `initialized
      ensures View() == WithGroup(old(View()), v)
      ensures reply == Reply(Opcodes.KEY_PACKAGE, Blob(keyPackage))
    {
      version := v;
      if initialized {
        session := session.Reset();
      }
      session := session.Init(v, groupId);
      initialized := true;
      reply := Reply(Opcodes.KEY_PACKAGE, Blob(keyPackage));
    }

    method OnPrepareEpoch(v: nat, epoch: nat, keyPackage: seq<Byte>) returns (reply: Option<Reply>)
      requires Disciplined(View())
      modifies `version, `session, `initialized
      ensures View() == PrepareEpoch(old(View()), v, epoch)
      ensures reply == if epoch == 1 then Some(Reply(Opcodes.KEY_PACKAGE, Blob(keyPackage))) else None
    {
      version := v;
      if epoch == 1 {
        var r := InitializeGroup(v, keyPackage);
        return Some(r);
      }
      if initialized {
        session := session.SetProtocolVersion(v);
      }
      reply := None;
    }

    method OnExternalSender(package: seq<Byte>, raises: bool) returns (ok: bool)
      modifies `session
      ensures View() == Ask(old(View()), SenderCall(package)) && ok == !raises
    {
      session := session.(asked := session.asked + [SenderCall(package)]);
      ok := !raises;
    }

    /** The session is given the proposals and the recognized users; it may produce a commit, and moves no epoch. */
    method OnProposals(blob: seq<Byte>, raises: bool, commit: Option<seq<Byte>>)
      returns (ok: bool, reply: Option<Reply>)
      modifies `session
      ensures View() == Ask(old(View()), ProposalsCall(blob, recognized)) && ok == !raises
      ensures ok ==>
        reply == match commit case None => None case Some(b) => Some(Reply(Opcodes.COMMIT_WELCOME, Blob(b)))
    {
      session := session.(asked := session.asked + [ProposalsCall(blob, recognized)]);
      if raises || commit.None? {
        return !raises, None;
      }
      ok, reply := true, Some(Reply(Opcodes.COMMIT_WELCOME, Blob(commit.value)));
    }

    method OnAnnounceCommit(tid: nat, commit: seq<Byte>, raises: bool, outcome: Outcome)
      returns (ok: bool, reply: Reply)
      modifies `session
      ensures var asked := Ask(old(View()), CommitCall(commit));
        View() == (if raises then asked else Process(asked, outcome)) && ok == !raises
      ensures ok ==> reply == ReadyOrInvalid(tid, outcome)
    {
      session := session.(asked := session.asked + [CommitCall(commit)]);
      reply := ReadyOrInvalid(tid, outcome);
      if raises {
        return false, reply;
      }
      if outcome.Advanced? {
        session := session.(ratchets := outcome.ratchets);
      }
      ok := true;
    }

    /** The session is given the welcome and the recognized users. */
    method OnWelcome(tid: nat, welcome: seq<Byte>, raises: bool, outcome: Outcome) returns (ok: bool, reply: Reply)
      modifies `session
      ensures var asked := Ask(old(View()), WelcomeCall(welcome, recognized));
        View() == (if raises then asked else Process(asked, outcome)) && ok == !raises
      ensures ok ==> reply == WelcomeReply(tid, outcome)
    {
      session := session.(asked := session.asked + [WelcomeCall(welcome, recognized)]);
      reply := Reply(Opcodes.INVALID_COMMIT_WELCOME, TransitionId(tid));
      if raises || outcome.Missing? {
        return !raises, reply;
      }
      if outcome.Advanced? {
        session := session.(ratchets := outcome.ratchets);
      }
      ok, reply := true, ReadyOrInvalid(tid, outcome);
    }

    method DecryptorFor(ssrc: Ssrc) returns (d: Decryptor)
      modifies `decryptors
      ensures d == Existing(old(decryptors), ssrc) && decryptors == old(decryptors)[ssrc := d]
    {
      if ssrc !in decryptors {
        decryptors := decryptors[ssrc := NEW_DECRYPTOR];
      }
      d := decryptors[ssrc];
    }

    /** One turn of `refresh_ratchets`, after it visited `which`. */
    method WireUp(ssrc: Ssrc, users: map<Ssrc, User>, ghost before: map<Ssrc, Decryptor>, ghost which: set<Ssrc>)
      requires ssrc in users && ssrc !in which && decryptors == Wired(before, session.ratchets, users, which)
      modifies `decryptors
      ensures decryptors == Wired(before, session.ratchets, users, which + {ssrc})
    {
      WiredOne(before, session.ratchets, users, which, ssrc);
      if users[ssrc] in session.ratchets {
        var d := DecryptorFor(ssrc);
        decryptors := decryptors[ssrc := Wire(d, session.ratchets[users[ssrc]])];
      }
    }

    method RefreshRatchets(users: map<Ssrc, User>)
      modifies `decryptors
      ensures View() == Refresh(old(View()), users)
    {
      var todo := users.Keys;
      ghost var before, done: set<Ssrc> := decryptors, {};
      WiredNone(before, session.ratchets, users);
      while todo != {}
        invariant done == users.Keys - todo && todo <= users.Keys
        invariant decryptors == Wired(before, session.ratchets, users, done)
        decreases |todo|
      {
        var ssrc :| ssrc in todo;
        WireUp(ssrc, users, before, done);
        done, todo := done + {ssrc}, todo - {ssrc};
      }
      assert done == users.Keys;
    }
  }
}
