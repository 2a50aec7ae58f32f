/**
 dave_voice/voice_client.py and opus_decode.py: the callbacks of the gateway and the receive path. The class is
 proved against the value-level operations on `Client` that come first.
 */
module VoiceClients {
  import opened Bytes
  import opened Wrappers
  import opened Mls
  import Framing
  import Rtp

  datatype Key = Key(mode: string, secret: seq<Byte>)

  /** Foreign code: the transport cipher, a decryptor with a given past, and an Opus decoder with a given past.
      `None` is a failure. */
  datatype Foreign = Foreign(
    open: (Key, seq<Byte>, seq<Byte>, seq<Byte>) -> Option<seq<Byte>>,
    decrypt: (seq<DecOp>, seq<Byte>) -> Option<seq<Byte>>,
    decode: (seq<seq<Byte>>, seq<Byte>) -> Option<seq<Byte>>)

  /** One call of `on_pcm`, with the SSRC it came from. */
  datatype Pcm = Pcm(ssrc: Ssrc, user: User, data: seq<Byte>)

  datatype Client = Client(mls: MlsState, transport: Option<Key>, users: map<Ssrc, User>, daveVersion: nat,
                           opus: map<Ssrc, seq<seq<Byte>>>, pcm: seq<Pcm>)

  function NewClient(channel: nat): Client {
    Client(MlsState(1, channel, false, NEW_SESSION, map[], {}), None, map[], 0, map[], [])
  }

  /** `refresh_ratchets`, under the version guard that every callback has. */
  function Refreshed(c: Client): Client {
    if c.daveVersion >= 1 then c.(mls := Refresh(c.mls, c.users)) else c
  }

  /** `_on_session_description`; without a usable key it raises once the versions are set. */
  function Described(c: Client, dave: nat, key: Option<Key>): Client
    requires Disciplined(c.mls)
  {
    c.(daveVersion := dave, mls := WithVersion(c.mls, if dave != 0 then dave else 1),
       transport := if key.Some? then key else c.transport)
  }

  function Spoke(c: Client, user: User, ssrc: Ssrc): Client {
    Refreshed(c.(mls := c.mls.(recognized := c.mls.recognized + {user}), users := c.users[ssrc := user]))
  }

  function Connected(c: Client, users: seq<User>): Client {
    Refreshed(c.(mls := c.mls.(recognized := c.mls.recognized + (set u | u in users))))
  }

  function SsrcsOf(users: map<Ssrc, User>, user: User): set<Ssrc> {
    set ssrc | ssrc in users && users[ssrc] == user
  }

  /** The client with nothing left under some SSRCs. */
  function Without(c: Client, gone: set<Ssrc>): Client {
    c.(mls := c.mls.(decryptors := c.mls.decryptors - gone), users := c.users - gone, opus := c.opus - gone)
  }

  lemma WithoutMore(c: Client, gone: set<Ssrc>, more: set<Ssrc>)
    ensures Without(Without(c, gone), more) == Without(c, gone + more)
  {
    assert forall m: map<Ssrc, User> :: m - gone - more == m - (gone + more);
    assert forall m: map<Ssrc, Decryptor> :: m - gone - more == m - (gone + more);
    assert forall m: map<Ssrc, seq<seq<Byte>>> :: m - gone - more == m - (gone + more);
  }

  function Disconnected(c: Client, user: User): Client {
    Without(c.(mls := c.mls.(recognized := c.mls.recognized - {user})), SsrcsOf(c.users, user))
  }

  function PassThrough(d: Decryptor): Decryptor { d.(log := d.log + [ToPassthrough]) }

  /** The registry when some of its decryptors were moved to passthrough. */
  function PassedThrough(decryptors: map<Ssrc, Decryptor>, which: set<Ssrc>): map<Ssrc, Decryptor> {
    map ssrc | ssrc in decryptors :: if ssrc in which then PassThrough(decryptors[ssrc]) else decryptors[ssrc]
  }

  lemma PassedThroughOne(decryptors: map<Ssrc, Decryptor>, which: set<Ssrc>, ssrc: Ssrc)
    requires ssrc in decryptors && ssrc !in which
    ensures PassedThrough(decryptors, which)[ssrc] == decryptors[ssrc]
    ensures PassedThrough(decryptors, which + {ssrc}) ==
      PassedThrough(decryptors, which)[ssrc := PassThrough(decryptors[ssrc])]
  {}

  lemma PassedThroughNone(decryptors: map<Ssrc, Decryptor>)
    ensures PassedThrough(decryptors, {}) == decryptors
  {}

  function PreparedPassthrough(c: Client): Client {
    c.(mls := c.mls.(decryptors := PassedThrough(c.mls.decryptors, c.mls.decryptors.Keys)))
  }

  /** The DAVE frame of a datagram and its SSRC, when the transport layer accepts it for a mapped SSRC. */
  function TransportFrame(env: Foreign, c: Client, data: seq<Byte>): Option<(Ssrc, seq<Byte>)> {
    if c.transport.None? then None
    else
      match (Rtp.ParseRtpHeader(data), Framing.Receive((a, t, n) => env.open(c.transport.value, a, t, n), data))
      case (Some(pkt), Some(frame)) => if pkt.ssrc in c.users then Some((pkt.ssrc, frame)) else None
      case _ => None
  }

  function OpusLog(opus: map<Ssrc, seq<seq<Byte>>>, ssrc: Ssrc): seq<seq<Byte>> {
    if ssrc in opus then opus[ssrc] else []
  }

  /** A frame went through the decryptor of its SSRC, which is created on first use. */
  function Heard(c: Client, ssrc: Ssrc, frame: seq<Byte>): Client {
    var d := Existing(c.mls.decryptors, ssrc);
    c.(mls := c.mls.(decryptors := c.mls.decryptors[ssrc := d.(log := d.log + [Frame(frame)])]))
  }

  /** Opus decoder and `on_pcm`. */
  function Decoded(env: Foreign, c: Client, ssrc: Ssrc, bytes: seq<Byte>): Client
    requires ssrc in c.users
  {
    var past := OpusLog(c.opus, ssrc);
    var pcm := env.decode(past, bytes);
    c.(opus := c.opus[ssrc := past + [bytes]],
       pcm := if pcm.None? || pcm.value == [] then c.pcm else c.pcm + [Pcm(ssrc, c.users[ssrc], pcm.value)])
  }

  /** The part of `_handle_packet` after transport decryption. */
  function Played(env: Foreign, c: Client, ssrc: Ssrc, frame: seq<Byte>): Client
    requires ssrc in c.users
  {
    var plain := env.decrypt(Existing(c.mls.decryptors, ssrc).log, frame);
    if plain.None? || plain.value == [] then Heard(c, ssrc, frame)
    else Decoded(env, Heard(c, ssrc, frame), ssrc, plain.value)
  }

  function Handled(env: Foreign, c: Client, data: seq<Byte>): Client {
    match TransportFrame(env, c, data)
    case None => c
    case Some((ssrc, frame)) => Played(env, c, ssrc, frame)
  }

  class OpusDecoders {
    var decoders: map<Ssrc, seq<seq<Byte>>>

    constructor ()
      ensures decoders == map[]
    {
      decoders := map[];
    }

    /** A decoder is created on first use; what it decodes depends on all it decoded before. */
    method Decode(env: Foreign, ssrc: Ssrc, bytes: seq<Byte>) returns (pcm: Option<seq<Byte>>)
      modifies `decoders
      ensures pcm == env.decode(OpusLog(old(decoders), ssrc), bytes)
      ensures decoders == old(decoders)[ssrc := OpusLog(old(decoders), ssrc) + [bytes]]
    {
      if ssrc !in decoders {
        decoders := decoders[ssrc := []];
      }
      pcm := env.decode(decoders[ssrc], bytes);
      decoders := decoders[ssrc := decoders[ssrc] + [bytes]];
    }

    method Reset(ssrc: Ssrc)
      modifies `decoders
      ensures decoders == old(decoders) - {ssrc}
    {
      decoders := decoders - {ssrc};
    }
  }

  class VoiceClient {
    const env: Foreign
    const mls: MlsManager
    const opus: OpusDecoders
    var transport: Option<Key>
    var users: map<Ssrc, User>
    var daveVersion: nat
    var pcm: seq<Pcm>

    function View(): Client
      reads this, mls, opus
    {
      Client(mls.View(), transport, users, daveVersion, opus.decoders, pcm)
    }

    constructor (env: Foreign, channel: nat)
      ensures this.env == env && fresh(mls) && fresh(opus) && View() == NewClient(channel)
    {
      this.env := env;
      mls := new MlsManager(channel);
      opus := new OpusDecoders();
      transport, users, daveVersion, pcm := None, map[], 0, [];
    }

    method OnSessionDescription(dave: nat, key: Option<Key>) returns (ok: bool)
      requires Disciplined(mls.View())
      modifies this, mls
      ensures View() == Described(old(View()), dave, key) && ok == key.Some?
    {
      daveVersion := dave;
      mls.SetVersion(if daveVersion != 0 then daveVersion else 1);
      if key.Some? {
        transport := key;
      }
      ok := key.Some?;
    }

    /** The guarded refresh that the callbacks end with; `_on_execute` and `_on_mls_change` are just this. */
    method OnMlsChange()
      modifies mls
      ensures View() == Refreshed(old(View()))
    {
      if daveVersion >= 1 {
        mls.RefreshRatchets(users);
      }
    }

    method OnSpeaking(user: User, ssrc: Ssrc)
      modifies this, mls
      ensures View() == Spoke(old(View()), user, ssrc)
    {
      mls.recognized := mls.recognized + {user};
      users := users[ssrc := user];
      OnMlsChange();
    }

    method OnClientsConnect(ids: seq<User>)
      modifies mls
      ensures View() == Connected(old(View()), ids)
    {
      var k := 0;
      while k < |ids|
        invariant k <= |ids|
        invariant mls.View() == old(mls.View()).(recognized := old(mls.recognized) + (set u | u in ids[..k]))
      {
        assert ids[..k + 1] == ids[..k] + [ids[k]];
        mls.recognized := mls.recognized + {ids[k]};
        k := k + 1;
      }
      assert ids[..k] == ids;
      OnMlsChange();
    }

    method OnClientDisconnect(user: User)
      modifies this, mls, opus
      ensures View() == Disconnected(old(View()), user)
    {
      mls.recognized := mls.recognized - {user};
      ghost var start, gone: set<Ssrc> := View(), {};
      var dead := SsrcsOf(users, user);
      while dead != {}
        invariant gone + dead == SsrcsOf(start.users, user)
        invariant View() == Without(start, gone)
        decreases |dead|
      {
        var ssrc :| ssrc in dead;
        WithoutMore(start, gone, {ssrc});
        Forget(ssrc);
        gone, dead := gone + {ssrc}, dead - {ssrc};
      }
      assert gone == SsrcsOf(start.users, user);
    }

    method Forget(ssrc: Ssrc)
      modifies this, mls, opus
      ensures View() == Without(old(View()), {ssrc})
    {
      users := users - {ssrc};
      mls.decryptors := mls.decryptors - {ssrc};
      opus.Reset(ssrc);
    }

    /** One turn of `_on_prepare_passthrough`, after it visited `which`. */
    method PassThroughOne(ssrc: Ssrc, ghost before: map<Ssrc, Decryptor>, ghost which: set<Ssrc>)
      requires ssrc in before && ssrc !in which && mls.decryptors == PassedThrough(before, which)
      modifies mls`decryptors
      ensures mls.decryptors == PassedThrough(before, which + {ssrc})
    {
      PassedThroughOne(before, which, ssrc);
      var d := mls.DecryptorFor(ssrc);
      mls.decryptors := mls.decryptors[ssrc := PassThrough(d)];
    }

    method OnPreparePassthrough()
      modifies mls`decryptors
      ensures View() == PreparedPassthrough(old(View()))
    {
      var todo := mls.decryptors.Keys;
      ghost var before, done: set<Ssrc> := mls.decryptors, {};
      PassedThroughNone(before);
      while todo != {}
        invariant done == before.Keys - todo && todo <= before.Keys
        invariant mls.decryptors == PassedThrough(before, done)
        decreases |todo|
      {
        var ssrc :| ssrc in todo;
        PassThroughOne(ssrc, before, done);
        done, todo := done + {ssrc}, todo - {ssrc};
      }
      assert done == before.Keys;
    }

    /** `_handle_packet`. */
    method HandlePacket(data: seq<Byte>)
      modifies this, mls, opus
      ensures View() == Handled(env, old(View()), data)
    {
      if transport.None? || |data| < Rtp.HEADER_LEN + 4 {
        return;
      }
      var pkt := Rtp.ParseRtpHeader(data).value;
      if pkt.ssrc !in users {
        return;
      }
      var slices := Framing.Cut(data);
      if slices.None? {
        return;
      }
      var s := slices.value;
      var plain := env.open(transport.value, s.header, s.ciphertext, s.nonce);
      if plain.None? {
        return;
      }
      var frame := if s.extBodyLen <= |plain.value| then plain.value[s.extBodyLen..] else [];
      Play(pkt.ssrc, frame);
    }

    method Play(ssrc: Ssrc, frame: seq<Byte>)
      requires ssrc in users
      modifies this, mls, opus
      ensures View() == Played(env, old(View()), ssrc, frame)
    {
      var d := mls.DecryptorFor(ssrc);
      var plain := env.decrypt(d.log, frame);
      mls.decryptors := mls.decryptors[ssrc := d.(log := d.log + [Frame(frame)])];
      if plain.Some? && plain.value != [] {
        var out := opus.Decode(env, ssrc, plain.value);
        if out.Some? && out.value != [] {
          pcm := pcm + [Pcm(ssrc, users[ssrc], out.value)];
        }
      }
    }
  }
}
