/** completion_webhook.py: the `meeting.completed` envelope and its delivery. */
module Webhook {
  import opened Wrappers
  import Names

  /** A point in time; formatting it as ISO 8601 is foreign code. */
  type Time = int

  datatype Envelope = Envelope(eventId: string, createdAt: Time, meeting: Meeting)

  datatype Meeting = Meeting(id: nat, nativeId: string, startTime: Time, endTime: Option<Time>)

  /** What `event_id` is hashed from. */
  function EventSeed(meeting: nat): string {
    "discord-vexa-bridge|" + Names.Decimal(meeting) + "|completed"
  }

  /** The hash is a parameter: SHA-256 cut to its first 32 hexadecimal digits. The envelope always has a start marker,
      the first known of start, end and creation; it carries an end exactly when the row has one. */
  function BuildEnvelope(hash: string -> string, id: nat, nativeId: string, start: Option<Time>, end: Option<Time>,
                         now: Time): (e: Envelope)
    ensures start == Some(e.meeting.startTime) || (start.None? && end == Some(e.meeting.startTime))
            || (start.None? && end.None? && e.meeting.startTime == e.createdAt)
    ensures e.meeting.endTime == end && e.meeting.id == id && e.meeting.nativeId == nativeId
    ensures e.createdAt == now
    ensures e.eventId == "evt_" + hash("discord-vexa-bridge|" + Names.Decimal(id) + "|completed")
  {
    var fallback := if end.Some? then end.value else now;
    Envelope("evt_" + hash(EventSeed(id)), now,
             Meeting(id, nativeId, if start.Some? then start.value else fallback, end))
  }

  lemma SeedInjective(m: nat, n: nat)
    ensures EventSeed(m) == EventSeed(n) ==> m == n
  {
    var pre, post := "discord-vexa-bridge|", "|completed";
    if EventSeed(m) == EventSeed(n) {
      var k := |pre|;
      assert EventSeed(m)[k..|EventSeed(m)| - |post|] == Names.Decimal(m);
      assert EventSeed(n)[k..|EventSeed(n)| - |post|] == Names.Decimal(n);
      Names.DecimalInjective(m, n);
    }
  }

  /** What an envelope is about, but for the id. */
  datatype Details = Details(nativeId: string, start: Option<Time>, end: Option<Time>, now: Time)

  function EnvelopeOf(hash: string -> string, id: nat, d: Details): Envelope {
    BuildEnvelope(hash, id, d.nativeId, d.start, d.end, d.now)
  }

  /** A receiver can deduplicate by event id: two envelopes have the same one exactly when they are about the same
      meeting, whatever else they say, provided the hash does not collide on their seeds. */
  lemma EventIdIdentifiesMeeting(hash: string -> string, m: nat, n: nat, a: Details, b: Details)
    requires hash(EventSeed(m)) == hash(EventSeed(n)) ==> EventSeed(m) == EventSeed(n)
    ensures EnvelopeOf(hash, m, a).eventId == EnvelopeOf(hash, n, b).eventId <==> m == n
  {
    SeedInjective(m, n);
    var e, f := EnvelopeOf(hash, m, a), EnvelopeOf(hash, n, b);
    assert e.eventId[4..] == hash(EventSeed(m)) && f.eventId[4..] == hash(EventSeed(n));
  }

  /** One POST: headers and body. */
  datatype Post = Post(timestamp: string, signature: string, bearer: string, body: string)

  /** What the receiver answers to one attempt. */
  datatype Response = Code(code: int) | Raises

  /** Any status of the form 2xx. */
  predicate Accepted(r: Response) { r.Code? && r.code / 100 == 2 }

  /** `emit`: at most `attempts` identical posts, each signed over its timestamp and raw body as the receiver checks it,
      the last of which is the first to be accepted, if any is. The keyed hash is a parameter, and so are the answers;
      an attempt past the given answers raises. */
  method Emit(hmac: (string, string) -> string, secret: string, body: string, now: nat, attempts: int,
              responses: seq<Response>) returns (ok: bool, posts: seq<Post>)
    ensures |posts| <= if attempts > 0 then attempts else 0
    ensures forall i :: 0 <= i < |posts| ==>
      && posts[i].timestamp == Names.Decimal(now) && posts[i].body == body && posts[i].bearer == secret
      && posts[i].signature == "sha256=" + hmac(secret, Names.Decimal(now) + "." + body)
    ensures forall i :: 0 <= i < |posts| - 1 ==> i >= |responses| || !Accepted(responses[i])
    ensures ok <==> 0 < |posts| <= |responses| && Accepted(responses[|posts| - 1])
    ensures !ok ==> |posts| == if attempts > 0 then attempts else 0
  {
    var timestamp := Names.Decimal(now);
    var post := Post(timestamp, "sha256=" + hmac(secret, timestamp + "." + body), secret, body);
    posts := [];
    var attempt := 1;
    while attempt <= attempts
      invariant |posts| == attempt - 1 && (attempts > 0 ==> attempt <= attempts + 1) && (attempts <= 0 ==> attempt == 1)
      invariant forall i :: 0 <= i < |posts| ==> posts[i] == post
      invariant forall i :: 0 <= i < |posts| ==> i >= |responses| || !Accepted(responses[i])
    {
      posts := posts + [post];
      var response := if attempt - 1 < |responses| then responses[attempt - 1] else Raises;
      match response {
        case Code(code) =>
          if 200 <= code < 300 {
            return true, posts;
          }
        case Raises =>
      }
      attempt := attempt + 1;
    }
    ok := false;
  }
}
