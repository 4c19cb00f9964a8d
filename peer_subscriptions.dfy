/**
 * The peer subscription manager: a bounded set of followed peers. Subscribe
 * checks capacity, then membership, then inserts the peer and sends one
 * SubscribeTo command; unsubscribe only forgets the peer locally.
 */
module PeerSubscriptions {
  import opened Wrappers
  import opened Wire
  import opened Crypto
  import opened Transport
  import opened MediaManagement

  /** Most peers followed at once. */
  const LIMIT: nat := 20

  datatype Reason = AutoSubscribe(peer: string)

  /** How `subscribe` resolves a request; only Accepted changes the set and sends. */
  datatype Decision = LimitReached | AlreadySubscribed | Accepted

  /** Capacity is checked before membership, so a member at capacity reads as LimitReached. */
  function Decide(peers: set<string>, peer: string): (d: Decision)
    ensures d == LimitReached <==> |peers| >= LIMIT
    ensures d == AlreadySubscribed <==> |peers| < LIMIT && peer in peers
    ensures d == Accepted <==> |peers| < LIMIT && peer !in peers
  {
    if |peers| >= LIMIT then LimitReached
    else if peer in peers then AlreadySubscribed
    else Accepted
  }

  /** The followed set after `subscribe(peer)`. */
  function AfterSubscribe(peers: set<string>, peer: string): (r: set<string>)
    ensures |peers| <= LIMIT ==> |r| <= LIMIT
    ensures peers <= r
    ensures peer in r <==> peer in peers || |peers| < LIMIT
    ensures forall q :: q in r && q != peer ==> q in peers
    ensures |peers| >= LIMIT ==> r == peers
  {
    if Decide(peers, peer).Accepted? then peers + {peer} else peers
  }

  class PeerSubscriptionManager {
    const userid: string
    const aes: Cipher
    var followedPeers: set<string>

    ghost predicate Valid()
      reads this
    {
      |followedPeers| <= LIMIT
    }

    /** `new`: nobody followed yet. */
    constructor (userid: string, aes: Cipher)
      ensures Valid()
      ensures this.userid == userid && this.aes == aes
      ensures followedPeers == {}
    {
      this.userid := userid;
      this.aes := aes;
      followedPeers := {};
    }

    /**
     * `subscribe`: when the decision is Accepted the peer is inserted and one
     * SubscribeTo(peer) envelope from `userid` is handed to `sender` (or the
     * construction panics after the insertion); otherwise nothing changes.
     */
    method Subscribe(reason: Reason, proto: Protobuf, sender: PacketSender) returns (outcome: Outcome)
      requires Valid()
      modifies this, sender
      ensures Valid()
      ensures followedPeers == AfterSubscribe(old(followedPeers), reason.peer)
      ensures !Decide(old(followedPeers), reason.peer).Accepted? ==>
        outcome == Completed && sender.sent == old(sender.sent)
      ensures Decide(old(followedPeers), reason.peer).Accepted? ==>
        match CommandPacket(aes, proto, userid, SubscribeTo(reason.peer))
        case Success(p) => outcome == Completed && sender.sent == old(sender.sent) + [p]
        case Failure(e) => outcome == Panicked(e) && sender.sent == old(sender.sent)
    {
      var peer := reason.peer;
      if |followedPeers| >= LIMIT {
        outcome := Completed;
      } else if peer in followedPeers {
        outcome := Completed;
      } else {
        followedPeers := followedPeers + {peer};
        outcome := SendCommand(sender, aes, proto, userid, SubscribeTo(peer));
      }
    }

    /** `unsubscribe`: a local removal; idempotent, and no packet is sent. */
    method Unsubscribe(peer: string)
      requires Valid()
      modifies this
      ensures Valid()
      ensures followedPeers == old(followedPeers) - {peer}
    {
      followedPeers := followedPeers - {peer};
    }

    /** `is_subscribed_to` */
    function IsSubscribedTo(peer: string): (b: bool)
      reads this
      ensures b <==> peer in followedPeers
    {
      peer in followedPeers
    }
  }

  /** One call on the manager. */
  datatype Request = Subscribe(reason: Reason) | Unsubscribe(peer: string)

  /** What a call did, as seen from outside: a SubscribeTo sent for `peer`, or `peer` forgotten. */
  datatype Effect = SentSubscribeTo(peer: string) | Removed(peer: string)

  /** The followed set and the effects so far; `panicked` once packet construction aborted. */
  datatype History = History(peers: set<string>, effects: seq<Effect>, panicked: bool)

  /**
   * The history of making `requests`, in order, on a manager for `userid`
   * and `aes` that follows `peers`; a panic ends the run.
   */
  function Replay(userid: string, aes: Cipher, proto: Protobuf, peers: set<string>,
                  requests: seq<Request>): (h: History)
    ensures |peers| <= LIMIT ==> |h.peers| <= LIMIT
    decreases |requests|
  {
    if requests == [] then History(peers, [], false)
    else
      var prev := Replay(userid, aes, proto, peers, requests[..|requests| - 1]);
      if prev.panicked then prev
      else
        match requests[|requests| - 1]
        case Unsubscribe(p) => History(prev.peers - {p}, prev.effects + [Removed(p)], false)
        case Subscribe(AutoSubscribe(p)) =>
          if !Decide(prev.peers, p).Accepted? then prev
          else if CommandPacket(aes, proto, userid, SubscribeTo(p)).Failure? then
            History(AfterSubscribe(prev.peers, p), prev.effects, true)
          else
            History(AfterSubscribe(prev.peers, p), prev.effects + [SentSubscribeTo(p)], false)
  }

  /** The latest effect concerning `p`, if any. */
  function LastEffectOn(effects: seq<Effect>, p: string): Option<Effect>
    decreases |effects|
  {
    if effects == [] then None
    else if effects[|effects| - 1].peer == p then Some(effects[|effects| - 1])
    else LastEffectOn(effects[..|effects| - 1], p)
  }

  /**
   * In a run that did not panic, a peer is followed exactly when the latest
   * thing that happened to it is a SubscribeTo being sent (or, if nothing
   * happened to it, when it was followed at the start).
   */
  lemma {:induction false} ReplayMembership(userid: string, aes: Cipher, proto: Protobuf,
                                            peers: set<string>, requests: seq<Request>, p: string)
    requires !Replay(userid, aes, proto, peers, requests).panicked
    ensures var h := Replay(userid, aes, proto, peers, requests);
      p in h.peers <==>
        match LastEffectOn(h.effects, p)
        case None => p in peers
        case Some(e) => e.SentSubscribeTo?
    decreases |requests|
  {
    if requests != [] {
      var init := requests[..|requests| - 1];
      var prev := Replay(userid, aes, proto, peers, init);
      ReplayMembership(userid, aes, proto, peers, init, p);
      var h := Replay(userid, aes, proto, peers, requests);
      if h.effects != prev.effects {
        assert h.effects[..|h.effects| - 1] == prev.effects;
      }
    }
  }

  /**
   * Starting from `new`, in a run that did not panic, the followed peers are
   * exactly those whose latest effect is a sent SubscribeTo.
   */
  lemma {:induction false} FollowedIffLastSentSubscribe(userid: string, aes: Cipher, proto: Protobuf,
                                     requests: seq<Request>, p: string)
    requires !Replay(userid, aes, proto, {}, requests).panicked
    ensures var h := Replay(userid, aes, proto, {}, requests);
      p in h.peers <==> LastEffectOn(h.effects, p) == Some(SentSubscribeTo(p))
  {
    ReplayMembership(userid, aes, proto, {}, requests, p);
    var h := Replay(userid, aes, proto, {}, requests);
    LastEffectOnNamesPeer(h.effects, p);
  }

  /** The latest effect concerning `p` is about `p`. */
  lemma {:induction false} LastEffectOnNamesPeer(effects: seq<Effect>, p: string)
    ensures LastEffectOn(effects, p).Some? ==> LastEffectOn(effects, p).value.peer == p
    decreases |effects|
  {
    if effects != [] && effects[|effects| - 1].peer != p {
      LastEffectOnNamesPeer(effects[..|effects| - 1], p);
    }
  }

  /**
   * Subscribing twice to a peer that is not followed, below the limit,
   * follows it once and sends exactly one SubscribeTo, for that peer.
   */
  lemma SubscribeTwiceSendsOnce(userid: string, aes: Cipher, proto: Protobuf,
                                peers: set<string>, p: string)
    requires |peers| < LIMIT && p !in peers
    requires CommandPacket(aes, proto, userid, SubscribeTo(p)).Success?
    ensures var h := Replay(userid, aes, proto, peers, [Subscribe(AutoSubscribe(p)), Subscribe(AutoSubscribe(p))]);
      h.peers == peers + {p} && h.effects == [SentSubscribeTo(p)] && !h.panicked
  {
    var request := Subscribe(AutoSubscribe(p));
    assert [request][..0] == [];
    assert Replay(userid, aes, proto, peers, []) == History(peers, [], false);
    assert Decide(peers, p) == Accepted;
    assert AfterSubscribe(peers, p) == peers + {p};
    var first := Replay(userid, aes, proto, peers, [request]);
    assert first == History(peers + {p}, [SentSubscribeTo(p)], false);
    assert [request, request][..1] == [request];
    assert !Decide(peers + {p}, p).Accepted?;
  }
}
