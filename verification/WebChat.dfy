/** The in-process webchat adapter: subscriptions per conversation, and delivery behind the token check. */
module WebChat {
  import opened Prelude
  import opened Dicts
  import opened Token
  import opened Outside
  import opened Replay

  type Callback = int

  function Subscribers(subscribers: Dict<string, seq<Callback>>, conversation: string): seq<Callback>
  {
    match Get(subscribers, conversation) case None => [] case Some(s) => s
  }

  /** The list without any occurrence of the callback. */
  function Dropped(s: seq<Callback>, cb: Callback): seq<Callback>
  {
    Filter(s, (c: Callback) => c != cb)
  }

  /** Every callback with the action it is called with. */
  function Deliveries(s: seq<Callback>, action: OutboundAction): (r: seq<(Callback, OutboundAction)>)
    ensures |r| == |s| && forall i :: 0 <= i < |s| ==> r[i] == (s[i], action)
  {
    seq(|s|, i requires 0 <= i < |s| => (s[i], action))
  }

  class WebChatAdapter {
    const crypto: Crypto
    const world: World
    /** Whether a callback raises when it is called with an action. */
    const raises: (Callback, OutboundAction) -> bool
    var subscribers: Dict<string, seq<Callback>>
    /** The calls of callbacks so far. */
    var delivered: seq<(Callback, OutboundAction)>

    ghost predicate Valid()
      reads this
    {
      Distinct(subscribers)
    }

    constructor (crypto: Crypto, world: World, raises: (Callback, OutboundAction) -> bool)
      ensures Valid() && subscribers == [] && delivered == []
      ensures this.crypto == crypto && this.world == world && this.raises == raises
    {
      this.crypto, this.world, this.raises := crypto, world, raises;
      subscribers, delivered := [], [];
    }

    /** One callback more for this conversation, at the end; nothing changes for any other. */
    method Subscribe(conversation: string, cb: Callback)
      requires Valid()
      modifies this`subscribers
      ensures Valid()
      ensures forall c :: Subscribers(subscribers, c)
                       == Subscribers(old(subscribers), c) + if c == conversation then [cb] else []
    {
      var updated := Subscribers(subscribers, conversation) + [cb];
      PutDistinct(subscribers, conversation, updated);
      forall c ensures Subscribers(Put(subscribers, conversation, updated), c)
                    == Subscribers(subscribers, c) + if c == conversation then [cb] else []
      {
        PutGet(subscribers, conversation, updated, c);
      }
      subscribers := Put(subscribers, conversation, updated);
    }

    /** No occurrence of the callback is left in this conversation; nothing else changes. */
    method Unsubscribe(conversation: string, cb: Callback)
      requires Valid()
      modifies this`subscribers
      ensures Valid()
      ensures forall c :: Subscribers(subscribers, c)
                       == if c == conversation then Dropped(Subscribers(old(subscribers), c), cb)
                         else Subscribers(old(subscribers), c)
    {
      if Has(subscribers, conversation) {
        var kept := Dropped(Get(subscribers, conversation).value, cb);
        PutDistinct(subscribers, conversation, kept);
        forall c ensures Get(Put(subscribers, conversation, kept), c)
                      == if c == conversation then Some(kept) else Get(subscribers, c)
        {
          PutGet(subscribers, conversation, kept, c);
        }
        subscribers := Put(subscribers, conversation, kept);
      }
    }

    /** Without a valid token for the action nothing is delivered. With one, the subscribers of the conversation are
        called in order of subscription, up to the first that raises; false is an exception. */
    method Send(action: OutboundAction, token: HarnessToken) returns (ok: bool, ghost called: nat)
      modifies this`delivered, world`ticks
      ensures var verified := Verify(token, action.actionId, None, world.times(old(world.ticks)), crypto) == Verified;
              if verified then DeliveredTo(Subscribers(subscribers, action.conversation), action, old(delivered),
                                           called, ok)
              else !ok && delivered == old(delivered)
    {
      var now := world.Now();
      if Verify(token, action.actionId, None, now, crypto) != Verified { return false, 0; }
      ok, called := Deliver(Subscribers(subscribers, action.conversation), action);
    }

    /** The first `called` of the callbacks were called and none raised but, unless all is well, the last of them. */
    ghost predicate DeliveredTo(all: seq<Callback>, action: OutboundAction, before: seq<(Callback, OutboundAction)>,
                                called: nat, ok: bool)
      reads this`delivered
    {
      && called <= |all| && delivered == before + Deliveries(all[..called], action)
      && (forall i :: 0 <= i < (if ok then called else called - 1) ==> !raises(all[i], action))
      && (if ok then called == |all| else called > 0 && raises(all[called - 1], action))
    }

    /** `for cb in self._subscribers.get(conversation_id, ()): cb(action)` */
    method Deliver(all: seq<Callback>, action: OutboundAction) returns (ok: bool, ghost called: nat)
      modifies this`delivered
      ensures DeliveredTo(all, action, old(delivered), called, ok)
    {
      called := 0;
      for i := 0 to |all|
        invariant called == i && delivered == old(delivered) + Deliveries(all[..i], action)
        invariant forall j :: 0 <= j < i ==> !raises(all[j], action)
      {
        OneMoreDelivery(all, i, action, old(delivered));
        delivered := delivered + [(all[i], action)];
        called := i + 1;
        if raises(all[i], action) { return false, called; }
      }
      ok := true;
    }
  }

  lemma OneMoreDelivery(all: seq<Callback>, i: nat, action: OutboundAction, before: seq<(Callback, OutboundAction)>)
    requires i < |all|
    ensures before + Deliveries(all[..i + 1], action) == before + Deliveries(all[..i], action) + [(all[i], action)]
  {}

  lemma {:induction false} DroppedLength(s: seq<Callback>, cb: Callback)
    ensures |Dropped(s, cb)| <= |s| && (cb in s ==> |Dropped(s, cb)| < |s|) && (cb !in s ==> Dropped(s, cb) == s)
  {
    if s != [] {
      var n := |s| - 1;
      DroppedLength(s[..n], cb);
      assert s == s[..n] + [s[n]];
    }
  }

  /** Unsubscribing undoes a subscription exactly when the callback was not subscribed before. */
  lemma UnsubscribeUndoesIffNew(s: seq<Callback>, cb: Callback)
    ensures Dropped(s + [cb], cb) == s <==> cb !in s
  {
    FilterSnoc(s, cb, (c: Callback) => c != cb);
    DroppedLength(s, cb);
    assert Dropped(s, cb) + [] == Dropped(s, cb);
  }
}
