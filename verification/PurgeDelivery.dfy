// How a purge or a rule change reaches a replica: the message, and the replica's subscriber.
module PurgeDelivery {
  import opened Numbers
  import opened LruLists
  import opened ShardedCaches
  import Resp

  // ---------------------------------------------------------------------------------------------
  // The subscriber.

  // The str field of a reply; it is empty where a reply has none.
  function StrOf(r: Resp.Reply): string {
    if r.Status? || r.Error? || r.Bulk? then r.str else ""
  }

  // A message that was published on the channel.
  predicate On(msg: Resp.Reply, channel: string) {
    msg.Array? && |msg.elements| == 3 && StrOf(msg.elements[0]) == "message" && StrOf(msg.elements[1]) == channel
  }

  // What Redis pushes to a subscriber for PUBLISH channel payload.
  function Pushed(channel: string, payload: string): Resp.Reply {
    Resp.Array([Resp.Bulk("message"), Resp.Bulk(channel), Resp.Bulk(payload)])
  }

  // What is published on a channel reaches the subscriber byte for byte, whatever bytes it contains and whatever
  // follows it on the connection, as a message on that channel and on no other.
  lemma MessageArrives(channel: string, payload: string, rest: string)
    requires |channel| <= LLONG_MAX && |payload| <= LLONG_MAX
    ensures var p := Resp.ParseReply(Resp.Render(Pushed(channel, payload)) + rest);
            && p.Some? && p.value.1 == rest
            && On(p.value.0, channel) && (forall other :: On(p.value.0, other) ==> other == channel)
            && StrOf(p.value.0.elements[2]) == payload
  {
    Resp.ParsesBack(Pushed(channel, payload), rest);
  }

  class Subscriber {
    const purgeChannel: string
    const ruleChannel: string
    const cache: ShardedCache
    var reloadRequested: bool
    var purgeMessages: nat

    constructor (purgeChannel: string, ruleChannel: string, cache: ShardedCache)
      ensures this.purgeChannel == purgeChannel && this.ruleChannel == ruleChannel && this.cache == cache
      ensures !reloadRequested && purgeMessages == 0
    {
      this.purgeChannel, this.ruleChannel, this.cache := purgeChannel, ruleChannel, cache;
      reloadRequested, purgeMessages := false, 0;
    }

    method Evict(pattern: string)
      requires cache.Valid()
      modifies this`purgeMessages, cache.shards
      ensures cache.Valid() && cache.Contents() == KeepInAll(old(cache.Contents()), Uncovered(pattern))
      ensures purgeMessages == old(purgeMessages) + 1
    {
      ghost var before := cache.Contents();
      purgeMessages := purgeMessages + 1;
      assert cache.Contents() == before;
      var evicted := cache.Purge(pattern);
    }

    // A message on the purge channel purges the pattern it carries; a message on the rule channel, if that is another,
    // asks for the rules to be loaded again; nothing else does anything.
    method OnMessage(msg: Resp.Reply)
      requires cache.Valid()
      modifies this, cache.shards
      ensures cache.Valid()
      ensures On(msg, purgeChannel) ==>
                cache.Contents() == KeepInAll(old(cache.Contents()), Uncovered(StrOf(msg.elements[2])))
      ensures !On(msg, purgeChannel) ==> cache.Contents() == old(cache.Contents())
      ensures purgeMessages == old(purgeMessages) + (if On(msg, purgeChannel) then 1 else 0)
      ensures reloadRequested == (old(reloadRequested) || (On(msg, ruleChannel) && ruleChannel != purgeChannel))
    {
      if msg.Array? && |msg.elements| == 3 && StrOf(msg.elements[0]) == "message" {
        var channel, payload := StrOf(msg.elements[1]), StrOf(msg.elements[2]);
        if channel == purgeChannel {
          Evict(payload);
        } else if channel == ruleChannel {
          reloadRequested := true;
        }
      }
    }

    // The turn of the subscriber's loop for what has been published on a channel: the reply is read and handled.
    method Receive(channel: string, payload: string, rest: string) returns (left: string)
      requires cache.Valid() && |channel| <= LLONG_MAX && |payload| <= LLONG_MAX
      modifies this, cache.shards
      ensures cache.Valid() && left == rest
      ensures channel == purgeChannel ==>
                && cache.Contents() == KeepInAll(old(cache.Contents()), Uncovered(payload))
                && reloadRequested == old(reloadRequested)
      ensures channel != purgeChannel ==>
                && cache.Contents() == old(cache.Contents())
                && reloadRequested == (old(reloadRequested) || channel == ruleChannel)
    {
      MessageArrives(channel, payload, rest);
      var (msg, rest') := Resp.ParseReply(Resp.Render(Pushed(channel, payload)) + rest).value;
      left := rest';
      OnMessage(msg);
    }
  }
}
