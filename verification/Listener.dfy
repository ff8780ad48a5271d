/**
 The listener's operations as the source writes them (pkg/database/listener.go): a map of subscription
 objects that is updated in place. Each method is one critical section of WatchProtocol; the
 interleaving of the sections is the subject of WatchSafety and its companions.
*/
module Listener {
  import opened Prelude
  import WatchProtocol

  type Event = nat

  class Channel {
    var queue: seq<Event>
    var closed: bool

    constructor ()
      ensures queue == [] && !closed
    {
      queue, closed := [], false;
    }

    // A send: on a closed channel it would panic, and without room the fan-out does not wait.
    method Send(e: Event)
      requires !closed && |queue| < WatchProtocol.BUFFER
      modifies this`queue
      ensures queue == old(queue) + [e]
    {
      queue := queue + [e];
    }
  }

  // The Subscription record; `done` is the state of its derived context.
  class Subscription {
    const id: string
    const channel: Channel
    const createdAt: nat
    var done: bool
    var lastActivity: nat

    constructor (id: string, channel: Channel, done: bool, now: nat)
      ensures this.id == id && this.channel == channel && this.done == done
      ensures createdAt == now && lastActivity == now
    {
      this.id, this.channel, this.done := id, channel, done;
      this.createdAt, this.lastActivity := now, now;
    }

    // One round of checkAndCloseExpiredSubscriptions.
    method CloseIfExpired(c: WatchProtocol.Config, now: nat)
      modifies this`done
      ensures done <==> old(done) || WatchProtocol.Expired(c, now, createdAt, lastActivity)
    {
      var age := now - createdAt;
      var idle := now - lastActivity;
      if age > c.maxLifetime {
        done := true;
      } else if idle > c.idleTimeout {
        done := true;
      }
    }
  }

  /** The receiver queue after a fan-out of e: unchanged when the subscription is done or the buffer full. */
  function Offer(done: bool, queue: seq<Event>, e: Event): seq<Event> {
    if done || |queue| >= WatchProtocol.BUFFER then queue else queue + [e]
  }

  class Listener {
    var subscriptions: map<string, Subscription>
    var cancelled: bool
    var started: bool
    var loops: nat      // the goroutines of listen that Start has launched

    ghost function Channels(): set<Channel>
      reads this
    {
      set id | id in subscriptions :: subscriptions[id].channel
    }

    // Entries are filed under their own ID, each with a receiver of its own that is still open; one loop at most.
    ghost predicate Valid()
      reads this, subscriptions.Values, Channels()
    {
      && loops == (if started then 1 else 0)
      && (forall id | id in subscriptions :: subscriptions[id].id == id && !subscriptions[id].channel.closed)
      && (forall a, b | a in subscriptions && b in subscriptions && a != b ::
            subscriptions[a] != subscriptions[b] && subscriptions[a].channel != subscriptions[b].channel)
    }

    constructor ()
      ensures Valid() && subscriptions == map[] && !cancelled && !started
    {
      subscriptions, cancelled, started, loops := map[], false, false, 0;
    }

    // Start, given the outcome of a connection. However often it is called, Valid() leaves one loop at most.
    method Start(connected: bool) returns (ok: bool)
      requires Valid()
      modifies this`started, this`loops
      ensures Valid() && (ok <==> started) && (ok <==> old(started) || connected)
      ensures old(started) || !ok ==> loops == old(loops)
    {
      if started {
        return true;
      }
      if !connected {
        return false;
      }
      started := true;
      loops := loops + 1;
      ok := true;
    }

    // The part of RegisterSubscription under listener.mu.
    method Add(id: string, channel: Channel, parentDone: bool, now: nat, maxActive: nat) returns (sub: Option<Subscription>)
      requires Valid() && !channel.closed && channel !in Channels()
      modifies this`subscriptions
      ensures Valid()
      ensures sub.None? <==> |old(subscriptions)| >= maxActive
      ensures sub.None? ==> subscriptions == old(subscriptions)
      ensures sub.Some? ==>
                && fresh(sub.value) && subscriptions == old(subscriptions)[id := sub.value]
                && sub.value.channel == channel && sub.value.done == parentDone
                && sub.value.createdAt == sub.value.lastActivity == now
      ensures |old(subscriptions)| <= maxActive ==> |subscriptions| <= maxActive
    {
      if |subscriptions| >= maxActive {
        return None;
      }
      var s := new Subscription(id, channel, parentDone, now);
      assert |subscriptions[id := s]| <= |subscriptions| + 1;
      subscriptions := subscriptions[id := s];
      sub := Some(s);
    }

    // UnregisterSubscription under listener.mu: removes whatever entry the ID names.
    method Remove(id: string)
      requires Valid()
      modifies this`subscriptions, this`cancelled, subscriptions.Values`done
      ensures Valid()
      ensures subscriptions == old(subscriptions) - {id}
      ensures id in old(subscriptions) ==> old(subscriptions)[id].done
      ensures forall k | k in subscriptions :: subscriptions[k].done == old(subscriptions[k].done)
      ensures cancelled == (old(cancelled) || subscriptions == map[])
    {
      if id in subscriptions {
        subscriptions[id].done := true;
      }
      subscriptions := subscriptions - {id};
      if subscriptions == map[] {
        cancelled := true;
      }
    }

    // UpdateSubscriptionActivity, given the time read under sub.mu.
    method Touch(id: string, now: nat)
      requires Valid()
      modifies subscriptions.Values`lastActivity
      ensures Valid()
      ensures forall k | k in subscriptions ::
                subscriptions[k].lastActivity == (if k == id then now else old(subscriptions[k].lastActivity))
    {
      if id in subscriptions {
        subscriptions[id].lastActivity := now;
      }
    }

    // The fan-out of forwardNotification: every entry is offered the event once, in any order.
    method Forward(e: Event)
      requires Valid()
      modifies Channels()`queue
      ensures Valid() && Channels() == old(Channels())
      ensures forall id | id in subscriptions ::
                subscriptions[id].channel.queue == Offer(subscriptions[id].done, old(subscriptions[id].channel.queue), e)
    {
      var rest := subscriptions.Keys;
      while rest != {}
        invariant rest <= subscriptions.Keys
        invariant Valid() && Channels() == old(Channels())
        invariant forall id | id in subscriptions ::
                    subscriptions[id].channel.queue
                    == if id in rest then old(subscriptions[id].channel.queue)
                       else Offer(subscriptions[id].done, old(subscriptions[id].channel.queue), e)
      {
        var id :| id in rest;
        rest := rest - {id};
        var sub := subscriptions[id];
        if !sub.done {
          if |sub.channel.queue| < WatchProtocol.BUFFER {
            sub.channel.Send(e);
          }
        }
      }
    }

    // checkAndCloseExpiredSubscriptions: cancels exactly the entries that have expired.
    method CloseExpired(c: WatchProtocol.Config, now: nat)
      requires Valid()
      modifies subscriptions.Values`done
      ensures Valid()
      ensures forall id | id in subscriptions ::
                var s := subscriptions[id];
                s.done <==> old(s.done) || WatchProtocol.Expired(c, now, s.createdAt, s.lastActivity)
    {
      var rest := subscriptions.Keys;
      while rest != {}
        invariant rest <= subscriptions.Keys && Valid()
        invariant forall id | id in subscriptions ::
                    subscriptions[id].done
                    <==> old(subscriptions[id].done)
                         || (id !in rest && WatchProtocol.Expired(c, now, subscriptions[id].createdAt, subscriptions[id].lastActivity))
      {
        var id :| id in rest;
        rest := rest - {id};
        var sub := subscriptions[id];
        sub.CloseIfExpired(c, now);
      }
    }

    // The watch's deferred teardown: unregister first, then close. The receiver is this watch's own,
    // so if it is in the map at all it is filed under the watch's ID.
    method EndWatch(id: string, receiver: Channel)
      requires Valid() && !receiver.closed
      requires forall k | k in subscriptions && subscriptions[k].channel == receiver :: k == id
      modifies this`subscriptions, this`cancelled, subscriptions.Values`done, receiver`closed
      ensures Valid() && receiver.closed && receiver !in Channels()
      ensures subscriptions == old(subscriptions) - {id}
    {
      Remove(id);
      receiver.closed := true;
    }
  }

  // The package variables listenerInstance and listenerOnce: the once has run iff the instance is set.
  class Package {
    var instance: Listener?

    constructor ()
      ensures instance == null
    {
      instance := null;
    }

    /** RegisterSubscription: creates and starts the listener on first use, then adds the entry. */
    method RegisterSubscription(id: string, channel: Channel, parentDone: bool, now: nat, maxActive: nat, connected: bool)
      returns (sub: Option<Subscription>)
      requires !channel.closed
      requires instance != null ==> instance.Valid() && channel !in instance.Channels()
      modifies this, if instance == null then {} else {instance}
      ensures instance != null && instance.Valid()
      ensures old(instance) == null ==> fresh(instance) && instance.started == connected
      ensures old(instance) != null ==> instance == old(instance)
      ensures sub.Some? <==> (if old(instance) == null then 0 else |old(instance.subscriptions)|) < maxActive
      ensures sub.Some? ==> id in instance.subscriptions && instance.subscriptions[id] == sub.value && sub.value.channel == channel
      ensures forall k | k != id :: k in instance.subscriptions <==> old(instance) != null && k in old(instance.subscriptions)
    {
      if instance == null {
        instance := new Listener();
        var ok := instance.Start(connected);
      }
      sub := instance.Add(id, channel, parentDone, now, maxActive);
    }
  }
}
