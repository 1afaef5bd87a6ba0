/**
 * The in-process publish/subscribe bus.  Each subscription is a buffered Go
 * channel of capacity 10, modelled as a `Channel` object: a bounded FIFO
 * buffer with a closed flag.  Receiving from a channel happens outside the
 * bus and is not modelled.
 */
module MessagingSim {
  import opened Common

  /** The buffer size of every subscription channel. */
  const Capacity: nat := 10

  datatype Message = Message(topic: string, payload: Value)

  /** A buffered channel: the messages waiting in its buffer, and whether it is closed. */
  class Channel {
    const capacity: nat
    var buffer: seq<Message>
    var closed: bool

    /** `make(chan Message, capacity)` */
    constructor (capacity: nat)
      ensures this.capacity == capacity && buffer == [] && !closed
    {
      this.capacity := capacity;
      buffer := [];
      closed := false;
    }
  }

  /**
   * A non-blocking send (`select { case ch <- m: default: }`): the message is
   * appended when the buffer has room and dropped otherwise.
   */
  function Offer(buffer: seq<Message>, capacity: nat, m: Message): (r: seq<Message>)
    ensures |buffer| < capacity ==> r == buffer + [m]
    ensures |buffer| >= capacity ==> r == buffer
  {
    if |buffer| < capacity then buffer + [m] else buffer
  }

  /** A buffer after a series of non-blocking sends with no receive in between. */
  function OfferAll(buffer: seq<Message>, capacity: nat, ms: seq<Message>): seq<Message>
    decreases |ms|
  {
    if ms == [] then buffer
    else OfferAll(Offer(buffer, capacity, ms[0]), capacity, ms[1..])
  }

  /** One more send after a series of sends is one more Offer. */
  lemma {:induction false} OfferAllSnoc(buffer: seq<Message>, capacity: nat, ms: seq<Message>, m: Message)
    ensures OfferAll(buffer, capacity, ms + [m]) == Offer(OfferAll(buffer, capacity, ms), capacity, m)
    decreases |ms|
  {
    if ms == [] {
      assert [m][1..] == [];
    } else {
      assert (ms + [m])[1..] == ms[1..] + [m];
      OfferAllSnoc(Offer(buffer, capacity, ms[0]), capacity, ms[1..], m);
    }
  }

  function Min(a: int, b: int): int
  {
    if a <= b then a else b
  }

  /**
   * Sending messages to a channel nobody drains keeps what was buffered,
   * delivers the sent messages in order until the buffer is full, and drops
   * the rest; the buffer never grows beyond its capacity.
   */
  lemma {:induction false} OfferAllDeliversPrefix(buffer: seq<Message>, capacity: nat, ms: seq<Message>)
    requires |buffer| <= capacity
    ensures OfferAll(buffer, capacity, ms) == buffer + ms[..Min(|ms|, capacity - |buffer|)]
    ensures |OfferAll(buffer, capacity, ms)| <= capacity
    decreases |ms|
  {
    if ms != [] {
      var next := Offer(buffer, capacity, ms[0]);
      OfferAllDeliversPrefix(next, capacity, ms[1..]);
      if |buffer| < capacity {
        assert ms[..Min(|ms|, capacity - |buffer|)]
            == [ms[0]] + ms[1..][..Min(|ms| - 1, capacity - |next|)];
      } else {
        assert ms[..Min(|ms|, capacity - |buffer|)] == [];
      }
    }
  }

  /** `s` without its first occurrence of `x`; `s` itself when `x` does not occur. */
  function RemoveFirst<T(==)>(s: seq<T>, x: T): seq<T>
    decreases |s|
  {
    if s == [] then []
    else if s[0] == x then s[1..]
    else [s[0]] + RemoveFirst(s[1..], x)
  }

  /**
   * RemoveFirst cuts out exactly the element at the first index holding `x`,
   * keeping the others in order, and is the identity when `x` is absent.
   */
  lemma {:induction false} RemoveFirstAt<T>(s: seq<T>, x: T, i: nat)
    requires i <= |s|
    requires x !in s[..i]
    requires i < |s| ==> s[i] == x
    ensures RemoveFirst(s, x) == if i < |s| then s[..i] + s[i + 1..] else s
    decreases i
  {
    if i > 0 {
      assert s[0] != x by { assert s[0] == s[..i][0]; }
      assert s[1..][..i - 1] == s[..i][1..];
      RemoveFirstAt(s[1..], x, i - 1);
      if i < |s| {
        assert [s[0]] + (s[1..][..i - 1] + s[1..][i..]) == s[..i] + s[i + 1..];
      } else {
        assert [s[0]] + s[1..] == s;
      }
    } else if |s| == 0 {
    } else {
      assert s[..0] + s[1..] == s[1..];
    }
  }

  /** RemoveFirst only removes: what is left was in the list. */
  lemma {:induction false} RemoveFirstSubset<T>(s: seq<T>, x: T)
    ensures forall y :: y in RemoveFirst(s, x) ==> y in s
    decreases |s|
  {
    if s != [] && s[0] != x {
      RemoveFirstSubset(s[1..], x);
      assert RemoveFirst(s, x) == [s[0]] + RemoveFirst(s[1..], x);
    }
  }

  /**
   * From a list without repetitions, RemoveFirst leaves a list without
   * repetitions that no longer holds the removed element.
   */
  lemma {:induction false} RemoveFirstDistinct<T>(s: seq<T>, x: T)
    requires Distinct(s)
    ensures Distinct(RemoveFirst(s, x)) && x !in RemoveFirst(s, x)
    decreases |s|
  {
    if s != [] {
      var tail := s[1..];
      assert Distinct(tail) by {
        forall i, j | 0 <= i < j < |tail| ensures tail[i] != tail[j] {
          assert tail[i] == s[i + 1] && tail[j] == s[j + 1];
        }
      }
      assert s[0] !in tail by {
        forall j | 0 <= j < |tail| ensures tail[j] != s[0] {
          assert tail[j] == s[j + 1];
        }
      }
      if s[0] != x {
        RemoveFirstDistinct(tail, x);
        RemoveFirstSubset(tail, x);
        var r := RemoveFirst(tail, x);
        DistinctCons(s[0], r);
      }
    }
  }

  /** Appending an element that is not in a list without repetitions keeps it so. */
  lemma DistinctSnoc<T>(r: seq<T>, y: T)
    requires Distinct(r) && y !in r
    ensures Distinct(r + [y])
  {
  }

  /** Putting an element that is not in a list without repetitions in front keeps it so. */
  lemma DistinctCons<T>(y: T, r: seq<T>)
    requires Distinct(r) && y !in r
    ensures Distinct([y] + r)
  {
  }

  /** No element occurs twice in the list. */
  ghost predicate Distinct<T>(s: seq<T>)
  {
    forall i, j :: 0 <= i < j < |s| ==> s[i] != s[j]
  }

  /**
   * `for _, ch := range subs { close(ch) }`.  Closing a channel twice panics
   * in Go, so every channel must be open and listed once.
   */
  method CloseChannels(chans: seq<Channel>)
    requires Distinct(chans)
    requires forall c :: c in chans ==> !c.closed
    modifies chans
    ensures forall c :: c in chans ==> c.closed && c.buffer == old(c.buffer)
  {
    for i := 0 to |chans|
      invariant forall j :: 0 <= j < i ==> chans[j].closed
      invariant forall j :: i <= j < |chans| ==> !chans[j].closed
      invariant forall c :: c in chans ==> c.buffer == old(c.buffer)
    {
      chans[i].closed := true;
    }
  }

  class PubSub {
    var subscribers: map<string, seq<Channel>>

    /** Every channel currently subscribed to some topic. */
    ghost function Channels(): set<Channel>
      reads this
    {
      set t, c | t in subscribers && c in subscribers[t] :: c
    }

    /**
     * A topic is present exactly when it has a subscriber; each channel is
     * subscribed once, under one topic; subscribed channels are open, have the
     * bus's capacity and never hold more than it.
     */
    ghost predicate Valid()
      reads this, Channels()
    {
      && (forall t :: t in subscribers ==> subscribers[t] != [])
      && (forall t :: t in subscribers ==> Distinct(subscribers[t]))
      && (forall t, u, c :: t in subscribers && u in subscribers && c in subscribers[t] && c in subscribers[u] ==> t == u)
      && (forall c :: c in Channels() ==> !c.closed && c.capacity == Capacity && |c.buffer| <= c.capacity)
    }

    /** The channels subscribed to `topic` (`ps.subscribers[topic]`, nil when absent). */
    function Subscribers(topic: string): (s: seq<Channel>)
      reads this
      ensures topic in subscribers ==> s == subscribers[topic]
      ensures topic !in subscribers ==> s == []
    {
      if topic in subscribers then subscribers[topic] else []
    }

    /** `NewPubSub`: no topics. */
    constructor ()
      ensures Valid() && subscribers == map[]
    {
      subscribers := map[];
    }

    /** Appends a new, empty, open channel of capacity 10 to the topic's list. */
    method Subscribe(topic: string) returns (ch: Channel)
      requires Valid()
      modifies this
      ensures Valid()
      ensures fresh(ch) && ch.buffer == [] && !ch.closed && ch.capacity == Capacity
      ensures subscribers == old(subscribers)[topic := old(Subscribers(topic)) + [ch]]
    {
      ch := new Channel(Capacity);
      var subs := Subscribers(topic);
      assert ch !in subs;
      DistinctSnoc(subs, ch);
      subscribers := subscribers[topic := subs + [ch]];
      assert forall c :: c in Channels() ==> c == ch || c in old(Channels());
    }

    /**
     * Removes the first occurrence of `ch` from the topic's list and drops the
     * topic once its list is empty; an unknown topic or handle changes nothing.
     */
    method Unsubscribe(topic: string, ch: Channel)
      requires Valid()
      modifies this
      ensures Valid()
      ensures topic !in old(subscribers) ==> subscribers == old(subscribers)
      ensures topic in old(subscribers) ==>
        var rest := RemoveFirst(old(subscribers)[topic], ch);
        subscribers == if rest == [] then old(subscribers) - {topic} else old(subscribers)[topic := rest]
      ensures ch !in Subscribers(topic)
    {
      if topic !in subscribers {
        return;
      }
      var subs := subscribers[topic];
      var i := 0;
      while i < |subs| && subs[i] != ch
        invariant 0 <= i <= |subs|
        invariant ch !in subs[..i]
      {
        i := i + 1;
      }
      RemoveFirstAt(subs, ch, i);
      RemoveFirstSubset(subs, ch);
      RemoveFirstDistinct(subs, ch);
      ghost var rest := RemoveFirst(subs, ch);
      if i < |subs| {
        subscribers := subscribers[topic := subs[..i] + subs[i + 1..]];
      }
      assert subscribers == old(subscribers)[topic := rest];
      if subscribers[topic] == [] {
        subscribers := subscribers - {topic};
      }
      assert forall c :: c in Channels() ==> c in old(Channels()) by {
        forall c | c in Channels() ensures c in old(Channels()) {
          var t :| t in subscribers && c in subscribers[t];
          if t == topic {
            assert c in subs;
          } else {
            assert c in old(subscribers)[t];
          }
        }
      }
    }

    /**
     * Sends `Message(topic, payload)` to every channel subscribed to exactly
     * `topic`, without blocking: a channel with a full buffer misses it.
     */
    method Publish(topic: string, payload: Value)
      requires Valid()
      modifies Subscribers(topic)
      ensures Valid()
      ensures subscribers == old(subscribers)
      ensures forall c :: c in Subscribers(topic) ==>
        c.buffer == Offer(old(c.buffer), c.capacity, Message(topic, payload)) && !c.closed
    {
      if topic !in subscribers {
        return;
      }
      var subs := subscribers[topic];
      var msg := Message(topic, payload);
      var i := 0;
      while i < |subs|
        invariant 0 <= i <= |subs|
        invariant forall j :: 0 <= j < i ==> subs[j].buffer == Offer(old(subs[j].buffer), subs[j].capacity, msg)
        invariant forall j :: i <= j < |subs| ==> subs[j].buffer == old(subs[j].buffer)
        invariant forall c :: c in subs ==> c.closed == old(c.closed)
      {
        var ch := subs[i];
        if |ch.buffer| < ch.capacity {
          ch.buffer := ch.buffer + [msg];
        }
        i := i + 1;
      }
    }

    /** Closes every subscribed channel and forgets every topic. */
    method Close()
      requires Valid()
      modifies this, Channels()
      ensures Valid()
      ensures subscribers == map[]
      ensures forall c :: c in old(Channels()) ==> c.closed && c.buffer == old(c.buffer)
    {
      ghost var done: set<string> := {};
      while subscribers != map[]
        invariant done <= old(subscribers).Keys
        invariant subscribers == old(subscribers) - done
        invariant forall c :: c in old(Channels()) ==> c.buffer == old(c.buffer)
        invariant forall t, c :: t in done && c in old(subscribers)[t] ==> c.closed
        invariant forall t, c :: t in subscribers && c in subscribers[t] ==> !c.closed
        decreases subscribers.Keys
      {
        var topic :| topic in subscribers;
        assert forall c :: c in subscribers[topic] ==> c in old(Channels());
        CloseChannels(subscribers[topic]);
        subscribers := subscribers - {topic};
        done := done + {topic};
      }
      forall c | c in old(Channels()) ensures c.closed {
        var t :| t in old(subscribers) && c in old(subscribers)[t];
        assert t !in old(subscribers) - done;
      }
    }
  }
}
