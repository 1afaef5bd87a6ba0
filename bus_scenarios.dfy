/**
 * Client runs of the publish/subscribe bus, built only from the contracts of
 * its operations: delivery to a subscriber, the subscribe/unsubscribe cycle
 * that adds and drops topics, and closing the bus.
 */
module BusScenarios {
  import opened Common
  import opened MessagingSim

  /**
   * One subscriber, one publish: the subscriber's buffer holds exactly that
   * message; publishing to a topic nobody subscribed to changes nothing.
   */
  method PublishDelivers(payload: Value, other: Value) returns (buffered: seq<Message>)
    ensures buffered == [Message("test-topic", payload)]
  {
    var ps := new PubSub();
    var ch := ps.Subscribe("test-topic");
    ps.Publish("test-topic", payload);
    ps.Publish("nonexistent-topic", other);
    buffered := ch.buffer;
  }

  /** The messages published to `topic` with the given payloads, in order. */
  function Messages(topic: string, payloads: seq<Value>): (ms: seq<Message>)
    ensures |ms| == |payloads|
    ensures forall i :: 0 <= i < |payloads| ==> ms[i] == Message(topic, payloads[i])
  {
    seq(|payloads|, i requires 0 <= i < |payloads| => Message(topic, payloads[i]))
  }

  /**
   * Publishes the payloads to `topic` one after the other: a subscribed
   * channel nobody drains ends up as the series of non-blocking sends.
   */
  method PublishAll(ps: PubSub, topic: string, ch: Channel, payloads: seq<Value>)
    requires ps.Valid() && ch in ps.Subscribers(topic)
    modifies ps.Subscribers(topic)
    ensures ps.Valid() && ps.subscribers == old(ps.subscribers)
    ensures ch.buffer == OfferAll(old(ch.buffer), Capacity, Messages(topic, payloads))
  {
    var msgs := Messages(topic, payloads);
    for i := 0 to |payloads|
      invariant ps.Valid() && ps.subscribers == old(ps.subscribers)
      invariant ch.buffer == OfferAll(old(ch.buffer), Capacity, msgs[..i])
    {
      assert ch.capacity == Capacity;
      OfferAllSnoc(old(ch.buffer), Capacity, msgs[..i], msgs[i]);
      assert msgs[..i + 1] == msgs[..i] + [msgs[i]];
      ps.Publish(topic, payloads[i]);
    }
    assert msgs[..|payloads|] == msgs;
  }

  /**
   * Eleven publishes to a fresh subscription nobody drains: the first ten
   * are buffered in order and the eleventh is dropped.
   */
  method Overflow(payloads: seq<Value>) returns (buffered: seq<Message>)
    requires |payloads| == 11
    ensures |buffered| == Capacity
    ensures buffered == Messages("sensor-data", payloads)[..10]
  {
    var ps := new PubSub();
    var ch := ps.Subscribe("sensor-data");
    PublishAll(ps, "sensor-data", ch, payloads);
    OfferAllDeliversPrefix([], Capacity, Messages("sensor-data", payloads));
    buffered := ch.buffer;
  }

  /**
   * Unsubscribing the only subscriber drops its topic, and unsubscribing from
   * an unknown topic is ignored.
   */
  method UnsubscribeOnly() returns (gone: bool, topics: nat)
    ensures gone && topics == 0
  {
    var ps := new PubSub();
    var ch := ps.Subscribe("test-topic");
    ps.Unsubscribe("test-topic", ch);
    gone := "test-topic" !in ps.subscribers;
    ps.Unsubscribe("nonexistent-topic", ch);
    topics := |ps.subscribers|;
  }

  /**
   * Of two subscribers to one topic, removing the first leaves only the
   * second, and removing that one drops the topic.
   */
  method TwoSubscribers() returns (count: nat, remaining: seq<Channel>, gone: bool)
    ensures count == 2 && |remaining| == 1 && gone
  {
    var ps := new PubSub();
    var ch1 := ps.Subscribe("multi-topic");
    var ch2 := ps.Subscribe("multi-topic");
    count := |ps.Subscribers("multi-topic")|;
    ps.Unsubscribe("multi-topic", ch1);
    remaining := ps.Subscribers("multi-topic");
    assert remaining == [ch2];
    ps.Unsubscribe("multi-topic", ch2);
    gone := "multi-topic" !in ps.subscribers;
  }

  /** Closing the bus closes the channels of every topic and forgets all topics. */
  method CloseAll() returns (closed1: bool, closed2: bool, topics: nat)
    ensures closed1 && closed2 && topics == 0
  {
    var ps := new PubSub();
    var ch1 := ps.Subscribe("topic1");
    var ch2 := ps.Subscribe("topic2");
    assert ch1 in ps.subscribers["topic1"] && ch2 in ps.subscribers["topic2"];
    ps.Close();
    closed1, closed2, topics := ch1.closed, ch2.closed, |ps.subscribers|;
  }
}
