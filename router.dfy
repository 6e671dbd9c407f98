/**
 * Classification of inbound bus messages: a topic whose first query mark sits
 * after its first character is a request for a channel's current state; every
 * other topic is a control input matched exactly against the control topics.
 */
module Router {
  import opened Wrappers
  import opened TopicRegistry

  /** The marker appended to a state topic to ask for its current value. */
  const QueryMark: char := '?'

  /** JavaScript `s.indexOf(c)`: the first position of `c`, or -1. */
  function IndexOf(s: string, c: char): (r: int)
    ensures -1 <= r < |s|
    ensures r == -1 <==> c !in s
    ensures 0 <= r ==> s[r] == c && c !in s[..r]
  {
    if s == [] then -1
    else if s[0] == c then 0
    else
      var k := IndexOf(s[1..], c);
      assert s == [s[0]] + s[1..];
      if k == -1 then -1
      else
        assert s[..k + 1] == [s[0]] + s[1..][..k];
        k + 1
  }

  /** Where the bridge sends an inbound message. */
  datatype Route = ContentRequest(requested: string) | ControlInput

  /**
   * A request when the first query mark is at an index above 0, naming the
   * topic before it; otherwise (no mark, or a mark first) a control input.
   */
  function Classify(topic: string): (r: Route)
    ensures r.ContentRequest? <==> QueryMark in topic && topic[0] != QueryMark
    ensures r.ContentRequest? ==>
      var n := |r.requested|;
      0 < n < |topic| && topic[..n] == r.requested && topic[n] == QueryMark &&
      QueryMark !in r.requested
  {
    var i := IndexOf(topic, QueryMark);
    if i > 0 then ContentRequest(topic[..i]) else ControlInput
  }

  /** The topic a client publishes to in order to query a state topic. */
  function QueryTopic(out: string): string {
    out + [QueryMark]
  }

  /** A query on a usable state topic is a request for exactly that topic. */
  lemma ClassifyQueryTopic(out: string)
    requires TopicOk(out)
    ensures Classify(QueryTopic(out)) == ContentRequest(out)
  {
  }

  /** A topic without the query mark is a control input. */
  lemma ClassifyPlainTopic(topic: string)
    requires QueryMark !in topic
    ensures Classify(topic) == ControlInput
  {
  }

  /** The order in which the source tests the channels. */
  function Rank(ch: Channel): nat {
    match ch
    case Power => 0
    case Volume => 1
    case Mute => 2
    case Source => 3
    case Sources => 4
  }

  /** The channel whose state topic is `topic`, the first in source order. */
  function LookupOut(t: Topics, topic: string): (r: Option<Channel>)
    ensures r.Some? ==> OutTopic(t, r.value) == topic
    ensures r.Some? ==> forall ch | Rank(ch) < Rank(r.value) :: OutTopic(t, ch) != topic
    ensures r.None? <==> forall ch :: OutTopic(t, ch) != topic
  {
    if topic == t.powerOut then Some(Power)
    else if topic == t.volumeOut then Some(Volume)
    else if topic == t.muteOut then Some(Mute)
    else if topic == t.sourceOut then Some(Source)
    else if topic == t.sourcesOut then Some(Sources)
    else None
  }

  /** The channel whose control topic is `topic`, the first in source order. */
  function LookupIn(t: Topics, topic: string): (r: Option<Channel>)
    ensures r.Some? ==> r.value != Sources && InTopic(t, r.value) == topic
    ensures r.Some? ==> forall ch | ch != Sources && Rank(ch) < Rank(r.value) :: InTopic(t, ch) != topic
    ensures r.None? <==> forall ch | ch != Sources :: InTopic(t, ch) != topic
  {
    if topic == t.powerIn then Some(Power)
    else if topic == t.volumeIn then Some(Volume)
    else if topic == t.muteIn then Some(Mute)
    else if topic == t.sourceIn then Some(Source)
    else None
  }

  /** With sane topics a state topic finds its own channel. */
  lemma LookupOutOwn(t: Topics, ch: Channel)
    requires Sane(t)
    ensures LookupOut(t, OutTopic(t, ch)) == Some(ch)
  {
  }

  /** With sane topics a control topic finds its own channel. */
  lemma LookupInOwn(t: Topics, ch: Channel)
    requires Sane(t) && ch != Sources
    ensures LookupIn(t, InTopic(t, ch)) == Some(ch)
  {
  }
}
