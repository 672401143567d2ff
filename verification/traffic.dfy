/**
 Traffic bookkeeping of an endpoint: four time-stamped sample logs (messages and bytes,
 sent and received) and the two last-activity timestamps.
 */
module Traffic {

  /** The source's `int`, the type of the byte count handed to AddMessageSent/Received. */
  newtype Int32 = x: int | -0x8000_0000 <= x < 0x8000_0000

  /** One counter sample: `value` recorded at `time`. */
  datatype Sample = Sample(time: int, value: int)

  /** The sum of all sample values in a log. */
  function Total(log: seq<Sample>): int
  {
    if log == [] then 0 else log[0].value + Total(log[1..])
  }

  /** Appending a sample adds its value to the total. */
  lemma {:induction false} TotalAppend(log: seq<Sample>, s: Sample)
    ensures Total(log + [s]) == Total(log) + s.value
  {
    if log == [] {
      assert log + [s] == [s];
    } else {
      assert (log + [s])[1..] == log[1..] + [s];
      TotalAppend(log[1..], s);
    }
  }

  /** Every sample of a message-count log carries the value 1. */
  predicate UnitSamples(log: seq<Sample>)
  {
    forall i :: 0 <= i < |log| ==> log[i].value == 1
  }

  /** In a message-count log the total is the number of messages. */
  lemma {:induction false} UnitTotalIsLength(log: seq<Sample>)
    requires UnitSamples(log)
    ensures Total(log) == |log|
  {
    if log != [] {
      assert UnitSamples(log[1..]) by {
        forall i | 0 <= i < |log[1..]| ensures log[1..][i].value == 1 {
          assert log[1..][i] == log[i + 1];
        }
      }
      UnitTotalIsLength(log[1..]);
    }
  }

  /** The endpoint's traffic state. */
  datatype TrafficLog = TrafficLog(
    messagesSent: seq<Sample>,
    bytesSent: seq<Sample>,
    messagesReceived: seq<Sample>,
    bytesReceived: seq<Sample>,
    lastMessageSent: int,
    lastMessageReceived: int)

  /** The message-count logs only ever hold unit samples. */
  predicate Valid(t: TrafficLog)
  {
    UnitSamples(t.messagesSent) && UnitSamples(t.messagesReceived)
  }

  /** Endpoint::AddMessageSent at time `now`: one message and `bytes` bytes are logged on the
      sending side, whose timestamp becomes `now`; the receiving side is untouched. */
  function AddMessageSent(t: TrafficLog, bytes: Int32, now: int): (r: TrafficLog)
    ensures r.messagesSent == t.messagesSent + [Sample(now, 1)]
    ensures r.bytesSent == t.bytesSent + [Sample(now, bytes as int)]
    ensures Total(r.messagesSent) == Total(t.messagesSent) + 1
    ensures Total(r.bytesSent) == Total(t.bytesSent) + bytes as int
    ensures r.lastMessageSent == now
    ensures r.messagesReceived == t.messagesReceived && r.bytesReceived == t.bytesReceived
    ensures r.lastMessageReceived == t.lastMessageReceived
    ensures Valid(t) ==> Valid(r)
  {
    TotalAppend(t.messagesSent, Sample(now, 1));
    TotalAppend(t.bytesSent, Sample(now, bytes as int));
    t.(messagesSent := t.messagesSent + [Sample(now, 1)],
       bytesSent := t.bytesSent + [Sample(now, bytes as int)],
       lastMessageSent := now)
  }

  /** Endpoint::AddMessageReceived: the mirror image of AddMessageSent. */
  function AddMessageReceived(t: TrafficLog, bytes: Int32, now: int): (r: TrafficLog)
    ensures r.messagesReceived == t.messagesReceived + [Sample(now, 1)]
    ensures r.bytesReceived == t.bytesReceived + [Sample(now, bytes as int)]
    ensures Total(r.messagesReceived) == Total(t.messagesReceived) + 1
    ensures Total(r.bytesReceived) == Total(t.bytesReceived) + bytes as int
    ensures r.lastMessageReceived == now
    ensures r.messagesSent == t.messagesSent && r.bytesSent == t.bytesSent
    ensures r.lastMessageSent == t.lastMessageSent
    ensures Valid(t) ==> Valid(r)
  {
    TotalAppend(t.messagesReceived, Sample(now, 1));
    TotalAppend(t.bytesReceived, Sample(now, bytes as int));
    t.(messagesReceived := t.messagesReceived + [Sample(now, 1)],
       bytesReceived := t.bytesReceived + [Sample(now, bytes as int)],
       lastMessageReceived := now)
  }

  /** Sending and receiving book into disjoint logs, so their order does not matter. */
  lemma SentReceivedCommute(t: TrafficLog, sent: Int32, ts: int, received: Int32, tr: int)
    ensures AddMessageSent(AddMessageReceived(t, received, tr), sent, ts)
         == AddMessageReceived(AddMessageSent(t, sent, ts), received, tr)
  {
  }
}
