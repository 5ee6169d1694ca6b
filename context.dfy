/** The in-memory conversation context: a message list bounded by a
    "keep the first message plus the newest ones" truncation rule, with
    Python's slice semantics reproduced exactly. */
module Context {

  /** One `{"role": ..., "content": ...}` message. */
  datatype Message = Message(role: string, content: string)

  /** `s[start:]` in Python: a negative start counts from the end and is
      clamped at the beginning; a start past the end gives the empty list. */
  function SliceFrom<T>(s: seq<T>, start: int): (r: seq<T>)
    // the result is a suffix of s ...
    ensures |r| <= |s| && r == s[|s| - |r|..]
    // ... as long as the clamped start says
    ensures start < 0 ==> |r| == if -start < |s| then -start else |s|
    ensures start >= 0 ==> |r| == if start < |s| then |s| - start else 0
  {
    if start < 0 then (if start + |s| < 0 then s else s[start + |s|..])
    else if start <= |s| then s[start..]
    else []
  }

  /** The message list after `add_message` appends `x` to `m` under capacity
      `max`. */
  function AfterAdd(m: seq<Message>, max: int, x: Message): seq<Message>
  {
    var appended := m + [x];
    if |appended| > max then
      if |appended| > 1 then [appended[0]] + SliceFrom(appended, -(max - 1))
      else SliceFrom(appended, -max)
    else appended
  }

  /** `get_recent_messages(count)` on `m`. */
  function Recent(m: seq<Message>, count: int): (r: seq<Message>)
    // always a suffix of the history
    ensures |r| <= |m| && r == m[|m| - |r|..]
    // the last `count` messages when there are more, all of them otherwise
    ensures 0 < count < |m| ==> |r| == count
    ensures count >= |m| ==> r == m
  {
    if |m| > count then SliceFrom(m, -count) else m
  }

  /** What `get_context_summary` reports. */
  datatype Summary = Summary(messageCount: int, maxMessages: int, isAtLimit: bool, hasMessages: bool)

  class ConversationContext {
    var messages: seq<Message>
    var maxMessages: int

    /** The dataclass constructor: an empty history and capacity 50 unless
        given. */
    constructor (messages: seq<Message> := [], maxMessages: int := 50)
      ensures this.messages == messages && this.maxMessages == maxMessages
    {
      this.messages := messages;
      this.maxMessages := maxMessages;
    }

    /** Capacity holds: the history is no longer than `maxMessages`. */
    predicate WithinCapacity()
      reads this
    {
      |messages| <= maxMessages
    }

    method AddMessage(role: string, content: string)
      modifies this
      ensures messages == AfterAdd(old(messages), old(maxMessages), Message(role, content))
      ensures maxMessages == old(maxMessages)
      // with a capacity of at least two the bound always holds afterwards
      ensures maxMessages >= 2 ==> WithinCapacity()
      // with a non-negative capacity the new message is kept, last
      ensures maxMessages >= 0 ==> |messages| > 0 && messages[|messages| - 1] == Message(role, content)
      // with a capacity of at least two the first message stays first
      ensures maxMessages >= 2 && old(messages) != [] ==> messages[0] == old(messages)[0]
    {
      var before, x := messages, Message(role, content);
      var appended := before + [x];
      if |appended| > maxMessages {
        if |appended| > 1 {
          appended := [appended[0]] + SliceFrom(appended, -(maxMessages - 1));
        } else {
          appended := SliceFrom(appended, -maxMessages);
        }
      }
      messages := appended;
      AddBounded(before, maxMessages, x);
      if maxMessages >= 0 {
        NewestIsLast(before, maxMessages, x);
      }
      if maxMessages >= 2 && |before| + 1 > maxMessages {
        TruncationShape(before, maxMessages, x);
      }
    }

    /** `get_history`: a copy of the messages (a Dafny sequence is a value, so
        later changes to either side do not reach the other). */
    function GetHistory(): (h: seq<Message>)
      reads this
      ensures |h| == |messages| && forall i :: 0 <= i < |h| ==> h[i] == messages[i]
    {
      messages
    }

    function GetRecentMessages(count: int := 10): (r: seq<Message>)
      reads this
      ensures |r| <= |messages| && r == messages[|messages| - |r|..]
      ensures 0 < count < |messages| ==> |r| == count
      ensures count >= |messages| ==> r == messages
    {
      Recent(messages, count)
    }

    method ClearContext()
      modifies this
      ensures messages == [] && maxMessages == old(maxMessages)
      ensures GetMessageCount() == 0
    {
      messages := [];
    }

    function GetMessageCount(): (n: nat)
      reads this
      ensures n == |GetHistory()|
    {
      |messages|
    }

    function GetContextSummary(): (s: Summary)
      reads this
      ensures s.messageCount == GetMessageCount() && s.maxMessages == maxMessages
      ensures s.isAtLimit <==> GetMessageCount() >= maxMessages
      ensures s.hasMessages <==> GetHistory() != []
    {
      Summary(|messages|, maxMessages, |messages| >= maxMessages, |messages| > 0)
    }
  }

  // ---------------------------------------------------------------------------
  // Truncation properties
  // ---------------------------------------------------------------------------

  /** With a non-negative capacity the new message is the last one kept. */
  lemma NewestIsLast(m: seq<Message>, max: int, x: Message)
    requires max >= 0
    ensures var r := AfterAdd(m, max, x); |r| > 0 && r[|r| - 1] == x
  {
    var a := m + [x];
    if |a| > max && |a| > 1 {
      var tail := SliceFrom(a, -(max - 1));
      assert |tail| > 0 && tail[|tail| - 1] == a[|a| - 1];
    }
  }

  /** A negative capacity can lose the message just added. */
  lemma NegativeCapacityDropsNewest(x: Message)
    ensures AfterAdd([], -1, x) == []
  {
  }

  /** Under capacity nothing is dropped: the new list is the old plus `x`. */
  lemma UnderCapacityAppends(m: seq<Message>, max: int, x: Message)
    requires |m| + 1 <= max
    ensures AfterAdd(m, max, x) == m + [x]
  {
  }

  /** With capacity at least two, truncation keeps exactly `max` messages: the
      original first message, then the newest `max - 1` in order. */
  lemma TruncationShape(m: seq<Message>, max: int, x: Message)
    requires max >= 2 && |m| + 1 > max
    ensures var a := m + [x]; var r := AfterAdd(m, max, x);
      && |r| == max
      && r[0] == a[0]
      && r[1..] == a[|a| - (max - 1)..]
  {
    var a := m + [x];
    var r := AfterAdd(m, max, x);
    assert r == [a[0]] + a[|a| - (max - 1)..];
  }

  /** With capacity at least two the bound holds after every add, whatever the
      length before. */
  lemma AddBounded(m: seq<Message>, max: int, x: Message)
    ensures max >= 2 ==> |AfterAdd(m, max, x)| <= max
  {
    if max >= 2 && |m| + 1 > max {
      TruncationShape(m, max, x);
    }
  }

  /** Capacity one does not bound the list: `[-0:]` is the whole list, so
      truncation re-adds everything after a copy of the first message. */
  lemma CapacityOneGrows(m: seq<Message>, x: Message)
    requires |m| >= 1
    ensures AfterAdd(m, 1, x) == [m[0]] + m + [x]
    ensures |AfterAdd(m, 1, x)| == |m| + 2
  {
  }

  /** Capacity zero keeps everything: the slice `[1:]` after the first
      message restores the whole list. */
  lemma CapacityZeroKeepsAll(m: seq<Message>, x: Message)
    ensures AfterAdd(m, 0, x) == m + [x]
  {
    var a := m + [x];
    if |a| > 1 {
      assert [a[0]] + a[1..] == a;
    }
  }

  /** `get_recent_messages(0)` on a non-empty history is the whole history,
      since `[-0:]` is `[0:]`. */
  lemma RecentZeroIsAll(m: seq<Message>)
    ensures Recent(m, 0) == m
  {
  }

  /** A negative count drops that many messages from the front instead. */
  lemma RecentNegativeDropsFront(m: seq<Message>, count: int)
    requires count < 0 && -count <= |m|
    ensures Recent(m, count) == m[-count..]
  {
  }
}
