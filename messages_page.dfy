/** The stand-alone message thread of app/dashboard/messages/page.tsx: a
    local list seeded with one message, to which each non-blank send appends
    the operator's text under the next id. The time stamp comes from the
    clock and is an input. */
module MessagesPage {
  import opened Strings

  /** One bubble of the thread. */
  datatype LocalMessage = LocalMessage(id: int, sender: string, message: string, timestamp: string, isOwn: bool)

  /** The message the thread starts with. */
  const Greeting: LocalMessage := LocalMessage(
    1, "Guy Hawkins",
    "Hey, I'd like to have your contact information if you're comfortable sharing it. Let me know if you have any questions!",
    "2:22 PM", false)

  /** The message at position k has id k + 1. */
  predicate SequentialIds(ms: seq<LocalMessage>) {
    forall k :: 0 <= k < |ms| ==> ms[k].id == k + 1
  }

  /** `handleSendMessage` as a function of the list and the input box: a
      blank input changes neither; otherwise the untrimmed input is appended
      as the operator's message with id `length + 1` and the box is cleared. */
  function AfterSend(ms: seq<LocalMessage>, input: string, timestamp: string): (r: (seq<LocalMessage>, string))
    ensures IsBlank(input) ==> r == (ms, input)
    ensures !IsBlank(input) ==>
      && |r.0| == |ms| + 1
      && r.0[..|ms|] == ms
      && r.0[|ms|] == LocalMessage(|ms| + 1, "You", input, timestamp, true)
      && r.1 == ""
  {
    if IsBlank(input) then (ms, input)
    else (ms + [LocalMessage(|ms| + 1, "You", input, timestamp, true)], "")
  }

  /** A send keeps the ids sequential. */
  lemma AfterSendKeepsIds(ms: seq<LocalMessage>, input: string, timestamp: string)
    requires SequentialIds(ms)
    ensures SequentialIds(AfterSend(ms, input, timestamp).0)
  {
  }

  /** Typing `input` and pressing send, once per step, from the initial thread. */
  function Replay(steps: seq<(string, string)>): (r: seq<LocalMessage>)
    ensures |r| >= 1 && r[0] == Greeting
  {
    if steps == [] then [Greeting]
    else
      var prev := Replay(steps[..|steps| - 1]);
      var last := steps[|steps| - 1];
      var next := AfterSend(prev, last.0, last.1).0;
      assert next[0] == prev[0];
      next
  }

  /** However the operator types and sends, the thread's ids run 1, 2, 3, …
      and grow by one per non-blank send. */
  lemma {:induction false} ReplayIds(steps: seq<(string, string)>)
    ensures SequentialIds(Replay(steps))
    ensures |Replay(steps)| <= |steps| + 1
  {
    if steps != [] {
      ReplayIds(steps[..|steps| - 1]);
      var last := steps[|steps| - 1];
      AfterSendKeepsIds(Replay(steps[..|steps| - 1]), last.0, last.1);
    }
  }

  /** The page's state. */
  class Thread {
    var messages: seq<LocalMessage>
    var newMessage: string

    /** The ids are sequential and the greeting comes first. */
    ghost predicate Valid()
      reads this
    {
      SequentialIds(messages) && |messages| >= 1 && messages[0] == Greeting
    }

    /** The initial `useState` values. */
    constructor ()
      ensures Valid() && messages == [Greeting] && newMessage == ""
    {
      messages := [Greeting];
      newMessage := "";
    }

    /** The input box's `onChange`. */
    method SetNewMessage(text: string)
      requires Valid()
      modifies this
      ensures Valid() && newMessage == text && messages == old(messages)
    {
      newMessage := text;
    }

    /** `handleSendMessage`, with the clock's reading as `timestamp`. */
    method HandleSendMessage(timestamp: string)
      requires Valid()
      modifies this
      ensures Valid()
      ensures (messages, newMessage) == AfterSend(old(messages), old(newMessage), timestamp)
      ensures IsBlank(old(newMessage)) ==> messages == old(messages) && newMessage == old(newMessage)
      ensures !IsBlank(old(newMessage)) ==>
        messages == old(messages) + [LocalMessage(|old(messages)| + 1, "You", old(newMessage), timestamp, true)]
    {
      if !IsBlank(newMessage) {
        messages := messages + [LocalMessage(|messages| + 1, "You", newMessage, timestamp, true)];
        newMessage := "";
      }
    }
  }
}
