/**
 * The process-wide list of messages posted for the main thread
 * (`async_main_thread_call`) and `post_message`, which adds a message to the
 * list and queues a block that later calls it and takes it off the list.
 * The dispatch queue is modelled as a first-in first-out sequence of pending
 * blocks run one at a time; thread hand-off itself is not modelled.
 */
module DeferredMessages {
  import opened Seqs

  /** A `std::shared_ptr<message>`, compared by the pointer it holds. */
  type MessageRef = nat

  /** The list after `add_message(m)`: unchanged if `m` is already there, `m` appended otherwise. */
  function Added(s: seq<MessageRef>, m: MessageRef): seq<MessageRef> {
    if m in s then s else s + [m]
  }

  /** Adding keeps the list free of duplicates and always leaves `m` in it. */
  lemma {:induction false} AddedKeepsNoDup(s: seq<MessageRef>, m: MessageRef)
    requires NoDup(s)
    ensures NoDup(Added(s, m)) && m in Added(s, m)
    ensures multiset(Added(s, m)) == if m in s then multiset(s) else multiset(s) + multiset{m}
  {
    if m !in s {
      var r := s + [m];
      forall i, j | 0 <= i < j < |r| ensures r[i] != r[j] {
        if j == |s| {
          assert r[i] == s[i];
        } else {
          assert r[i] == s[i] && r[j] == s[j];
        }
      }
    }
  }

  /** Removing a message that was not on the list before it was added gives back the original list. */
  lemma {:induction false} RemoveUndoesAdd(s: seq<MessageRef>, m: MessageRef)
    requires m !in s
    ensures RemoveFirst(Added(s, m), m) == s
  {
    RemoveFirstOfAppended(s, m);
  }

  /** Adding a message that is already present is idempotent, and so is adding twice. */
  lemma AddIdempotent(s: seq<MessageRef>, m: MessageRef)
    ensures Added(Added(s, m), m) == Added(s, m)
  {
  }

  class MessageList {
    /** The `messages` vector. */
    var messages: seq<MessageRef>
    /** Blocks queued on the main dispatch queue, each naming the message it will call. */
    var pending: seq<MessageRef>
    /** The messages whose `call()` has run, in order. */
    var called: seq<MessageRef>

    /** No duplicates, and every message on the list still has a queued block that will remove it. */
    ghost predicate Valid()
      reads this
    {
      NoDup(messages) && forall m :: m in messages ==> m in pending
    }

    constructor ()
      ensures Valid() && messages == [] && pending == [] && called == []
    {
      messages, pending, called := [], [], [];
    }

    /** `add_message`: `std::find` the message; append it only when it is not found. */
    method AddMessage(m: MessageRef)
      modifies this
      ensures messages == Added(old(messages), m)
      ensures pending == old(pending) && called == old(called)
    {
      var i := Find(messages, m);
      if i < |messages| {
        return;
      }
      messages := messages + [m];
    }

    /** `remove_message`: erase the first entry holding `m`; do nothing if there is none. */
    method RemoveMessage(m: MessageRef)
      modifies this
      ensures messages == RemoveFirst(old(messages), m)
      ensures pending == old(pending) && called == old(called)
    {
      var i := Find(messages, m);
      if i == |messages| {
        RemoveFirstAbsent(messages, m);
        return;
      }
      RemoveFirstIsSplice(messages, m);
      messages := messages[..i] + messages[i + 1..];
    }

    /** `post_message`: add the message and queue a block that will call and then remove it. */
    method PostMessage(m: MessageRef)
      requires Valid()
      modifies this
      ensures Valid()
      ensures messages == Added(old(messages), m)
      ensures pending == old(pending) + [m] && called == old(called)
    {
      AddedKeepsNoDup(messages, m);
      AddMessage(m);
      pending := pending + [m];
    }

    /**
     * The `post_message(Fct&&)` wrapper: a newly allocated callback message
     * cannot already be on the list, since listed messages are still alive,
     * so it is always appended. Its address may be that of a message already
     * called and freed, or of one whose second block is still pending.
     */
    method PostCallback(m: MessageRef)
      requires Valid()
      requires m !in messages
      modifies this
      ensures Valid()
      ensures messages == old(messages) + [m]
      ensures pending == old(pending) + [m] && called == old(called)
    {
      PostMessage(m);
    }

    /** The main queue runs its oldest block: `m->call()`, then `remove_message(m)`. */
    method RunNext() returns (ran: bool)
      requires Valid()
      modifies this
      ensures Valid()
      ensures ran == (old(pending) != [])
      ensures ran ==> pending == old(pending)[1..] && called == old(called) + [old(pending)[0]]
                      && messages == RemoveFirst(old(messages), old(pending)[0])
      ensures !ran ==> pending == old(pending) && called == old(called) && messages == old(messages)
    {
      if pending == [] {
        return false;
      }
      var m := pending[0];
      called := called + [m];
      pending := pending[1..];
      RemoveFirstKeepsNoDup(messages, m);
      RemoveMessage(m);
      forall x | x in messages ensures x in pending {
        RemoveFirstSubset(old(messages), m, x);
        assert x != m;
        var k :| 0 <= k < |old(pending)| && old(pending)[k] == x;
        assert pending[k - 1] == x;
      }
      return true;
    }
  }

  /**
   * While every post is of a message not yet queued, as with callbacks, the
   * list is exactly the queue: posting appends to both alike ...
   */
  lemma MirrorKeptByFreshPost(messages: seq<MessageRef>, pending: seq<MessageRef>, m: MessageRef)
    requires messages == pending && m !in pending
    ensures Added(messages, m) == pending + [m]
  {
  }

  /** ... and running the oldest block drops the list's first entry, which is that block's message. */
  lemma MirrorKeptByRun(messages: seq<MessageRef>, pending: seq<MessageRef>)
    requires messages == pending && pending != []
    ensures RemoveFirst(messages, pending[0]) == pending[1..]
  {
  }

  /**
   * Posting the same message twice lists it once but queues two blocks. The
   * first block takes it off the list, so when the second block calls it the
   * list no longer holds it. Returns the list as the second block starts
   * and the calls made.
   */
  method DoublePost(m: MessageRef) returns (listedAtSecondCall: seq<MessageRef>, calls: seq<MessageRef>)
    ensures listedAtSecondCall == [] && calls == [m, m]
  {
    var l := new MessageList();
    l.PostMessage(m);
    l.PostMessage(m);
    var ran := l.RunNext();
    listedAtSecondCall := l.messages;
    ran := l.RunNext();
    calls := l.called;
  }

  /**
   * The list is never longer than the queue of pending blocks; in particular
   * once the queue has drained the list is empty, so nothing posted stays on it.
   */
  lemma ListBoundedByPending(l: MessageList)
    requires l.Valid()
    ensures |l.messages| <= |l.pending|
    ensures l.pending == [] ==> l.messages == []
  {
    NoDupSubsetShorter(l.messages, l.pending);
  }
}
