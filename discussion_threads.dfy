/** The discussion-threads widget: the list of threads found in the messages, the active
    thread's messages, and posting into the active thread. */
module DiscussionThreads {
  import opened Util
  import opened Store

  const FirstThread: string := "thread-1"

  /** The thread ids of the messages, in message order; `None` for channel messages. */
  function ThreadIds(messages: seq<Message>): (r: seq<Option<string>>)
    ensures |r| == |messages|
    ensures forall i :: 0 <= i < |messages| ==> r[i] == messages[i].threadId
  {
    seq(|messages|, i requires 0 <= i < |messages| => messages[i].threadId)
  }

  /** `threads`: every thread id used by some message, once each;
      messages outside any thread contribute the missing id too. */
  function Threads(messages: seq<Message>): (r: seq<Option<string>>)
    ensures forall t :: t in r <==> exists m :: m in messages && m.threadId == t
    ensures NoDup(r)
  {
    var ids := ThreadIds(messages);
    assert forall t :: t in ids <==> exists m :: m in messages && m.threadId == t by {
      forall t | t in ids
        ensures exists m :: m in messages && m.threadId == t
      {
        var i :| 0 <= i < |ids| && ids[i] == t;
        assert messages[i] in messages;
      }
    }
    Distinct(ids)
  }

  /** The messages shown for the active thread, in order. */
  function ThreadMessages(messages: seq<Message>, active: Option<string>): (r: seq<Message>)
    ensures forall m :: m in r <==> m in messages && m.threadId == active
    ensures forall m :: multiset(r)[m] == if m.threadId == active then multiset(messages)[m] else 0
    ensures IsSubseq(r, messages)
  {
    Filter(messages, InThread(active))
  }

  function InThread(thread: Option<string>): Message -> bool {
    (m: Message) => m.threadId == thread
  }

  /** The messages after posting `text` into thread `active`: unchanged when the text is
      blank; otherwise one message numbered one past the current count appended. */
  function WithPost(messages: seq<Message>, text: string, active: Option<string>,
                    current: Option<TeamMember>, timestamp: string): (r: seq<Message>)
    ensures IsBlank(text) ==> r == messages
    ensures !IsBlank(text) ==>
      && |r| == |messages| + 1 && r[..|messages|] == messages
      && r[|messages|] == Message(|messages| + 1, NameOrUnknown(current), text, timestamp, None, active)
  {
    TrimEmptyIffBlank(text);
    if Trim(text) == "" then messages
    else
      var m := Message(|messages| + 1, NameOrUnknown(current), text, timestamp, None, active);
      assert (messages + [m])[..|messages|] == messages;
      messages + [m]
  }

  /** A post lands at the end of its thread's list and leaves every other thread's list as
      it was. */
  lemma PostShownInThread(messages: seq<Message>, text: string, active: Option<string>,
                          current: Option<TeamMember>, timestamp: string, thread: Option<string>)
    requires !IsBlank(text)
    ensures var r := WithPost(messages, text, active, current, timestamp);
      ThreadMessages(r, thread) == ThreadMessages(messages, thread) + (if thread == active then [r[|messages|]] else [])
  {
    var r := WithPost(messages, text, active, current, timestamp);
    var m := r[|messages|];
    assert r == messages + [m];
    FilterConcat(messages, [m], InThread(thread));
    assert [m][..0] == [];
  }

  /** The thread list gains the post's thread, at its end, only if it was not listed yet. */
  lemma PostExtendsThreads(messages: seq<Message>, text: string, active: Option<string>,
                           current: Option<TeamMember>, timestamp: string)
    requires !IsBlank(text)
    ensures var r := WithPost(messages, text, active, current, timestamp);
      Threads(r) == if active in Threads(messages) then Threads(messages) else Threads(messages) + [active]
  {
    var r := WithPost(messages, text, active, current, timestamp);
    ThreadIdsSnoc(messages, r[|messages|]);
    assert r == messages + [r[|messages|]];
    DistinctSnoc(ThreadIds(messages), active);
  }

  lemma ThreadIdsSnoc(messages: seq<Message>, m: Message)
    ensures ThreadIds(messages + [m]) == ThreadIds(messages) + [m.threadId]
  {
  }

  class DiscussionThreads {
    const store: AppStore
    var newMessage: string
    /** The thread being read; clicking the entry for channel messages makes it `None`. */
    var activeThread: Option<string>

    constructor (store: AppStore)
      ensures this.store == store && newMessage == "" && activeThread == Some(FirstThread)
    {
      this.store := store;
      newMessage := "";
      activeThread := Some(FirstThread);
    }

    method EditMessage(text: string)
      modifies this
      ensures newMessage == text && activeThread == old(activeThread)
    {
      newMessage := text;
    }

    method SetActiveThread(thread: Option<string>)
      modifies this
      ensures activeThread == thread && newMessage == old(newMessage)
    {
      activeThread := thread;
    }

    /** `handleSendMessage`; the formatted clock reading is a parameter. */
    method HandleSendMessage(timestamp: string)
      modifies this, store
      ensures store.State() == old(store.State()).(messages :=
        WithPost(old(store.messages), old(newMessage), activeThread, old(store.currentUser), timestamp))
      ensures newMessage == if IsBlank(old(newMessage)) then old(newMessage) else ""
      ensures activeThread == old(activeThread)
    {
      var text, messages, active, author := newMessage, store.messages, activeThread, NameOrUnknown(store.currentUser);
      TrimEmptyIffBlank(text);
      if Trim(text) == "" {
        return;
      }
      var message := Message(|messages| + 1, author, text, timestamp, None, active);
      store.SetMessages(Updater((prev: seq<Message>) => prev + [message]));
      newMessage := "";
    }
  }
}
