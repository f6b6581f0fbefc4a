/** The messages page: the chat list (two group chats and one direct chat per member,
    pinned chats first), the active chat's messages filtered by a search term, starring
    messages, pinning chats and sending a message into the active chat. */
module MessagesPage {
  import opened Util
  import opened Store
  import opened Sorting

  /** An entry of the chat list. */
  datatype Chat = Chat(id: ChatKey, name: string, isDirect: bool)

  const General: ChatKey := ChatName("general")
  const ProjectAlpha: ChatKey := ChatName("project-alpha")

  /** The chat list before sorting: the two group chats, then one direct chat per member,
      keyed by the member's numeric id. */
  function BuildChats(members: seq<TeamMember>): (r: seq<Chat>)
    ensures |r| == |members| + 2
    ensures r[0] == Chat(General, "General", false) && r[1] == Chat(ProjectAlpha, "Project Alpha", false)
    ensures forall i :: 0 <= i < |members| ==> r[i + 2] == Chat(MemberChat(members[i].id), members[i].name, true)
  {
    [Chat(General, "General", false), Chat(ProjectAlpha, "Project Alpha", false)]
      + seq(|members|, i requires 0 <= i < |members| => Chat(MemberChat(members[i].id), members[i].name, true))
  }

  // ---------------------------------------------------------------------------
  // Chat order
  // ---------------------------------------------------------------------------

  /** The comparator of the chat list, as "a may stay in front of b": pinned chats before
      unpinned ones, and within each group by name, where the comparator never reports a tie
      (for equal names it answers "a first" both ways round). */
  predicate ChatBefore(pinned: seq<ChatKey>, a: Chat, b: Chat) {
    var pa, pb := a.id in pinned, b.id in pinned;
    (pa && !pb) || (pa == pb && !LexLess(b.name, a.name))
  }

  /** The chat list as shown. */
  function SortChats(chats: seq<Chat>, pinned: seq<ChatKey>): (r: seq<Chat>)
    ensures multiset(r) == multiset(chats)
  {
    SortBy(chats, (a: Chat, b: Chat) => ChatBefore(pinned, a, b))
  }

  lemma ChatBeforeTotalPreorder(pinned: seq<ChatKey>, chats: seq<Chat>)
    ensures TotalPreorderOn((a: Chat, b: Chat) => ChatBefore(pinned, a, b), chats)
  {
    LexLeqTotalPreorder();
  }

  /** The shown list holds every chat once, every pinned chat comes before every unpinned
      one, and within each group the names are in ascending order. */
  lemma SortChatsOrdered(chats: seq<Chat>, pinned: seq<ChatKey>)
    ensures var r := SortChats(chats, pinned);
      && multiset(r) == multiset(chats)
      && (forall i, j :: 0 <= i < j < |r| && r[j].id in pinned ==> r[i].id in pinned)
      && (forall i, j :: 0 <= i < j < |r| && (r[i].id in pinned <==> r[j].id in pinned) ==> !LexLess(r[j].name, r[i].name))
  {
    var le := (a: Chat, b: Chat) => ChatBefore(pinned, a, b);
    ChatBeforeTotalPreorder(pinned, chats);
    SortBySorted(chats, le);
    var r := SortChats(chats, pinned);
    assert SortedBy(r, le);
  }

  /** The header shows the name of the first chat whose id is the active one, if any. */
  function ActiveChatName(chats: seq<Chat>, active: ChatKey): (r: Option<string>)
    ensures r.None? <==> forall i :: 0 <= i < |chats| ==> chats[i].id != active
    ensures r.Some? ==> exists i :: (0 <= i < |chats| && chats[i].id == active && chats[i].name == r.value
      && forall j :: 0 <= j < i ==> chats[j].id != active)
    decreases |chats|
  {
    if chats == [] then None
    else if chats[0].id == active then Some(chats[0].name)
    else
      var r := ActiveChatName(chats[1..], active);
      assert r.Some? ==> exists i :: (0 <= i < |chats| && chats[i].id == active && chats[i].name == r.value
        && forall j :: 0 <= j < i ==> chats[j].id != active)
      by {
        if r.Some? {
          var k :| 0 <= k < |chats[1..]| && chats[1..][k].id == active && chats[1..][k].name == r.value
            && forall j :: 0 <= j < k ==> chats[1..][j].id != active;
          assert chats[k + 1] == chats[1..][k];
          assert forall j :: 1 <= j < k + 1 ==> chats[j] == chats[1..][j - 1];
        }
      }
      r
  }

  /** The name in the conversation header. The chat list is sorted in place for display
      before the header's `find` runs, so `find` searches the sorted list: when several
      chats share the active id, the header names the one whose name sorts first. */
  function HeaderName(members: seq<TeamMember>, pinned: seq<ChatKey>, active: ChatKey): (r: Option<string>)
    ensures r.None? <==> forall c :: c in BuildChats(members) ==> c.id != active
    ensures r.Some? ==> exists c :: c in BuildChats(members) && c.id == active && c.name == r.value
    ensures r.Some? ==> forall c :: c in BuildChats(members) && c.id == active ==> !LexLess(c.name, r.value)
  {
    FindInShownList(BuildChats(members), pinned, active);
    ActiveChatName(SortChats(BuildChats(members), pinned), active)
  }

  /** `find` on the sorted chat list: it finds a chat exactly when the unsorted list has
      one with the id, and the one it finds has the name that sorts first among them. */
  lemma FindInShownList(chats: seq<Chat>, pinned: seq<ChatKey>, active: ChatKey)
    ensures var r := ActiveChatName(SortChats(chats, pinned), active);
      && (r.None? <==> forall c :: c in chats ==> c.id != active)
      && (r.Some? ==> exists c :: c in chats && c.id == active && c.name == r.value)
      && (r.Some? ==> forall c :: c in chats && c.id == active ==> !LexLess(c.name, r.value))
  {
    var shown := SortChats(chats, pinned);
    var r := ActiveChatName(shown, active);
    SortKeepsChats(chats, pinned);
    if r.Some? {
      var i :| 0 <= i < |shown| && shown[i].id == active && shown[i].name == r.value
        && forall j :: 0 <= j < i ==> shown[j].id != active;
      assert shown[i] in chats;
      forall c | c in chats && c.id == active
        ensures !LexLess(c.name, r.value)
      {
        var j :| 0 <= j < |shown| && shown[j] == c;
        SameKeyInOrder(chats, pinned, i, j);
      }
    }
  }

  /** Sorting keeps exactly the chats it was given. */
  lemma SortKeepsChats(chats: seq<Chat>, pinned: seq<ChatKey>)
    ensures forall c :: c in SortChats(chats, pinned) <==> c in chats
  {
    var shown := SortChats(chats, pinned);
    forall c | c in chats
      ensures c in shown
    {
      assert c in multiset(chats);
    }
    forall c | c in shown
      ensures c in chats
    {
      assert c in multiset(shown);
    }
  }

  /** Of two shown chats with the same id, the later one's name does not sort first. */
  lemma SameKeyInOrder(chats: seq<Chat>, pinned: seq<ChatKey>, i: nat, j: nat)
    requires var shown := SortChats(chats, pinned);
      i <= j < |shown| && shown[i].id == shown[j].id
    ensures var shown := SortChats(chats, pinned);
      !LexLess(shown[j].name, shown[i].name)
  {
    var shown := SortChats(chats, pinned);
    if i == j {
      LexLessIrreflexive(shown[i].name);
    } else {
      SortChatsOrdered(chats, pinned);
    }
  }

  /** A message of the chat sent by someone other than "You". */
  predicate FromOthers(m: Message, chat: Chat) {
    m.chat == Some(chat.id) && m.sender != You
  }

  function FromOthersOf(chat: Chat): Message -> bool {
    m => FromOthers(m, chat)
  }

  /** The unread-style badge of a chat: the number of its messages sent by someone other
      than "You". */
  function ChatBadge(messages: seq<Message>, chat: Chat): (n: nat)
    ensures n == |set i | 0 <= i < |messages| && FromOthers(messages[i], chat)|
  {
    CountIndices(messages, FromOthersOf(chat));
    assert Positions(messages, FromOthersOf(chat))
      == set i | 0 <= i < |messages| && FromOthers(messages[i], chat);
    Count(messages, FromOthersOf(chat))
  }

  // ---------------------------------------------------------------------------
  // Message list
  // ---------------------------------------------------------------------------

  const You: string := "You"

  /** A message matches the search when its content or its sender contains the term,
      ignoring case. */
  predicate MatchesSearch(m: Message, term: string) {
    ContainsIgnoreCase(m.content, term) || ContainsIgnoreCase(m.sender, term)
  }

  /** The messages shown for the active chat. */
  function VisibleMessages(messages: seq<Message>, active: ChatKey, term: string): (r: seq<Message>)
    ensures forall m :: m in r <==> m in messages && m.chat == Some(active) && MatchesSearch(m, term)
    ensures forall m :: multiset(r)[m] == if m.chat == Some(active) && MatchesSearch(m, term) then multiset(messages)[m] else 0
    ensures IsSubseq(r, messages)
  {
    Filter(messages, (m: Message) => m.chat == Some(active) && MatchesSearch(m, term))
  }

  /** With an empty search box every message of the active chat is shown, in order. */
  lemma EmptySearchShowsChat(messages: seq<Message>, active: ChatKey)
    ensures VisibleMessages(messages, active, "") == Filter(messages, (m: Message) => m.chat == Some(active))
  {
    forall m: Message
      ensures MatchesSearch(m, "")
    {
      ContainsEmpty(Lower(m.content));
    }
    FilterSameElements(messages, (m: Message) => m.chat == Some(active) && MatchesSearch(m, ""),
                       (m: Message) => m.chat == Some(active));
  }

  /** Filters with predicates that agree everywhere give the same result. */
  lemma {:induction false} FilterSameElements(s: seq<Message>, p: Message -> bool, q: Message -> bool)
    requires forall m :: p(m) == q(m)
    ensures Filter(s, p) == Filter(s, q)
    decreases |s|
  {
    if s != [] {
      FilterSameElements(s[..|s| - 1], p, q);
    }
  }

  /** The "Starred" tab: the messages whose id is starred. */
  function StarredMessages(messages: seq<Message>, starred: seq<int>): (r: seq<Message>)
    ensures forall m :: m in r <==> m in messages && m.id in starred
    ensures forall m :: multiset(r)[m] == if m.id in starred then multiset(messages)[m] else 0
    ensures IsSubseq(r, messages)
  {
    Filter(messages, (m: Message) => m.id in starred)
  }

  // ---------------------------------------------------------------------------
  // Sending
  // ---------------------------------------------------------------------------

  /** The messages after pressing Send: unchanged for a blank text; otherwise a message from
      "You" into the active chat, numbered one past the current count, appended. */
  function WithMessageSent(messages: seq<Message>, text: string, active: ChatKey, timestamp: string): (r: seq<Message>)
    ensures IsBlank(text) ==> r == messages
    ensures !IsBlank(text) ==>
      && |r| == |messages| + 1 && r[..|messages|] == messages
      && r[|messages|] == Message(|messages| + 1, You, text, timestamp, Some(active), None)
  {
    TrimEmptyIffBlank(text);
    if Trim(text) == "" then messages
    else
      var m := Message(|messages| + 1, You, text, timestamp, Some(active), None);
      assert (messages + [m])[..|messages|] == messages;
      messages + [m]
  }

  /** Messages numbered 1, 2, ... in list order, as the fixtures are. */
  predicate IdsSequential(messages: seq<Message>) {
    forall i :: 0 <= i < |messages| ==> messages[i].id == i + 1
  }

  /** Sending keeps sequential numbering sequential, so a starred id names one message. */
  lemma SendKeepsIdsSequential(messages: seq<Message>, text: string, active: ChatKey, timestamp: string)
    requires IdsSequential(messages)
    ensures IdsSequential(WithMessageSent(messages, text, active, timestamp))
  {
    var r := WithMessageSent(messages, text, active, timestamp);
    forall i | 0 <= i < |r|
      ensures r[i].id == i + 1
    {
      if i < |messages| {
        assert r[i] == r[..|messages|][i];
      }
    }
  }

  /** A message just sent shows in the active chat exactly when it matches the search. */
  lemma SentMessageVisible(messages: seq<Message>, text: string, active: ChatKey, timestamp: string, term: string)
    requires !IsBlank(text)
    ensures var r := WithMessageSent(messages, text, active, timestamp);
      r[|messages|] in VisibleMessages(r, active, term) <==> MatchesSearch(r[|messages|], term)
  {
  }

  class MessagesPage {
    const store: AppStore
    var newMessage: string
    var activeChat: ChatKey
    var searchTerm: string
    var starred: seq<int>
    var pinned: seq<ChatKey>

    /** Neither starred messages nor pinned chats are ever listed twice. */
    ghost predicate Valid()
      reads this
    {
      NoDup(starred) && NoDup(pinned)
    }

    constructor (store: AppStore)
      ensures this.store == store && Valid()
      ensures newMessage == "" && activeChat == General && searchTerm == ""
      ensures starred == [] && pinned == [General]
    {
      this.store := store;
      newMessage := "";
      activeChat := General;
      searchTerm := "";
      starred := [];
      pinned := [General];
    }

    method EditMessage(text: string)
      modifies this
      ensures newMessage == text
      ensures activeChat == old(activeChat) && searchTerm == old(searchTerm)
      ensures starred == old(starred) && pinned == old(pinned)
    {
      newMessage := text;
    }

    method SetSearchTerm(term: string)
      modifies this
      ensures searchTerm == term
      ensures newMessage == old(newMessage) && activeChat == old(activeChat)
      ensures starred == old(starred) && pinned == old(pinned)
    {
      searchTerm := term;
    }

    /** Clicking a chat in the list. */
    method SetActiveChat(chat: ChatKey)
      modifies this
      ensures activeChat == chat
      ensures newMessage == old(newMessage) && searchTerm == old(searchTerm)
      ensures starred == old(starred) && pinned == old(pinned)
    {
      activeChat := chat;
    }

    /** `sendMessage`; the clock reading, formatted as hours and minutes, is a parameter. */
    method SendMessage(timestamp: string)
      modifies this, store
      ensures store.State() == old(store.State()).(messages := WithMessageSent(old(store.messages), old(newMessage), activeChat, timestamp))
      ensures newMessage == if IsBlank(old(newMessage)) then old(newMessage) else ""
      ensures (activeChat, searchTerm, starred, pinned) == old((activeChat, searchTerm, starred, pinned))
    {
      var text, messages := newMessage, store.messages;
      TrimEmptyIffBlank(text);
      if Trim(text) == "" {
        return;
      }
      var message := Message(|messages| + 1, You, text, timestamp, Some(activeChat), None);
      assert messages + [message] == WithMessageSent(messages, text, activeChat, timestamp);
      store.SetMessages(Value(messages + [message]));
      newMessage := "";
    }

    /** `toggleStar`. */
    method ToggleStar(messageId: int)
      requires Valid()
      modifies this
      ensures Valid()
      ensures starred == Toggle(old(starred), messageId)
      ensures messageId in starred <==> messageId !in old(starred)
      ensures pinned == old(pinned) && newMessage == old(newMessage)
      ensures activeChat == old(activeChat) && searchTerm == old(searchTerm)
    {
      if messageId in starred {
        starred := Without(starred, messageId);
      } else {
        starred := starred + [messageId];
      }
    }

    /** `togglePin`. */
    method TogglePin(chatId: ChatKey)
      requires Valid()
      modifies this
      ensures Valid()
      ensures pinned == Toggle(old(pinned), chatId)
      ensures chatId in pinned <==> chatId !in old(pinned)
      ensures starred == old(starred) && newMessage == old(newMessage)
      ensures activeChat == old(activeChat) && searchTerm == old(searchTerm)
    {
      if chatId in pinned {
        pinned := Without(pinned, chatId);
      } else {
        pinned := pinned + [chatId];
      }
    }
  }
}
