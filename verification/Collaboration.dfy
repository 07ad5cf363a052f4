/** The collaboration router's bookkeeping: messages, conversations and receipts.  The
    clock never goes back, and a drawn UUID is always new. */
module Collaboration {
  import opened Common

  datatype AddressKind = Agent | Thread | Session | Terminal

  datatype Address = Address(kind: AddressKind, id: string)

  datatype Status = Accepted | Consumed | Rejected | Disconnected | Unknown | Expired

  datatype Message = Message(conversation: nat, from: Address, to: Address, text: string, expires: int, status: Status)

  datatype Conversation = Conversation(count: nat, expires: int)

  predicate ValidAddress(a: Address) {
    0 < |a.id| <= 256
  }

  const TTL_MS := 600_000
  const MAX_MESSAGES := 32
  const MAX_RECEIPTS := 4096
  const MAX_TEXT := 16000

  type Messages = map<nat, Message>

  function Of(messages: Messages, c: nat): set<nat> {
    set m | m in messages && messages[m].conversation == c
  }

  lemma OfAdded(messages: Messages, id: nat, m: Message, c: nat)
    requires id !in messages
    ensures Of(messages[id := m], c) == if m.conversation == c then Of(messages, c) + {id} else Of(messages, c)
  {
  }

  lemma Overwritten(messages: Messages, id: nat, a: Message, b: Message)
    ensures messages[id := a][id := b] == messages[id := b]
  {
  }

  lemma OfChanged(messages: Messages, id: nat, status: Status, c: nat)
    requires id in messages
    ensures Of(messages[id := messages[id].(status := status)], c) == Of(messages, c)
  {
  }

  lemma OfRemoved(messages: Messages, id: nat, c: nat)
    requires id in messages
    ensures Of(messages - {id}, c) == if messages[id].conversation == c then Of(messages, c) - {id} else Of(messages, c)
  {
  }

  // Receipts

  /** A receipt never becomes accepted again, and a consumed one stays consumed. */
  predicate MayBecome(a: Status, b: Status) {
    a == b || (b != Accepted && a != Consumed)
  }

  ghost predicate Progress(before: Messages, after: Messages) {
    forall m | m in before && m in after :: MayBecome(before[m].status, after[m].status)
  }

  /** The kept part of a message never changes: only its status does. */
  ghost predicate SameDeliveries(before: Messages, after: Messages) {
    forall m | m in before && m in after :: after[m] == before[m].(status := after[m].status)
  }

  /** What the router keeps after one frame, and the UUIDs drawn by then. */
  datatype Store = Store(messages: Messages, uuids: nat)

  /** From one frame to the next: what is new has a new ID. */
  ghost predicate Follows(before: Store, after: Store) {
    && Progress(before.messages, after.messages) && SameDeliveries(before.messages, after.messages)
    && (forall m | m in after.messages && m !in before.messages :: before.uuids <= m < after.uuids)
    && before.uuids <= after.uuids
  }

  lemma FollowsOn(a: Store, b: Store, c: Store)
    requires Drawn(a) && Follows(a, b) && Follows(b, c)
    ensures Follows(a, c)
  {
  }

  ghost predicate Drawn(s: Store) {
    forall m | m in s.messages :: m < s.uuids
  }

  ghost predicate History(h: seq<Store>) {
    && (forall i | 0 <= i < |h| :: Drawn(h[i]))
    && forall i | 0 < i < |h| :: Follows(h[i - 1], h[i])
  }

  lemma {:induction false} UuidsGrow(h: seq<Store>, i: nat, j: nat)
    requires History(h) && i <= j < |h|
    ensures h[i].uuids <= h[j].uuids
    decreases j - i
  {
    if i < j {
      UuidsGrow(h, i, j - 1);
      assert Follows(h[j - 1], h[j]);
    }
  }

  /** Over any history, a receipt that was settled is never accepted again, one that was
      consumed stays so, and what was sent, with its deadline, stays what it was. */
  lemma {:induction false} ReceiptsOnlyProgress(h: seq<Store>, i: nat, j: nat, m: nat)
    requires History(h) && i <= j < |h| && m in h[i].messages && m in h[j].messages
    ensures MayBecome(h[i].messages[m].status, h[j].messages[m].status)
    ensures h[j].messages[m] == h[i].messages[m].(status := h[j].messages[m].status)
    decreases j - i
  {
    if i < j {
      assert Follows(h[j - 1], h[j]);
      assert Drawn(h[i]);
      UuidsGrow(h, i, j - 1);
      ReceiptsOnlyProgress(h, i, j - 1, m);
    }
  }

  /** An open receipt is lost with the terminal it was for, or with the router. */
  function Lost(m: Message, all: bool, to: Address): Message {
    if m.status == Accepted && (all || m.to == to) then m.(status := Unknown) else m
  }

  /** A message after its receiver's report. */
  function Reported(message: Message, meant: bool, source: Address, status: Status): Message {
    if meant && message.to == source && message.status == Accepted && status in {Consumed, Expired, Rejected}
    then message.(status := status) else message
  }

  /** Nothing has changed but that messages a lifetime past their deadline have gone. */
  ghost predicate Pruned(before: Messages, after: Messages, clock: int) {
    && (forall m | m in after :: m in before && after[m] == before[m])
    && (forall m | m in before && m !in after :: before[m].expires + TTL_MS < clock)
  }

  /** One message may have been added; every other one is as it was, or was past keeping. */
  ghost predicate OnlyAdds(before: Messages, after: Messages, clock: int, id: Option<nat>) {
    if id.None? then Pruned(before, after, clock)
    else id.value !in before && id.value in after && Pruned(before, after - {id.value}, clock)
  }

  lemma PruneAndAdd(before: Messages, pruned: Messages, after: Messages, earlier: int, clock: int, id: Option<nat>)
    requires Pruned(before, pruned, earlier) && earlier <= clock
    requires if id.None? then after == pruned
             else id.value !in before && id.value in after && after == pruned[id.value := after[id.value]]
    ensures OnlyAdds(before, after, clock, id)
  {
  }

  /** A target and a text that the router takes. */
  predicate Acceptable(to: Address, text: string, trim: string -> string) {
    ValidAddress(to) && trim(text) != "" && |text| <= MAX_TEXT
  }

  class Router {
    var peers: set<Address>
    var messages: Messages
    var conversations: map<nat, Conversation>
    var clock: int
    var uuids: nat

    /** The deadline of every conversation there has ever been. */
    ghost var deadlines: map<nat, int>

    constructor (clock: int)
      ensures Valid() && messages == map[] && conversations == map[] && peers == {}
    {
      peers, messages, conversations, this.clock, uuids, deadlines := {}, map[], map[], clock, 0, map[];
    }

    ghost predicate Counted(c: nat)
      requires c in conversations
      reads this
    {
      && conversations[c].count == |Of(messages, c)| <= MAX_MESSAGES
      && c in deadlines && deadlines[c] == conversations[c].expires
    }

    ghost predicate Dated(m: nat)
      requires m in messages
      reads this
    {
      && m < uuids && messages[m].conversation < uuids
      && messages[m].conversation in deadlines && deadlines[messages[m].conversation] == messages[m].expires
      && (messages[m].conversation !in conversations ==> messages[m].expires < clock)
    }

    /** Every retained conversation counts its retained messages and is within its bound, all
        messages of a conversation share its one deadline, and the store is within its own. */
    ghost predicate Valid()
      reads this
    {
      && (forall c | c in conversations :: Counted(c))
      && (forall m | m in messages :: Dated(m))
      && (forall c | c in deadlines :: c < uuids)
      && |messages| <= MAX_RECEIPTS
    }

    /** What one frame or one event may do to what is kept. */
    twostate predicate Moved()
      reads this
    {
      && Follows(Store(old(messages), old(uuids)), Store(messages, uuids)) && old(clock) <= clock
      && (forall c | c in old(deadlines) :: c in deadlines && deadlines[c] == old(deadlines)[c])
    }

    ghost function Stored(): Store
      reads this
    {
      Store(messages, uuids)
    }

    lemma AllDrawn()
      requires Valid()
      ensures Drawn(Stored())
    {
      forall m | m in messages
        ensures m < uuids
      {
        assert Dated(m);
      }
    }

    method DateNow() returns (now: int)
      requires Valid()
      modifies this`clock
      ensures Valid() && now == clock >= old(clock)
    {
      var later: nat :| true;
      clock := clock + later;
      now := clock;
    }

    // Pruning

    ghost predicate Passed(c: nat)
      requires c in conversations
      reads this
    {
      c in deadlines && deadlines[c] == conversations[c].expires < clock
    }

    /** While pruning, a conversation past its deadline may have lost messages already. */
    ghost predicate Pruning(doubtful: set<nat>)
      reads this
    {
      && (forall c | c in conversations :: Counted(c) || (c in doubtful && Passed(c)))
      && (forall m | m in messages :: Dated(m))
      && (forall c | c in deadlines :: c < uuids)
      && |messages| <= MAX_RECEIPTS
    }

    method Tick(ghost doubtful: set<nat>) returns (now: int)
      requires Pruning(doubtful)
      modifies this`clock
      ensures Pruning(doubtful) && now == clock && clock >= old(clock)
    {
      var later: nat :| true;
      clock := clock + later;
      now := clock;
    }

    lemma DroppedIsSmaller(m: nat)
      requires m in messages
      ensures |messages - {m}| == |messages| - 1
    {
      assert (messages - {m}).Keys == messages.Keys - {m};
      assert |(messages - {m}).Keys| == |messages - {m}| && |messages.Keys| == |messages|;
    }

    /** A message that goes is a lifetime past its deadline, so its conversation is past it too. */
    method DropMessage(m: nat)
      requires Pruning(conversations.Keys) && m in messages && messages[m].expires + TTL_MS < clock
      modifies this`messages
      ensures Pruning(conversations.Keys) && messages == old(messages) - {m}
    {
      forall c | c in conversations
        ensures Of(messages - {m}, c) == Of(messages, c) || Passed(c)
      {
        OfRemoved(messages, m, c);
      }
      DroppedIsSmaller(m);
      messages := messages - {m};
    }

    method PruneMessages()
      requires Valid()
      modifies this`messages, this`clock
      ensures Pruning(conversations.Keys) && clock >= old(clock)
      ensures forall m | m in messages :: m in old(messages) && messages[m] == old(messages)[m]
      ensures forall m | m in old(messages) && m !in messages :: old(messages)[m].expires + TTL_MS < clock
      ensures forall m | m in messages :: messages[m].expires + TTL_MS >= old(clock)
    {
      var todo := messages.Keys;
      while todo != {}
        invariant Pruning(conversations.Keys) && todo <= messages.Keys && clock >= old(clock)
        invariant forall m | m in messages :: m in old(messages) && messages[m] == old(messages)[m]
        invariant forall m | m in old(messages) && m !in messages :: old(messages)[m].expires + TTL_MS < clock
        invariant forall m | m in messages.Keys - todo :: messages[m].expires + TTL_MS >= old(clock)
        decreases |todo|
      {
        var m :| m in todo;
        todo := todo - {m};
        var now := Tick(conversations.Keys);
        if messages[m].expires + TTL_MS < now {
          DropMessage(m);
        }
      }
    }

    /** A conversation past its deadline goes; any other is exact. */
    method PruneConversation(c: nat, ghost todo: set<nat>)
      requires c in conversations && c in todo && Pruning(todo)
      modifies this`conversations, this`clock
      ensures Pruning(todo - {c}) && clock >= old(clock)
      ensures conversations == old(conversations) || (conversations == old(conversations) - {c} && old(conversations)[c].expires < clock)
      ensures c in conversations ==> conversations[c].expires >= old(clock)
    {
      var now := Tick(todo);
      if conversations[c].expires < now {
        conversations := conversations - {c};
      }
    }

    method PruneConversations()
      requires Pruning(conversations.Keys)
      modifies this`conversations, this`clock
      ensures Valid() && clock >= old(clock)
      ensures forall c | c in conversations :: c in old(conversations) && conversations[c] == old(conversations)[c]
      ensures forall c | c in old(conversations) && c !in conversations :: old(conversations)[c].expires < clock
      ensures forall c | c in conversations :: conversations[c].expires >= old(clock)
    {
      var todo := conversations.Keys;
      while todo != {}
        invariant Pruning(todo) && todo <= conversations.Keys && clock >= old(clock)
        invariant forall c | c in conversations :: c in old(conversations) && conversations[c] == old(conversations)[c]
        invariant forall c | c in old(conversations) && c !in conversations :: old(conversations)[c].expires < clock
        invariant forall c | c in conversations.Keys - todo :: conversations[c].expires >= old(clock)
        decreases |todo|
      {
        var c :| c in todo;
        PruneConversation(c, todo);
        todo := todo - {c};
      }
    }

    /** Receipts are kept one lifetime past their deadline and no longer, conversations up to it. */
    method Prune()
      requires Valid()
      modifies this`messages, this`conversations, this`clock
      ensures Valid() && Moved() && Pruned(old(messages), messages, clock)
      ensures forall m | m in messages :: messages[m].expires + TTL_MS >= old(clock)
      ensures forall c | c in conversations :: c in old(conversations) && conversations[c] == old(conversations)[c]
      ensures forall c | c in old(conversations) && c !in conversations :: old(conversations)[c].expires < clock
      ensures forall c | c in conversations :: conversations[c].expires >= old(clock)
    {
      PruneMessages();
      PruneConversations();
    }

    // Sending

    method RandomUuid() returns (id: nat)
      requires Valid()
      modifies this`uuids
      ensures Valid() && id == old(uuids) && uuids == id + 1 && id !in messages && id !in conversations && id !in deadlines
    {
      assert forall m | m in messages :: Dated(m);
      assert forall c | c in conversations :: Counted(c);
      id := uuids;
      uuids := uuids + 1;
    }

    /** The conversation as it stands, or a new one that has no messages yet. */
    ghost predicate Open(conversation: nat, c: Conversation)
      reads this
    {
      && conversation < uuids && c.count == |Of(messages, conversation)|
      && if conversation in conversations then conversations[conversation] == c && conversation in deadlines && deadlines[conversation] == c.expires
         else conversation !in deadlines
    }

    method Insert(m: nat, message: Message, c: Conversation)
      requires Valid() && m < uuids && m !in messages && Open(message.conversation, c) && message.expires == c.expires
      requires c.count < MAX_MESSAGES && |messages| < MAX_RECEIPTS
      modifies this`messages, this`conversations, this`deadlines
      ensures Valid() && messages == old(messages)[m := message]
      ensures conversations == old(conversations)[message.conversation := Conversation(c.count + 1, c.expires)]
      ensures deadlines == old(deadlines)[message.conversation := c.expires]
    {
      AddedIsBigger(m, message);
      CountsAfter(m, message);
      messages := messages[m := message];
      conversations := conversations[message.conversation := Conversation(c.count + 1, c.expires)];
      deadlines := deadlines[message.conversation := c.expires];
    }

    lemma CountsAfter(m: nat, message: Message)
      requires m !in messages
      ensures |Of(messages[m := message], message.conversation)| == |Of(messages, message.conversation)| + 1
      ensures forall d | d in conversations && d != message.conversation :: Of(messages[m := message], d) == Of(messages, d)
    {
      OfAdded(messages, m, message, message.conversation);
      forall d | d in conversations && d != message.conversation
        ensures Of(messages[m := message], d) == Of(messages, d)
      {
        OfAdded(messages, m, message, d);
      }
    }

    /** A message joins its conversation within the bounds, or is turned away. */
    method Post(from: Address, to: Address, text: string, conversation: nat, c: Conversation) returns (id: Option<nat>)
      requires Valid() && Open(conversation, c)
      modifies this`messages, this`conversations, this`uuids, this`deadlines
      ensures Valid() && Moved()
      ensures id.None? <==> c.count >= MAX_MESSAGES || |old(messages)| >= MAX_RECEIPTS
      ensures id.None? ==> messages == old(messages) && conversations == old(conversations)
      ensures id.Some? ==>
        && old(uuids) <= id.value && id.value !in old(messages)
        && messages == old(messages)[id.value := Message(conversation, from, to, text, c.expires, Accepted)]
        && conversations == old(conversations)[conversation := Conversation(c.count + 1, c.expires)]
    {
      if c.count >= MAX_MESSAGES || |messages| >= MAX_RECEIPTS {
        return None;
      }
      var m := RandomUuid();
      Insert(m, Message(conversation, from, to, text, c.expires, Accepted), c);
      id := Some(m);
    }

    lemma AddedIsBigger(m: nat, message: Message)
      requires m !in messages
      ensures |messages[m := message]| == |messages| + 1
    {
      assert messages[m := message].Keys == messages.Keys + {m};
      assert |messages[m := message].Keys| == |messages[m := message]| && |messages.Keys| == |messages|;
    }

    lemma ConversationIsOpen(conversation: nat)
      requires Valid() && conversation in conversations
      ensures Open(conversation, conversations[conversation])
    {
      assert Counted(conversation);
    }

    lemma NewConversationIsOpen(conversation: nat, expires: int)
      requires Valid() && conversation < uuids && conversation !in conversations && conversation !in deadlines
      ensures Open(conversation, Conversation(0, expires))
    {
      forall m | m in messages
        ensures messages[m].conversation != conversation
      {
        assert Dated(m);
      }
      assert Of(messages, conversation) == {};
    }

    /** Where a reply would go, if its target is this endpoint's and not past its deadline. */
    function Previous(source: Address, replyTo: nat, now: int): Option<Message>
      reads this
    {
      if replyTo in messages && messages[replyTo].to == source && messages[replyTo].expires > now then Some(messages[replyTo]) else None
    }

    /** What a message can be once it has been handed over: a terminal may be gone, or its
        connection may fail. */
    predicate Handed(to: Address, status: Status)
      reads this
    {
      && status in {Accepted, Disconnected, Unknown}
      && (status == Disconnected <==> to.kind.Terminal? && to !in peers)
      && (status == Unknown ==> to.kind.Terminal?)
    }

    /** Posts, and hands over what was posted. */
    method PostAndHandOver(from: Address, to: Address, text: string, conversation: nat, c: Conversation) returns (id: Option<nat>)
      requires Valid() && Open(conversation, c)
      modifies this`messages, this`conversations, this`uuids, this`deadlines
      ensures Valid() && Moved()
      ensures id.None? <==> c.count >= MAX_MESSAGES || |old(messages)| >= MAX_RECEIPTS
      ensures id.None? ==> messages == old(messages) && conversations == old(conversations)
      ensures id.Some? ==>
        && old(uuids) <= id.value && id.value in messages
        && messages == old(messages)[id.value := Message(conversation, from, to, text, c.expires, messages[id.value].status)]
        && Handed(to, messages[id.value].status)
    {
      AllDrawn();
      id := Post(from, to, text, conversation, c);
      if id.Some? {
        ghost var posted := Stored();
        var _ := HandOver(id.value, to);
        FollowsOn(old(Stored()), posted, Stored());
        Overwritten(old(messages), id.value, posted.messages[id.value], messages[id.value]);
      }
    }

    /** Sends to a new conversation; refused exactly for what is sent, or with the store full. */
    method Send(source: Address, to: Address, text: string, trim: string -> string) returns (id: Option<nat>)
      requires Valid()
      modifies this
      ensures Valid() && Moved() && peers == old(peers) && OnlyAdds(old(messages), messages, clock, id)
      ensures id.Some? ==>
        && messages[id.value].from == source && messages[id.value].to == to && messages[id.value].text == text
        && old(clock) + TTL_MS <= messages[id.value].expires <= clock + TTL_MS
        && messages[id.value].conversation !in old(deadlines)
        && Acceptable(to, text, trim) && Handed(to, messages[id.value].status)
      ensures id.None? ==> !Acceptable(to, text, trim) || |messages| >= MAX_RECEIPTS
    {
      Prune();
      ghost var pruned, pruneEnd := messages, clock;
      if Acceptable(to, text, trim) {
        id := Start(source, to, text);
      } else {
        id := None;
      }
      PruneAndAdd(old(messages), pruned, messages, pruneEnd, clock, id);
    }

    method Start(source: Address, to: Address, text: string) returns (id: Option<nat>)
      requires Valid()
      modifies this
      ensures Valid() && Moved() && peers == old(peers)
      ensures id.None? ==> messages == old(messages) && |messages| >= MAX_RECEIPTS
      ensures id.Some? ==>
        && old(uuids) <= id.value && id.value in messages
        && messages == old(messages)[id.value := messages[id.value]]
        && messages[id.value].from == source && messages[id.value].to == to && messages[id.value].text == text
        && old(clock) + TTL_MS <= messages[id.value].expires <= clock + TTL_MS
        && messages[id.value].conversation !in old(deadlines) && Handed(to, messages[id.value].status)
    {
      var conversation := RandomUuid();
      var now := DateNow();
      NewConversationIsOpen(conversation, now + TTL_MS);
      id := PostAndHandOver(source, to, text, conversation, Conversation(0, now + TTL_MS));
    }

    /** Replies within the conversation of a message to this endpoint; the deadline stays. */
    method Reply(source: Address, replyTo: nat, text: string, trim: string -> string) returns (id: Option<nat>)
      requires Valid()
      modifies this
      ensures Valid() && Moved() && peers == old(peers) && OnlyAdds(old(messages), messages, clock, id)
      ensures id.Some? ==>
        && replyTo in old(messages) && old(messages)[replyTo].expires > clock
        && Answers(old(messages)[replyTo], messages[id.value], source, text)
        && Acceptable(messages[id.value].to, text, trim) && Handed(messages[id.value].to, messages[id.value].status)
      ensures id.None? ==> Refuses(source, replyTo, text, trim)
    {
      AllDrawn();
      Prune();
      ghost var pruned := Stored();
      id := Respond(source, replyTo, text, trim);
      FollowsOn(old(Stored()), pruned, Stored());
      PruneAndAdd(old(messages), pruned.messages, messages, clock, clock, id);
    }

    method Respond(source: Address, replyTo: nat, text: string, trim: string -> string) returns (id: Option<nat>)
      requires Valid()
      modifies this
      ensures Valid() && Moved() && peers == old(peers)
      ensures id.Some? ==>
        && replyTo in old(messages) && old(messages)[replyTo].expires > clock && old(uuids) <= id.value && id.value in messages
        && messages == old(messages)[id.value := messages[id.value]]
        && Answers(old(messages)[replyTo], messages[id.value], source, text)
        && Acceptable(messages[id.value].to, text, trim) && Handed(messages[id.value].to, messages[id.value].status)
      ensures id.None? ==> messages == old(messages) && Refuses(source, replyTo, text, trim)
    {
      var now := DateNow();
      var previous := Previous(source, replyTo, now);
      if previous.None? || !Acceptable(previous.value.from, text, trim) {
        return None;
      }
      id := Answer(source, previous.value, replyTo, text);
    }

    /** Why a reply is turned away: its target, its text or a bound. */
    ghost predicate Refuses(source: Address, replyTo: nat, text: string, trim: string -> string)
      reads this
    {
      || replyTo !in messages || messages[replyTo].to != source || messages[replyTo].expires <= clock
      || !Acceptable(messages[replyTo].from, text, trim)
      || |Of(messages, messages[replyTo].conversation)| >= MAX_MESSAGES || |messages| >= MAX_RECEIPTS
    }

    predicate Answers(previous: Message, reply: Message, source: Address, text: string) {
      && previous.to == source == reply.from && reply.to == previous.from
      && reply.conversation == previous.conversation && reply.expires == previous.expires && reply.text == text
    }

    method Answer(source: Address, previous: Message, ghost replyTo: nat, text: string) returns (id: Option<nat>)
      requires Valid() && replyTo in messages && messages[replyTo] == previous && previous.expires >= clock && previous.to == source
      modifies this`messages, this`conversations, this`uuids, this`deadlines
      ensures Valid() && Moved()
      ensures id.Some? ==>
        && old(uuids) <= id.value && id.value in messages
        && messages == old(messages)[id.value := messages[id.value]]
        && Answers(previous, messages[id.value], source, text) && Handed(previous.from, messages[id.value].status)
      ensures id.None? ==>
        && messages == old(messages)
        && (|Of(messages, previous.conversation)| >= MAX_MESSAGES || |messages| >= MAX_RECEIPTS)
    {
      assert Dated(replyTo);
      assert Counted(previous.conversation);
      ConversationIsOpen(previous.conversation);
      id := PostAndHandOver(source, previous.from, text, previous.conversation, conversations[previous.conversation]);
    }

    // Receipts

    /** Settles one receipt. */
    method SetStatus(m: nat, status: Status)
      requires Valid() && m in messages && MayBecome(messages[m].status, status)
      modifies this`messages
      ensures Valid() && Moved() && messages == old(messages)[m := old(messages)[m].(status := status)]
    {
      StatusKeepsCounts(m, status);
      messages := messages[m := messages[m].(status := status)];
    }

    lemma StatusKeepsCounts(m: nat, status: Status)
      requires m in messages
      ensures var changed := messages[m := messages[m].(status := status)];
        |changed| == |messages| && forall c | c in conversations :: Of(changed, c) == Of(messages, c)
    {
      var changed := messages[m := messages[m].(status := status)];
      forall c | c in conversations
        ensures Of(changed, c) == Of(messages, c)
      {
        OfChanged(messages, m, status, c);
      }
      assert changed.Keys == messages.Keys && |changed.Keys| == |changed| && |messages.Keys| == |messages|;
    }

    /** To a terminal through its connection, which may fail; to a bot through its owner. */
    method HandOver(m: nat, to: Address) returns (written: bool)
      requires Valid() && m in messages && messages[m].status == Accepted
      modifies this`messages
      ensures Valid() && Moved()
      ensures var status := if !to.kind.Terminal? then Accepted else if to !in peers then Disconnected
                            else if written then Accepted else Unknown;
        messages == old(messages)[m := old(messages)[m].(status := status)]
    {
      written := *;
      if to.kind.Terminal? {
        if to !in peers {
          SetStatus(m, Disconnected);
        } else if !written {
          SetStatus(m, Unknown);
        }
      }
    }

    /** The owner says that the message was consumed, at any time. */
    method OwnerConsumed(m: nat)
      requires Valid()
      modifies this`messages
      ensures Valid() && Moved()
      ensures messages == if m in old(messages) then old(messages)[m := old(messages)[m].(status := Consumed)] else old(messages)
    {
      if m in messages {
        SetStatus(m, Consumed);
      }
    }

    /** The owner failed to deliver, which counts only while nothing else is known. */
    method OwnerFailed(m: nat, status: Status)
      requires Valid() && status != Accepted && status != Consumed
      modifies this`messages
      ensures Valid() && Moved()
      ensures messages == if m in old(messages) && old(messages)[m].status == Accepted
                          then old(messages)[m := old(messages)[m].(status := status)] else old(messages)
    {
      if m in messages && messages[m].status == Accepted {
        SetStatus(m, status);
      }
    }

    /** The receiver reports once, while the receipt is still open; nobody else can, no other
        status is taken, and nothing else is settled. */
    method DeliveryStatus(source: Address, m: nat, status: Status)
      requires Valid()
      modifies this
      ensures Valid() && Moved()
      ensures forall n | n in messages :: n in old(messages) && messages[n] == Reported(old(messages)[n], n == m, source, status)
      ensures forall n | n in old(messages) && n !in messages :: old(messages)[n].expires + TTL_MS < clock
    {
      Prune();
      ReportStatus(source, m, status);
    }

    method ReportStatus(source: Address, m: nat, status: Status)
      requires Valid()
      modifies this`messages
      ensures Valid() && Moved() && messages.Keys == old(messages).Keys
      ensures forall n | n in messages :: messages[n] == Reported(old(messages)[n], n == m, source, status)
    {
      if m in messages && messages[m].to == source && status in {Consumed, Expired, Rejected} && messages[m].status == Accepted {
        SetStatus(m, status);
      }
    }

    /** The receipt as it stands; an open one past its deadline is unknown, without being settled. */
    method ReceiptOf(m: nat) returns (status: Status)
      requires Valid()
      modifies this
      ensures Valid() && Moved()
      ensures status == if m !in messages || (messages[m].status == Accepted && messages[m].expires < clock) then Unknown else messages[m].status
    {
      Prune();
      var now := DateNow();
      if m !in messages || (messages[m].status == Accepted && messages[m].expires < now) {
        return Unknown;
      }
      status := messages[m].status;
    }

    method LoseReceipt(m: nat, all: bool, to: Address)
      requires Valid() && m in messages
      modifies this`messages
      ensures Valid() && Moved() && messages.Keys == old(messages).Keys
      ensures messages == old(messages)[m := Lost(old(messages)[m], all, to)]
    {
      if messages[m].status == Accepted && (all || messages[m].to == to) {
        SetStatus(m, Unknown);
      }
    }

    /** Open receipts of some messages are lost: those to a terminal that has gone, or all. */
    method LoseReceipts(all: bool, to: Address)
      requires Valid()
      modifies this`messages
      ensures Valid() && Moved() && messages.Keys == old(messages).Keys
      ensures forall m | m in messages :: messages[m] == Lost(old(messages)[m], all, to)
    {
      var todo := messages.Keys;
      while todo != {}
        invariant Valid() && messages.Keys == old(messages).Keys && todo <= messages.Keys
        invariant forall m | m in todo :: messages[m] == old(messages)[m]
        invariant forall m | m in messages.Keys - todo :: messages[m] == Lost(old(messages)[m], all, to)
        decreases |todo|
      {
        var m :| m in todo;
        LoseReceipt(m, all, to);
        todo := todo - {m};
      }
    }

    // Endpoints

    /** A connection registers once, under an address that no other one has; `source` is the
        address of the connection, if it has registered. */
    method Hello(source: Option<Address>, address: Address) returns (registered: Option<Address>, accepted: bool)
      requires Valid()
      modifies this
      ensures Valid() && Moved()
      ensures accepted <==>
        && source.None? && ValidAddress(address) && (address.kind.Terminal? || address.kind.Session?)
        && address !in old(peers)
      ensures peers == (if accepted then old(peers) + {address} else old(peers))
      ensures registered == if accepted then Some(address) else source
    {
      Prune();
      if source.Some? || !ValidAddress(address) || !(address.kind.Terminal? || address.kind.Session?) || address in peers {
        return source, false;
      }
      peers := peers + {address};
      return Some(address), true;
    }

    method SocketClosed(address: Address)
      requires Valid() && address in peers
      modifies this`peers, this`messages
      ensures Valid() && Moved() && peers == old(peers) - {address} && messages.Keys == old(messages).Keys
      ensures forall m | m in messages ::
        messages[m] == if address.kind.Terminal? then Lost(old(messages)[m], false, address) else old(messages)[m]
    {
      peers := peers - {address};
      if address.kind.Terminal? {
        LoseReceipts(false, address);
      }
    }

    method Stop()
      requires Valid()
      modifies this`messages
      ensures Valid() && Moved() && messages.Keys == old(messages).Keys
      ensures forall m | m in messages ::
        messages[m] == if old(messages)[m].status == Accepted then old(messages)[m].(status := Unknown) else old(messages)[m]
    {
      LoseReceipts(true, Address(Session, ""));
    }
  }
}
