/**
  The in-memory ledger the message handler keeps, described as functions of
  the messages received so far: the user states (`userStates`), the chat
  registry (`chats`, whose keys keep their insertion order), the per-chat
  history (`messageHistory`) and the events relayed to subscribers. Module
  Server keeps the same things in the fields of an object and updates them
  in place; its invariant ties those fields to these functions.
 */
module Ledger {
  import opened Wrappers
  import opened Dialogue

  /** What `msg.getContact()` resolves to: only the fields the handler reads. */
  datatype Contact = Contact(pushname: Option<string>, name: Option<string>, profilePicUrl: Option<string>)

  /** An inbound message: sender id (`msg.from`), raw body and resolved contact. */
  datatype Inbound = Inbound(from: string, body: string, contact: Contact)

  /** A chat record `{ from, name, photo }`. */
  datatype Chat = Chat(from: string, name: Option<string>, photo: Option<string>)

  /** The `type` of a relayed message. */
  datatype Origin = User | Bot

  /** A message `{ from, body, type }`, as stored in history and as relayed. */
  datatype Entry = Entry(from: string, body: string, origin: Origin)

  /** An `io.emit` to every subscriber: "newChat", a "message" relaying a
      user's message, or a "message" relaying the bot's, kept as the reply
      it spells (`Payload` gives the object that goes on the wire). */
  datatype Event = NewChat(chat: Chat) | Message(entry: Entry) | BotMessage(reply: Reply)

  /** The object a "message" event carries; a bot message is
      `{ from: "bot", body: <its text, menu lines indented by 8>, type: "bot" }`. */
  function Payload(e: Event): Option<Entry>
  {
    match e
    case NewChat(_) => None
    case Message(entry) => Some(entry)
    case BotMessage(reply) => Some(Entry("bot", Text(reply, RelayIndent), Bot))
  }

  /** `contact.pushname || contact.name`: an absent or empty push name falls
      through to the contact name, whatever that is. */
  function DisplayName(c: Contact): (n: Option<string>)
    ensures n == c.pushname || n == c.name
    ensures n == c.name <== c.pushname == None || c.pushname == Some("")
    ensures (c.pushname.Some? && c.pushname.value != "") ==> n == c.pushname
  {
    if c.pushname.Some? && c.pushname.value != "" then c.pushname else c.name
  }

  /** The chat record built from a message. */
  function ChatOf(m: Inbound): Chat
  {
    Chat(m.from, DisplayName(m.contact), m.contact.profilePicUrl)
  }

  /** The history entry stored for a message: the raw body, never lower-cased. */
  function EntryOf(m: Inbound): Entry
  {
    Entry(m.from, m.body, User)
  }

  /** `userStates.get(userId) || { step: "start" }`. */
  function StateOf(states: map<string, Session>, u: string): Session
  {
    if u in states then states[u] else Fresh
  }

  /** `messageHistory.get(from) || []`. */
  function HistoryOf(histories: map<string, seq<Entry>>, u: string): seq<Entry>
  {
    if u in histories then histories[u] else []
  }

  // ---------------------------------------------------------------------
  // The ledger after the messages `r`, message by message
  // ---------------------------------------------------------------------

  /** The keys of `chats` in insertion order: senders by first sighting. */
  function Senders(r: seq<Inbound>): seq<string>
  {
    if r == [] then []
    else
      var ids := Senders(r[..|r| - 1]);
      var u := r[|r| - 1].from;
      if u in ids then ids else ids + [u]
  }

  /** `chats`: a sender's record is added when first seen and never replaced. */
  function Chats(r: seq<Inbound>): map<string, Chat>
  {
    if r == [] then map[]
    else
      var c := Chats(r[..|r| - 1]);
      var m := r[|r| - 1];
      if m.from in c then c else c[m.from := ChatOf(m)]
  }

  /** `Array.from(chats.values())`: the records in insertion order. */
  function ChatList(r: seq<Inbound>): seq<Chat>
  {
    if r == [] then []
    else
      var l := ChatList(r[..|r| - 1]);
      var m := r[|r| - 1];
      if m.from in Chats(r[..|r| - 1]) then l else l + [ChatOf(m)]
  }

  /** `userStates`: each message replaces its sender's state by the one the
      switch computes from it. */
  function States(r: seq<Inbound>): map<string, Session>
  {
    if r == [] then map[]
    else
      var s := States(r[..|r| - 1]);
      var m := r[|r| - 1];
      s[m.from := Transition(StateOf(s, m.from), ToLower(m.body)).next]
  }

  /** `messageHistory`: each message appends its own entry to its sender's
      list, created empty on first use. */
  function Histories(r: seq<Inbound>): map<string, seq<Entry>>
  {
    if r == [] then map[]
    else
      var h := Histories(r[..|r| - 1]);
      var m := r[|r| - 1];
      h[m.from := HistoryOf(h, m.from) + [EntryOf(m)]]
  }

  /** The relayed bot message as an event, if any. */
  function BotEvents(relayed: Option<Reply>): seq<Event>
  {
    match relayed
    case Some(b) => [BotMessage(b)]
    case None => []
  }

  /** The "newChat" event a message triggers: one when its sender has no
      chat record yet in `chats`, none otherwise. */
  function NewChatEvents(chats: map<string, Chat>, m: Inbound): seq<Event>
  {
    if m.from in chats then [] else [NewChat(ChatOf(m))]
  }

  /** The events one message emits after the messages `r`: "newChat" if
      its sender is new, the user's message, then the re-derived bot message. */
  function EventsFor(r: seq<Inbound>, m: Inbound): seq<Event>
  {
    var text := ToLower(m.body);
    var after := Transition(StateOf(States(r), m.from), text).next;
    NewChatEvents(Chats(r), m) + [Message(EntryOf(m))] + BotEvents(RelayedReply(after, text))
  }

  /** Everything emitted to subscribers while handling `r`, in order. */
  function Events(r: seq<Inbound>): seq<Event>
  {
    if r == [] then [] else Events(r[..|r| - 1]) + EventsFor(r[..|r| - 1], r[|r| - 1])
  }

  // One more message updates each part of the ledger as the handler does.

  lemma StatesSnoc(r: seq<Inbound>, m: Inbound)
    ensures States(r + [m]) == States(r)[m.from := Transition(StateOf(States(r), m.from), ToLower(m.body)).next]
  {
    assert (r + [m])[..|r|] == r;
  }

  lemma ChatsSnoc(r: seq<Inbound>, m: Inbound)
    ensures Chats(r + [m]) == if m.from in Chats(r) then Chats(r) else Chats(r)[m.from := ChatOf(m)]
    ensures Senders(r + [m]) == if m.from in Senders(r) then Senders(r) else Senders(r) + [m.from]
  {
    assert (r + [m])[..|r|] == r;
  }

  lemma HistoriesSnoc(r: seq<Inbound>, m: Inbound)
    ensures Histories(r + [m]) == Histories(r)[m.from := HistoryOf(Histories(r), m.from) + [EntryOf(m)]]
  {
    assert (r + [m])[..|r|] == r;
  }

  /** Appending four pieces gives the same sequence however they are grouped. */
  lemma AppendRegroup<T>(a: seq<T>, b: seq<T>, c: seq<T>, d: seq<T>)
    ensures a + (b + c + d) == a + b + c + d
  {
  }

  /** The bot message of a message is re-derived from its sender's new state. */
  lemma EventsForAfter(r: seq<Inbound>, m: Inbound)
    ensures EventsFor(r, m)
            == NewChatEvents(Chats(r), m) + [Message(EntryOf(m))]
               + BotEvents(RelayedReply(States(r + [m])[m.from], ToLower(m.body)))
  {
    StatesSnoc(r, m);
  }

  /** The events of one more message, appended one at a time as the
      handler emits them. */
  lemma EventsSnoc(r: seq<Inbound>, m: Inbound)
    ensures Events(r + [m])
            == Events(r) + NewChatEvents(Chats(r), m) + [Message(EntryOf(m))]
               + BotEvents(RelayedReply(States(r + [m])[m.from], ToLower(m.body)))
  {
    assert (r + [m])[..|r|] == r;
    assert Events(r + [m]) == Events(r) + EventsFor(r, m);
    EventsForAfter(r, m);
    AppendRegroup(Events(r), NewChatEvents(Chats(r), m), [Message(EntryOf(m))],
                  BotEvents(RelayedReply(States(r + [m])[m.from], ToLower(m.body))));
  }

  // ---------------------------------------------------------------------
  // Per-user views, as independent reference definitions
  // ---------------------------------------------------------------------

  /** Some message of `r` comes from `u`. */
  predicate Seen(r: seq<Inbound>, u: string)
  {
    exists i :: 0 <= i < |r| && r[i].from == u
  }

  /** The lower-cased bodies `u` sent, in order. */
  function Said(r: seq<Inbound>, u: string): seq<string>
  {
    if r == [] then []
    else if r[0].from == u then [ToLower(r[0].body)] + Said(r[1..], u)
    else Said(r[1..], u)
  }

  /** The entries of the messages `u` sent, in order. */
  function Sent(r: seq<Inbound>, u: string): seq<Entry>
  {
    if r == [] then []
    else if r[0].from == u then [EntryOf(r[0])] + Sent(r[1..], u)
    else Sent(r[1..], u)
  }

  /** Sequence elements are pairwise distinct. */
  predicate Distinct<T(==)>(s: seq<T>)
  {
    forall i, j :: 0 <= i < j < |s| ==> s[i] != s[j]
  }

  lemma SaidSnoc(r: seq<Inbound>, m: Inbound, u: string)
    ensures Said(r + [m], u) == Said(r, u) + (if m.from == u then [ToLower(m.body)] else [])
  {
    if r == [] {
      assert [m][1..] == [];
    } else {
      assert (r + [m])[1..] == r[1..] + [m];
      SaidSnoc(r[1..], m, u);
    }
  }

  lemma SentSnoc(r: seq<Inbound>, m: Inbound, u: string)
    ensures Sent(r + [m], u) == Sent(r, u) + (if m.from == u then [EntryOf(m)] else [])
  {
    if r == [] {
      assert [m][1..] == [];
    } else {
      assert (r + [m])[1..] == r[1..] + [m];
      SentSnoc(r[1..], m, u);
    }
  }

  // ---------------------------------------------------------------------
  // Properties
  // ---------------------------------------------------------------------

  /** The chat order lists every sender exactly once, and the chat registry
      holds exactly the senders. */
  lemma {:induction false} SendersAreSeen(r: seq<Inbound>)
    ensures Distinct(Senders(r))
    ensures forall u :: u in Senders(r) <==> Seen(r, u)
    ensures forall u :: u in Chats(r) <==> Seen(r, u)
  {
    if r != [] {
      var p, m := r[..|r| - 1], r[|r| - 1];
      SendersAreSeen(p);
      forall u ensures Seen(r, u) <==> Seen(p, u) || m.from == u {
        if Seen(p, u) {
          var i :| 0 <= i < |p| && p[i].from == u;
          assert r[i] == p[i];
        }
        if Seen(r, u) {
          var i :| 0 <= i < |r| && r[i].from == u;
          if i < |p| { assert p[i] == r[i]; }
        }
      }
    }
  }

  /** A chat record, once registered, is never changed by later messages. */
  lemma {:induction false} ChatSetOnce(r: seq<Inbound>, later: seq<Inbound>, u: string)
    requires u in Chats(r)
    ensures u in Chats(r + later) && Chats(r + later)[u] == Chats(r)[u]
    decreases |later|
  {
    if later == [] {
      assert r + later == r;
    } else {
      var init := later[..|later| - 1];
      ChatSetOnce(r, init, u);
      assert (r + later)[..|r + later| - 1] == r + init;
    }
  }

  /** The record of a chat is the one built from its sender's first message. */
  lemma FirstSightingWins(r: seq<Inbound>, i: nat)
    requires i < |r|
    requires forall j :: 0 <= j < i ==> r[j].from != r[i].from
    ensures r[i].from in Chats(r) && Chats(r)[r[i].from] == ChatOf(r[i])
  {
    var u, p := r[i].from, r[..i];
    assert !Seen(p, u) by {
      forall j | 0 <= j < |p| ensures p[j].from != u {
        assert p[j] == r[j];
      }
    }
    SendersAreSeen(p);
    assert r[..i + 1] == p + [r[i]];
    ChatsSnoc(p, r[i]);
    ChatSetOnce(r[..i + 1], r[i + 1..], u);
    assert r[..i + 1] + r[i + 1..] == r;
  }

  /** Every chat record is filed under its own sender. */
  lemma {:induction false} ChatsKeyedBySender(r: seq<Inbound>)
    ensures forall u :: u in Chats(r) ==> Chats(r)[u].from == u
  {
    if r != [] {
      ChatsKeyedBySender(r[..|r| - 1]);
    }
  }

  /** The chat list sent on connection holds every sender's record, in
      first-sighting order. */
  lemma {:induction false} ChatListInOrder(r: seq<Inbound>)
    ensures |ChatList(r)| == |Senders(r)|
    ensures forall i :: 0 <= i < |Senders(r)| ==>
      Senders(r)[i] in Chats(r) && ChatList(r)[i] == Chats(r)[Senders(r)[i]]
  {
    if r != [] {
      var p, m := r[..|r| - 1], r[|r| - 1];
      ChatListInOrder(p);
      SendersAreSeen(p);
    }
  }

  /** A user's stored state depends only on that user's own messages: it is
      the switch run over what the user said, from the default state. */
  lemma {:induction false} StateIsOwnReplay(r: seq<Inbound>, u: string)
    ensures u in States(r) <==> Seen(r, u)
    ensures StateOf(States(r), u) == Replay(Said(r, u))
  {
    SendersAreSeen(r);
    if r != [] {
      var p, m := r[..|r| - 1], r[|r| - 1];
      StateIsOwnReplay(p, u);
      SendersAreSeen(p);
      SaidSnoc(p, m, u);
      assert p + [m] == r;
      var next := Transition(StateOf(States(p), m.from), ToLower(m.body)).next;
      assert States(r) == States(p)[m.from := next];
      if m.from == u {
        var said := Said(r, u);
        assert said == Said(p, u) + [ToLower(m.body)];
        assert said[..|said| - 1] == Said(p, u);
        assert Replay(said) == Transition(Replay(Said(p, u)), ToLower(m.body)).next;
      } else {
        assert Said(r, u) == Said(p, u);
      }
    }
  }

  /** Only a user's own messages are in that user's history: one entry per
      message, with the raw body, in arrival order, and no bot entries. */
  lemma {:induction false} HistoryIsOwnMessages(r: seq<Inbound>, u: string)
    ensures u in Histories(r) <==> Seen(r, u)
    ensures HistoryOf(Histories(r), u) == Sent(r, u)
    ensures forall e :: e in HistoryOf(Histories(r), u) ==> e.from == u && e.origin == User
  {
    SendersAreSeen(r);
    if r != [] {
      var p, m := r[..|r| - 1], r[|r| - 1];
      assert p + [m] == r;
      HistoryIsOwnMessages(p, u);
      SendersAreSeen(p);
      SentSnoc(p, m, u);
      HistoriesSnoc(p, m);
    }
  }

  /** History is append-only: later messages only extend it. */
  lemma {:induction false} HistoryGrows(r: seq<Inbound>, later: seq<Inbound>, u: string)
    ensures HistoryOf(Histories(r), u) <= HistoryOf(Histories(r + later), u)
    decreases |later|
  {
    if later == [] {
      assert r + later == r;
    } else {
      var init := later[..|later| - 1];
      HistoryGrows(r, init, u);
      assert (r + later)[..|r + later| - 1] == r + init;
    }
  }

  /** How many "newChat" events for `u` are in `events`. */
  function NewChatsFor(events: seq<Event>, u: string): nat
  {
    if events == [] then 0
    else (if events[0].NewChat? && events[0].chat.from == u then 1 else 0) + NewChatsFor(events[1..], u)
  }

  /** The user messages from `u` among `events`. */
  function UserMessagesFrom(events: seq<Event>, u: string): seq<Entry>
  {
    if events == [] then []
    else if events[0].Message? && events[0].entry.origin == User && events[0].entry.from == u
    then [events[0].entry] + UserMessagesFrom(events[1..], u)
    else UserMessagesFrom(events[1..], u)
  }

  lemma {:induction false} EventCountsSplit(a: seq<Event>, b: seq<Event>, u: string)
    ensures NewChatsFor(a + b, u) == NewChatsFor(a, u) + NewChatsFor(b, u)
    ensures UserMessagesFrom(a + b, u) == UserMessagesFrom(a, u) + UserMessagesFrom(b, u)
  {
    if a == [] {
      assert a + b == b;
    } else {
      assert (a + b)[1..] == a[1..] + b;
      EventCountsSplit(a[1..], b, u);
    }
  }

  /** The bot message, if any, is neither a "newChat" nor a user message. */
  lemma BotEventsAreBot(relayed: Option<Reply>, u: string)
    ensures NewChatsFor(BotEvents(relayed), u) == 0
    ensures UserMessagesFrom(BotEvents(relayed), u) == []
  {
  }

  /** What one message contributes: at most one "newChat" (for a new
      sender) and exactly its own user message. */
  lemma EventsForCounts(p: seq<Inbound>, m: Inbound, u: string)
    ensures NewChatsFor(EventsFor(p, m), u) == if m.from == u && m.from !in Chats(p) then 1 else 0
    ensures UserMessagesFrom(EventsFor(p, m), u) == if m.from == u then [EntryOf(m)] else []
  {
    var text := ToLower(m.body);
    var bot := BotEvents(RelayedReply(Transition(StateOf(States(p), m.from), text).next, text));
    var head := if m.from in Chats(p) then [] else [NewChat(ChatOf(m))];
    assert EventsFor(p, m) == head + [Message(EntryOf(m))] + bot;
    BotEventsAreBot(RelayedReply(Transition(StateOf(States(p), m.from), text).next, text), u);
    EventCountsSplit(head + [Message(EntryOf(m))], bot, u);
    EventCountsSplit(head, [Message(EntryOf(m))], u);
  }

  /** "newChat" is emitted exactly once for each sender and never for
      anyone else. */
  lemma {:induction false} NewChatOncePerSender(r: seq<Inbound>, u: string)
    ensures NewChatsFor(Events(r), u) == if Seen(r, u) then 1 else 0
  {
    SendersAreSeen(r);
    if r != [] {
      var p, m := r[..|r| - 1], r[|r| - 1];
      NewChatOncePerSender(p, u);
      SendersAreSeen(p);
      EventCountsSplit(Events(p), EventsFor(p, m), u);
      EventsForCounts(p, m, u);
    }
  }

  /** The user messages relayed to subscribers are exactly what history
      stores: a subscriber that asks for a chat's history gets the same
      entries it was sent live (bot messages are relayed but never stored). */
  lemma {:induction false} RelayedUserMessagesAreHistory(r: seq<Inbound>, u: string)
    ensures UserMessagesFrom(Events(r), u) == HistoryOf(Histories(r), u)
  {
    HistoryIsOwnMessages(r, u);
    RelayedUserMessagesAreSent(r, u);
  }

  lemma {:induction false} RelayedUserMessagesAreSent(r: seq<Inbound>, u: string)
    ensures UserMessagesFrom(Events(r), u) == Sent(r, u)
  {
    if r != [] {
      var p, m := r[..|r| - 1], r[|r| - 1];
      RelayedUserMessagesAreSent(p, u);
      SentSnoc(p, m, u);
      assert p + [m] == r;
      EventCountsSplit(Events(p), EventsFor(p, m), u);
      EventsForCounts(p, m, u);
    }
  }
  /** On the wire, a relayed bot message spells out which reply it is: two
      bot messages with the same payload relay the same reply. */
  lemma BotPayloadTellsReply(a: Reply, b: Reply)
    requires Payload(BotMessage(a)) == Payload(BotMessage(b))
    ensures a == b
  {
    TextTellsRepliesApart(a, b, RelayIndent);
  }

  /** Every emitted "message" event carries a payload whose `type` says who
      wrote it: "bot" exactly for the re-derived bot messages. */
  lemma {:induction false} PayloadTypeIsOrigin(r: seq<Inbound>)
    ensures forall e :: e in Events(r) ==>
      (Payload(e).Some? <==> !e.NewChat?)
      && (Payload(e).Some? ==> (Payload(e).value.origin == Bot <==> e.BotMessage?))
  {
    if r != [] {
      var p, m := r[..|r| - 1], r[|r| - 1];
      PayloadTypeIsOrigin(p);
      assert Events(r) == Events(p) + EventsFor(p, m);
    }
  }

  /** Every message relays exactly one user message, and one bot message
      whenever its sender's step is one the switch names, which is always. */
  lemma PerMessageEvents(r: seq<Inbound>, m: Inbound)
    ensures |EventsFor(r, m)| == (if m.from in Chats(r) then 2 else 3)
  {
  }
}
