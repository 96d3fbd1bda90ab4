/**
  The server process: the module-level maps and the readiness flag, and
  the handlers that update or read them. The transport's asynchronous
  calls are replaced by their results (the resolved contact, the lookup
  answer) and their effects by returned values (the reply text) and the
  recorded `io.emit` events.
 */
module Server {
  import opened Wrappers
  import opened Dialogue
  import opened Ledger
  import Dispatch

  class Relay {
    /** Set by the transport's "ready" event, cleared by "disconnected". */
    var isClientReady: bool
    /** `userStates`: the conversation state of each user. */
    var userStates: map<string, Session>
    /** `chats`, with `chatOrder` holding the order in which its keys were inserted. */
    var chats: map<string, Chat>
    var chatOrder: seq<string>
    /** `messageHistory`: the stored messages of each chat. */
    var messageHistory: map<string, seq<Entry>>
    /** Every `io.emit` so far, in order. */
    var emitted: seq<Event>
    /** The inbound messages handled so far. */
    ghost var received: seq<Inbound>

    /** The maps and the event log are exactly what the messages received
        so far produce. */
    ghost predicate Valid()
      reads this
    {
      && userStates == States(received)
      && chats == Chats(received)
      && chatOrder == Senders(received)
      && messageHistory == Histories(received)
      && emitted == Events(received)
    }

    /** A freshly started server: nothing received, transport not ready. */
    constructor ()
      ensures Valid() && received == [] && !isClientReady
      ensures userStates == map[] && chats == map[] && chatOrder == [] && messageHistory == map[] && emitted == []
    {
      isClientReady := false;
      userStates, chats, chatOrder := map[], map[], [];
      messageHistory, emitted := map[], [];
      received := [];
    }

    /** The transport's "ready" event. */
    method OnReady()
      requires Valid()
      modifies this
      ensures Valid() && isClientReady
      ensures received == old(received) && emitted == old(emitted)
    {
      isClientReady := true;
    }

    /** The transport's "disconnected" event; the reason is only logged. */
    method OnDisconnected(reason: string)
      requires Valid()
      modifies this
      ensures Valid() && !isClientReady
      ensures received == old(received) && emitted == old(emitted)
    {
      isClientReady := false;
    }

    /** The "message" handler for the inbound message `m` (sender, raw
        body and the contact it resolved to); returns the reply passed to
        `msg.reply`, whose characters are `Text(reply, ReplyIndent)`. The sender's state goes through the switch on the
        lower-cased body; the chat is registered if new ("newChat"); the raw
        body is appended to its history and relayed; then the bot message
        re-derived from the new step is relayed. Nothing of any other user
        changes. */
    method HandleMessage(m: Inbound) returns (reply: Reply)
      requires Valid()
      modifies this
      ensures Valid()
      ensures received == old(received) + [m]
      ensures isClientReady == old(isClientReady)
      ensures reply == Transition(old(StateOf(userStates, m.from)), ToLower(m.body)).reply
    {
      ghost var r := received;
      var text := ToLower(m.body);
      reply := AdvanceSession(r, m, text);
      RegisterChat(r, m);
      AppendUserMessage(r, m);
      RelayBotMessage(r, m, text);
      received := r + [m];
    }

    /** The switch on the sender's current state (a fresh one for an unknown
        sender): stores the new state and returns the reply. */
    method AdvanceSession(ghost r: seq<Inbound>, m: Inbound, text: string) returns (reply: Reply)
      requires text == ToLower(m.body)
      requires userStates == States(r)
      modifies this`userStates
      ensures reply == Transition(old(StateOf(userStates, m.from)), text).reply
      ensures userStates == States(r + [m]) && m.from in userStates
    {
      var turn := Transition(StateOf(userStates, m.from), text);
      userStates := userStates[m.from := turn.next];
      reply := turn.reply;
      StatesSnoc(r, m);
    }

    /** Adds the sender's chat record and emits "newChat", unless a chat with
        that id is already registered, in which case nothing changes. */
    method RegisterChat(ghost r: seq<Inbound>, m: Inbound)
      requires chats == Chats(r) && chatOrder == Senders(r)
      modifies this`chats, this`chatOrder, this`emitted
      ensures emitted == old(emitted) + NewChatEvents(old(chats), m)
      ensures chats == Chats(r + [m]) && chatOrder == Senders(r + [m])
    {
      ChatsSnoc(r, m);
      SendersAreSeen(r);
      if m.from !in chats {
        var chat := Chat(m.from, DisplayName(m.contact), m.contact.profilePicUrl);
        chats := chats[m.from := chat];
        chatOrder := chatOrder + [m.from];
        emitted := emitted + [NewChat(chat)];
      }
    }

    /** Appends the raw body to the sender's history, creating the history
        on first use, and relays it as a user message. */
    method AppendUserMessage(ghost r: seq<Inbound>, m: Inbound)
      requires messageHistory == Histories(r)
      modifies this`messageHistory, this`emitted
      ensures emitted == old(emitted) + [Message(EntryOf(m))]
      ensures messageHistory == Histories(r + [m])
    {
      HistoriesSnoc(r, m);
      if m.from !in messageHistory {
        messageHistory := messageHistory[m.from := []];
      }
      var entry := Entry(m.from, m.body, User);
      messageHistory := messageHistory[m.from := messageHistory[m.from] + [entry]];
      emitted := emitted + [Message(entry)];
    }

    /** Relays the re-derived bot message, if there is one; this completes
        the events of `m`. */
    method RelayBotMessage(ghost r: seq<Inbound>, m: Inbound, text: string)
      requires text == ToLower(m.body)
      requires userStates == States(r + [m]) && m.from in userStates
      requires emitted == Events(r) + NewChatEvents(Chats(r), m) + [Message(EntryOf(m))]
      modifies this`emitted
      ensures emitted == old(emitted) + BotEvents(RelayedReply(userStates[m.from], text))
      ensures emitted == Events(r + [m])
    {
      var relayed := RelayedReply(userStates[m.from], text);
      match relayed {
        case Some(b) =>
          emitted := emitted + [BotMessage(b)];
        case None =>
      }
      EventsSnoc(r, m);
    }

    /** A subscriber connects: it is sent the list of chats, one record per
        sender, in first-sighting order. */
    method Connect() returns (snapshot: seq<Chat>)
      requires Valid()
      ensures snapshot == ChatList(received)
      ensures |snapshot| == |chatOrder|
      ensures forall i :: 0 <= i < |snapshot| ==> snapshot[i].from == Senders(received)[i]
    {
      ChatListInOrder(received);
      ChatsKeyedBySender(received);
      var order, records := chatOrder, chats;
      assert forall i :: 0 <= i < |order| ==> order[i] in records;
      snapshot := seq(|order|, i requires 0 <= i < |order| => records[order[i]]);
    }

    /** A subscriber's "getMessages": the stored history of that chat, which
        is one user entry per message the sender sent, or empty for an
        unknown chat. */
    method GetMessages(from: string) returns (messages: seq<Entry>)
      requires Valid()
      ensures messages == Sent(received, from)
      ensures !Seen(received, from) ==> messages == []
      ensures forall e :: e in messages ==> e.from == from && e.origin == User
    {
      HistoryIsOwnMessages(received, from);
      messages := if from in messageHistory then messageHistory[from] else [];
    }

    /** `/send-message`, answered against the current readiness flag. */
    method PostSendMessage(number: Dispatch.Field, message: Dispatch.Field, lookup: Dispatch.Lookup,
                           sendError: Option<string>) returns (o: Dispatch.Outcome)
      ensures o == Dispatch.SendMessage(number, message, isClientReady, lookup, sendError)
      ensures !isClientReady ==> o.lookedUp == None && o.delivered == None
    {
      o := Dispatch.SendMessage(number, message, isClientReady, lookup, sendError);
    }
  }
}
