/**
  The guided conversation of the inbound-message handler: a switch over the
  step stored for a user, applied to the message body after `toLowerCase()`.
  Everything here is pure; the handler in module Server stores the results.
 */
module Dialogue {
  import opened Wrappers

  /** The value of `userState.step`. The handler only ever writes the four
      named steps; `Other` stands for any other string and reaches the
      switch's `default` branch. */
  datatype Step = Start | AskName | AskService | SupportDescription | Other(tag: string)
  {
    predicate Named() { !Other? }
  }

  /** The per-user state object: a step and, once given, a name. */
  datatype Session = Session(step: Step, name: Option<string>)

  /** `userStates.get(userId) || { step: "start" }` for an unknown user. */
  const Fresh: Session := Session(Start, None)

  /** The fixed texts the handler sends, told apart by which one they are;
      `Text` spells each out. The menu carries the name it greets. */
  datatype Reply =
    | AskNameText | MenuText(name: string) | SupportText | InfoText
    | AgentText | InvalidText | ThanksText | RecoveryText

  /** The state after the switch and the reply passed to `msg.reply`. */
  datatype Turn = Turn(next: Session, reply: Reply)

  // ---------------------------------------------------------------------
  // Reply texts, character for character. The source file has CRLF line
  // ends; a template literal turns them into a single "\n".
  // ---------------------------------------------------------------------

  const AskNameReply: string := "Olá! Qual é o seu nome?"
  const SupportReply: string := "Você escolheu *Suporte técnico*. Por favor, descreva o problema."
  const InfoReply: string := "Você escolheu *Informações sobre serviços*. Aqui estão nossas opções:\n- Serviço A\n- Serviço B\n- Serviço C"
  const AgentReply: string := "Você escolheu *Falar com um atendente*. Um atendente entrará em contato em breve."
  const InvalidReply: string := "Opção inválida. Por favor, escolha 1, 2 ou 3."
  const ThanksReply: string := "Obrigado por descrever o problema. Nossa equipe entrará em contato em breve."
  const RecoveryReply: string := "Algo deu errado. Vamos começar de novo."

  /** Indentation of the option lines in the menu sent with `msg.reply`. */
  const ReplyIndent: string := "            "
  /** Indentation of the option lines in the menu relayed to subscribers. */
  const RelayIndent: string := "        "

  const Option1: string := "1\U{FE0F}\U{20E3} - Suporte técnico"
  const Option2: string := "2\U{FE0F}\U{20E3} - Informações sobre serviços"
  const Option3: string := "3\U{FE0F}\U{20E3} - Falar com um atendente"

  /** The service menu greeting `name`: an introduction, then the three
      option lines (each led by a keycap emoji: digit, U+FE0F, U+20E3),
      each indented by `indent`. */
  function Menu(name: string, indent: string): string
  {
    "Prazer, " + name + MenuBody(indent)
  }

  /** The menu after the name, grouped from the right (the text is the same
      whatever the grouping; the first words are split off only so that the
      indentation-independent prefix can be named). */
  function MenuBody(indent: string): string
  {
    "! Como posso " + ("ajudar você hoje? Escolha uma opção:\n" + indent
    + (Option1 + ("\n" + indent + (Option2 + ("\n" + indent + Option3)))))
  }

  /** The characters of a reply, with the menu's option lines indented by
      `indent`. */
  function Text(r: Reply, indent: string): string
  {
    match r
    case AskNameText => AskNameReply
    case MenuText(name) => Menu(name, indent)
    case SupportText => SupportReply
    case InfoText => InfoReply
    case AgentText => AgentReply
    case InvalidText => InvalidReply
    case ThanksText => ThanksReply
    case RecoveryText => RecoveryReply
  }

  /** A menu starts with "Prazer, " and the name it greets, and is longer than
      every fixed reply, whatever the indentation. */
  lemma MenuGreetsName(name: string, indent: string)
    ensures Menu(name, indent)[..8] == "Prazer, "
    ensures Menu(name, indent)[8..8 + |name|] == name
    ensures |Menu(name, indent)| >= 141 + |name|
  {
    var m := Menu(name, indent);
    assert m == "Prazer, " + name + MenuBody(indent);
  }

  /** Each reply has a text of its own: two replies spelled the same way,
      with the same indentation, are the same reply (menus for the same
      name). So `Reply` loses nothing of what is sent or relayed. */
  lemma TextTellsRepliesApart(a: Reply, b: Reply, indent: string)
    requires Text(a, indent) == Text(b, indent)
    ensures a == b
  {
    if a.MenuText? {
      MenuGreetsName(a.name, indent);
      if b.MenuText? {
        MenuGreetsName(b.name, indent);
        assert |a.name| == |b.name|;
      }
    } else if b.MenuText? {
      MenuGreetsName(b.name, indent);
    }
  }

  /** `${name}` in a template literal: an unset name prints as "undefined". */
  function NameText(name: Option<string>): string
  {
    match name
    case Some(n) => n
    case None => "undefined"
  }

  // ---------------------------------------------------------------------
  // String primitives used by the handler
  // ---------------------------------------------------------------------

  /** `toLowerCase()` on one character, for the ASCII and Latin-1 capitals. */
  function LowerChar(c: char): char
  {
    if 'A' <= c <= 'Z' || ('\U{C0}' <= c <= '\U{DE}' && c != '\U{D7}') then (c as int + 32) as char else c
  }

  /** `String.prototype.toLowerCase`, character by character. */
  function ToLower(s: string): (r: string)
    ensures |r| == |s|
    ensures forall i :: 0 <= i < |s| ==> r[i] == LowerChar(s[i])
  {
    if s == [] then [] else [LowerChar(s[0])] + ToLower(s[1..])
  }

  /** `String.prototype.includes`: `w` occurs somewhere in `s`. */
  predicate Contains(s: string, w: string)
  {
    w <= s || (s != [] && Contains(s[1..], w))
  }

  /** `w` is the slice of `s` that starts at position `i`. */
  predicate OccursAt(s: string, w: string, i: nat)
  {
    i + |w| <= |s| && s[i..i + |w|] == w
  }

  /** Where `Contains` finds `w`: a position at which it is a slice of `s`. */
  lemma {:induction false} ContainsWitness(s: string, w: string) returns (i: nat)
    requires Contains(s, w)
    ensures OccursAt(s, w, i)
  {
    if w <= s {
      i := 0;
    } else {
      var j := ContainsWitness(s[1..], w);
      assert s[1..][j..j + |w|] == s[j + 1..j + 1 + |w|];
      i := j + 1;
    }
  }

  /** A slice of `s` at any position is found by `Contains`. */
  lemma {:induction false} OccursContains(s: string, w: string, i: nat)
    requires OccursAt(s, w, i)
    ensures Contains(s, w)
    decreases i
  {
    if i > 0 {
      assert s[1..][i - 1..i - 1 + |w|] == s[i..i + |w|];
      OccursContains(s[1..], w, i - 1);
    }
  }

  /** `Contains` means what `includes` means: `w` is the slice of `s` at
      some position. */
  lemma ContainsIffOccurs(s: string, w: string)
    ensures Contains(s, w) <==> exists i: nat :: OccursAt(s, w, i)
  {
    if Contains(s, w) {
      var i := ContainsWitness(s, w);
    }
    forall i: nat | OccursAt(s, w, i)
      ensures Contains(s, w)
    {
      OccursContains(s, w, i);
    }
  }

  /** A string contains every infix of itself. */
  lemma {:induction false} ContainsInfix(a: string, w: string, b: string)
    ensures Contains(a + w + b, w)
  {
    if a == [] {
      assert a + w + b == w + b;
    } else {
      assert (a + w + b)[1..] == a[1..] + w + b;
      ContainsInfix(a[1..], w, b);
    }
  }

  /** An occurrence of `w` in `s` lies within the first |s| - |w| + 1 positions,
      so a word longer than the text never occurs in it. */
  lemma {:induction false} ContainsNeedsRoom(s: string, w: string)
    requires Contains(s, w)
    ensures |w| <= |s|
  {
    if !(w <= s) {
      ContainsNeedsRoom(s[1..], w);
    }
  }

  // ---------------------------------------------------------------------
  // The switch
  // ---------------------------------------------------------------------

  /** One pass through the switch for a user in state `s` who wrote `text`
      (already lower-cased). The step after the switch is always one of the
      four named steps, the name changes only at ask_name, and the reply
      is a menu exactly when the step was ask_name. */
  function Transition(s: Session, text: string): (t: Turn)
    ensures t.next.step.Named()
    ensures t.next.name == if s.step == AskName then Some(text) else s.name
    ensures t.reply.MenuText? <==> s.step == AskName
  {
    match s.step
    case Start => Turn(s.(step := AskName), AskNameText)
    case AskName => Turn(Session(AskService, Some(text)), MenuText(text))
    case AskService =>
      if text == "1" || Contains(text, "suporte") then Turn(s.(step := SupportDescription), SupportText)
      else if text == "2" || Contains(text, "informações") then Turn(s.(step := Start), InfoText)
      else if text == "3" || Contains(text, "atendente") then Turn(s.(step := Start), AgentText)
      else Turn(s, InvalidText)
    case SupportDescription => Turn(s.(step := Start), ThanksText)
    case Other(_) => Turn(s.(step := Start), RecoveryText)
  }

  /** The states whose successor does not depend on the text: start asks for
      the name; support_description and any unknown step go back to start. */
  lemma TextIndependentSteps(s: Session, text: string)
    ensures s.step == Start ==> Transition(s, text) == Turn(Session(AskName, s.name), AskNameText)
    ensures s.step == SupportDescription ==> Transition(s, text) == Turn(Session(Start, s.name), ThanksText)
    ensures s.step.Other? ==> Transition(s, text) == Turn(Session(Start, s.name), RecoveryText)
  {
  }

  /** A text that contains `w` still does after something is put before it. */
  lemma {:induction false} ContainsAfter(a: string, b: string, w: string)
    requires Contains(b, w)
    ensures Contains(a + b, w)
  {
    if a != [] {
      assert (a + b)[1..] == a[1..] + b;
      ContainsAfter(a[1..], b, w);
    } else {
      assert a + b == b;
    }
  }

  /** At ask_name the text becomes the name, the step becomes ask_service,
      and the reply greets by that name and offers options 1, 2 and 3. */
  lemma AskNameCapturesName(s: Session, text: string)
    requires s.step == AskName
    ensures Transition(s, text).next == Session(AskService, Some(text))
    ensures Contains(Text(Transition(s, text).reply, ReplyIndent), text)
    ensures Contains(Text(Transition(s, text).reply, ReplyIndent), Option1)
    ensures Contains(Text(Transition(s, text).reply, ReplyIndent), Option2)
    ensures Contains(Text(Transition(s, text).reply, ReplyIndent), Option3)
  {
    var i := ReplyIndent;
    var lead := "! Como posso " + ("ajudar você hoje? Escolha uma opção:\n" + i);
    var r3 := Option3;
    var r2 := Option2 + ("\n" + i + r3);
    var r1 := Option1 + ("\n" + i + r2);
    assert MenuBody(i) == lead + r1;
    ContainsInfix("Prazer, ", text, MenuBody(i));
    assert Contains(r3, Option3);
    ContainsAfter("\n" + i, r3, Option3);
    assert Contains(r2, Option2);
    ContainsAfter(Option2, "\n" + i + r3, Option3);
    ContainsAfter("\n" + i, r2, Option2);
    ContainsAfter("\n" + i, r2, Option3);
    assert Contains(r1, Option1);
    ContainsAfter(Option1, "\n" + i + r2, Option2);
    ContainsAfter(Option1, "\n" + i + r2, Option3);
    ContainsAfter(lead, r1, Option1);
    ContainsAfter(lead, r1, Option2);
    ContainsAfter(lead, r1, Option3);
    ContainsAfter("Prazer, " + text, MenuBody(i), Option1);
    ContainsAfter("Prazer, " + text, MenuBody(i), Option2);
    ContainsAfter("Prazer, " + text, MenuBody(i), Option3);
  }

  /** Which service ask_service picks: the first matching test wins, and
      only an input that matches none of them leaves the step unchanged,
      which is exactly when the invalid-option notice is sent. Support moves
      on to support_description with the support text; information and an
      agent go back to start; the name is kept in every case. */
  lemma ServiceChoice(s: Session, text: string)
    requires s.step == AskService
    ensures var t := Transition(s, text);
      && (t.next.step == SupportDescription <==> text == "1" || Contains(text, "suporte"))
      && (t.reply == InfoText <==>
            !(text == "1" || Contains(text, "suporte")) && (text == "2" || Contains(text, "informações")))
      && (t.reply == AgentText <==>
            !(text == "1" || Contains(text, "suporte")) && !(text == "2" || Contains(text, "informações"))
            && (text == "3" || Contains(text, "atendente")))
      && (t.next == s <==> t.reply == InvalidText)
      && (t.reply == InvalidText <==>
            !(text == "1" || Contains(text, "suporte")) && !(text == "2" || Contains(text, "informações"))
            && !(text == "3" || Contains(text, "atendente")))
      && (t.next.step == SupportDescription ==> t == Turn(s.(step := SupportDescription), SupportText))
      && (t.reply == InfoText || t.reply == AgentText ==> t.next == s.(step := Start))
  {
  }

  /** The digits themselves select options 1, 2 and 3 at ask_service. */
  lemma NumericChoices(s: Session)
    requires s.step == AskService
    ensures Transition(s, "1") == Turn(s.(step := SupportDescription), SupportText)
    ensures Transition(s, "2") == Turn(s.(step := Start), InfoText)
    ensures Transition(s, "3") == Turn(s.(step := Start), AgentText)
  {
    ContainsNeedsRoomOrNot("1", "suporte");
    ContainsNeedsRoomOrNot("2", "suporte");
    ContainsNeedsRoomOrNot("2", "informações");
    ContainsNeedsRoomOrNot("3", "suporte");
    ContainsNeedsRoomOrNot("3", "informações");
  }

  /** A text shorter than `w` does not contain it. */
  lemma ContainsNeedsRoomOrNot(s: string, w: string)
    requires |s| < |w|
    ensures !Contains(s, w)
  {
    if Contains(s, w) {
      ContainsNeedsRoom(s, w);
    }
  }

  // ---------------------------------------------------------------------
  // The bot message relayed to subscribers
  // ---------------------------------------------------------------------

  /** The bot message relayed to subscribers after a message, re-derived from
      the step after the switch, the lower-cased text and the stored name
      rather than taken from the reply. A session at start always relays
      one message; only an unknown step relays none. */
  function RelayedReply(after: Session, text: string): (r: Option<Reply>)
    ensures r.None? <==> after.step.Other?
    ensures after.step == Start ==> r.Some?
  {
    match after.step
    case AskName => Some(AskNameText)
    case AskService => Some(MenuText(NameText(after.name)))
    case SupportDescription => Some(SupportText)
    case Start =>
      if text == "2" then Some(InfoText)
      else if text == "3" then Some(AgentText)
      else if text == "1" then Some(SupportText)
      else Some(InvalidText)
    case Other(_) => None
  }

  /** The characters of the relayed bot message, if any. */
  function RelayedText(after: Session, text: string): Option<string>
  {
    match RelayedReply(after, text)
    case Some(r) => Some(Text(r, RelayIndent))
    case None => None
  }

  /** The menu relayed to subscribers never equals a menu sent to a user,
      whatever the two names: equal lengths would need the relayed name to be
      12 characters longer, and then the relayed menu has its '!' where the
      sent one has the space after "Como posso". */
  lemma MenusDiffer(a: string, b: string)
    ensures Menu(a, ReplyIndent) != Menu(b, RelayIndent)
  {
    var sent, relayed := Menu(a, ReplyIndent), Menu(b, RelayIndent);
    if |b| == |a| + 12 {
      assert relayed[8 + |b|] == MenuBody(RelayIndent)[0] == '!';
      assert sent[8 + |b|] == MenuBody(ReplyIndent)[12] == ' ';
    } else {
      assert |MenuBody(ReplyIndent)| == |MenuBody(RelayIndent)| + 12;
      assert |sent| != |relayed|;
    }
  }

  /** The relayed bot message equals the reply actually sent exactly when
      the user was at start, or was at ask_service and chose support, or
      typed the bare digit 2 or 3. Every other turn relays a different text:
      the menu after ask_name (other indentation), the menu again after an
      invalid option, "Opção inválida" after a keyword choice of 2 or 3, and
      after support_description the support, information or agent text for
      "1", "2" or "3" and "Opção inválida" for any other text. */
  lemma RelayMatchesReplyIff(s: Session, text: string)
    ensures var t := Transition(s, text);
      RelayedText(t.next, text) == Some(Text(t.reply, ReplyIndent))
      <==> s.step == Start
           || (s.step == AskService && (text == "1" || text == "2" || text == "3" || Contains(text, "suporte")))
  {
    var t := Transition(s, text);
    match s.step
    case Start =>
    case AskName =>
      MenusDiffer(text, text);
    case AskService =>
      if text == "1" || Contains(text, "suporte") {
      } else if text == "2" || Contains(text, "informações") {
        if text != "2" {
          ContainsNeedsRoomOrNot("3", "informações");
        }
      } else if text == "3" || Contains(text, "atendente") {
      } else {
        assert |Menu(NameText(s.name), RelayIndent)| > |InvalidReply|;
      }
    case SupportDescription =>
    case Other(_) =>
  }

  // ---------------------------------------------------------------------
  // A user's whole conversation
  // ---------------------------------------------------------------------

  /** The state of a user after the switch has seen `texts`, in order,
      starting from the default state of a user never seen before. */
  function Replay(texts: seq<string>): (s: Session)
    ensures s.step.Named()
  {
    if texts == [] then Fresh else Transition(Replay(texts[..|texts| - 1]), texts[|texts| - 1]).next
  }

  /** A stored name is always one of the texts the user sent. */
  lemma {:induction false} ReplayNameWasSent(texts: seq<string>)
    ensures Replay(texts).name.Some? ==> Replay(texts).name.value in texts
  {
    if texts != [] {
      var init := texts[..|texts| - 1];
      ReplayNameWasSent(init);
      if Replay(init).name.Some? {
        assert Replay(init).name.value in texts;
      }
    }
  }

  /** A user who reaches ask_service has given a name, so the menu relayed
      there greets a name the user sent and never prints "undefined". */
  lemma {:induction false} AskServiceHasName(texts: seq<string>, text: string)
    requires Replay(texts).step == AskService
    ensures Replay(texts).name.Some? && Replay(texts).name.value in texts
    ensures RelayedText(Replay(texts), text) == Some(Menu(Replay(texts).name.value, RelayIndent))
  {
    ReplayNameWasSent(texts);
    if texts != [] {
      var init := texts[..|texts| - 1];
      if Replay(init).step == AskService {
        AskServiceHasName(init, text);
      }
    }
  }

  /** The walk through the conversation a first-time user makes: greeting,
      name (stored lower-cased), an invalid option, then support. */
  lemma SampleConversation()
    ensures Replay(["oi"]) == Session(AskName, None)
    ensures Replay(["oi", "maria"]) == Session(AskService, Some("maria"))
    ensures Replay(["oi", "maria", "9"]) == Session(AskService, Some("maria"))
    ensures Replay(["oi", "maria", "9", "1"]) == Session(SupportDescription, Some("maria"))
    ensures Transition(Replay(["oi", "maria"]), "9").reply == InvalidText
  {
    assert ["oi", "maria", "9", "1"][..3] == ["oi", "maria", "9"];
    assert ["oi", "maria", "9"][..2] == ["oi", "maria"];
    assert ["oi", "maria"][..1] == ["oi"];
    assert ["oi"][..0] == [];
    ContainsNeedsRoomOrNot("9", "suporte");
    ContainsNeedsRoomOrNot("9", "informações");
    ContainsNeedsRoomOrNot("9", "atendente");
  }
}
