/** `processSpeech` and its helpers: the wake-word latch, the emotion update,
    the dispatch chain and `cmd`. Speech, log and button effects are returned
    as events instead of performed. */
module Engine {
  import opened Wrappers
  import opened Text
  import opened Emotion
  import opened Intent
  import opened Memory

  /** The wake word looked for while dormant. */
  const WakeWord: string := "echo"

  /** What one step asks the page to say or show. `Ack` is
      `speak("Yes Joshua")`, `Welcome` is `speak("Welcome back")`, both at the
      default rate; `Reply` is `respond(msg, emo)`; `Navigate` is `cmd(page)`,
      which speaks `msg` and highlights the page's button. */
  datatype Event = Ack | Welcome | Reply(msg: string, rate: nat) | Navigate(page: string, msg: string, rate: nat)

  /** The module flag `awakened` together with `mem`. */
  datatype Session = Session(awakened: bool, mem: Memory)

  /** The state after one utterance and what it emitted, if anything. */
  datatype Outcome = Outcome(next: Session, event: Option<Event>)

  /** `respond(msg, emo)`. */
  function Respond(msg: string, emo: Emotion): Event
  {
    Reply(msg, Rate(emo))
  }

  /** One call of `processSpeech(text)`, on values. */
  function Turn(s: Session, text: string): Outcome
  {
    var t := Lower(text);
    if !s.awakened then
      if Contains(t, WakeWord) then Outcome(s.(awakened := true), Some(Ack))
      else Outcome(s, None)
    else
      var m := s.mem.(lastEmotion := DetectEmotion(t));
      match Classify(t)
      case Open(p) =>
        Outcome(Session(false, AfterCommand(m, p)), Some(Navigate(p, "Opening " + p, Rate(m.lastEmotion))))
      case Greet => Outcome(Session(false, m), Some(Respond("Hello Joshua", m.lastEmotion)))
      case Chat => Outcome(Session(false, m), Some(Respond("I heard you", m.lastEmotion)))
  }

  /** The page script's state: the `awakened` flag and the fields of `mem`. */
  class EchoEngine {
    var awakened: bool
    var visits: nat
    var lastEmotion: Emotion
    var favorite: string
    var commands: map<string, nat>

    /** `mem` as `saveMem` writes it. */
    function Mem(): Memory
      reads this
    {
      Memory(visits, lastEmotion, favorite, commands)
    }

    function State(): Session
      reads this
    {
      Session(awakened, Mem())
    }

    /** Page load: read `mem` (or its defaults), count the visit; the latch
        starts dormant. */
    constructor (stored: Option<Memory>)
      ensures State() == Session(false, Bootstrap(stored))
    {
      var loaded := Load(stored);
      awakened := false;
      visits := loaded.visits;
      lastEmotion := loaded.lastEmotion;
      favorite := loaded.favorite;
      commands := loaded.commands;
      new;
      visits := visits + 1;
    }

    /** The greeting `onstart` speaks: present exactly on a repeat visit. */
    function WelcomeBack(): (ev: Option<Event>)
      reads this
      ensures ev.Some? <==> WelcomesBack(Mem())
      ensures ev.Some? ==> ev.value == Welcome
    {
      if visits > 1 then Some(Welcome) else None
    }

    /** The state-changing line of `applyEmotion`. */
    method ApplyEmotion(e: Emotion)
      modifies this`lastEmotion
      ensures lastEmotion == e
    {
      lastEmotion := e;
    }

    /** `cmd(page)`: count the command, remember the page, announce it at the
        rate of the last emotion. */
    method Cmd(page: string) returns (ev: Event)
      modifies this`commands, this`favorite
      ensures Mem() == AfterCommand(old(Mem()), page)
      ensures ev == Navigate(page, "Opening " + page, Rate(lastEmotion))
    {
      var n := if page in commands then commands[page] else 0;
      commands := commands[page := n + 1];
      favorite := page;
      ev := Navigate(page, "Opening " + page, Rate(lastEmotion));
    }

    /** `processSpeech(text)`. */
    method ProcessSpeech(text: string) returns (ev: Option<Event>)
      modifies this
      ensures State() == Turn(old(State()), text).next
      ensures ev == Turn(old(State()), text).event
    {
      var t := Lower(text);
      if !awakened {
        if Contains(t, WakeWord) {
          awakened := true;
          ev := Some(Ack);
        } else {
          ev := None;
        }
        return;
      }
      awakened := false;

      var emo := DetectEmotion(t);
      ApplyEmotion(emo);

      ClassifyChain(t);
      var e: Event;
      if Contains(t, "home") {
        e := Cmd("home");
      } else if Contains(t, "dashboard") {
        e := Cmd("dashboard");
      } else if Contains(t, "messages") {
        e := Cmd("messages");
      } else if Contains(t, "friends") {
        e := Cmd("friends");
      } else if Contains(t, "profile") {
        e := Cmd("profile");
      } else if Contains(t, "hello") {
        e := Respond("Hello Joshua", emo);
      } else {
        e := Respond("I heard you", emo);
      }
      ev := Some(e);
    }
  }
}
