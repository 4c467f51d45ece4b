/** What `processSpeech` promises across one or several utterances. */
module Laws {
  import opened Wrappers
  import opened Text
  import opened Emotion
  import opened Intent
  import opened Memory
  import opened Engine

  /** Feed utterances to `processSpeech` one after another. */
  function Run(s: Session, texts: seq<string>): Session
    decreases |texts|
  {
    if texts == [] then s else Run(Turn(s, texts[0]).next, texts[1..])
  }

  /** `n` rounds of "wake word, then command". */
  function Rounds(wake: string, command: string, n: nat): seq<string>
  {
    if n == 0 then [] else [wake, command] + Rounds(wake, command, n - 1)
  }

  /** Dormant and no wake word: the utterance is dropped, nothing changes. */
  lemma DormantDrops(s: Session, text: string)
    requires !s.awakened && !Contains(Lower(text), WakeWord)
    ensures Turn(s, text) == Outcome(s, None)
  {
  }

  /** Dormant and the wake word present: `awakened` is set, only the
      acknowledgement is emitted and the memory is untouched. */
  lemma DormantWakes(s: Session, text: string)
    requires !s.awakened && Contains(Lower(text), WakeWord)
    ensures Turn(s, text) == Outcome(Session(true, s.mem), Some(Ack))
  {
  }

  /** Awake: whatever the utterance says, even the wake word again, `awakened`
      is cleared and the utterance is dispatched to exactly one reply or
      navigation. The emotion of the utterance is recorded and sets the rate;
      a navigation counts the page and makes it the favourite; a reply leaves
      the counters alone; the visit count never moves. */
  lemma AwakeDispatches(s: Session, text: string)
    requires s.awakened
    ensures var o, emo := Turn(s, text), DetectEmotion(text);
      && !o.next.awakened
      && o.event.Some?
      && o.next.mem.visits == s.mem.visits
      && o.next.mem.lastEmotion == emo
      && (o.event.value.Navigate? || o.event.value.Reply?)
      && (o.event.value.Navigate? ==>
            && Classify(Lower(text)) == Open(o.event.value.page)
            && o.event.value.msg == "Opening " + o.event.value.page
            && o.event.value.rate == Rate(emo)
            && o.next.mem == AfterCommand(s.mem.(lastEmotion := emo), o.event.value.page))
      && (o.event.value.Reply? ==>
            && !Classify(Lower(text)).Open?
            && o.event.value.rate == Rate(emo)
            && o.event.value.msg == (if Classify(Lower(text)) == Greet then "Hello Joshua" else "I heard you")
            && o.next.mem == s.mem.(lastEmotion := emo))
  {
    DetectEmotionOfLower(text);
  }

  /** One wake grants one command: after the wake word and one dispatched
      command, the same command (without the wake word) is dropped. */
  lemma OneShot(s: Session, wake: string, command: string)
    requires !s.awakened
    requires Contains(Lower(wake), WakeWord) && !Contains(Lower(command), WakeWord)
    ensures var s1 := Turn(s, wake).next;
      var o2 := Turn(s1, command);
      && o2.event.Some?
      && !o2.next.awakened
      && Turn(o2.next, command) == Outcome(o2.next, None)
  {
    var s1 := Turn(s, wake).next;
    AwakeDispatches(s1, command);
  }

  /** The module flag and the counters only move as described: no counter
      ever goes down, the visit count stays put. */
  lemma TurnMonotone(s: Session, text: string)
    ensures forall q :: Count(Turn(s, text).next.mem.commands, q) >= Count(s.mem.commands, q)
    ensures Turn(s, text).next.mem.visits == s.mem.visits
  {
    if s.awakened {
      AwakeDispatches(s, text);
    }
  }

  /** Once the favourite page has been counted it stays counted: each step
      either leaves `favorite` and the counters alone or sets `favorite` to
      the page it just counted. */
  lemma FavoriteStaysCounted(s: Session, text: string)
    requires Count(s.mem.commands, s.mem.favorite) >= 1
    ensures var m := Turn(s, text).next.mem; Count(m.commands, m.favorite) >= 1
  {
    TurnMonotone(s, text);
  }

  /** `n` rounds of waking and opening page `p` leave the latch dormant, raise
      `commands[p]` by exactly `n`, make `p` the favourite and keep the
      visit count. */
  lemma {:induction false} RoundsCountNavigations(s: Session, wake: string, command: string, p: string, n: nat)
    requires !s.awakened
    requires Contains(Lower(wake), WakeWord)
    requires Classify(Lower(command)) == Open(p)
    ensures var r := Run(s, Rounds(wake, command, n));
      && !r.awakened
      && Count(r.mem.commands, p) == Count(s.mem.commands, p) + n
      && (n > 0 ==> r.mem.favorite == p)
      && r.mem.visits == s.mem.visits
    decreases n
  {
    if n > 0 {
      var s1 := Turn(s, wake).next;
      var s2 := Turn(s1, command).next;
      AwakeDispatches(s1, command);
      var rest := Rounds(wake, command, n - 1);
      assert Rounds(wake, command, n)[1..] == [command] + rest;
      assert ([command] + rest)[1..] == rest;
      assert Run(s, Rounds(wake, command, n)) == Run(s2, rest);
      RoundsCountNavigations(s2, wake, command, p, n - 1);
      if n > 1 {
        assert rest != [];
      } else {
        assert rest == [];
      }
    }
  }

  /** No utterance changes the visit count, however many are heard. */
  lemma {:induction false} RunKeepsVisits(s: Session, texts: seq<string>)
    ensures Run(s, texts).mem.visits == s.mem.visits
    decreases |texts|
  {
    if texts != [] {
      TurnMonotone(s, texts[0]);
      RunKeepsVisits(Turn(s, texts[0]).next, texts[1..]);
    }
  }

  /** One page load: boot from what is stored (the latch starts dormant),
      then hear `texts`; the result is what `saveMem` leaves behind. */
  function Visit(stored: Option<Memory>, texts: seq<string>): Memory
  {
    Run(Session(false, Bootstrap(stored)), texts).mem
  }

  /** A browser history that started with empty storage: `loads[k]` is
      what was said during the `k`-th page load. */
  function History(loads: seq<seq<string>>): Memory
    requires |loads| >= 1
  {
    if |loads| == 1 then Visit(None, loads[0])
    else Visit(Some(History(loads[..|loads| - 1])), loads[|loads| - 1])
  }

  /** Whatever is said between page loads, `visits` counts the page loads,
      and every load after the first is greeted with "Welcome back". */
  lemma {:induction false} HistoryCountsVisits(loads: seq<seq<string>>)
    requires |loads| >= 1
    ensures History(loads).visits == |loads|
    ensures WelcomesBack(Bootstrap(Some(History(loads))))
    ensures !WelcomesBack(Bootstrap(None))
  {
    var last := loads[|loads| - 1];
    if |loads| == 1 {
      RunKeepsVisits(Session(false, Bootstrap(None)), last);
    } else {
      var earlier := loads[..|loads| - 1];
      HistoryCountsVisits(earlier);
      RunKeepsVisits(Session(false, Bootstrap(Some(History(earlier)))), last);
    }
  }
}
