/** Concrete utterances, in any letter case, and what the engine does with them. */
module Scenarios {
  import opened Wrappers
  import opened Text
  import opened Emotion
  import opened Intent
  import opened Memory
  import opened Engine

  /** "great" outranks "sad": the first category checked wins. */
  lemma GreatButSadIsHappy(text: string)
    requires Lower(text) == "so great but sad"
    ensures DetectEmotion(text) == Happy
  {
    var t := Lower(text);
    assert t[3..8] == "great";
    ContainsAt(t, "great", 3);
    HappyFirst(text, "great");
  }

  /** "tired" outranks "mad" when no Happy keyword is present. */
  lemma TiredAndMadIsSad(text: string)
    requires Lower(text) == "tired and mad"
    ensures DetectEmotion(text) == Sad
  {
    var t := Lower(text);
    assert t[0..5] == "tired";
    ContainsAt(t, "tired", 0);
    MissingCharNotContained(t, "happy", 0);
    MissingCharNotContained(t, "great", 0);
    MissingCharNotContained(t, "awesome", 1);
    MissingCharNotContained(t, "excited", 1);
    MissingCharNotContained(t, "good", 0);
    SadBeforeAngry(text, "tired");
  }

  /** "i feel great, show dashboard" is Happy because of "great". */
  lemma GreatDashboardIsHappy(text: string)
    requires Lower(text) == "i feel great, show dashboard"
    ensures DetectEmotion(Lower(text)) == Happy
  {
    var t := Lower(text);
    assert t[7..12] == "great";
    ContainsAt(t, "great", 7);
    HappyFirst(text, "great");
    DetectEmotionOfLower(text);
  }

  /** "i feel great, show dashboard" lacks "home" and so opens the dashboard. */
  lemma GreatDashboardOpensDashboard(text: string)
    requires Lower(text) == "i feel great, show dashboard"
    ensures Classify(Lower(text)) == Open("dashboard")
  {
    var t := Lower(text);
    MissingCharNotContained(t, "home", 2);
    assert t[19..28] == "dashboard";
    ContainsAt(t, "dashboard", 19);
    ClassifyChain(t);
  }

  /** A freshly booted session, awake, hears "I feel great, show dashboard":
      the emotion is Happy, the dashboard opens at the fast rate and is
      counted once and becomes the favourite. */
  lemma GreatDashboard(text: string)
    requires Lower(text) == "i feel great, show dashboard"
    ensures var o := Turn(Session(true, Bootstrap(None)), text);
      && o.event == Some(Navigate("dashboard", "Opening dashboard", 105))
      && o.next == Session(false, Memory(1, Happy, "dashboard", map["dashboard" := 1]))
  {
    GreatDashboardIsHappy(text);
    GreatDashboardOpensDashboard(text);
    assert "Opening " + "dashboard" == "Opening dashboard";
  }

  /** "hello there" mentions no page and does mention "hello". */
  lemma HelloThereGreets(text: string)
    requires Lower(text) == "hello there"
    ensures Classify(Lower(text)) == Greet
  {
    var t := Lower(text);
    assert forall i :: 0 <= i < |t| ==> t[i] in {'h', 'e', 'l', 'o', ' ', 't', 'r'};
    assert t[0..5] == "hello";
    ContainsAt(t, "hello", 0);
    MissingCharNotContained(t, "home", 2);
    MissingCharNotContained(t, "dashboard", 1);
    MissingCharNotContained(t, "messages", 0);
    MissingCharNotContained(t, "friends", 0);
    MissingCharNotContained(t, "profile", 0);
    ClassifyChain(t);
  }

  /** No Happy keyword occurs in "hello there". */
  lemma HelloThereNoHappy(t: string)
    requires t == "hello there"
    ensures forall w :: w in HappyWords ==> !Contains(t, w)
  {
    assert forall i :: 0 <= i < |t| ==> t[i] in {'h', 'e', 'l', 'o', ' ', 't', 'r'};
    MissingCharNotContained(t, "happy", 1);
    MissingCharNotContained(t, "great", 0);
    MissingCharNotContained(t, "awesome", 1);
    MissingCharNotContained(t, "excited", 2);
    MissingCharNotContained(t, "good", 0);
  }

  /** No Sad keyword occurs in "hello there". */
  lemma HelloThereNoSad(t: string)
    requires t == "hello there"
    ensures forall w :: w in SadWords ==> !Contains(t, w)
  {
    assert forall i :: 0 <= i < |t| ==> t[i] in {'h', 'e', 'l', 'o', ' ', 't', 'r'};
    MissingCharNotContained(t, "sad", 0);
    MissingCharNotContained(t, "tired", 1);
    MissingCharNotContained(t, "down", 0);
    MissingCharNotContained(t, "lonely", 2);
    MissingCharNotContained(t, "upset", 0);
  }

  /** No Angry keyword occurs in "hello there". */
  lemma HelloThereNoAngry(t: string)
    requires t == "hello there"
    ensures forall w :: w in AngryWords ==> !Contains(t, w)
  {
    assert forall i :: 0 <= i < |t| ==> t[i] in {'h', 'e', 'l', 'o', ' ', 't', 'r'};
    MissingCharNotContained(t, "angry", 0);
    MissingCharNotContained(t, "mad", 0);
    MissingCharNotContained(t, "hate", 1);
    MissingCharNotContained(t, "stressed", 0);
    MissingCharNotContained(t, "annoyed", 0);
  }

  /** "hello there" mentions none of the fifteen emotion keywords. */
  lemma HelloThereIsNeutral(text: string)
    requires Lower(text) == "hello there"
    ensures DetectEmotion(Lower(text)) == Neutral
  {
    var t := Lower(text);
    HelloThereNoHappy(t);
    HelloThereNoSad(t);
    HelloThereNoAngry(t);
    var all := HappyWords + SadWords + AngryWords;
    assert forall k :: 0 <= k < |all| ==> all[k] in HappyWords || all[k] in SadWords || all[k] in AngryWords;
    DetectEmotionSpec(text);
    DetectEmotionOfLower(text);
  }

  /** Wake word and greeting in any case: "Echo" wakes the engine, then
      "hello there" gets "Hello Joshua" at the neutral rate and counts nothing. */
  lemma WakeThenHello(wake: string, text: string)
    requires Lower(wake) == "echo" && Lower(text) == "hello there"
    ensures var s0 := Session(false, Bootstrap(None));
      var o1 := Turn(s0, wake);
      var o2 := Turn(o1.next, text);
      && o1.event == Some(Ack)
      && o2.event == Some(Reply("Hello Joshua", NeutralRate))
      && o2.next == s0
  {
    ContainsAt(Lower(wake), "echo", 0);
    HelloThereGreets(text);
    HelloThereIsNeutral(text);
  }
}
