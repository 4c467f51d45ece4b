/** The emotion classifier `detectEmotion` and the speech rate that `respond`
    derives from an emotion. */
module Emotion {
  import opened Text

  datatype Emotion = Happy | Sad | Angry | Neutral

  /** The alternatives of the three regular expressions, in their written order. */
  const HappyWords: seq<string> := ["happy", "great", "awesome", "excited", "good"]
  const SadWords: seq<string> := ["sad", "tired", "down", "lonely", "upset"]
  const AngryWords: seq<string> := ["angry", "mad", "hate", "stressed", "annoyed"]

  /** One of the alternatives `ws` matches at the start of `t`. */
  function MatchesHere(t: string, ws: seq<string>): bool
  {
    if ws == [] then false else ws[0] <= t || MatchesHere(t, ws[1..])
  }

  /** `/w0|w1|.../.test(t)`: try every alternative at each start position,
      left to right, as an unanchored regular-expression search does. */
  function RegexTest(t: string, ws: seq<string>): bool
  {
    if MatchesHere(t, ws) then true
    else if t == [] then false
    else RegexTest(t[1..], ws)
  }

  /** Some keyword of `ws` is a substring of `t`. */
  ghost predicate Mentions(t: string, ws: seq<string>)
  {
    exists k :: 0 <= k < |ws| && Contains(t, ws[k])
  }

  /** The alternation matches at the start of `t` exactly when one of its
      alternatives is a prefix of `t`. */
  lemma {:induction false} MatchesHereIff(t: string, ws: seq<string>)
    ensures MatchesHere(t, ws) <==> exists k :: 0 <= k < |ws| && ws[k] <= t
  {
    if ws != [] {
      MatchesHereIff(t, ws[1..]);
      if MatchesHere(t, ws[1..]) {
        var k :| 0 <= k < |ws[1..]| && ws[1..][k] <= t;
        assert ws[k + 1] <= t;
      }
      forall k | 0 < k < |ws| && ws[k] <= t ensures MatchesHere(t, ws[1..]) {
        assert ws[1..][k - 1] == ws[k];
      }
    }
  }

  /** The regular-expression search succeeds exactly when one of its
      alternatives occurs somewhere in the text. */
  lemma {:induction false} RegexTestIff(t: string, ws: seq<string>)
    ensures RegexTest(t, ws) <==> Mentions(t, ws)
  {
    MatchesHereIff(t, ws);
    if MatchesHere(t, ws) {
      var k :| 0 <= k < |ws| && ws[k] <= t;
      assert Contains(t, ws[k]);
    } else if t == [] {
      forall k | 0 <= k < |ws| ensures !Contains(t, ws[k]) {
        assert !(ws[k] <= t);
      }
    } else {
      RegexTestIff(t[1..], ws);
      forall k | 0 <= k < |ws| ensures Contains(t, ws[k]) == Contains(t[1..], ws[k]) {
        assert !(ws[k] <= t);
      }
    }
  }

  /** `detectEmotion`: lower-case the text, then the first of Happy, Sad,
      Angry whose expression matches wins; Neutral otherwise. */
  function DetectEmotion(text: string): Emotion
  {
    var t := Lower(text);
    if RegexTest(t, HappyWords) then Happy
    else if RegexTest(t, SadWords) then Sad
    else if RegexTest(t, AngryWords) then Angry
    else Neutral
  }

  /** The classifier in terms of keyword occurrences: a category is chosen
      exactly when one of its keywords occurs and no keyword of an earlier
      category does; Neutral exactly when none of the fifteen occurs. */
  lemma DetectEmotionSpec(text: string)
    ensures var t, e := Lower(text), DetectEmotion(text);
      && (e == Happy <==> Mentions(t, HappyWords))
      && (e == Sad <==> !Mentions(t, HappyWords) && Mentions(t, SadWords))
      && (e == Angry <==> !Mentions(t, HappyWords) && !Mentions(t, SadWords) && Mentions(t, AngryWords))
      && (e == Neutral <==> !Mentions(t, HappyWords + SadWords + AngryWords))
  {
    var t := Lower(text);
    RegexTestIff(t, HappyWords);
    RegexTestIff(t, SadWords);
    RegexTestIff(t, AngryWords);
    var all := HappyWords + SadWords + AngryWords;
    if Mentions(t, all) {
      var k :| 0 <= k < |all| && Contains(t, all[k]);
      if k < 5 {
        assert all[k] == HappyWords[k];
      } else if k < 10 {
        assert all[k] == SadWords[k - 5];
      } else {
        assert all[k] == AngryWords[k - 10];
      }
    }
    if Mentions(t, HappyWords) {
      var k :| 0 <= k < 5 && Contains(t, HappyWords[k]);
      assert all[k] == HappyWords[k];
    }
    if Mentions(t, SadWords) {
      var k :| 0 <= k < 5 && Contains(t, SadWords[k]);
      assert all[k + 5] == SadWords[k];
    }
    if Mentions(t, AngryWords) {
      var k :| 0 <= k < 5 && Contains(t, AngryWords[k]);
      assert all[k + 10] == AngryWords[k];
    }
  }

  /** First match wins: a Happy keyword decides the outcome whatever else
      the text says ("great" beats "sad"). */
  lemma HappyFirst(text: string, w: string)
    requires w in HappyWords && Contains(Lower(text), w)
    ensures DetectEmotion(text) == Happy
  {
    DetectEmotionSpec(text);
  }

  /** Without a Happy keyword, a Sad keyword beats any Angry one
      ("tired" beats "angry"). */
  lemma SadBeforeAngry(text: string, w: string)
    requires w in SadWords && Contains(Lower(text), w)
    requires forall h :: h in HappyWords ==> !Contains(Lower(text), h)
    ensures DetectEmotion(text) == Sad
  {
    DetectEmotionSpec(text);
  }

  /** Classifying already lower-cased text gives the same emotion, so the
      second `toLowerCase` inside `detectEmotion` changes nothing. */
  lemma DetectEmotionOfLower(text: string)
    ensures DetectEmotion(Lower(text)) == DetectEmotion(text)
  {
    LowerIdempotent(text);
  }

  /** `speak`'s default rate, in hundredths. */
  const NeutralRate: nat := 100

  /** The rate `respond` speaks at, in hundredths (1.05, 0.9 and 1):
      faster than neutral exactly for Happy, slower exactly for Sad. */
  function Rate(e: Emotion): (r: nat)
    ensures r > NeutralRate <==> e == Happy
    ensures r < NeutralRate <==> e == Sad
    ensures e != Happy && e != Sad ==> r == NeutralRate
  {
    match e
    case Happy => 105
    case Sad => 90
    case _ => NeutralRate
  }
}
