/** The keyword chain at the end of `processSpeech`: which outcome a
    dispatched (lower-cased) utterance gets. */
module Intent {
  import opened Text

  /** The navigation keywords, in the order the `else if` chain tests them;
      each keyword is also the page it opens. */
  const Pages: seq<string> := ["home", "dashboard", "messages", "friends", "profile"]

  /** The greeting keyword tested after every page. */
  const GreetWord: string := "hello"

  /** What a dispatched utterance leads to: `cmd(page)`,
      `respond("Hello Joshua")` or `respond("I heard you")`. */
  datatype Intent = Open(page: string) | Greet | Chat

  /** Index of the first keyword of `ps` that occurs in `t`, or `|ps|` when
      none does. */
  function FirstMatch(t: string, ps: seq<string>): (i: nat)
    ensures i <= |ps|
    ensures i < |ps| ==> Contains(t, ps[i])
    ensures forall j :: 0 <= j < i ==> !Contains(t, ps[j])
  {
    if ps == [] then 0
    else if Contains(t, ps[0]) then 0
    else 1 + FirstMatch(t, ps[1..])
  }

  /** The `if / else if` chain of `processSpeech`. */
  function Classify(t: string): Intent
  {
    var i := FirstMatch(t, Pages);
    if i < |Pages| then Open(Pages[i])
    else if Contains(t, GreetWord) then Greet
    else Chat
  }

  /** Exactly one outcome, chosen by the first keyword that occurs: a page
      is opened exactly when it occurs and no earlier page does; the greeting
      needs "hello" and no page; the fallback needs neither. */
  lemma ClassifySpec(t: string)
    ensures forall i :: 0 <= i < |Pages| ==>
      (Classify(t) == Open(Pages[i]) <==>
        Contains(t, Pages[i]) && forall j :: 0 <= j < i ==> !Contains(t, Pages[j]))
    ensures Classify(t).Open? ==> Classify(t).page in Pages
    ensures Classify(t) == Greet <==>
      (forall p :: p in Pages ==> !Contains(t, p)) && Contains(t, GreetWord)
    ensures Classify(t) == Chat <==>
      (forall p :: p in Pages ==> !Contains(t, p)) && !Contains(t, GreetWord)
  {
    var k := FirstMatch(t, Pages);
    assert forall i, j :: 0 <= i < j < |Pages| ==> Pages[i] != Pages[j];
    if k == |Pages| {
      forall p | p in Pages ensures !Contains(t, p) {
        var j :| 0 <= j < |Pages| && Pages[j] == p;
      }
    }
  }

  /** The list form agrees with the `else if` chain as written. */
  lemma ClassifyChain(t: string)
    ensures Classify(t) ==
      if Contains(t, "home") then Open("home")
      else if Contains(t, "dashboard") then Open("dashboard")
      else if Contains(t, "messages") then Open("messages")
      else if Contains(t, "friends") then Open("friends")
      else if Contains(t, "profile") then Open("profile")
      else if Contains(t, "hello") then Greet
      else Chat
  {
    ClassifySpec(t);
    assert Pages[0] == "home" && Pages[1] == "dashboard" && Pages[2] == "messages";
    assert Pages[3] == "friends" && Pages[4] == "profile";
  }

  /** A page keyword pre-empts the greeting: "hello home" opens home. */
  lemma HelloHomeOpensHome()
    ensures Classify("hello home") == Open("home")
  {
    assert "hello home"[6..10] == "home";
    ContainsAt("hello home", "home", 6);
  }
}
