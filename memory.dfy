/** The persisted session memory `mem`: its defaults, the bootstrap that
    counts a visit, and the update `cmd` makes when a page is opened. */
module Memory {
  import opened Wrappers
  import opened Emotion

  /** A snapshot of `mem`, as `saveMem` would store it. */
  datatype Memory = Memory(visits: nat, lastEmotion: Emotion, favorite: string, commands: map<string, nat>)

  /** The object used when nothing is stored. */
  const Defaults: Memory := Memory(0, Neutral, "home", map[])

  /** `JSON.parse(localStorage.getItem(memKey)) || {...}`: the stored
      snapshot if there is one, the defaults otherwise. */
  function Load(stored: Option<Memory>): Memory
  {
    match stored
    case Some(m) => m
    case None => Defaults
  }

  /** The memory after start-up: loaded, then `mem.visits++`. */
  function Bootstrap(stored: Option<Memory>): (m: Memory)
    ensures m.visits >= 1
    ensures m.visits == Load(stored).visits + 1
    ensures m.(visits := 0) == Load(stored).(visits := 0)
  {
    var loaded := Load(stored);
    loaded.(visits := loaded.visits + 1)
  }

  /** The condition under which `onstart` says "Welcome back". */
  predicate WelcomesBack(m: Memory)
  {
    m.visits > 1
  }

  /** The memory after the `n`-th page load of a browser whose storage was
      empty before the first one: each load boots from the previous one's
      saved snapshot. */
  function Sessions(n: nat): Memory
    requires n >= 1
  {
    if n == 1 then Bootstrap(None) else Bootstrap(Some(Sessions(n - 1)))
  }

  /** The `n`-th load counts exactly `n` visits, keeps every other default,
      and welcomes back exactly from the second load on. */
  lemma {:induction false} SessionsCountVisits(n: nat)
    requires n >= 1
    ensures Sessions(n) == Defaults.(visits := n)
    ensures WelcomesBack(Sessions(n)) <==> n > 1
  {
    if n > 1 {
      SessionsCountVisits(n - 1);
    }
  }

  /** On a first visit the favourite is "home" although "home" has never
      been opened: a counted favourite is not an invariant from the start. */
  lemma FreshFavoriteUncounted()
    ensures Bootstrap(None).favorite == "home"
    ensures Count(Bootstrap(None).commands, Bootstrap(None).favorite) == 0
  {
  }

  /** `mem.commands[page] || 0`: an absent key counts as zero. */
  function Count(commands: map<string, nat>, page: string): nat
  {
    if page in commands then commands[page] else 0
  }

  /** `mem.commands[page] = (mem.commands[page] || 0) + 1`: the page's count
      goes up by one and every other key is untouched. */
  function Bump(commands: map<string, nat>, page: string): (r: map<string, nat>)
    ensures page in r && Count(r, page) == Count(commands, page) + 1
    ensures forall q :: q != page ==> (q in r <==> q in commands)
    ensures forall q :: q != page && q in commands ==> r[q] == commands[q]
  {
    commands[page := Count(commands, page) + 1]
  }

  /** The memory after `cmd(page)`: counter bumped, `favorite` set. */
  function AfterCommand(m: Memory, page: string): (r: Memory)
    ensures r.visits == m.visits && r.lastEmotion == m.lastEmotion
    ensures r.favorite == page
    ensures forall q :: Count(r.commands, q) == Count(m.commands, q) + (if q == page then 1 else 0)
  {
    m.(commands := Bump(m.commands, page), favorite := page)
  }

  /** The memory after `cmd` was called for each page of `pages` in turn. */
  function AfterCommands(m: Memory, pages: seq<string>): Memory
  {
    if pages == [] then m
    else AfterCommand(AfterCommands(m, pages[..|pages| - 1]), pages[|pages| - 1])
  }

  /** Each counter ends up raised by the number of times its page was
      opened; the favourite is the last page opened; visits and emotion
      are untouched. */
  lemma {:induction false} AfterCommandsCount(m: Memory, pages: seq<string>, q: string)
    ensures Count(AfterCommands(m, pages).commands, q) == Count(m.commands, q) + multiset(pages)[q]
    ensures pages != [] ==> AfterCommands(m, pages).favorite == pages[|pages| - 1]
    ensures AfterCommands(m, pages).visits == m.visits
    ensures AfterCommands(m, pages).lastEmotion == m.lastEmotion
  {
    if pages != [] {
      var init := pages[..|pages| - 1];
      AfterCommandsCount(m, init, q);
      assert pages == init + [pages[|pages| - 1]];
      assert multiset(pages) == multiset(init) + multiset{pages[|pages| - 1]};
    }
  }

  /** Opening page `p` `n` times from an empty counter map leaves
      `commands[p] == n` and `favorite == p`. */
  lemma RepeatedCommandCount(m: Memory, p: string, n: nat)
    requires m.commands == map[]
    requires n >= 1
    ensures var r := AfterCommands(m, seq(n, _ => p));
      p in r.commands && r.commands[p] == n && r.favorite == p
  {
    var pages := seq(n, _ => p);
    AfterCommandsCount(m, pages, p);
    assert multiset(pages)[p] == n by {
      MultisetOfRepeat(p, n);
    }
  }

  /** Helper: `n` copies of `p` hold `p` exactly `n` times. */
  lemma {:induction false} MultisetOfRepeat(p: string, n: nat)
    ensures multiset(seq(n, _ => p))[p] == n
  {
    if n > 0 {
      MultisetOfRepeat(p, n - 1);
      assert seq(n, _ => p) == seq(n - 1, _ => p) + [p];
    }
  }
}
