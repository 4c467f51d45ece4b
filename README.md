# EchoAI command engine in Dafny

This project models the decision logic of the EchoAI browser voice assistant
(`script.js`).

- **Emotion classifier** (`detectEmotion`). The utterance is lower-cased and
  tested against three keyword regular expressions in a fixed order: Happy,
  then Sad, then Angry. The first match wins. If none matches, the result is
  Neutral.
- **Wake-word latch** (`processSpeech`). The module flag `awakened` starts
  false. While it is false, an utterance containing "echo" sets it and gets
  only the acknowledgement "Yes Joshua". Any other utterance is dropped.
  While it is true, the next utterance always clears it and is dispatched.
- **Dispatch chain.** A dispatched utterance first records its emotion in
  `mem.lastEmotion`. It then gets exactly one outcome, chosen by the first
  keyword found in this order: `home`, `dashboard`, `messages`, `friends`,
  `profile` open that page through `cmd`; `hello` gets "Hello Joshua";
  anything else gets "I heard you".
- **Session memory** (`mem`). On page load the stored snapshot, or the
  defaults, is loaded and `visits` is incremented. `cmd(page)` increments
  `commands[page]` (an absent key counts as 0) and sets `favorite`. The
  listener says "Welcome back" when `visits > 1`.
- **Speech rate.** `respond` speaks at 1.05 for Happy, 0.9 for Sad and 1
  otherwise. The model writes these as integer hundredths: 105, 90 and 100.

Speech output, the chat log and button highlighting are not performed. They
are returned as an `Event`:

- `Ack`: the wake acknowledgement.
- `Welcome`: the "Welcome back" greeting.
- `Reply(msg, rate)`: a call of `respond`.
- `Navigate(page, msg, rate)`: a call of `cmd`, which speaks "Opening " + page.

Modules:

- `Text` (text.dfy): ASCII `Lower` and the substring scan `Contains`. The
  lemma `ContainsIff` ties the scan to the definition "occurs at some
  position".
- `Emotion` (emotion.dfy): `RegexTest` models an unanchored alternation
  search as a left-to-right position scan. It is proved equivalent to "some
  alternative is a substring". On top of it sit `DetectEmotion` and `Rate`.
- `Intent` (intent.dfy): the `else if` chain as `Classify` over the ordered
  keyword list `Pages`.
- `Memory` (memory.dfy): the `mem` snapshot, `Load`/`Bootstrap`, and the
  counter updates `Bump` and `AfterCommand`.
- `Engine` (engine.dfy): `Turn` is one `processSpeech` call on values. The
  class `EchoEngine` holds `awakened` and the fields of `mem`. Its
  imperative methods `ProcessSpeech`, `Cmd` and `ApplyEmotion` are proved
  against `Turn` and `AfterCommand`.
- `Laws` (laws.dfy): multi-turn properties: the one-shot wake grant,
  counting over repeated rounds, and monotone counters.
- `Scenarios` (scenarios.dfy): concrete utterances in any letter case.

Notable behaviours of the code:

- `favorite` defaults to `"home"`, not to an absent value. So "the favourite
  page has a count of at least 1" does not hold on a first visit
  (`FreshFavoriteUncounted`). Once it holds, every turn preserves it
  (`FavoriteStaysCounted`).
- `processSpeech` does not reject empty text. An awake, empty utterance gets
  "I heard you".
- The wake word is always required. The only intents are the five pages,
  the "hello" greeting and the fallback reply.
- Unreadable stored memory is not treated as absent: `JSON.parse` would
  throw and the code has no recovery (see Left out).

## Model

| member | source | states |
|---|---|---|
| Text.Contains | script.js:101 | `includes` as a scan over start positions; characterised by `ContainsIff` |
| Emotion.RegexTest | script.js:44-46 | an unanchored alternation `test` as a scan over start positions; characterised by `RegexTestIff` |
| Emotion.DetectEmotion | script.js:42-48 | `detectEmotion`; characterised by `DetectEmotionSpec`, `HappyFirst` and `SadBeforeAngry` |
| Intent.Classify | script.js:114-120 | the dispatch chain over the ordered page keywords; characterised by `ClassifySpec` and `ClassifyChain` |
| Memory.Load | script.js:12-17 | the stored snapshot if one exists, otherwise the defaults (0 visits, Neutral, "home", no counters); used by `Bootstrap` |
| Memory.Count | script.js:131 | `commands[page] \|\| 0`, an absent key read as 0; used by the contracts of `Bump` and `AfterCommand` |
| Memory.WelcomesBack | script.js:74 | the `visits > 1` test; characterised by `SessionsCountVisits` and `Laws.HistoryCountsVisits` |
| Engine.Respond | script.js:123-127 | `respond(msg, emo)` as a reply event at `Rate(emo)`; its use is characterised by `Laws.AwakeDispatches` |
| Engine.Turn | script.js:97-121 | one `processSpeech` call on values; characterised by `Laws.DormantDrops`, `Laws.DormantWakes` and `Laws.AwakeDispatches`, and implemented by `EchoEngine.ProcessSpeech` |
| Text.LowerChar | script.js:43 | lower-casing maps `A`–`Z` to `a`–`z` (code point + 32), keeps every other character, and never yields an upper-case ASCII letter |
| Text.Lower | script.js:98 | `toLowerCase` keeps the length and lowers each character in place |
| Text.LowerIdempotent | script.js:43 | lowering already-lowered text changes nothing, so `detectEmotion`'s second `toLowerCase` is harmless |
| Text.ContainsIff | script.js:101 | `includes` is true exactly when the word occurs at some start position of the text |
| Text.ContainsAt | script.js:101 | an occurrence at a given index makes `includes` true |
| Text.MissingCharNotContained | script.js:101 | a word with a character the text lacks is never included |
| Emotion.MatchesHereIff | script.js:44-46 | an alternation matches at a position exactly when one alternative is a prefix there |
| Emotion.RegexTestIff | script.js:44-46 | each keyword expression's `test` succeeds exactly when one of its keywords is a substring of the lowered text |
| Emotion.DetectEmotionSpec | script.js:42-48 | Happy iff a Happy keyword occurs; Sad iff no Happy keyword and a Sad one occurs; Angry iff neither of those and an Angry one occurs; Neutral iff none of the fifteen keywords occurs |
| Emotion.HappyFirst | script.js:44-45 | a Happy keyword decides Happy whatever else the text contains |
| Emotion.SadBeforeAngry | script.js:45-46 | without a Happy keyword, a Sad keyword wins over any Angry keyword |
| Emotion.DetectEmotionOfLower | script.js:111 | classifying the lowered utterance gives the same emotion as classifying the raw one |
| Emotion.Rate | script.js:124 | the rate is faster than neutral exactly for Happy (105), slower exactly for Sad (90), and neutral (100) otherwise |
| Intent.FirstMatch | script.js:114-118 | returns the index of the first page keyword that occurs, with no earlier keyword occurring, or the list length when none occurs |
| Intent.ClassifySpec | script.js:114-120 | page `Pages[i]` opens exactly when it occurs and no earlier page occurs; the greeting needs "hello" and no page; the fallback needs neither |
| Intent.ClassifyChain | script.js:114-120 | the list-driven classifier equals the written `else if` chain, branch by branch |
| Intent.HelloHomeOpensHome | script.js:114 | "hello home" opens home: a page keyword pre-empts the greeting |
| Memory.Bootstrap | script.js:12-18 | start-up keeps the loaded (or default) memory and raises `visits` by exactly one, so `visits >= 1` |
| Memory.SessionsCountVisits | script.js:12-18 | with no utterances between loads, the n-th page load from empty storage has `visits == n` and otherwise default memory; "Welcome back" is due exactly from the second load on (`Laws.HistoryCountsVisits` covers loads with utterances between them) |
| Memory.FreshFavoriteUncounted | script.js:15 | on a first visit the favourite is "home" and "home" has count 0 |
| Memory.Bump | script.js:131 | the page's count becomes its old count (0 if absent) plus one; every other key keeps its presence and value |
| Memory.AfterCommand | script.js:130-132 | `cmd` raises only the page's counter by one, sets `favorite` to the page, and leaves visits and emotion alone |
| Memory.AfterCommandsCount | script.js:130-132 | after a sequence of `cmd` calls each counter has grown by the number of times its page was opened; `favorite` is the last page |
| Memory.RepeatedCommandCount | script.js:131-132 | opening page p n times from an empty counter map gives `commands[p] == n` and `favorite == p` |
| Engine.EchoEngine.constructor | script.js:12-18 | a new engine is dormant and holds the bootstrapped memory |
| Engine.EchoEngine.WelcomeBack | script.js:74 | the welcome greeting is due exactly when `visits > 1` |
| Engine.EchoEngine.ApplyEmotion | script.js:56 | `lastEmotion` is overwritten with the given emotion |
| Engine.EchoEngine.Cmd | script.js:130-135 | the memory becomes `AfterCommand(old memory, page)`, and the event announces "Opening " + page at the rate of `lastEmotion` |
| Engine.EchoEngine.ProcessSpeech | script.js:97-121 | the new `awakened` flag and memory, and the event, are those of `Turn` on the old state |
| Laws.DormantDrops | script.js:100-107 | dormant and without "echo": no event and no state change |
| Laws.DormantWakes | script.js:100-107 | dormant with "echo": `awakened` is set, only `Ack` is emitted, and the memory is unchanged |
| Laws.AwakeDispatches | script.js:109-134 | awake, any utterance clears `awakened` and yields exactly one reply or navigation. `lastEmotion` becomes the utterance's emotion, which sets the rate. A navigation applies `AfterCommand` for the classified page and says "Opening " + page. A reply leaves the counters alone. `visits` never changes |
| Laws.OneShot | script.js:100-109 | after a wake word and one dispatched command, the same command without "echo" is dropped |
| Laws.TurnMonotone | script.js:131 | no turn lowers any counter or changes `visits` |
| Laws.FavoriteStaysCounted | script.js:130-132 | once the favourite has count at least 1, every later turn keeps that true |
| Laws.RoundsCountNavigations | script.js:100-132 | n rounds of "wake word, then page p" leave `awakened` false, raise `commands[p]` by exactly n, make p the favourite, and keep `visits` |
| Laws.RunKeepsVisits | script.js:18 | no sequence of utterances changes `visits`; only a page load does |
| Laws.HistoryCountsVisits | script.js:12-18 | for any utterances between page loads starting from empty storage, `visits` equals the number of loads, and "Welcome back" is due on every load after the first and not on the first |
| Scenarios.GreatButSadIsHappy | script.js:44-45 | "so great but sad", in any case, is Happy |
| Scenarios.TiredAndMadIsSad | script.js:45-46 | "tired and mad", in any case, is Sad |
| Scenarios.GreatDashboard | script.js:111-134 | a fresh awake session hearing "I feel great, show dashboard" opens dashboard at rate 105, records Happy, and counts dashboard once as the favourite |
| Scenarios.WakeThenHello | script.js:100-120 | "Echo" then "hello there" produces `Ack`, then "Hello Joshua" at the neutral rate, and returns to the starting state |

## Left out

- Speech synthesis (`speak`), the chat log (`write`) and button highlighting (`activate`, `go`). These are returned as events instead.
- The colour and label lines of `applyEmotion`: these are presentation only.
- `start`, `stop`, `onstart`, `onresult`, `onend` and the `listening` flag. These are the SpeechRecognition lifecycle and browser callbacks. The welcome-back test they contain is modelled as `WelcomeBack`. The model does not capture that an automatic restart fires `onstart` again and repeats the greeting.
- `localStorage`, `JSON.parse`/`JSON.stringify` and `saveMem`. Stored memory is an `Option<Memory>` parameter, and a save is the snapshot `Mem()`. A corrupt or non-object stored value, on which `JSON.parse` throws or yields unexpected fields, is not modelled. Neither is a falsy parse result other than an absent key.
- The trimming of recognised text: it happens in the caller, `onresult`.
- Text.Lower: ASCII lower-casing only. Full Unicode `toLowerCase` (for example `İ` or `Σ`) is not modelled.
- Memory.Bump: counters are unbounded naturals. In JavaScript they are doubles, and `commands[page] + 1` stops growing at 2^53.
- Memory.Bootstrap: likewise, `visits++` on a double stops growing at 2^53, which the model does not capture.
- Emotion.Rate: the float rates 1.05, 0.9 and 1 are integer hundredths.
- Regular-expression matching in general: the three expressions are plain alternations of literal words, and only that form is modelled.
