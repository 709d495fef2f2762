# Beat-matching core of the u1w22a rhythm game, in Dafny

The game is a browser rhythm action game. The player character and every enemy pulse
to their own tempo (BPM), and clicking an enemy whose tempo equals the player's current
tempo defeats it. This project models four self-contained parts of that game and proves
properties about them:

- **Beat clock** (`BeatTimer`, `beat_timer.dfy`). A stopwatch's elapsed milliseconds
  are folded into a four-minute loop and published as a C# `int`. The .NET `Stopwatch`
  is a record that is read against a host clock value `nowMs`, which is passed as a
  parameter.
- **Beat item** (`BeatItem`, `beat_item.dfy`). An item's phase within one four-beat
  bar of its own tempo is mapped onto its scale or its opacity through two
  piecewise-linear envelopes. A click is accepted only while the item is selectable,
  and it hits exactly when the tempos match. The in-game scene's `CurrentBPM` and
  `Attacking` are parameters. Its `Attack(item, hit)` call is returned as an
  `AttackRequest`.
- **Wave scripts** (`WaveCommands`, `wave_commands.dfy`; facts in `WaveConsistency`,
  `wave_consistency.dfy`). The tutorial and in-game command scripts, the message table
  and the enemy group table are Dafny `seq` and `map` literals, together with their
  lookups. All three `ENABLE_WAVE` symbols are defined, so the in-game script holds all
  three waves. The consistency lemmas show three things:
  - both scripts are well formed;
  - every track announces its own tempo;
  - every message id and enemy group id a script uses is in its table.
- **Tweet text** (`TweetData`, `tweet_data.dfy`). The raw tweet and the web-intent
  parameter string are built from an optional message, an optional hashtag list and an
  optional URL.

Support modules:
- `Int32` (`int32.dfy`) makes the C# 32-bit wrap-around explicit.
- `Nullable` (`nullable.dfy`) stands for a C# reference that may be `null`.

Float arithmetic is idealised as exact `real` arithmetic. C# semantics are written out
where they matter:
- float `%`, whose quotient is truncated toward zero, so its result takes the dividend's sign;
- an infinite bar length when `bpm == 0`;
- the unchecked `(int)` cast.

Facts of the code the model keeps:
- `Initialize` sets `raycastTarget = false` (BeatItem.cs:75), so a freshly initialised
  item is **not** selectable until `SetSelectable(true)`.
- A click on a non-selectable item returns at once (BeatItem.cs:188-191): it asks for
  no attack at all.
- `AnimationType.Invalid` passed to `Initialize` means "keep the current kind"
  (BeatItem.cs:71).
- The tempo of an item is any `int`. It is not restricted to positive values, and
  `bpm == 0` gives phase 0.

## Model

| member | source | states |
|---|---|---|
| Int32.Wrap | Assets/Scripts/Scene/InGame/BeatTimer.cs:37 | An unchecked conversion to `int` gives the 32-bit value congruent to its argument modulo 2^32. An argument that already fits is returned unchanged. |
| BeatTimer.ElapsedMilliseconds | Assets/Scripts/Scene/InGame/BeatTimer.cs:37 | A stopped stopwatch reports its accumulated time. A running one also reports the time since it was started. |
| BeatTimer.StopwatchReset | Assets/Scripts/Scene/InGame/BeatTimer.cs:45 | Reset stops the stopwatch and discards the elapsed time. |
| BeatTimer.StopwatchStart | Assets/Scripts/Scene/InGame/BeatTimer.cs:46 | Start leaves the stopwatch running without changing the elapsed time. A stopped one starts measuring from now. |
| BeatTimer.ResetTimer | Assets/Scripts/Scene/InGame/BeatTimer.cs:43-48 | After a reset the reading is 0 and the stopwatch runs. At every later clock value the elapsed time is exactly the time since the reset. |
| BeatTimer.Awake | Assets/Scripts/Scene/InGame/BeatTimer.cs:27-31 | A component that has just woken reads 0, and its elapsed time counts from the moment it woke. |
| BeatTimer.Update | Assets/Scripts/Scene/InGame/BeatTimer.cs:34-38 | The published value lies in [0, 240000), so it fits an `int`. It is congruent to the elapsed milliseconds modulo the loop. The stopwatch is untouched. |
| BeatTimer.UpdateAfterReset | Assets/Scripts/Scene/InGame/BeatTimer.cs:37 | `e` ms after a reset the timer reads `e % 240000`. |
| BeatTimer.UpdateIdempotent | Assets/Scripts/Scene/InGame/BeatTimer.cs:37 | Publishing twice at the same clock value gives the same state as publishing once. |
| BeatTimer.UpdatePeriodic | Assets/Scripts/Scene/InGame/BeatTimer.cs:14 | While the stopwatch runs, the reading repeats exactly every 240000 ms. |
| BeatTimer.UnawakenedReadsZero | Assets/Scripts/Scene/InGame/BeatTimer.cs:19-24 | A component that never woke has a stopped, fresh stopwatch and reads 0 forever. |
| BeatItem.RateExact | Assets/Scripts/Scene/InGame/BeatItem.cs:107-108 | For a non-negative beat time and positive tempo, the float phase formula equals `((beatTime * bpm) % 240000) / 240000` exactly. |
| BeatItem.RateInUnitInterval | Assets/Scripts/Scene/InGame/BeatItem.cs:107-108 | For a positive tempo the phase lies in [0, 1). |
| BeatItem.RateShift | Assets/Scripts/Scene/InGame/BeatItem.cs:107-108 | Shifting the beat time by `d` leaves the phase unchanged if and only if `d * bpm` is a multiple of 240000, that is, `d` is a whole number of bars. |
| BeatItem.RatePeriodicInBar | Assets/Scripts/Scene/InGame/BeatItem.cs:107 | When the bar `4 * 60000 / bpm` is a whole number of milliseconds, the phase is periodic with that period. |
| BeatItem.RateIgnoresLoopWrap | Assets/Scripts/Scene/InGame/BeatItem.cs:108 | The beat clock's four-minute loop is a whole number of bars at every positive integer tempo, so the clock's wrap never makes the phase jump. |
| BeatItem.Trunc | Assets/Scripts/Scene/InGame/BeatItem.cs:108 | The integral quotient inside float `%` is rounded toward zero: within one below a non-negative value and within one above a negative one. |
| BeatItem.FloatRemainder | Assets/Scripts/Scene/InGame/BeatItem.cs:108 | C# float `x % y`: the result has the sign of `x`, is smaller than `y` in size, and differs from `x` by a whole multiple of `y`. |
| BeatItem.BarDurationMilliseconds | Assets/Scripts/Scene/InGame/BeatItem.cs:107 | `bpm` bars of the computed duration make exactly 240000 ms, and the duration is positive exactly for a positive tempo. |
| BeatItem.Rate | Assets/Scripts/Scene/InGame/BeatItem.cs:107-108 | `bpm == 0` gives phase 0 (the float bar is infinite). Every phase lies strictly between -1 and 1. It is non-negative when beat time and tempo have the same sign and non-positive when their signs differ. |
| BeatItem.Quarter | Assets/Scripts/Scene/InGame/BeatItem.cs:129-144 | For every phase, quarter `q > 0` is chosen only at or above q/4, and quarter `q < 3` only strictly below (q+1)/4, as the strict `<` comparisons do. So phase 1/4 falls in quarter 1, and a negative phase falls in quarter 0. |
| BeatItem.ScaleSegmentIsLerp | Assets/Scripts/Scene/InGame/BeatItem.cs:129-148 | Each branch of the scale formula is the straight line between adjacent knots 1.0, 1.4, 1.0, 1.2, 1.0. |
| BeatItem.AlphaSegmentIsLerp | Assets/Scripts/Scene/InGame/BeatItem.cs:159-178 | Each branch of the alpha formula is the straight line between adjacent knots 0, 1, 0.5, 1, 0. |
| BeatItem.ScaleEnvelope | Assets/Scripts/Scene/InGame/BeatItem.cs:126-150 | For a phase in [0, 1] the scale stays within [1.0, 1.4]. |
| BeatItem.AlphaEnvelope | Assets/Scripts/Scene/InGame/BeatItem.cs:156-180 | For a phase in [0, 1] the opacity stays within [0, 1]. |
| BeatItem.ScaleEnvelopeContinuous | Assets/Scripts/Scene/InGame/BeatItem.cs:126-148 | The scale is 1.0, 1.4, 1.0, 1.2 and 1.0 at phases 0, 1/4, 1/2, 3/4 and 1. Adjacent branches agree at every quarter boundary. |
| BeatItem.AlphaEnvelopeContinuous | Assets/Scripts/Scene/InGame/BeatItem.cs:156-178 | The opacity is 0, 1, 0.5, 1 and 0 at phases 0, 1/4, 1/2, 3/4 and 1. Adjacent branches agree at every quarter boundary. |
| BeatItem.ResetAnimation | Assets/Scripts/Scene/InGame/BeatItem.cs:214-218 | Scale becomes 1 and colour opaque white; nothing else changes. |
| BeatItem.Initialize | Assets/Scripts/Scene/InGame/BeatItem.cs:68-77 | The tempo is stored. The kind is adopted unless it is `Invalid`, in which case the previous kind stays. The item becomes non-selectable with neutral visuals. Its active flag is kept. |
| BeatItem.SetSelectable | Assets/Scripts/Scene/InGame/BeatItem.cs:83-87 | Only click acceptance changes. |
| BeatItem.Update | Assets/Scripts/Scene/InGame/BeatItem.cs:99-120 | Only scale or colour change. A selectable item is frozen while the scene attacks, and so is an item of kind `None` or `Invalid`. Otherwise a `Scale` item takes the scale envelope of its phase, and an `Alpha` item takes white at the alpha envelope's opacity. |
| BeatItem.UpdateBounds | Assets/Scripts/Scene/InGame/BeatItem.cs:107-119 | On a beat time from the clock, with a positive tempo, a tick keeps the scale within [1.0, 1.4] and the opacity within [0, 1]. |
| BeatItem.OnClick | Assets/Scripts/Scene/InGame/BeatItem.cs:185-209 | A non-selectable item ignores the click and asks for nothing. A selectable item asks for `Attack(true)` exactly when its tempo equals the current one, and `Attack(false)` exactly when it differs. A miss leaves the item unchanged. A hit leaves it at the same tempo, kind `None`, non-selectable, inactive, with neutral visuals. |
| BeatItem.DefeatedItemIsInert | Assets/Scripts/Scene/InGame/BeatItem.cs:194-202 | After a hit, later ticks leave the item as it is, and later clicks are ignored at any tempo. |
| BeatItem.InitializeThenClick | Assets/Scripts/Scene/InGame/BeatItem.cs:68-87 | A freshly initialised item ignores clicks. Once made selectable, a click at its own tempo defeats it. |
| BeatItem.Fresh | Assets/Scripts/Scene/InGame/BeatItem.cs:56-61 | A component fresh from the scene has tempo 120 and kind `Scale`. The other fields come from the scene. |
| BeatItem.FreshItemPulses | Assets/Scripts/Scene/InGame/BeatItem.cs:56-61 | A fresh component is valid and, before any `Initialize`, a tick gives it the scale envelope at 120 BPM, within [1.0, 1.4], and leaves its colour alone. |
| BeatItem.OperationsPreserveValid | Assets/Scripts/Scene/InGame/BeatItem.cs:71-74 | No operation ever stores `Invalid` as an item's kind. |
| WaveCommands.BgmIdOf | Assets/Scripts/Sound/SoundManager.cs:12-30 | Decoding a track ordinal is the inverse of `(int)id`: it succeeds exactly for the ordinals of declared tracks and returns that track. |
| WaveCommands.WaveCommandStoresArguments | Assets/Scripts/Scene/InGame/WaveCommands.cs:74-79 | The command constructor keeps its kind and both values unchanged. |
| WaveCommands.Enemy | Assets/Scripts/Scene/InGame/WaveCommands.cs:118-134 | Kind and appearance are stored. Both pixel coordinates are multiples of 64 and, when no wrap occurs, divide back to the grid cell. The animation is `Alpha` exactly for the two ninja kinds and `Scale` exactly for the others. |
| WaveCommands.EnemyAnimationIsLive | Assets/Scripts/Scene/InGame/WaveCommands.cs:124-133 | No enemy is created with animation `None` or `Invalid`. |
| WaveCommands.GetWaveCommands | Assets/Scripts/Scene/InGame/WaveCommands.cs:304-307 | `true` selects the tutorial script and `false` the in-game script. |
| WaveCommands.GetMessage | Assets/Scripts/Scene/InGame/WaveCommands.cs:395-402 | A known id gives its text and an unknown id gives the empty string. |
| WaveCommands.GetEnemies | Assets/Scripts/Scene/InGame/WaveCommands.cs:557-564 | A known id gives its group and an unknown id gives the empty group. |
| WaveConsistency.MessageTextsNonEmpty | Assets/Scripts/Scene/InGame/WaveCommands.cs:316-393 | No text in the message table is empty, so an empty lookup result always means a missing id. |
| WaveConsistency.EnemySetsNonEmpty | Assets/Scripts/Scene/InGame/WaveCommands.cs:411-555 | No group in the enemy table is empty. |
| WaveConsistency.MessageFound | Assets/Scripts/Scene/InGame/WaveCommands.cs:395-402 | A known message id reads as its table text, which is not empty. |
| WaveConsistency.EnemySetFound | Assets/Scripts/Scene/InGame/WaveCommands.cs:557-564 | A known enemy group id reads as its table group, which is not empty. |
| WaveConsistency.TutorialIdsDefined | Assets/Scripts/Scene/InGame/WaveCommands.cs:143-194 | Every `WaveMessage` id and every `EnemyEnter` id of the tutorial script is a key of its table. |
| WaveConsistency.InGameIdsDefined | Assets/Scripts/Scene/InGame/WaveCommands.cs:195-302 | With all three waves enabled, every `WaveMessage` id and every `EnemyEnter` id of the in-game script is a key of its table. |
| WaveConsistency.ScriptIdsFound | Assets/Scripts/Scene/InGame/WaveCommands.cs:143-302 | In both scripts every message shown has non-empty text and every enemy group spawned is non-empty, so the lookups' empty fallbacks are never taken during play. |
| WaveConsistency.TutorialWellFormed | Assets/Scripts/Scene/InGame/WaveCommands.cs:143-194 | The tutorial opens with `Begin` and a `PlayBgm` at a positive tempo, ends with `End`, and has no other `Begin` or `End`. |
| WaveConsistency.InGameWellFormed | Assets/Scripts/Scene/InGame/WaveCommands.cs:195-302 | The in-game script opens with `Begin` and a `PlayBgm` at a positive tempo, ends with `End`, and has no other `Begin` or `End`. |
| WaveConsistency.TutorialTracksMatchTempo | Assets/Scripts/Scene/InGame/WaveCommands.cs:147 | Every `PlayBgm` of the tutorial names a declared track and announces the tempo that track is named after. |
| WaveConsistency.InGameTracksMatchTempo | Assets/Scripts/Scene/InGame/WaveCommands.cs:195-302 | Every `PlayBgm` of the in-game script names a declared track and announces the tempo that track is named after. |
| WaveConsistency.TutorialWaitCountsNonNegative | Assets/Scripts/Scene/InGame/WaveCommands.cs:143-194 | Every `EnemyBeat` wait of the tutorial waits for a non-negative enemy count. |
| WaveConsistency.InGameWaitCountsNonNegative | Assets/Scripts/Scene/InGame/WaveCommands.cs:195-302 | Every `EnemyBeat` wait of the in-game script waits for a non-negative enemy count. |
| WaveConsistency.ScriptsWellFormed | Assets/Scripts/Scene/InGame/WaveCommands.cs:304-307 | Whichever script is selected is well formed, announces each track's own tempo, and waits only for non-negative counts. |
| WaveConsistency.MessageIdAbsent | Assets/Scripts/Scene/InGame/WaveCommands.cs:355-357 | Id 300000 is not a key of the message table. |
| WaveConsistency.MessageCommentedOut | Assets/Scripts/Scene/InGame/WaveCommands.cs:356 | Looking up the commented-out message 300000 gives the empty string. |
| TweetData.MessageText | Assets/Scripts/Twitter/TweetData.cs:31 | A null message reads as the empty string, and any other message reads verbatim. |
| TweetData.RawMessage | Assets/Scripts/Twitter/TweetData.cs:29-52 | The raw tweet starts with the message verbatim. With a URL it ends with a space and the URL. |
| TweetData.QueryString | Assets/Scripts/Twitter/TweetData.cs:58-82 | The parameter string starts with the message verbatim, with no escaping. With a URL it ends with `&url=` and the URL. |
| TweetData.HashtagRunSnoc | Assets/Scripts/Twitter/TweetData.cs:40 | One more loop iteration appends `" #" + tag` for the next tag. |
| TweetData.JoinSnoc | Assets/Scripts/Twitter/TweetData.cs:69 | One more loop iteration appends `"," + tag` to the joined tags. |
| TweetData.AppendHashtags | Assets/Scripts/Twitter/TweetData.cs:38-41 | The loop appends `" #" + tag` for every tag, the first included, in list order. |
| TweetData.JoinHashtags | Assets/Scripts/Twitter/TweetData.cs:66-70 | The loop produces the tags separated by single commas. |
| TweetData.GenerateRawMessage | Assets/Scripts/Twitter/TweetData.cs:29-52 | The result has three parts in order: the message, then `" #tag"` per tag when the list is non-null and non-empty, then `" " + url` when the URL is non-null. |
| TweetData.GenerateQueryString | Assets/Scripts/Twitter/TweetData.cs:58-82 | The result has three parts in order: the message, then `"&hashtags="` and the comma-joined tags when the list is non-null and non-empty, then `"&url=" + url` when the URL is non-null. |
| TweetData.MessageOnly | Assets/Scripts/Twitter/TweetData.cs:31-48 | With a null or empty hashtag list and a null URL, both outputs equal the message. |
| TweetData.HashtagRunAppend | Assets/Scripts/Twitter/TweetData.cs:38-41 | The hashtag run of a concatenated list is the concatenation of the runs, so tags keep list order. |
| TweetData.HashtagRunLength | Assets/Scripts/Twitter/TweetData.cs:38-41 | Each tag adds its length plus two characters for `" #"`. |
| TweetData.JoinAppend | Assets/Scripts/Twitter/TweetData.cs:66-70 | Joining two non-empty lists puts exactly one comma between their joins. |
| TweetData.JoinLength | Assets/Scripts/Twitter/TweetData.cs:66-70 | A joined list is as long as its tags plus one comma fewer than there are tags. |
| TweetData.JoinBoundaries | Assets/Scripts/Twitter/TweetData.cs:66-70 | The joined text starts with the first tag and ends with the last, so there is no leading or trailing comma. |
| TweetData.JoinSplitRoundTrip | Assets/Scripts/Twitter/TweetData.cs:63-72 | When no tag contains a comma, splitting the `hashtags` value at its commas gives back exactly the tag list. |
| TweetData.RawMessageLength | Assets/Scripts/Twitter/TweetData.cs:29-52 | The raw tweet's length is the sum of its parts: the message, two characters plus the tag per tag, and one character plus the URL. |
| TweetData.QueryStringLength | Assets/Scripts/Twitter/TweetData.cs:58-82 | The parameter string's length is the sum of its parts: the message; `&hashtags=`, the tags and their separating commas; and `&url=` plus the URL. |

## Left out

- Unity side effects in `BeatItem`.
  - `gameObject.SetActive(false)` is the `active` field.
  - The transform's scale and the sprite's colour are the `scale` and `color` fields.
  - `SetSprite` only assigns a sprite, so it is left out.
  - `PlaySe(-1, SoundSeId.AttackOK/AttackNG, false)` is left out: the `SoundSeId` enum is empty, so these calls name no sound.
  - The returned `Attack` request stands for `InGameScene.Attack(this, hit).Forget()`.
- The in-game scene's `CurrentBPM`, `Attacking` and `Attack`, the wave interpreter that runs the scripts, and the combat resolver are not part of this model. The tempo and the attacking flag are parameters.
- Sound playback, scene transitions, the wave message window, the UI components, and the game and scene orchestration are not part of this model.
- The `#else` branches of `ENABLE_WAVE1..3` are left out: all three symbols are defined.
- The second value of `EnemyEnter` (the tempo spread) is kept as data only. Nothing in these files reads it.
- `GenerateRawMessage` assigns an unused local from the first hashtag. It has no effect and is left out.
- TweetData.GenerateRawMessage: a `null` element in the hashtag list is not modelled separately. C# renders it as "", so it is written as the empty string.
- BeatTimer.Update: the `long` elapsed milliseconds are unbounded here. The `long` overflows only after about 292 million years of uptime.
- BeatTimer.ElapsedMilliseconds: the .NET stopwatch's tick-to-millisecond truncation is not modelled. The host clock is taken in whole milliseconds.
- BeatItem.Update: float arithmetic is exact real arithmetic here, so rounding in the phase and the envelopes is not modelled. Within [0, 1] the bounds are stated for the ideal values.
- BeatItem.RatePeriodicInBar: periodicity with the bar length is stated only for tempos that divide 240000. For other tempos the bar itself is not a whole number of milliseconds, so no integer shift equals one bar. The integer periods are then the multiples of 240000 / gcd(bpm, 240000) ms, as `RateShift` states; `RateIgnoresLoopWrap` gives 240000 ms at every positive tempo.
- BeatItem.UpdateBounds: the bounds are stated for positive tempos only. A negative tempo gives a non-positive phase (0 at whole bars, negative otherwise), and at a negative phase the first branch then extrapolates below 1.0 (scale) or below 0 (opacity). No script uses such a tempo.
