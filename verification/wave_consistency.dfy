/**
 Facts about the scripted content: both scripts are well formed, and every id
 a script refers to is defined in its table, so the empty fallbacks of the
 lookups are never taken in play.

 Each table fact is proved per section of the table (the sections the source
 marks with comments) and then combined, which keeps every proof small.
 */
module WaveConsistency {
  import opened WaveCommands

  predicate IsBoundary(c: WaveCommand) {
    c.commandType == Begin || c.commandType == End
  }

  /** No command of `s` opens or closes a script. */
  predicate NoBoundary(s: seq<WaveCommand>) {
    forall c | c in s :: !IsBoundary(c)
  }

  /** A script opens with `Begin` and a `PlayBgm` at a positive tempo, closes
      with `End`, and has no other `Begin` or `End`. */
  predicate WellFormedScript(s: seq<WaveCommand>) {
    && |s| >= 3
    && s[0].commandType == Begin
    && s[1].commandType == PlayBgm && s[1].value2 > 0
    && s[|s| - 1].commandType == End
    && NoBoundary(s[1..|s| - 1])
  }

  /** The block a script starts with: `Begin`, then the first track. */
  predicate OpeningBlock(a: seq<WaveCommand>) {
    && |a| >= 2
    && a[0].commandType == Begin
    && a[1].commandType == PlayBgm && a[1].value2 > 0
    && NoBoundary(a[1..])
  }

  /** The block a script ends with: its last command is `End`. */
  predicate ClosingBlock(z: seq<WaveCommand>) {
    |z| >= 1 && z[|z| - 1].commandType == End && NoBoundary(z[..|z| - 1])
  }

  /** A `WaveMessage` command names an id of the message table `m`. */
  predicate MessageIn(c: WaveCommand, m: map<int, string>) {
    c.commandType == WaveMessage ==> c.value1 in m
  }

  /** An `EnemyEnter` command names an id of the enemy group table `m`. */
  predicate EnemySetIn(c: WaveCommand, m: map<int, seq<EnemyParam>>) {
    c.commandType == EnemyEnter ==> c.value1 in m
  }

  /** A `PlayBgm` command names a track and announces that track's tempo. */
  predicate TrackMatchesTempo(c: WaveCommand) {
    c.commandType == PlayBgm ==>
      var id := BgmIdOf(c.value1);
      id.NonNull? && c.value2 == BgmTempo(id.value)
  }

  /** An `EnemyBeat` command waits for a non-negative number of enemies. */
  predicate WaitCountNonNegative(c: WaveCommand) {
    c.commandType == EnemyBeat ==> c.value1 >= 0
  }

  /** Every message `s` shows is an id of the table `m`. */
  predicate MessagesWithin(s: seq<WaveCommand>, m: map<int, string>) {
    forall c | c in s :: MessageIn(c, m)
  }

  /** Every enemy group `s` spawns is an id of the table `m`. */
  predicate EnemySetsWithin(s: seq<WaveCommand>, m: map<int, seq<EnemyParam>>) {
    forall c | c in s :: EnemySetIn(c, m)
  }

  /** Every message `s` shows is in the message table. */
  predicate MessagesDefined(s: seq<WaveCommand>) {
    MessagesWithin(s, MessageMap)
  }

  /** Every enemy group `s` spawns is in the enemy group table. */
  predicate EnemySetsDefined(s: seq<WaveCommand>) {
    EnemySetsWithin(s, EnemySetMap)
  }

  predicate TracksMatchTempo(s: seq<WaveCommand>) {
    forall c | c in s :: TrackMatchesTempo(c)
  }

  predicate WaitCountsNonNegative(s: seq<WaveCommand>) {
    forall c | c in s :: WaitCountNonNegative(c)
  }

  // ---------------------------------------------------------------------------
  // The tables have no empty entries
  // ---------------------------------------------------------------------------

  lemma TutorialMessagesNonEmpty()
    ensures forall id | id in TutorialMessages :: |TutorialMessages[id]| > 0
  {
  }

  lemma Wave1MessagesNonEmpty()
    ensures forall id | id in Wave1Messages :: |Wave1Messages[id]| > 0
  {
  }

  lemma Wave2MessagesNonEmpty()
    ensures forall id | id in Wave2Messages :: |Wave2Messages[id]| > 0
  {
  }

  lemma Wave3MessagesNonEmpty()
    ensures forall id | id in Wave3Messages :: |Wave3Messages[id]| > 0
  {
  }

  /** No text of the message table is empty, so an empty result of
      `GetMessage` always means a missing id. */
  lemma MessageTextsNonEmpty()
    ensures forall id | id in MessageMap :: |MessageMap[id]| > 0
  {
    TutorialMessagesNonEmpty();
    Wave1MessagesNonEmpty();
    Wave2MessagesNonEmpty();
    Wave3MessagesNonEmpty();
  }

  lemma TutorialEnemySetsNonEmpty()
    ensures forall id | id in TutorialEnemySets :: |TutorialEnemySets[id]| > 0
  {
  }

  lemma Wave1EnemySetsNonEmpty()
    ensures forall id | id in Wave1EnemySets :: |Wave1EnemySets[id]| > 0
  {
  }

  lemma Wave2EnemySetsNonEmpty()
    ensures forall id | id in Wave2EnemySets :: |Wave2EnemySets[id]| > 0
  {
  }

  lemma Wave3EnemySetsNonEmpty()
    ensures forall id | id in Wave3EnemySets :: |Wave3EnemySets[id]| > 0
  {
  }

  /** No group of the enemy table is empty, so an empty result of
      `GetEnemies` always means a missing id. */
  lemma EnemySetsNonEmpty()
    ensures forall id | id in EnemySetMap :: |EnemySetMap[id]| > 0
  {
    TutorialEnemySetsNonEmpty();
    Wave1EnemySetsNonEmpty();
    Wave2EnemySetsNonEmpty();
    Wave3EnemySetsNonEmpty();
  }

  // ---------------------------------------------------------------------------
  // Every id a script refers to is defined
  // ---------------------------------------------------------------------------

  /** A script part whose ids are in a table still has them in a larger table. */
  lemma WithinLargerTables(s: seq<WaveCommand>, m: map<int, string>, M: map<int, string>,
                           e: map<int, seq<EnemyParam>>, E: map<int, seq<EnemyParam>>)
    requires m.Keys <= M.Keys && e.Keys <= E.Keys
    ensures MessagesWithin(s, m) ==> MessagesWithin(s, M)
    ensures EnemySetsWithin(s, e) ==> EnemySetsWithin(s, E)
  {
  }

  /** Ids are resolved command by command, so parts can be checked apart. */
  lemma WithinConcat(a: seq<WaveCommand>, b: seq<WaveCommand>, m: map<int, string>, e: map<int, seq<EnemyParam>>)
    ensures MessagesWithin(a + b, m) <==> MessagesWithin(a, m) && MessagesWithin(b, m)
    ensures EnemySetsWithin(a + b, e) <==> EnemySetsWithin(a, e) && EnemySetsWithin(b, e)
  {
  }

  /** Each section of the message table is part of the whole table. */
  lemma MessageSectionsCovered()
    ensures TutorialMessages.Keys <= MessageMap.Keys && Wave1Messages.Keys <= MessageMap.Keys
    ensures Wave2Messages.Keys <= MessageMap.Keys && Wave3Messages.Keys <= MessageMap.Keys
  {
  }

  /** Each section of the enemy group table is part of the whole table. */
  lemma EnemySetSectionsCovered()
    ensures TutorialEnemySets.Keys <= EnemySetMap.Keys && Wave1EnemySets.Keys <= EnemySetMap.Keys
    ensures Wave2EnemySets.Keys <= EnemySetMap.Keys && Wave3EnemySets.Keys <= EnemySetMap.Keys
  {
  }

  /** The opening of the in-game script shows no message and spawns no enemy. */
  lemma InGameOpeningIsQuiet()
    ensures MessagesWithin(InGameOpening, map[]) && EnemySetsWithin(InGameOpening, map[])
  {
  }

  /** The messages of the tutorial come from its own section of the table. */
  lemma TutorialMessagesInSection()
    ensures MessagesWithin(TutorialWaveCommands, TutorialMessages)
  {
  }

  /** The enemy groups of the tutorial come from its own section of the table. */
  lemma TutorialEnemySetsInSection()
    ensures EnemySetsWithin(TutorialWaveCommands, TutorialEnemySets)
  {
  }

  /** The messages of wave 1 come from its own section of the table. */
  lemma Wave1MessagesInSection()
    ensures MessagesWithin(InGameWave1, Wave1Messages)
  {
  }

  /** The enemy groups of wave 1 come from its own section of the table. */
  lemma Wave1EnemySetsInSection()
    ensures EnemySetsWithin(InGameWave1, Wave1EnemySets)
  {
  }

  /** The messages of wave 2 come from its own section of the table. */
  lemma Wave2MessagesInSection()
    ensures MessagesWithin(InGameWave2, Wave2Messages)
  {
  }

  /** The enemy groups of wave 2 come from its own section of the table. */
  lemma Wave2EnemySetsInSection()
    ensures EnemySetsWithin(InGameWave2, Wave2EnemySets)
  {
  }

  /** The messages of wave 3 and the ending come from its own section of the table. */
  lemma Wave3MessagesInSection()
    ensures MessagesWithin(InGameWave3 + InGameEnding, Wave3Messages)
  {
  }

  /** The enemy groups of wave 3 and the ending come from its own section of the table. */
  lemma Wave3EnemySetsInSection()
    ensures EnemySetsWithin(InGameWave3 + InGameEnding, Wave3EnemySets)
  {
  }

  lemma TutorialIdsDefined()
    ensures MessagesDefined(TutorialWaveCommands)
    ensures EnemySetsDefined(TutorialWaveCommands)
  {
    TutorialMessagesInSection();
    TutorialEnemySetsInSection();
    MessageSectionsCovered();
    EnemySetSectionsCovered();
    WithinLargerTables(TutorialWaveCommands, TutorialMessages, MessageMap, TutorialEnemySets, EnemySetMap);
  }

  lemma InGameIdsDefined()
    ensures MessagesDefined(InGameWaveCommands)
    ensures EnemySetsDefined(InGameWaveCommands)
  {
    var M, E := MessageMap, EnemySetMap;
    MessageSectionsCovered();
    EnemySetSectionsCovered();
    InGameOpeningIsQuiet();
    WithinLargerTables(InGameOpening, map[], M, map[], E);
    Wave1MessagesInSection();
    Wave1EnemySetsInSection();
    WithinLargerTables(InGameWave1, Wave1Messages, M, Wave1EnemySets, E);
    Wave2MessagesInSection();
    Wave2EnemySetsInSection();
    WithinLargerTables(InGameWave2, Wave2Messages, M, Wave2EnemySets, E);
    Wave3MessagesInSection();
    Wave3EnemySetsInSection();
    WithinLargerTables(InGameWave3 + InGameEnding, Wave3Messages, M, Wave3EnemySets, E);
    WithinConcat(InGameWave3, InGameEnding, M, E);
    WithinConcat(InGameWave1, InGameWave2, M, E);
    WithinConcat(InGameWave1 + InGameWave2, InGameWave3, M, E);
    WithinConcat(InGameOpening, InGameWaves, M, E);
    WithinConcat(InGameOpening + InGameWaves, InGameEnding, M, E);
  }

  /** A known message id reads as its non-empty text. */
  lemma MessageFound(id: int)
    requires id in MessageMap
    ensures GetMessage(id) == MessageMap[id] && |GetMessage(id)| > 0
  {
    MessageTextsNonEmpty();
  }

  /** A known enemy group id reads as its non-empty group. */
  lemma EnemySetFound(id: int)
    requires id in EnemySetMap
    ensures GetEnemies(id) == EnemySetMap[id] && |GetEnemies(id)| > 0
  {
    EnemySetsNonEmpty();
  }

  /** In a script part whose ids are all defined, every message shown is
      found and every enemy group spawned is found, and none is empty. */
  lemma DefinedIdsFound(s: seq<WaveCommand>)
    requires MessagesDefined(s) && EnemySetsDefined(s)
    ensures forall c | c in s && c.commandType == WaveMessage :: |GetMessage(c.value1)| > 0
    ensures forall c | c in s && c.commandType == EnemyEnter :: |GetEnemies(c.value1)| > 0
  {
    forall c | c in s && c.commandType == WaveMessage
      ensures |GetMessage(c.value1)| > 0
    {
      assert MessageIn(c, MessageMap);
      MessageFound(c.value1);
    }
    forall c | c in s && c.commandType == EnemyEnter
      ensures |GetEnemies(c.value1)| > 0
    {
      assert EnemySetIn(c, EnemySetMap);
      EnemySetFound(c.value1);
    }
  }

  /** Every message a script shows is found, and so is every enemy group it
      spawns: the empty fallbacks of the lookups are never taken in play. */
  lemma ScriptIdsFound(tutorial: bool)
    ensures forall c | c in GetWaveCommands(tutorial) && c.commandType == WaveMessage ::
              |GetMessage(c.value1)| > 0
    ensures forall c | c in GetWaveCommands(tutorial) && c.commandType == EnemyEnter ::
              |GetEnemies(c.value1)| > 0
  {
    if tutorial {
      TutorialIdsDefined();
    } else {
      InGameIdsDefined();
    }
    DefinedIdsFound(GetWaveCommands(tutorial));
  }

  // ---------------------------------------------------------------------------
  // Shape of the scripts
  // ---------------------------------------------------------------------------

  /** An opening block, a body without boundaries and a closing block make a
      well-formed script. */
  lemma AssembledScriptWellFormed(a: seq<WaveCommand>, m: seq<WaveCommand>, z: seq<WaveCommand>)
    requires OpeningBlock(a) && NoBoundary(m) && ClosingBlock(z)
    ensures WellFormedScript(a + m + z)
  {
    var s := a + m + z;
    assert s[1..|s| - 1] == a[1..] + m + z[..|z| - 1];
  }

  lemma TutorialGreetingOpens()
    ensures OpeningBlock(TutorialGreeting)
  {
  }

  lemma TutorialLessonsInterior()
    ensures NoBoundary(TutorialLessons)
  {
  }

  lemma TutorialClosingCloses()
    ensures ClosingBlock(TutorialClosing)
  {
  }

  lemma InGameOpeningOpens()
    ensures OpeningBlock(InGameOpening)
  {
  }

  lemma InGameWave1NoBoundary()
    ensures NoBoundary(InGameWave1)
  {
  }

  lemma InGameWave2NoBoundary()
    ensures NoBoundary(InGameWave2)
  {
  }

  lemma InGameWave3NoBoundary()
    ensures NoBoundary(InGameWave3)
  {
  }

  lemma InGameWavesInterior()
    ensures NoBoundary(InGameWaves)
  {
    InGameWave1NoBoundary();
    InGameWave2NoBoundary();
    InGameWave3NoBoundary();
  }

  lemma InGameEndingCloses()
    ensures ClosingBlock(InGameEnding)
  {
  }

  lemma TutorialWellFormed()
    ensures WellFormedScript(TutorialWaveCommands)
  {
    TutorialGreetingOpens();
    TutorialLessonsInterior();
    TutorialClosingCloses();
    AssembledScriptWellFormed(TutorialGreeting, TutorialLessons, TutorialClosing);
  }

  lemma InGameWellFormed()
    ensures WellFormedScript(InGameWaveCommands)
  {
    InGameOpeningOpens();
    InGameWavesInterior();
    InGameEndingCloses();
    AssembledScriptWellFormed(InGameOpening, InGameWaves, InGameEnding);
  }

  lemma TutorialTracksMatchTempo()
    ensures TracksMatchTempo(TutorialWaveCommands)
  {
  }

  lemma InGameOpeningTracksMatchTempo()
    ensures TracksMatchTempo(InGameOpening)
  {
  }

  lemma InGameWave1TracksMatchTempo()
    ensures TracksMatchTempo(InGameWave1)
  {
  }

  lemma InGameWave2TracksMatchTempo()
    ensures TracksMatchTempo(InGameWave2)
  {
  }

  lemma InGameWave3TracksMatchTempo()
    ensures TracksMatchTempo(InGameWave3)
  {
  }

  lemma InGameEndingTracksMatchTempo()
    ensures TracksMatchTempo(InGameEnding)
  {
  }

  lemma InGameTracksMatchTempo()
    ensures TracksMatchTempo(InGameWaveCommands)
  {
    InGameOpeningTracksMatchTempo();
    InGameWave1TracksMatchTempo();
    InGameWave2TracksMatchTempo();
    InGameWave3TracksMatchTempo();
    InGameEndingTracksMatchTempo();
  }

  lemma TutorialWaitCountsNonNegative()
    ensures WaitCountsNonNegative(TutorialWaveCommands)
  {
  }

  lemma InGameOpeningWaitCountsNonNegative()
    ensures WaitCountsNonNegative(InGameOpening)
  {
  }

  lemma InGameWave1WaitCountsNonNegative()
    ensures WaitCountsNonNegative(InGameWave1)
  {
  }

  lemma InGameWave2WaitCountsNonNegative()
    ensures WaitCountsNonNegative(InGameWave2)
  {
  }

  lemma InGameWave3WaitCountsNonNegative()
    ensures WaitCountsNonNegative(InGameWave3)
  {
  }

  lemma InGameEndingWaitCountsNonNegative()
    ensures WaitCountsNonNegative(InGameEnding)
  {
  }

  lemma InGameWaitCountsNonNegative()
    ensures WaitCountsNonNegative(InGameWaveCommands)
  {
    InGameOpeningWaitCountsNonNegative();
    InGameWave1WaitCountsNonNegative();
    InGameWave2WaitCountsNonNegative();
    InGameWave3WaitCountsNonNegative();
    InGameEndingWaitCountsNonNegative();
  }

  /** Both scripts are well formed, every track they play is announced with
      its own tempo, and every wait count is non-negative. */
  lemma ScriptsWellFormed(tutorial: bool)
    ensures WellFormedScript(GetWaveCommands(tutorial))
    ensures TracksMatchTempo(GetWaveCommands(tutorial))
    ensures WaitCountsNonNegative(GetWaveCommands(tutorial))
  {
    if tutorial {
      TutorialWellFormed();
      TutorialTracksMatchTempo();
      TutorialWaitCountsNonNegative();
    } else {
      InGameWellFormed();
      InGameTracksMatchTempo();
      InGameWaitCountsNonNegative();
    }
  }

  lemma TutorialMessagesLackCommentedId()
    ensures 300000 !in TutorialMessages
  {
  }

  lemma Wave1MessagesLackCommentedId()
    ensures 300000 !in Wave1Messages
  {
  }

  lemma Wave2MessagesLackCommentedId()
    ensures 300000 !in Wave2Messages
  {
  }

  lemma Wave3MessagesLackCommentedId()
    ensures 300000 !in Wave3Messages
  {
  }

  lemma MessageIdAbsent()
    ensures 300000 !in MessageMap
  {
    TutorialMessagesLackCommentedId();
    Wave1MessagesLackCommentedId();
    Wave2MessagesLackCommentedId();
    Wave3MessagesLackCommentedId();
  }

  /** Message 300000 is commented out of the table, so it reads as empty. */
  lemma MessageCommentedOut()
    ensures GetMessage(300000) == ""
  {
    MessageIdAbsent();
  }
}
