/**
 The scripted content of the game: the two wave command scripts, the message
 text table and the enemy group table, with the lookups the wave interpreter
 uses. The source compiles with `ENABLE_WAVE1`, `ENABLE_WAVE2` and
 `ENABLE_WAVE3` defined, so the in-game script is the concatenation of its
 opening, the three waves and its ending; the single-command fallbacks of the
 disabled configurations are not part of this model.
 */
module WaveCommands {
  import Int32
  import BeatItem
  import Nullable

  type int32 = Int32.int32

  datatype WaveCommandType =
    | Begin
    | PlayBgm
    | SamuraiEnter
    | SamuraiExit
    | EnemyEnter
    | EnemyBeat
    | WaveMessage
    | Ranking
    | End

  datatype EnemyType = Unity | Father | XinobiBlack | XinobiWhite | SamuraiLow | Rohnin | SamuraiHigh

  datatype EnemyAppearType = Move | Fade

  /** The background tracks, whose ordinal a `PlayBgm` command carries in its
      first value. */
  datatype SoundBgmId = Title85BPM | InGame85BPM | InGame128BPM | InGame150BPM

  /** `(int)id`: the declaration order of the track. */
  function BgmIdValue(id: SoundBgmId): int32 {
    match id
    case Title85BPM => 0
    case InGame85BPM => 1
    case InGame128BPM => 2
    case InGame150BPM => 3
  }

  /** The track whose ordinal is `value`, or `Null` when no track has it. */
  function BgmIdOf(value: int): (r: Nullable.Nullable<SoundBgmId>)
    ensures r.NonNull? ==> BgmIdValue(r.value) == value
    ensures forall id :: BgmIdValue(id) == value ==> r == Nullable.NonNull(id)
  {
    if value == 0 then Nullable.NonNull(Title85BPM)
    else if value == 1 then Nullable.NonNull(InGame85BPM)
    else if value == 2 then Nullable.NonNull(InGame128BPM)
    else if value == 3 then Nullable.NonNull(InGame150BPM)
    else Nullable.Null
  }

  /** The tempo each track is named after. */
  function BgmTempo(id: SoundBgmId): nat {
    match id
    case Title85BPM => 85
    case InGame85BPM => 85
    case InGame128BPM => 128
    case InGame150BPM => 150
  }

  /** One step of a script: its kind and two kind-specific values. */
  datatype WaveCommand = WaveCommand(commandType: WaveCommandType, value1: int32, value2: int32)

  /** The constructor keeps its three arguments as they are. */
  lemma WaveCommandStoresArguments(commandType: WaveCommandType, value1: int32, value2: int32)
    ensures var c := WaveCommand(commandType, value1, value2);
            c.commandType == commandType && c.value1 == value1 && c.value2 == value2
  {
  }

  /** One member of an enemy group: kind, entrance, position in pixels and
      the pulse it shows. */
  datatype EnemyParam = EnemyParam(
    enemyType: EnemyType,
    enemyAppearType: EnemyAppearType,
    x: int32,
    y: int32,
    animationType: BeatItem.AnimationType)

  /** Pixels per grid cell: table positions are given in cells of 64 pixels. */
  const CellPixels: int := 64

  /** Ninjas fade in and out; every other enemy pulses in size. */
  predicate IsXinobi(enemyType: EnemyType) {
    enemyType == XinobiBlack || enemyType == XinobiWhite
  }

  /** The `EnemyParam` constructor: grid cells are scaled to pixels, with the
      wrap-around of 32-bit multiplication, and the pulse follows the kind. */
  function Enemy(enemyType: EnemyType, enemyAppearType: EnemyAppearType, gridX: int32, gridY: int32): (p: EnemyParam)
    ensures p.enemyType == enemyType && p.enemyAppearType == enemyAppearType
    ensures p.x % CellPixels == 0 && p.y % CellPixels == 0
    ensures Int32.InRange(gridX * CellPixels) ==> p.x / CellPixels == gridX
    ensures Int32.InRange(gridY * CellPixels) ==> p.y / CellPixels == gridY
    ensures p.animationType == BeatItem.Alpha <==> IsXinobi(enemyType)
    ensures p.animationType == BeatItem.Scale <==> !IsXinobi(enemyType)
  {
    var kind := if IsXinobi(enemyType) then BeatItem.Alpha else BeatItem.Scale;
    EnemyParam(enemyType, enemyAppearType, Int32.Wrap(gridX * CellPixels), Int32.Wrap(gridY * CellPixels), kind)
  }

  /** Every table entry can be handed to `BeatItem.Initialize` without being
      mistaken for "keep the current kind", and no enemy is created frozen. */
  lemma EnemyAnimationIsLive(enemyType: EnemyType, enemyAppearType: EnemyAppearType, gridX: int32, gridY: int32)
    ensures Enemy(enemyType, enemyAppearType, gridX, gridY).animationType !in {BeatItem.None, BeatItem.Invalid}
  {
  }

  /** Greeting. (WaveCommands.cs:145-149) */
  const TutorialGreeting: seq<WaveCommand> := [
    WaveCommand(Begin, 0, 0),
    WaveCommand(PlayBgm, BgmIdValue(Title85BPM), 85),
    WaveCommand(WaveMessage, 100000, 0),
    WaveCommand(WaveMessage, 100010, 0)
  ]

  /** The hero enters. (WaveCommands.cs:151-154) */
  const TutorialHero: seq<WaveCommand> := [
    WaveCommand(SamuraiEnter, 0, 0),
    WaveCommand(WaveMessage, 101000, 0),
    WaveCommand(WaveMessage, 101010, 0)
  ]

  /** One enemy. (WaveCommands.cs:156-161) */
  const TutorialFirstEnemy: seq<WaveCommand> := [
    WaveCommand(EnemyEnter, 102000, 0),
    WaveCommand(WaveMessage, 102000, 0),
    WaveCommand(WaveMessage, 102010, 0),
    WaveCommand(EnemyBeat, 0, 0),
    WaveCommand(WaveMessage, 102020, 0)
  ]

  /** Two enemies at different tempos. (WaveCommands.cs:163-174) */
  const TutorialTwoEnemies: seq<WaveCommand> := [
    WaveCommand(EnemyEnter, 103000, 30),
    WaveCommand(WaveMessage, 103000, 0),
    WaveCommand(WaveMessage, 103010, 0),
    WaveCommand(WaveMessage, 103020, 0),
    WaveCommand(WaveMessage, 103030, 0),
    WaveCommand(EnemyBeat, 1, 0),
    WaveCommand(WaveMessage, 103040, 0),
    WaveCommand(WaveMessage, 103050, 0),
    WaveCommand(WaveMessage, 103060, 0),
    WaveCommand(EnemyBeat, 0, 0),
    WaveCommand(WaveMessage, 103070, 0)
  ]

  /** Three enemies. (WaveCommands.cs:176-179) */
  const TutorialThreeEnemies: seq<WaveCommand> := [
    WaveCommand(EnemyEnter, 104000, 25),
    WaveCommand(WaveMessage, 104000, 0),
    WaveCommand(EnemyBeat, 0, 0)
  ]

  /** Ninjas. (WaveCommands.cs:181-186) */
  const TutorialNinjas: seq<WaveCommand> := [
    WaveCommand(EnemyEnter, 105000, 25),
    WaveCommand(WaveMessage, 105000, 0),
    WaveCommand(WaveMessage, 105010, 0),
    WaveCommand(WaveMessage, 105020, 0),
    WaveCommand(EnemyBeat, 0, 0)
  ]

  /** Closing. (WaveCommands.cs:188-193) */
  const TutorialClosing: seq<WaveCommand> := [
    WaveCommand(WaveMessage, 106000, 0),
    WaveCommand(WaveMessage, 106010, 0),
    WaveCommand(WaveMessage, 106020, 0),
    WaveCommand(SamuraiExit, 0, 0),
    WaveCommand(End, 0, 0)
  ]

  /** Opening. (WaveCommands.cs:197-199) */
  const InGameOpening: seq<WaveCommand> := [
    WaveCommand(Begin, 0, 0),
    WaveCommand(PlayBgm, BgmIdValue(InGame85BPM), 85),
    WaveCommand(SamuraiEnter, 0, 0)
  ]

  /** Wave 1: bandits. (WaveCommands.cs:202-216) */
  const Wave1Bandits: seq<WaveCommand> := [
    WaveCommand(WaveMessage, 200000, 0),
    WaveCommand(WaveMessage, 200010, 0),
    WaveCommand(WaveMessage, 200020, 0),
    WaveCommand(EnemyEnter, 200000, 30),
    WaveCommand(WaveMessage, 200030, 0),
    WaveCommand(WaveMessage, 200040, 0),
    WaveCommand(WaveMessage, 200050, 0),
    WaveCommand(EnemyBeat, 0, 0),
    WaveCommand(EnemyEnter, 200010, 25),
    WaveCommand(EnemyBeat, 0, 0),
    WaveCommand(EnemyEnter, 200020, 20),
    WaveCommand(EnemyBeat, 0, 0),
    WaveCommand(EnemyEnter, 200030, 20),
    WaveCommand(EnemyBeat, 0, 0)
  ]

  /** Wave 1: aftermath and tempo up. (WaveCommands.cs:218-223) */
  const Wave1Aftermath: seq<WaveCommand> := [
    WaveCommand(WaveMessage, 201000, 0),
    WaveCommand(WaveMessage, 201010, 0),
    WaveCommand(WaveMessage, 201020, 0),
    WaveCommand(PlayBgm, BgmIdValue(InGame128BPM), 128),
    WaveCommand(WaveMessage, 201030, 0)
  ]

  /** Wave 2: castle guards. (WaveCommands.cs:229-246) */
  const Wave2Guards: seq<WaveCommand> := [
    WaveCommand(EnemyEnter, 300000, 27),
    WaveCommand(WaveMessage, 300010, 0),
    WaveCommand(WaveMessage, 300020, 0),
    WaveCommand(WaveMessage, 300030, 0),
    WaveCommand(WaveMessage, 300040, 0),
    WaveCommand(WaveMessage, 300050, 0),
    WaveCommand(WaveMessage, 300060, 0),
    WaveCommand(WaveMessage, 300070, 0),
    WaveCommand(WaveMessage, 300080, 0),
    WaveCommand(EnemyBeat, 0, 0),
    WaveCommand(EnemyEnter, 300010, 24),
    WaveCommand(EnemyBeat, 0, 0),
    WaveCommand(EnemyEnter, 300020, 21),
    WaveCommand(EnemyBeat, 0, 0),
    WaveCommand(EnemyEnter, 300030, 18),
    WaveCommand(EnemyBeat, 0, 0)
  ]

  /** Wave 2: the father. (WaveCommands.cs:248-259) */
  const Wave2Father: seq<WaveCommand> := [
    WaveCommand(WaveMessage, 301000, 0),
    WaveCommand(EnemyEnter, 300040, 15),
    WaveCommand(WaveMessage, 301010, 0),
    WaveCommand(WaveMessage, 301020, 0),
    WaveCommand(WaveMessage, 301030, 0),
    WaveCommand(WaveMessage, 301040, 0),
    WaveCommand(WaveMessage, 301050, 0),
    WaveCommand(WaveMessage, 301060, 0),
    WaveCommand(WaveMessage, 301070, 0),
    WaveCommand(WaveMessage, 301080, 0),
    WaveCommand(EnemyBeat, 0, 0)
  ]

  /** Wave 2: the father falls and tempo up. (WaveCommands.cs:261-265) */
  const Wave2FatherFalls: seq<WaveCommand> := [
    WaveCommand(WaveMessage, 302000, 0),
    WaveCommand(WaveMessage, 302010, 0),
    WaveCommand(PlayBgm, BgmIdValue(InGame150BPM), 150),
    WaveCommand(WaveMessage, 302020, 0)
  ]

  /** Wave 3: retainers. (WaveCommands.cs:271-282) */
  const Wave3Retainers: seq<WaveCommand> := [
    WaveCommand(WaveMessage, 400000, 0),
    WaveCommand(WaveMessage, 400010, 0),
    WaveCommand(EnemyEnter, 400000, 18),
    WaveCommand(EnemyBeat, 0, 0),
    WaveCommand(EnemyEnter, 400010, 16),
    WaveCommand(EnemyBeat, 0, 0),
    WaveCommand(EnemyEnter, 400020, 0),
    WaveCommand(EnemyBeat, 0, 0),
    WaveCommand(EnemyEnter, 400030, 14),
    WaveCommand(EnemyBeat, 0, 0)
  ]

  /** Wave 3: the usurper. (WaveCommands.cs:284-290) */
  const Wave3Usurper: seq<WaveCommand> := [
    WaveCommand(EnemyEnter, 400040, 12),
    WaveCommand(WaveMessage, 401000, 0),
    WaveCommand(WaveMessage, 401010, 0),
    WaveCommand(WaveMessage, 401020, 0),
    WaveCommand(WaveMessage, 401030, 0),
    WaveCommand(EnemyBeat, 0, 0)
  ]

  /** Ending. (WaveCommands.cs:293-301) */
  const InGameEnding: seq<WaveCommand> := [
    WaveCommand(PlayBgm, BgmIdValue(InGame85BPM), 85),
    WaveCommand(WaveMessage, 402000, 0),
    WaveCommand(WaveMessage, 402010, 0),
    WaveCommand(WaveMessage, 402020, 0),
    WaveCommand(WaveMessage, 402030, 0),
    WaveCommand(Ranking, 0, 0),
    WaveCommand(SamuraiExit, 0, 0),
    WaveCommand(End, 0, 0)
  ]

  /** Messages of the tutorial. (WaveCommands.cs:318-340) */
  const TutorialMessages: map<int, string> := map[
    100000 := "プレイしていただきありがとうございます。",
    100010 := "これからこのゲームの遊び方をご説明します。",
    101000 := "いま画面左から駆けてきた若武者こそが本作の主人公、",
    101010 := "昇鯉　辰雄（のぼりごい　たつお）です。",
    102000 := "画面右から曲者が襲いかかってきました。",
    102010 := "曲者をクリックしましょう。",
    102020 := "お見事です。",
    103000 := "今度は曲者がふたり襲いかかってきました。",
    103010 := "昇鯉は同じテンポの敵は一撃で倒せますが、",
    103020 := "テンポの異なる敵は倒すことができません。",
    103030 := "昇鯉と同じテンポの曲者をクリックしましょう。",
    103040 := "昇鯉があざやかに曲者を倒すと、",
    103050 := "ほかの曲者が昇鯉と同じテンポに変化します。",
    103060 := "もうひとりも倒してしまいましょう。",
    103070 := "お見事です。",
    104000 := "曲者の人数が増えても同じ要領で倒していきます。",
    105000 := "忍者のテンポの取り方は他の敵と少し違います。",
    105010 := "汚いなさすが忍者きたない。",
    105020 := "でも倒し方は同じです。テンポを見切りましょう。",
    106000 := "これで遊戯指南は終了です。",
    106010 := "「物語」ではストーリモードが、",
    106020 := "「腕試し」ではスピードランモードが遊べます。"
  ]

  /** Messages of wave 1. (WaveCommands.cs:342-353) */
  const Wave1Messages: map<int, string> := map[
    200000 := "昇鯉辰雄はひとり故国への道を急いでいた。",
    200010 := "<color=#ff8080ff>？？「おうおう、そこ行くお侍さんよお」</color>",
    200020 := "<color=#ff8080ff>？？「命が惜しけりゃみぐるみを置いていきな」</color>",
    200030 := "<color=#40c040ff>辰雄「何かと思えば野盗か」</color>",
    200040 := "<color=#40c040ff>辰雄「貴様らでは相手にならん。出直せ。」</color>",
    200050 := "<color=#ff8080ff>野盗「なんだと！　やっちまえ！」</color>",
    201000 := "<color=#40c040ff>辰雄「ふん、たわいもない。」</color>",
    201010 := "<color=#40c040ff>辰雄「しかしなぜこのようなところにまで野盗が？」</color>",
    201020 := "<color=#40c040ff>辰雄「やはり何かがあったのだろうか」</color>",
    201030 := "国を思う心でテンポがアップした。"
  ]

  /** Messages of wave 2. (WaveCommands.cs:355-378) */
  const Wave2Messages: map<int, string> := map[
    300010 := "<color=#ff8080ff>侍「そこもと、この先への立ち入りはまかりならん」</color>",
    300020 := "<color=#40c040ff>辰雄「我が名は昇鯉辰雄、この国の武士である」</color>",
    300030 := "<color=#40c040ff>辰雄「何があったかは知らぬが通して頂きたい」</color>",
    300040 := "<color=#ff8080ff>侍「昇鯉辰雄！？　殿を弑した謀反人か！？」</color>",
    300050 := "<color=#40c040ff>辰雄「なっ、どういうことだ！」</color>",
    300060 := "<color=#ff8080ff>侍「昇鯉辰雄は見つけ次第殺せとの命令だ！」</color>",
    300070 := "<color=#ff8080ff>侍「であえ！　であえ！」</color>",
    300080 := "<color=#40c040ff>辰雄「くっ、問答無用か！」</color>",
    301000 := "<color=#ff8080ff>？？「息子よ、よくぞ戻って参った」</color>",
    301010 := "<color=#40c040ff>辰雄「父上、これはどういうことですか？」</color>",
    301020 := "<color=#ff8080ff>父「家老のひとりである湯煮亭（ゆにてい）が」</color>",
    301030 := "<color=#ff8080ff>父「殿を弑したのだ」</color>",
    301040 := "<color=#ff8080ff>父「そなたに罪を被せてな」</color>",
    301050 := "<color=#40c040ff>辰雄「父上はそれを黙ってみていたのですか！」</color>",
    301060 := "<color=#ff8080ff>父「悲しいかな、わしには流れに逆らう度胸も力もない」</color>",
    301070 := "<color=#ff8080ff>父「だが息子よ、そなたにはその力がある」</color>",
    301080 := "<color=#ff8080ff>父「わしを打ち倒し、しかばねを越えてゆけ」</color>",
    302000 := "<color=#ff8080ff>父「この国を、頼んだ、ぞ……ぐふっ」</color>",
    302010 := "<color=#40c040ff>辰雄「父上……」</color>",
    302020 := "怒りの心でテンポがアップした。"
  ]

  /** Messages of wave 3 and the ending. (WaveCommands.cs:380-392) */
  const Wave3Messages: map<int, string> := map[
    400000 := "<color=#ff8080ff>？？「使えない鯉だ、反逆者の息子も殺せんとは」</color>",
    400010 := "<color=#40c040ff>辰雄「湯煮亭！　どこだ！」</color>",
    401000 := "<color=#40c040ff>辰雄「湯煮亭！　見つけたぞ！」</color>",
    401010 := "<color=#ff8080ff>湯煮亭「くっ、鯉ごときに我が野望がっ！」</color>",
    401020 := "<color=#40c040ff>辰雄「違うぞ湯煮亭。父も私もただの鯉ではない」</color>",
    401030 := "<color=#40c040ff>辰雄「昇り鯉、龍になるものだっ！」</color>",
    402000 := "<color=#ff8080ff>湯煮亭「うぼぁー」</color>",
    402010 := "<color=#40c040ff>辰雄「父上……湯煮亭は打ち果たしました」</color>",
    402020 := "そうつぶやくと昇鯉辰雄は真っ直ぐ駆けていった。",
    402030 := "故国の未来へと向かって。"
  ]

  /** Enemy groups of the tutorial. (WaveCommands.cs:413-438) */
  const TutorialEnemySets: map<int, seq<EnemyParam>> := map[
    102000 := [
      Enemy(Rohnin, Move, 4, 0)
    ],
    103000 := [
      Enemy(Rohnin, Move, 3, 0),
      Enemy(Rohnin, Move, 5, 0)
    ],
    104000 := [
      Enemy(Rohnin, Move, 3, -2),
      Enemy(Rohnin, Move, 5, 0),
      Enemy(Rohnin, Move, 3, 2)
    ],
    105000 := [
      Enemy(XinobiBlack, Move, 3, -2),
      Enemy(XinobiBlack, Move, 5, 0),
      Enemy(XinobiBlack, Move, 3, 2)
    ]
  ]

  /** Enemy groups of wave 1. (WaveCommands.cs:439-467) */
  const Wave1EnemySets: map<int, seq<EnemyParam>> := map[
    200000 := [
      Enemy(Rohnin, Move, 3, -1),
      Enemy(Rohnin, Move, 5, 1)
    ],
    200010 := [
      Enemy(Rohnin, Move, 3, -2),
      Enemy(Rohnin, Move, 5, 0),
      Enemy(Rohnin, Move, 3, 2)
    ],
    200020 := [
      Enemy(Rohnin, Move, 5, -2),
      Enemy(Rohnin, Move, 3, 0),
      Enemy(Rohnin, Move, 5, 2)
    ],
    200030 := [
      Enemy(Rohnin, Move, 2, 0),
      Enemy(Rohnin, Move, 4, -2),
      Enemy(Rohnin, Move, 6, 0),
      Enemy(Rohnin, Move, 4, 2)
    ]
  ]

  /** Enemy groups of wave 2. (WaveCommands.cs:468-508) */
  const Wave2EnemySets: map<int, seq<EnemyParam>> := map[
    300000 := [
      Enemy(SamuraiLow, Move, 3, -2),
      Enemy(SamuraiLow, Move, 5, 0),
      Enemy(SamuraiLow, Move, 3, 2)
    ],
    300010 := [
      Enemy(SamuraiLow, Move, 5, -2),
      Enemy(SamuraiHigh, Move, 3, 0),
      Enemy(SamuraiLow, Move, 5, 2)
    ],
    300020 := [
      Enemy(SamuraiLow, Move, 2, 0),
      Enemy(SamuraiHigh, Move, 4, -2),
      Enemy(SamuraiLow, Move, 6, 0),
      Enemy(SamuraiHigh, Move, 4, 2)
    ],
    300030 := [
      Enemy(SamuraiHigh, Move, 0, 0),
      Enemy(SamuraiLow, Move, 5, -2),
      Enemy(SamuraiHigh, Move, 2, 0),
      Enemy(SamuraiLow, Move, 3, 2),
      Enemy(XinobiBlack, Move, 6, 0)
    ],
    300040 := [
      Enemy(Father, Move, 4, 0),
      Enemy(SamuraiHigh, Move, 2, 1),
      Enemy(SamuraiHigh, Move, 6, -1),
      Enemy(XinobiBlack, Move, 3, -2),
      Enemy(XinobiBlack, Move, 5, 2)
    ]
  ]

  /** Enemy groups of wave 3. (WaveCommands.cs:509-554) */
  const Wave3EnemySets: map<int, seq<EnemyParam>> := map[
    400000 := [
      Enemy(SamuraiLow, Move, 3, -2),
      Enemy(SamuraiHigh, Move, 5, 0),
      Enemy(XinobiBlack, Move, 0, 0),
      Enemy(XinobiWhite, Fade, 3, 2)
    ],
    400010 := [
      Enemy(SamuraiLow, Move, 5, -2),
      Enemy(SamuraiHigh, Move, 3, 0),
      Enemy(SamuraiLow, Move, 5, 2),
      Enemy(SamuraiLow, Move, 0, 2),
      Enemy(SamuraiLow, Move, 0, -2)
    ],
    400020 := [
      Enemy(XinobiWhite, Fade, -4, 0)
    ],
    400030 := [
      Enemy(SamuraiHigh, Move, 0, 0),
      Enemy(SamuraiLow, Move, 5, -2),
      Enemy(SamuraiHigh, Move, 2, 0),
      Enemy(SamuraiLow, Move, 3, 2),
      Enemy(XinobiBlack, Move, 6, 0),
      Enemy(XinobiWhite, Fade, 1, 2),
      Enemy(XinobiWhite, Fade, 1, -2)
    ],
    400040 := [
      Enemy(Unity, Move, 4, 0),
      Enemy(XinobiBlack, Move, 2, 1),
      Enemy(XinobiWhite, Fade, 6, -1),
      Enemy(SamuraiHigh, Move, 3, -2),
      Enemy(SamuraiHigh, Move, 5, 2),
      Enemy(SamuraiLow, Move, 0, 2),
      Enemy(SamuraiLow, Move, 0, -2),
      Enemy(XinobiWhite, Fade, -4, 0)
    ]
  ]


  /** The tutorial between its opening and closing blocks. */
  const TutorialLessons: seq<WaveCommand> :=
    TutorialHero + TutorialFirstEnemy + TutorialTwoEnemies + TutorialThreeEnemies + TutorialNinjas

  /** The tutorial script. */
  const TutorialWaveCommands: seq<WaveCommand> := TutorialGreeting + TutorialLessons + TutorialClosing

  const InGameWave1: seq<WaveCommand> := Wave1Bandits + Wave1Aftermath
  const InGameWave2: seq<WaveCommand> := Wave2Guards + Wave2Father + Wave2FatherFalls
  const InGameWave3: seq<WaveCommand> := Wave3Retainers + Wave3Usurper

  /** The three waves, each compiled in by its own `ENABLE_WAVE` symbol. */
  const InGameWaves: seq<WaveCommand> := InGameWave1 + InGameWave2 + InGameWave3

  /** The in-game script with all three waves enabled. */
  const InGameWaveCommands: seq<WaveCommand> := InGameOpening + InGameWaves + InGameEnding

  /** The message table (WaveCommands.cs:316-393). */
  const MessageMap: map<int, string> := TutorialMessages + Wave1Messages + Wave2Messages + Wave3Messages

  /** The enemy group table (WaveCommands.cs:411-555); positions in grid cells. */
  const EnemySetMap: map<int, seq<EnemyParam>> := TutorialEnemySets + Wave1EnemySets + Wave2EnemySets + Wave3EnemySets

  /** `WaveCommands.GetWaveCommands`. */
  function GetWaveCommands(tutorial: bool): (r: seq<WaveCommand>)
    ensures tutorial ==> r == TutorialWaveCommands
    ensures !tutorial ==> r == InGameWaveCommands
  {
    if tutorial then TutorialWaveCommands else InGameWaveCommands
  }

  /** `WaveMessages.GetMessage`: the text of a known id, otherwise empty. */
  function GetMessage(messageId: int): (r: string)
    ensures messageId in MessageMap ==> r == MessageMap[messageId]
    ensures messageId !in MessageMap ==> r == ""
  {
    if messageId in MessageMap then MessageMap[messageId] else ""
  }

  /** `WaveEnemies.GetEnemies`: the group of a known id, otherwise empty. */
  function GetEnemies(enemySetId: int): (r: seq<EnemyParam>)
    ensures enemySetId in EnemySetMap ==> r == EnemySetMap[enemySetId]
    ensures enemySetId !in EnemySetMap ==> r == []
  {
    if enemySetId in EnemySetMap then EnemySetMap[enemySetId] else []
  }
}
