/** The application shell: a screen state machine (title, character
    creation, playing) that resumes from a key-value store and has a save
    operation, which no code in the app calls; the save lemmas state what
    a call would give.
    The browser's storage is the `store` map; a stored entry is either a
    parsed save record, text that fails to parse, or the empty string. */
module Session {
  import opened Wrappers
  import opened Types

  datatype Screen = Title | CharacterCreation | Playing

  /** A JavaScript value that may be `undefined`, `null` or present. */
  datatype Nullable<T> = Undefined | Null | Value(value: T)

  /** The save record; records written by older versions may lack the
      enemy or the party, hence `Nullable`. */
  datatype SavedGame = SavedGame(
    character: Character,
    storyLog: seq<string>,
    isInCombat: bool,
    enemy: Nullable<Enemy>,
    party: Nullable<seq<Ally>>,
    settings: Settings)

  datatype Stored = Json(game: SavedGame) | Malformed | Blank

  type Store = map<string, Stored>

  const SaveKey: string := "dungeon-master-ia-save"

  const DefaultSettings := Settings(false, 0.7, 50)

  /** The shell's state plus the store it reads and writes. */
  datatype App = App(
    screen: Screen,
    savedGame: Option<SavedGame>,
    character: Option<Character>,
    storyLog: seq<string>,
    isLoading: bool,
    settings: Settings,
    isInCombat: bool,
    enemy: Nullable<Enemy>,
    party: Nullable<seq<Ally>>,
    loot: seq<Item>,
    store: Store)

  /** The state on first render, before the load effect runs. */
  function Initial(store: Store): (app: App)
    ensures app.screen == Title && app.settings == DefaultSettings
    ensures app.savedGame.None? && app.character.None? && app.storyLog == []
    ensures app.enemy == Null && app.party == Value([]) && !app.isInCombat && !app.isLoading
    ensures app.loot == [] && app.store == store
  {
    App(Title, None, None, [], false, DefaultSettings, false, Null, Value([]), [], store)
  }

  /** The mount effect: read the save slot; a record that fails to parse is deleted. */
  function Load(app: App): (r: App)
    ensures SaveKey in app.store && app.store[SaveKey].Json? ==>
              r == app.(savedGame := Some(app.store[SaveKey].game))
    ensures SaveKey in app.store && app.store[SaveKey].Malformed? ==>
              r == app.(store := app.store - {SaveKey}) && SaveKey !in r.store
    ensures SaveKey !in app.store || app.store[SaveKey].Blank? ==> r == app
  {
    if SaveKey !in app.store then app
    else match app.store[SaveKey]
      case Json(game) => app.(savedGame := Some(game))
      case Malformed => app.(store := app.store - {SaveKey})
      case Blank => app
  }

  /** Opening the application on a store. */
  function Mount(store: Store): App {
    Load(Initial(store))
  }

  /** `enemy || null`. */
  function NormalizeEnemy(e: Nullable<Enemy>): (r: Nullable<Enemy>)
    ensures !r.Undefined?
    ensures e.Value? ==> r == e
    ensures !e.Value? ==> r == Null
  {
    if e.Value? then e else Null
  }

  /** `party || []`. */
  function NormalizeParty(p: Nullable<seq<Ally>>): (r: Nullable<seq<Ally>>)
    ensures r.Value?
    ensures p.Value? ==> r == p
    ensures !p.Value? ==> r == Value([])
  {
    if p.Value? then p else Value([])
  }

  /** The record `saveGame` writes for a state that has a character. */
  function Snapshot(app: App): SavedGame
    requires app.character.Some?
  {
    SavedGame(app.character.value, app.storyLog, app.isInCombat,
              NormalizeEnemy(app.enemy), NormalizeParty(app.party), app.settings)
  }

  /** `saveGame`: with a character, write the full record to the slot and
      remember it; `writeOk` is false when the storage write throws. */
  function Save(app: App, writeOk: bool): (r: App)
    ensures app.character.None? || !writeOk ==> r == app
    ensures app.character.Some? && writeOk ==>
              && r.savedGame.Some? && r.store == app.store[SaveKey := Json(r.savedGame.value)]
              && r.savedGame.value.character == app.character.value
              && r.savedGame.value.storyLog == app.storyLog
              && r.savedGame.value.isInCombat == app.isInCombat
              && r.savedGame.value.settings == app.settings
              && r.savedGame.value.enemy == (if app.enemy.Value? then app.enemy else Null)
              && r.savedGame.value.party == (if app.party.Value? then app.party else Value([]))
              && r.(savedGame := app.savedGame, store := app.store) == app
  {
    if app.character.Some? && writeOk then
      var record := Snapshot(app);
      app.(store := app.store[SaveKey := Json(record)], savedGame := Some(record))
    else app
  }

  /** `handleStartNew`: with a saved game the player must confirm, and
      confirming wipes the slot and the session; without one, go straight
      to character creation. */
  function StartNew(app: App, confirmed: bool): (r: App)
    ensures app.savedGame.Some? && !confirmed ==> r == app
    ensures app.savedGame.Some? && confirmed ==>
              && r.screen == CharacterCreation && SaveKey !in r.store && r.store == app.store - {SaveKey}
              && r.savedGame.None? && r.character.None? && r.storyLog == []
              && r.enemy == Null && r.party == Value([]) && r.loot == []
              && r.settings == app.settings && r.isInCombat == app.isInCombat && r.isLoading == app.isLoading
    ensures app.savedGame.None? ==> r == app.(screen := CharacterCreation)
  {
    if app.savedGame.Some? then
      if confirmed then
        app.(store := app.store - {SaveKey}, savedGame := None, character := None, storyLog := [],
             enemy := Null, party := Value([]), loot := [], screen := CharacterCreation)
      else app
    else app.(screen := CharacterCreation)
  }

  /** `handleContinue`: restore the remembered record and start playing. */
  function Continue(app: App): (r: App)
    ensures app.savedGame.None? ==> r == app
    ensures app.savedGame.Some? ==>
              var g := app.savedGame.value;
              && r.screen == Playing && r.character == Some(g.character) && r.storyLog == g.storyLog
              && r.isInCombat == g.isInCombat && r.enemy == g.enemy && r.party == g.party
              && r.settings == g.settings
              && r.savedGame == app.savedGame && r.store == app.store
              && r.loot == app.loot && r.isLoading == app.isLoading
  {
    if app.savedGame.Some? then
      var g := app.savedGame.value;
      app.(character := Some(g.character), storyLog := g.storyLog, isInCombat := g.isInCombat,
           enemy := g.enemy, party := g.party, settings := g.settings, screen := Playing)
    else app
  }

  /** The opening line of a new adventure. */
  function IntroText(c: Character): string {
    "Te llamas " + c.name + ", un " + RaceName(c.race) + " " + ClassName(c.characterClass)
      + ". La aventura comienza..."
  }

  /** `handleCharacterCreate`: a one-line log, no enemy, no party, out of
      combat, waiting for the first narration. */
  function CharacterCreated(app: App, c: Character): (r: App)
    ensures r.screen == Playing && r.character == Some(c)
    ensures |r.storyLog| == 1 && r.storyLog[0] == IntroText(c)
    ensures r.enemy == Null && r.party == Value([]) && !r.isInCombat && r.isLoading
    ensures r.savedGame == app.savedGame && r.store == app.store && r.settings == app.settings
    ensures r.loot == app.loot
  {
    app.(character := Some(c), storyLog := [IntroText(c)], isInCombat := false,
         enemy := Null, party := Value([]), screen := Playing, isLoading := true)
  }

  /** A `Partial<Settings>`. */
  datatype SettingsPatch = SettingsPatch(ttsEnabled: Option<bool>, volume: Option<real>, textSpeed: Option<int>)

  /** `handleSettingsChange`: merge the partial into the current settings. */
  function ChangeSettings(app: App, patch: SettingsPatch): (r: App)
    ensures Overridden(patch.ttsEnabled, app.settings.ttsEnabled, r.settings.ttsEnabled)
    ensures Overridden(patch.volume, app.settings.volume, r.settings.volume)
    ensures Overridden(patch.textSpeed, app.settings.textSpeed, r.settings.textSpeed)
    ensures r.(settings := app.settings) == app
  {
    app.(settings := Settings(patch.ttsEnabled.GetOr(app.settings.ttsEnabled),
                              patch.volume.GetOr(app.settings.volume),
                              patch.textSpeed.GetOr(app.settings.textSpeed)))
  }

  /** Saving and then continuing restores the session exactly, up to the
      `undefined`-to-`null`/`[]` normalisation of enemy and party. */
  lemma SaveContinueRoundTrip(app: App)
    requires app.character.Some?
    ensures var r := Continue(Save(app, true));
            && r.screen == Playing && r.character == app.character && r.storyLog == app.storyLog
            && r.isInCombat == app.isInCombat && r.settings == app.settings
            && r.enemy == NormalizeEnemy(app.enemy) && r.party == NormalizeParty(app.party)
            && (app.enemy != Undefined ==> r.enemy == app.enemy)
            && (app.party.Value? ==> r.party == app.party)
  {
  }

  /** Saving, closing the application, reopening it on the same store and
      continuing restores the saved session. */
  lemma SaveReloadContinue(app: App)
    requires app.character.Some?
    ensures var r := Continue(Mount(Save(app, true).store));
            && r.screen == Playing && r.character == app.character && r.storyLog == app.storyLog
            && r.isInCombat == app.isInCombat && r.settings == app.settings
            && r.enemy == NormalizeEnemy(app.enemy) && r.party == NormalizeParty(app.party)
  {
  }

  /** Saving an unchanged state twice writes the same slot as saving once. */
  lemma SaveIdempotent(app: App)
    ensures Save(Save(app, true), true) == Save(app, true)
  {
  }

  /** A slot holding unparseable text leaves nothing to continue: the slot
      is gone and Continue is a no-op. */
  lemma CorruptSaveIsDiscarded(store: Store)
    requires SaveKey in store && store[SaveKey].Malformed?
    ensures var app := Mount(store);
            SaveKey !in app.store && app.savedGame.None? && Continue(app) == app && app.screen == Title
  {
  }
}
