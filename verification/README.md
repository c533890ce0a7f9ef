# Dungeon Master IA — story/state engine in Dafny

This project models the rules-bearing core of a browser role-playing game in
which a language model acts as the Dungeon Master (the narrator). The player
types actions. The narrator answers with a loosely-typed `DMResponse`: story
text plus optional state changes. The game merges that reply into its state.

Modelled, one Dafny module per concern:

- `Types` (`types.dfy`): the data model. It has `Item`, `Spell`, `Skill`,
  `Character`, a `CharacterPatch` for `Partial<Character>`, `Ally`, `Enemy`,
  `AllyUpdate`, `DMResponse`, `GameState`, `GameAction` and `Settings`. Every
  optional TypeScript field is an `Option`.
- `Reducer`, `Inventory`, `Party`: the story/state reducer of
  `context/GameContext.tsx`. It appends to the story log and shallow-merges
  the character update. It stacks loot by item name, appends and updates
  party members by name, and runs the enemy appear/remove rule and the
  ambience fallback.
- `TypingEffect`: the per-tick reveal step of `hooks/useTypingEffect.ts`.
  The timer is dropped.
- `ClassDefaults` and `Creation`: the class table of `constants.tsx`, and the
  cooldown slider and submit handler of the character-creation form.
- `Session`: the application shell of `App.tsx`, as a screen state machine
  (title, character creation, playing). Browser storage is an explicit
  key-value map.
- `GameUi`: the text-input gate of the game screen (`handleSubmit`; the
  skill buttons bypass it) and the choice of text to type out.
- `Text`: JavaScript's `String.prototype.trim`. `Wrappers`: `Option`,
  `Result` and the spread-merge predicate `Overridden`.

Modelling choices:

- The repository's types disagree with each other. The model follows the
  code that uses them:
  - `Skill` has the shape the class table uses: `cooldown` and
    `currentCooldown`, with the JSX `icon` dropped. The `iconName` shape of
    `types.ts` is not used.
  - The classes are `Guerrero | Mago | Picaro | Clerigo`. This repairs the
    source: `constants.tsx` keys its table by `CharacterClass.Picaro` and
    `CharacterClass.Clerigo`, which `types.ts` does not define (it spells
    them `Pícaro` and `Clérigo`), so as written both rows land on the key
    "undefined" and those two classes find no defaults. The model gives
    each class its intended row. The display strings are the `types.ts`
    enum values, so `Picaro` displays as "Pícaro" and `Clerigo` as
    "Clérigo".
  - Races are the four of `types.ts`.
  - `GameState.map` is named `mapText`, because `map` is a Dafny keyword.
  - `App.tsx` imports `GameState` and `SavedGame` from `types.ts`, which
    defines neither (its `GameState` is the game-state record). This
    repairs the source: `Session.Screen` is rebuilt from App's use of
    `GameState.TITLE`, `CHARACTER_CREATION` and `PLAYING`, and
    `Session.SavedGame` from the `gameToSave` literal of `saveGame`.
- JavaScript truthiness is written out where the code relies on it:
  - An empty `playerAction` adds no player line.
  - An empty reply `ambience` keeps the old ambience.
  - An empty last log line shows the opening line.
  - An empty stored string is not parsed.
- In `App.tsx`, `enemy` and `party` can be `undefined` after resuming an
  older save. The model gives them a three-valued `Nullable` type, so that
  the `enemy || null` and `party || []` normalisation of `saveGame` shows.
- `window.confirm` is a boolean input to `StartNew`. A storage write that
  throws is the boolean `writeOk` of `Save`.

The reducer does less than one might expect of a game engine. The
reducer does not clamp hp or mp. It does not convert xp into levels, does
not tick skill cooldowns, and does not de-duplicate new party members. It
also lets a character update overwrite array fields such as the inventory.
The model follows the code on every one of these points and claims none of
the described behaviour. `App.tsx` keeps its own session state and does not
call the reducer. `Session` models it as written.

## Model

| member | source | states |
|---|---|---|
| Reducer.Reduce | context/GameContext.tsx:11-64 | SET_GAME_STATE returns its payload and discards the old state. APPEND_STORY on a null state returns null. SET_AMBIENCE and COMPLETE_LEVEL_UP return the state unchanged. APPEND_STORY keeps location, map and level-up flag, grows the log by two entries with a non-empty player action and by one without, keeps every earlier entry, ends the log with the story text, and grows the party by exactly the number of new members. |
| Reducer.AppendLog | context/GameContext.tsx:19 | The log keeps its old entries as a prefix. With a non-empty action it gains `"> " + action` and then the story text, otherwise only the story text. |
| Reducer.ApplyPatch | context/GameContext.tsx:21-24 | Each of the fifteen character fields takes the update's value when that key is present and keeps its value when absent. |
| Reducer.PatchLaws | context/GameContext.tsx:21-24 | The empty update leaves the character as it was, and applying an update twice equals applying it once. |
| Reducer.NextCharacter | context/GameContext.tsx:21-37 | Only the inventory differs from the merged character, and each name's total quantity grows by exactly that name's looted quantity. With no update and no loot the character is unchanged. |
| Reducer.NextEnemy | context/GameContext.tsx:50-52 | A new enemy wins over a removal. A removal alone yields no enemy. Neither keeps the current enemy. |
| Reducer.EnemyAppearsThenLeaves | context/GameContext.tsx:50-52 | Over two turns, a reply with a new enemy sets it, and a later reply with only a removal clears it. |
| Reducer.NextAmbience | context/GameContext.tsx:60 | A non-empty reply ambience replaces the old one. An absent or empty one keeps the old value. |
| Reducer.AppendStoryInventory | context/GameContext.tsx:26-37 | When the reply carries no inventory in its character update (scalar hp, mp and xp changes allowed), a turn keeps inventory names unique and adds each looted quantity to its name's holding. Items whose name is not looted stay unchanged at the same position. |
| Reducer.FallbackOnlyAdvancesLog | services/geminiService.ts:117-119 | The error fallback carries only story text. Reducing it changes the log and nothing else. |
| Reducer.EventIgnored | types.ts:74 | The reply's `event` tag has no effect on the reducer's result. |
| Inventory.IndexOfName | context/GameContext.tsx:29 | Returns the first index holding the name, or -1 exactly when no entry has it. |
| Inventory.StackOne | context/GameContext.tsx:29-34 | A known name adds the loot quantity to its first entry, the one `find` picks, even when the name occurs more than once, and keeps the length. An unknown name is appended as-is. Other entries are untouched, per-name totals are conserved, and unique names stay unique. |
| Inventory.StackLoot | context/GameContext.tsx:26-37 | Old entries keep their names and positions, and entries of a name no loot item carries are untouched. The inventory grows by at most the loot's length. Unique-by-name inventories stay unique. |
| Inventory.StackLootTotals | context/GameContext.tsx:28-35 | Quantity is conserved: each name's total after stacking is its old total plus the quantity looted under that name. |
| Inventory.StackLootNames | context/GameContext.tsx:28-35 | The names held after stacking are exactly the old names plus the looted names. |
| Inventory.StackLootAppend | context/GameContext.tsx:28-35 | Stacking loot list `a` and then `b` equals stacking `a + b`, so the loop is a left fold. |
| Inventory.StackKnownName | context/GameContext.tsx:29-31 | In a unique-by-name inventory, an owned item's quantity grows by the total looted under its name. |
| Inventory.DuplicateNewLootStacks | context/GameContext.tsx:29-33 | Two looted items of one new name become a single appended entry that holds both quantities. |
| Party.UpdateFor | context/GameContext.tsx:45 | Returns the first report naming the ally, and none exactly when no report names it. |
| Party.ApplyUpdates | context/GameContext.tsx:43-48 | Reports never add or remove allies. They change only hp and maxHp, and only of allies they name, taking the first matching report's values. Unnamed allies are unchanged. |
| Party.NextParty | context/GameContext.tsx:39-48 | The party grows by exactly the number of new members, with no de-duplication. Old members keep their names and order. New members follow in order. Allies no report names keep everything, hp and maxHp included. With reports, they apply to the grown party, so new members are updated too. |
| Party.ApplyUpdatesIdempotent | context/GameContext.tsx:43-48 | Applying the same reports a second time changes nothing. |
| ClassDefaults.DefaultsFor | constants.tsx:32-56 | Every class starts at full hp and mp and with xpToNextLevel 100. Each has one item of quantity 1 and one skill with currentCooldown 0 and cooldown in [2, 5]. Mago and Clerigo have two spells, the others none. |
| Creation.ClampCooldown | components/CharacterCreation.tsx:21 | The result lies in [2, 5]. Values inside the range pass through, and values outside it go to the nearer bound. |
| Creation.SetCooldown | components/CharacterCreation.tsx:18-24 | List length and order are kept. Skills with the given name get the clamped cooldown and nothing else changes. All other skills are unchanged. |
| Creation.SetCooldownIdempotent | components/CharacterCreation.tsx:18-24 | Repeating the same slider move has no further effect. |
| Creation.CreateCharacter | components/CharacterCreation.tsx:26-43 | An empty or all-whitespace name is refused. Otherwise the character has the trimmed, non-empty name, level 1 and xp 0, and the chosen race, class and skills. Every other stat comes from the class table. |
| Creation.CreatedCharacterIsFresh | components/CharacterCreation.tsx:32-41 | A new character with slider-adjusted default skills starts at full hp and mp, with 0 xp below the threshold and one item. Every skill cooldown is within [2, 5] and every current cooldown is 0. |
| TypingEffect.IndexOf | hooks/useTypingEffect.ts:30 | `indexOf`: the first position at or after `from` holding the character, or -1 exactly when none does. |
| TypingEffect.Start | hooks/useTypingEffect.ts:12-20 | With speed 0 or empty text the whole text shows at once. Otherwise the reveal starts at index 0. Either way the shown text is a prefix. |
| TypingEffect.Tick | hooks/useTypingEffect.ts:22-43 | At the end a tick does nothing. Otherwise the index strictly increases and stays within the text, and exactly the scanned slice is appended. The prefix invariant is preserved. |
| TypingEffect.TickAdvance | hooks/useTypingEffect.ts:28-41 | A non-`<` character, or a `<` with no later `>`, advances the index by one. A `<` with a later `>` advances it to just past the first such `>`. |
| TypingEffect.TagRevealedWhole | hooks/useTypingEffect.ts:29-33 | A `<` with a later `>` is revealed in one tick through the first `>` and no further. |
| TypingEffect.TicksReachEnd | hooks/useTypingEffect.ts:22-43 | From any valid state, `|text|` more ticks show the full text. |
| TypingEffect.TicksStayAtEnd | hooks/useTypingEffect.ts:23-26 | Once everything is shown, further ticks change nothing. |
| TypingEffect.RevealAll | hooks/useTypingEffect.ts:12-43 | Running the effect ends with the full text after at most `|text|` revealing ticks, and after none with speed 0 or empty text. |
| Session.Initial | App.tsx:12-27 | The app starts on the title screen with settings `{ttsEnabled: false, volume: 0.7, textSpeed: 50}`, no character, no saved game, an empty log and no loot. |
| Session.Load | App.tsx:29-39 | A parsed record becomes the saved game. Unparseable text is removed from the store and leaves no saved game. A missing or empty slot changes nothing. |
| Session.NormalizeEnemy | App.tsx:51 | The `enemy or null` fallback: never undefined, and an enemy is kept. |
| Session.NormalizeParty | App.tsx:52 | The `party or []` fallback: always an array, and an array is kept. |
| Session.Save | App.tsx:45-62 | Without a character, or when the write fails, nothing changes. Otherwise the slot holds the full record and it becomes the saved game: character, log, combat flag and settings as they are, enemy normalised to null, party normalised to []. Nothing else changes. |
| Session.StartNew | App.tsx:64-79 | Declining the confirmation changes nothing. Confirming clears the slot, saved game, character, log, enemy, party and loot, and opens character creation. Settings, combat flag and loading flag are kept. Without a saved game it only opens character creation. |
| Session.Continue | App.tsx:81-91 | Without a saved game nothing changes. Otherwise character, log, combat flag, enemy, party and settings come from the record and the screen is Playing. |
| Session.CharacterCreated | App.tsx:93-101 | A new character gives a one-entry log with the intro line, no enemy, an empty party, out of combat, loading, and the Playing screen. Loot, settings, the saved game and the store are kept. |
| Session.ChangeSettings | App.tsx:103-105 | Settings fields present in the partial take its values. Absent fields keep theirs. Nothing else changes. |
| Session.SaveContinueRoundTrip | App.tsx:45-91 | Save then continue restores character, log, combat flag and settings exactly, and enemy and party up to the undefined-to-null/[] normalisation. It ends in Playing. |
| Session.SaveReloadContinue | App.tsx:29-91 | Save, reopen the app on the same store, continue: every modelled field of the saved session comes back. Skill icons are not modelled; see Left out. |
| Session.SaveIdempotent | App.tsx:45-62 | Saving an unchanged session again leaves the same store and saved game. |
| Session.CorruptSaveIsDiscarded | App.tsx:29-39 | Opening on an unparseable slot deletes it, stays on the title screen, and makes Continue a no-op. |
| GameUi.HandleSubmit | components/GameUI.tsx:46-52 | An action is sent exactly when the input is not blank and the narrator is not thinking. The action sent is the trimmed, non-empty input, and the box is cleared. A refused submit leaves the input as it was. |
| GameUi.LastStoryText | components/GameUI.tsx:39 | Shows the last log line, or "La aventura comienza..." when the log is empty or its last line is empty. It is never empty. |
| GameUi.AcceptedTurnIsLogged | components/GameUI.tsx:48-50 | If the parent dispatches the accepted action as APPEND_STORY's `playerAction`, the log gains `"> " + trimmed input` followed by the reply, and the reply becomes the text on screen. The source never makes that connection; see Left out. |
| GameUi.SubmitStable | components/GameUI.tsx:46-52 | While the narrator is thinking every submit is refused. A sent action, resubmitted, is sent unchanged. |
| Text.Trim | components/GameUI.tsx:48 | The result has no whitespace at either end. It is the input without its leading and trailing whitespace runs, and it is empty exactly when the input is all whitespace. |
| Text.TrimIdempotent | components/CharacterCreation.tsx:28-35 | Trimming a trimmed string changes nothing. |

## Left out

- Network and model calls (`api/`, `services/geminiService.ts`): outside the
  model. Their error fallback appears only as `Types.Narration`, one more
  reply for the reducer.
- JSON serialisation and `localStorage`: the store holds parsed records
  directly. A stored text that parses into something other than a save
  record is not modelled.
- Timers: the interval and the effect's cleanup are dropped. Only the
  callback body (`Tick`) and the immediate branch (`Start`) are modelled.
- Aliasing: the loot loop adds quantities by mutating the item object that
  the previous state's inventory shares. The value model computes the new
  state correctly but cannot show that the old state is changed too. The
  same mutation reaches the class table: `{...defaults}` in
  `CharacterCreation.tsx` copies only the top level, so a new character's
  items are the table's own objects, and the first loot of such a name
  raises the table's quantity for the rest of the page session.
  `ClassDefaults.DefaultsFor`'s "one item of quantity 1" holds only until
  then in the source.
- Session.Save: nothing in the source calls `saveGame`. `App.tsx` passes it
  to `GameUI` as a prop, but `GameUI` declares and takes no such prop, so
  the app as written never writes the save slot, and `Continue` can only
  resume a record written elsewhere. `Session.SaveContinueRoundTrip`,
  `Session.SaveReloadContinue` and `Session.SaveIdempotent` state what a
  call to it would give.
- GameUi.HandleSubmit: the skill buttons of the game screen send
  `"Uso la habilidad: " + name` straight to `onPlayerAction`, with no
  blank-input or `isDMThinking` check, so the gate is not the only way an
  action is sent. The buttons are not modelled.
- GameUi.AcceptedTurnIsLogged: the source never connects the submit gate
  to the reducer. `App.tsx` renders `GameUI` without `onPlayerAction` or
  `isDMThinking`, and no code dispatches APPEND_STORY, so as written an
  accepted submit calls an undefined function before the input is cleared.
  The lemma states what the gate and the reducer give when composed.
- Session.SaveReloadContinue: if a save were made, the reload would go through
  `JSON.stringify` and `JSON.parse`. Each default skill carries a JSX
  `icon` element, which comes back as a plain object that React refuses to
  render, so a reloaded session with default skills does not
  come back intact. The model drops the icon and stores records directly;
  the lemma covers the modelled fields only.
- TypingEffect.Tick, TypingEffect.IndexOf and TypingEffect.RevealAll count
  code points, as Dafny strings do. JavaScript's `length`, indexing and
  `indexOf` count UTF-16 code units, so a character outside the Basic
  Multilingual Plane (an emoji) takes two ticks in the source, with a lone
  surrogate shown in between, and one tick in the model. Tick counts and
  the `|text|` bounds agree only for text without such characters.
- Explicit `null` values inside a reply, which a spread would copy: an
  absent key and a present value are the only cases modelled.
- Numbers are unbounded integers. The volume is a `real` and is never used
  in arithmetic. Fractional quantities and hit points, NaN and floating
  point are not modelled.
- Audio, speech, API polling, the presentational components, the race
  description and image tables, and the skill icons: display or I/O only.
- The reducer's provider and hook, and the `isLoading` transitions made
  outside `handleCharacterCreate`: plumbing with no rule attached.
