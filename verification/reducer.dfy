/** The story/state reducer: merges a narrator reply into the game state. */
module Reducer {
  import opened Wrappers
  import opened Types
  import Inventory
  import Party

  /** JavaScript truthiness of an optional string: present and not "". */
  predicate Truthy(s: Option<string>) {
    s.Some? && s.value != ""
  }

  /** The marker that sets the player's lines apart in the story log. */
  const PlayerPrefix: string := "> "

  /** The story log after a turn: the player's line (when there is a
      non-empty action) and then the narrator's text. */
  function AppendLog(log: seq<string>, playerAction: Option<string>, storyText: string): (r: seq<string>)
    ensures |r| == |log| + (if Truthy(playerAction) then 2 else 1)
    ensures r[..|log|] == log
    ensures r[|r| - 1] == storyText
    ensures Truthy(playerAction) ==> r[|log|] == PlayerPrefix + playerAction.value
  {
    if Truthy(playerAction) then log + [PlayerPrefix + playerAction.value, storyText]
    else log + [storyText]
  }

  /** Shallow merge of a partial character: present keys win, absent keys keep their value. */
  function ApplyPatch(c: Character, p: CharacterPatch): (r: Character)
    ensures Overridden(p.name, c.name, r.name)
    ensures Overridden(p.race, c.race, r.race)
    ensures Overridden(p.characterClass, c.characterClass, r.characterClass)
    ensures Overridden(p.level, c.level, r.level)
    ensures Overridden(p.xp, c.xp, r.xp)
    ensures Overridden(p.xpToNextLevel, c.xpToNextLevel, r.xpToNextLevel)
    ensures Overridden(p.hp, c.hp, r.hp)
    ensures Overridden(p.maxHp, c.maxHp, r.maxHp)
    ensures Overridden(p.mp, c.mp, r.mp)
    ensures Overridden(p.maxMp, c.maxMp, r.maxMp)
    ensures Overridden(p.attackBonus, c.attackBonus, r.attackBonus)
    ensures Overridden(p.armorClass, c.armorClass, r.armorClass)
    ensures Overridden(p.inventory, c.inventory, r.inventory)
    ensures Overridden(p.spells, c.spells, r.spells)
    ensures Overridden(p.skills, c.skills, r.skills)
  {
    Character(
      p.name.GetOr(c.name), p.race.GetOr(c.race), p.characterClass.GetOr(c.characterClass),
      p.level.GetOr(c.level), p.xp.GetOr(c.xp), p.xpToNextLevel.GetOr(c.xpToNextLevel),
      p.hp.GetOr(c.hp), p.maxHp.GetOr(c.maxHp), p.mp.GetOr(c.mp), p.maxMp.GetOr(c.maxMp),
      p.attackBonus.GetOr(c.attackBonus), p.armorClass.GetOr(c.armorClass),
      p.inventory.GetOr(c.inventory), p.spells.GetOr(c.spells), p.skills.GetOr(c.skills))
  }

  /** The empty patch changes nothing, and a patch applied twice is applied once. */
  lemma PatchLaws(c: Character, p: CharacterPatch)
    ensures ApplyPatch(c, NoPatch) == c
    ensures ApplyPatch(ApplyPatch(c, p), p) == ApplyPatch(c, p)
  {
  }

  /** The character after the shallow merge, before the loot. */
  function PatchedCharacter(c: Character, update: Option<CharacterPatch>): Character {
    if update.Some? then ApplyPatch(c, update.value) else c
  }

  /** The character after a reply: the shallow merge, then the loot. */
  function NextCharacter(c: Character, update: Option<CharacterPatch>, loot: Option<seq<Item>>): (r: Character)
    ensures var base := PatchedCharacter(c, update);
            && r.(inventory := base.inventory) == base
            && forall n :: Inventory.Total(r.inventory, n)
                             == Inventory.Total(base.inventory, n) + Inventory.Total(loot.GetOr([]), n)
    ensures update.None? && loot.GetOr([]) == [] ==> r == c
  {
    var base := PatchedCharacter(c, update);
    if loot.Some? && |loot.value| > 0 then
      Inventory.StackLootTotals(base.inventory, loot.value);
      base.(inventory := Inventory.StackLoot(base.inventory, loot.value))
    else base
  }

  /** The enemy after a reply: a new enemy wins over a removal. */
  function NextEnemy(current: Option<Enemy>, newEnemy: Option<Enemy>, removeEnemy: Option<bool>): (r: Option<Enemy>)
    ensures newEnemy.Some? ==> r == newEnemy
    ensures newEnemy.None? && removeEnemy == Some(true) ==> r.None?
    ensures newEnemy.None? && removeEnemy != Some(true) ==> r == current
  {
    if newEnemy.Some? then newEnemy
    else if removeEnemy == Some(true) then None
    else current
  }

  /** The ambience after a reply: `response.ambience || state.ambience`. */
  function NextAmbience(current: Option<string>, incoming: Option<string>): (r: Option<string>)
    ensures Truthy(incoming) ==> r == incoming
    ensures !Truthy(incoming) ==> r == current
  {
    if Truthy(incoming) then incoming else current
  }

  /** The reducer. `None` is the `null` state before any game is loaded. */
  function Reduce(state: Option<GameState>, action: GameAction): (r: Option<GameState>)
    ensures action.SetGameState? ==> r == Some(action.payload)
    ensures action.AppendStory? ==> (r.Some? <==> state.Some?)
    ensures action.SetAmbience? || action.CompleteLevelUp? ==> r == state
    ensures action.AppendStory? && state.Some? ==>
              var s, s', reply := state.value, r.value, action.dmResponse;
              && s'.location == s.location && s'.mapText == s.mapText && s'.isLevelingUp == s.isLevelingUp
              && |s'.storyLog| == |s.storyLog| + (if Truthy(action.playerAction) then 2 else 1)
              && s'.storyLog[..|s.storyLog|] == s.storyLog
              && s'.storyLog[|s'.storyLog| - 1] == reply.storyText
              && |s'.party| == |s.party| + |reply.newPartyMembers.GetOr([])|
  {
    match action
    case SetGameState(payload) => Some(payload)
    case AppendStory(playerAction, reply) =>
      if state.None? then None
      else
        var s := state.value;
        Some(s.(
          character := NextCharacter(s.character, reply.characterUpdate, reply.loot),
          party := Party.NextParty(s.party, reply.newPartyMembers, reply.partyUpdate),
          enemy := NextEnemy(s.enemy, reply.newEnemy, reply.removeEnemy),
          storyLog := AppendLog(s.storyLog, playerAction, reply.storyText),
          ambience := NextAmbience(s.ambience, reply.ambience)))
    case SetAmbience(_) => state
    case CompleteLevelUp(_) => state
  }

  /** A reply whose character update (if any) carries no inventory keeps
      inventory names unique and adds each looted quantity to the holding
      of its name. */
  lemma AppendStoryInventory(s: GameState, playerAction: Option<string>, reply: DMResponse)
    requires reply.characterUpdate.None? || reply.characterUpdate.value.inventory.None?
    ensures var inv := Reduce(Some(s), AppendStory(playerAction, reply)).value.character.inventory;
            && (Inventory.UniqueNames(s.character.inventory) ==> Inventory.UniqueNames(inv))
            && (forall n :: Inventory.Total(inv, n)
                             == Inventory.Total(s.character.inventory, n) + Inventory.Total(reply.loot.GetOr([]), n))
            && forall k :: 0 <= k < |s.character.inventory| &&
                 Inventory.NotLooted(reply.loot.GetOr([]), s.character.inventory[k].name)
                 ==> inv[k] == s.character.inventory[k]
  {
  }

  /** The narrator's error fallback, which carries only story text, appends
      that text to the log and changes nothing else. */
  lemma FallbackOnlyAdvancesLog(s: GameState, playerAction: Option<string>, text: string)
    ensures Reduce(Some(s), AppendStory(playerAction, Narration(text)))
         == Some(s.(storyLog := AppendLog(s.storyLog, playerAction, text)))
  {
  }

  /** Combat lifecycle over two turns: a reply that introduces an enemy sets
      it, and a later reply that only removes the enemy clears it again. */
  lemma EnemyAppearsThenLeaves(s: GameState, a: Option<string>, b: Option<string>, appear: DMResponse, leave: DMResponse)
    requires appear.newEnemy.Some?
    requires leave.newEnemy.None? && leave.removeEnemy == Some(true)
    ensures var mid := Reduce(Some(s), AppendStory(a, appear));
            && mid.Some? && mid.value.enemy == appear.newEnemy
            && Reduce(mid, AppendStory(b, leave)).value.enemy.None?
  {
  }

  /** The reply's `event` tag plays no part in the reducer. */
  lemma EventIgnored(state: Option<GameState>, playerAction: Option<string>, reply: DMResponse, e: Option<Event>)
    ensures Reduce(state, AppendStory(playerAction, reply.(event := e)))
         == Reduce(state, AppendStory(playerAction, reply))
  {
  }
}
