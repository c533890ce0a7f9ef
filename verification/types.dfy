/** The game's data model: the entities of the story loop and the actions
    the reducer accepts. Numbers are JavaScript numbers; the model uses `int`. */
module Types {
  import opened Wrappers

  datatype Item = Item(name: string, quantity: int, description: string)

  datatype Spell = Spell(name: string, cost: int, description: string)

  /** The skill shape the class table and the creation form use:
      a cooldown length and the turns still to wait. */
  datatype Skill = Skill(name: string, description: string, cooldown: int, currentCooldown: int)

  datatype Race = Humano | Elfo | Enano | Orco

  datatype CharacterClass = Guerrero | Mago | Picaro | Clerigo

  datatype Character = Character(
    name: string,
    race: Race,
    characterClass: CharacterClass,
    level: int,
    xp: int,
    xpToNextLevel: int,
    hp: int,
    maxHp: int,
    mp: int,
    maxMp: int,
    attackBonus: int,
    armorClass: int,
    inventory: seq<Item>,
    spells: seq<Spell>,
    skills: seq<Skill>)

  /** A `Partial<Character>`: `None` is a key the narrator left out. */
  datatype CharacterPatch = CharacterPatch(
    name: Option<string>,
    race: Option<Race>,
    characterClass: Option<CharacterClass>,
    level: Option<int>,
    xp: Option<int>,
    xpToNextLevel: Option<int>,
    hp: Option<int>,
    maxHp: Option<int>,
    mp: Option<int>,
    maxMp: Option<int>,
    attackBonus: Option<int>,
    armorClass: Option<int>,
    inventory: Option<seq<Item>>,
    spells: Option<seq<Spell>>,
    skills: Option<seq<Skill>>)

  /** The patch that sets nothing. */
  const NoPatch := CharacterPatch(None, None, None, None, None, None, None, None,
                                  None, None, None, None, None, None, None)

  /** A party member: a character without xp, xpToNextLevel or inventory,
      plus a flag telling whether the player controls it. */
  datatype Ally = Ally(
    name: string,
    race: Race,
    characterClass: CharacterClass,
    level: int,
    hp: int,
    maxHp: int,
    mp: int,
    maxMp: int,
    attackBonus: int,
    armorClass: int,
    spells: seq<Spell>,
    skills: seq<Skill>,
    isPlayer: bool)

  /** An opponent; it has no armour class. */
  datatype Enemy = Enemy(name: string, hp: int, maxHp: int, description: string, attackBonus: int)

  /** The narrator's hit-point report for one ally, matched by name. */
  datatype AllyUpdate = AllyUpdate(name: string, hp: int, maxHp: int)

  datatype Event = BattleWon | PlayerDead | LevelUp

  /** The narrator's reply. Only the story text is required. */
  datatype DMResponse = DMResponse(
    storyText: string,
    characterUpdate: Option<CharacterPatch>,
    partyUpdate: Option<seq<AllyUpdate>>,
    newPartyMembers: Option<seq<Ally>>,
    newEnemy: Option<Enemy>,
    removeEnemy: Option<bool>,
    loot: Option<seq<Item>>,
    event: Option<Event>,
    ambience: Option<string>)

  /** A reply that carries story text and nothing else, as the narrator
      service returns when it cannot parse the model's answer. */
  function Narration(storyText: string): DMResponse {
    DMResponse(storyText, None, None, None, None, None, None, None, None)
  }

  /** The authoritative state of one adventure. `enemy == None` is the JSON
      `null`; the map text, ambience and level-up flag may be absent. */
  datatype GameState = GameState(
    character: Character,
    party: seq<Ally>,
    enemy: Option<Enemy>,
    storyLog: seq<string>,
    location: string,
    mapText: Option<string>,
    ambience: Option<string>,
    isLevelingUp: Option<bool>)

  /** The four actions of the reducer. */
  datatype GameAction =
    | SetGameState(payload: GameState)
    | AppendStory(playerAction: Option<string>, dmResponse: DMResponse)
    | SetAmbience(newAmbience: string)
    | CompleteLevelUp(newSkill: Skill)

  /** Player preferences; the volume is a fraction in [0, 1]. */
  datatype Settings = Settings(ttsEnabled: bool, volume: real, textSpeed: int)

  /** The display string of a race, as the enum's string value. */
  function RaceName(r: Race): string {
    match r
    case Humano => "Humano"
    case Elfo => "Elfo"
    case Enano => "Enano"
    case Orco => "Orco"
  }

  /** The display string of a class, as the enum's string value. */
  function ClassName(c: CharacterClass): string {
    match c
    case Guerrero => "Guerrero"
    case Mago => "Mago"
    case Picaro => "Pícaro"
    case Clerigo => "Clérigo"
  }
}
