/** The starting stats of each class (`CLASS_DEFAULTS`). */
module ClassDefaults {
  import opened Types

  /** A character minus its name, race, class, level and xp. */
  datatype Defaults = Defaults(
    maxHp: int,
    hp: int,
    maxMp: int,
    mp: int,
    attackBonus: int,
    armorClass: int,
    xpToNextLevel: int,
    inventory: seq<Item>,
    spells: seq<Spell>,
    skills: seq<Skill>)

  const HealingPotion: Item := Item("Poción de Curación", 1, "Restaura 10 PS.")
  const ManaPotion: Item := Item("Poción de Maná", 1, "Restaura 10 PM.")

  const Fireball: Spell := Spell("Bola de Fuego", 5, "Lanza una esfera de fuego a un enemigo.")
  const MagicMissile: Spell := Spell("Misil Mágico", 2, "Un proyectil de energía que nunca falla.")
  const CureWounds: Spell := Spell("Curar Heridas", 4, "Sana las heridas de un aliado o de ti mismo.")
  const SacredFlame: Spell := Spell("Llama Sagrada", 3, "Invoca fuego divino sobre un enemigo.")

  const PowerAttack: Skill := Skill("Ataque Poderoso", "Un golpe devastador que inflige daño extra.", 3, 0)
  const ArcaneMeditation: Skill := Skill("Meditación Arcana", "Recupera una pequeña cantidad de PM.", 4, 0)
  const SneakAttack: Skill :=
    Skill("Ataque Furtivo", "Un ataque preciso que aprovecha la distracción del enemigo.", 2, 0)
  const ChannelDivinity: Skill :=
    Skill("Canalizar Divinidad", "Expulsa a los no-muertos o fortalece a los aliados.", 5, 0)

  /** The table row of class `c`. */
  function DefaultsFor(c: CharacterClass): (d: Defaults)
    ensures d.hp == d.maxHp > 0 && d.mp == d.maxMp > 0
    ensures d.xpToNextLevel == 100
    ensures |d.inventory| == 1 && d.inventory[0].quantity == 1
    ensures |d.skills| == 1 && d.skills[0].currentCooldown == 0 && 2 <= d.skills[0].cooldown <= 5
    ensures |d.spells| == (if c == Mago || c == Clerigo then 2 else 0)
  {
    match c
    case Guerrero => Defaults(20, 20, 5, 5, 5, 16, 100, [HealingPotion], [], [PowerAttack])
    case Mago => Defaults(12, 12, 20, 20, 2, 11, 100, [ManaPotion], [Fireball, MagicMissile], [ArcaneMeditation])
    case Picaro => Defaults(15, 15, 10, 10, 4, 14, 100, [HealingPotion], [], [SneakAttack])
    case Clerigo => Defaults(16, 16, 15, 15, 3, 15, 100, [HealingPotion], [CureWounds, SacredFlame], [ChannelDivinity])
  }
}
