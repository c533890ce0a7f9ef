/** The character-creation form: the cooldown slider and the submit handler. */
module Creation {
  import opened Wrappers
  import opened Types
  import Text
  import ClassDefaults

  const MinCooldown := 2
  const MaxCooldown := 5

  /** `Math.max(2, Math.min(5, cooldown))`. */
  function ClampCooldown(cooldown: int): (r: int)
    ensures MinCooldown <= r <= MaxCooldown
    ensures MinCooldown <= cooldown <= MaxCooldown ==> r == cooldown
    ensures cooldown < MinCooldown ==> r == MinCooldown
    ensures cooldown > MaxCooldown ==> r == MaxCooldown
  {
    if cooldown > MaxCooldown then MaxCooldown
    else if cooldown < MinCooldown then MinCooldown
    else cooldown
  }

  /** Set the cooldown of every skill called `skillName`, clamped; other skills are untouched. */
  function SetCooldown(skills: seq<Skill>, skillName: string, cooldown: int): (r: seq<Skill>)
    ensures |r| == |skills|
    ensures forall k :: 0 <= k < |skills| && skills[k].name != skillName ==> r[k] == skills[k]
    ensures forall k :: 0 <= k < |skills| && skills[k].name == skillName ==>
              r[k] == skills[k].(cooldown := ClampCooldown(cooldown))
  {
    if |skills| == 0 then []
    else
      var head := if skills[0].name == skillName then skills[0].(cooldown := ClampCooldown(cooldown)) else skills[0];
      [head] + SetCooldown(skills[1..], skillName, cooldown)
  }

  /** Repeating the same slider move changes nothing more. */
  lemma SetCooldownIdempotent(skills: seq<Skill>, skillName: string, cooldown: int)
    ensures SetCooldown(SetCooldown(skills, skillName, cooldown), skillName, cooldown)
         == SetCooldown(skills, skillName, cooldown)
  {
  }

  /** Why the form refuses to create a character. */
  datatype CreationError = NameRequired

  /** The submit handler: a blank name is refused; otherwise the character
      takes the trimmed name, level 1, xp 0, the chosen race, class and
      skills, and every other stat from the class table. */
  function CreateCharacter(name: string, race: Race, cls: CharacterClass, skills: seq<Skill>): (r: Result<Character, CreationError>)
    ensures r.Failure? <==> Text.AllSpace(name)
    ensures r.Success? ==>
              var c, d := r.value, ClassDefaults.DefaultsFor(cls);
              && c.name == Text.Trim(name) && c.name != "" && Text.Trimmed(c.name)
              && c.level == 1 && c.xp == 0
              && c.race == race && c.characterClass == cls && c.skills == skills
              && c.hp == d.hp && c.maxHp == d.maxHp && c.mp == d.mp && c.maxMp == d.maxMp
              && c.attackBonus == d.attackBonus && c.armorClass == d.armorClass
              && c.xpToNextLevel == d.xpToNextLevel
              && c.inventory == d.inventory && c.spells == d.spells
  {
    var trimmed := Text.Trim(name);
    if trimmed == "" then Failure(NameRequired)
    else
      var d := ClassDefaults.DefaultsFor(cls);
      Success(Character(trimmed, race, cls, 1, 0, d.xpToNextLevel, d.hp, d.maxHp, d.mp, d.maxMp,
                        d.attackBonus, d.armorClass, d.inventory, d.spells, skills))
  }

  /** A freshly created character starts at full health and mana, with xp
      below the next threshold and one item; slider moves on the class's
      default skills never push a cooldown outside [2, 5]. */
  lemma CreatedCharacterIsFresh(name: string, race: Race, cls: CharacterClass, skillName: string, cooldown: int)
    requires !Text.AllSpace(name)
    ensures var skills := SetCooldown(ClassDefaults.DefaultsFor(cls).skills, skillName, cooldown);
            var c := CreateCharacter(name, race, cls, skills).value;
            && c.hp == c.maxHp && c.mp == c.maxMp && 0 == c.xp < c.xpToNextLevel
            && |c.inventory| == 1
            && forall k :: 0 <= k < |c.skills| ==>
                 MinCooldown <= c.skills[k].cooldown <= MaxCooldown && c.skills[k].currentCooldown == 0
  {
  }
}
