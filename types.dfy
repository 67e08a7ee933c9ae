/**
 * The type vocabulary of the Magic: The Gathering Comprehensive Rules (rules 205.2a,
 * 205.3g-n and 205.4c): card types, supertypes and seven categories of subtypes, each
 * with its text name and the reader that maps a name back to its value.
 */
module Types {

  import opened Wrappers
  import opened Text

  /** Card types (rule 205.2a). */
  datatype Type = Artifact | Conspiracy | Creature | Enchantment | Instant | Land | Phenomenon
    | Plane | Planeswalker | Scheme | Sorcery | Tribal | Vanguard

  /** Artifact subtypes (rule 205.3g). */
  datatype ArtifactType = Clue | Contraption | Equipment | Fortification | Treasure | Vehicle

  /** Enchantment subtypes (rule 205.3h). */
  datatype EnchantmentType = Aura | Cartouche | Curse | Saga | Shrine

  /** Land subtypes (rule 205.3i). */
  datatype LandType = Desert | Forest | Gate | Island | Lair | Locus | Mine | Mountain | Plains
    | PowerPlant | Swamp | Tower | Urzas

  /** Planeswalker subtypes (rule 205.3j). */
  datatype PlaneswalkerType = Ajani | Aminatou | Angrath | Arlinn | Ashiok | Bolas | Chandra | Dack
    | Daretti | Domri | Dovin | Elspeth | Estrid | Freyalise | Garruk | Gideon | Huatli | Jace
    | Jaya | Karn | Kaya | Kiora | Koth | Liliana | Nahiri | Narset | Nissa | Nixilis | Ral | Rowan
    | Saheeli | Samut | Sarkhan | Sorin | Tamiyo | Teferi | Tezzeret | Tibalt | Ugin | Venser
    | Vivien | Vraska | Will | Windgrace | Xenagos | Yanggu | Yanling

  /** Instant and sorcery subtypes (rule 205.3k). */
  datatype SpellType = Arcane | Trap

  /**
   * Creature and tribal subtypes (rule 205.3m). The 241 variants are numbered in declaration order, each
   * number named by a constant below.
   */
  newtype CreatureType = i: int | 0 <= i < 241
  const Advisor: CreatureType := 0
  const Aetherborn: CreatureType := 1
  const Ally: CreatureType := 2
  const Angel: CreatureType := 3
  const Antelope: CreatureType := 4
  const Ape: CreatureType := 5
  const Archer: CreatureType := 6
  const Archon: CreatureType := 7
  const Artificer: CreatureType := 8
  const Assassin: CreatureType := 9
  const AssemblyWorker: CreatureType := 10
  const Atog: CreatureType := 11
  const Aurochs: CreatureType := 12
  const Avatar: CreatureType := 13
  const Azra: CreatureType := 14
  const Badger: CreatureType := 15
  const Barbarian: CreatureType := 16
  const Basilisk: CreatureType := 17
  const Bat: CreatureType := 18
  const Bear: CreatureType := 19
  const Beast: CreatureType := 20
  const Beeble: CreatureType := 21
  const Berserker: CreatureType := 22
  const Bird: CreatureType := 23
  const Blinkmoth: CreatureType := 24
  const Boar: CreatureType := 25
  const Bringer: CreatureType := 26
  const Brushwagg: CreatureType := 27
  const Camarid: CreatureType := 28
  const Camel: CreatureType := 29
  const Caribou: CreatureType := 30
  const Carrier: CreatureType := 31
  const Cat: CreatureType := 32
  const Centaur: CreatureType := 33
  const Cephalid: CreatureType := 34
  const Chimera: CreatureType := 35
  const Citizen: CreatureType := 36
  const Cleric: CreatureType := 37
  const Cockatrice: CreatureType := 38
  const Construct: CreatureType := 39
  const Coward: CreatureType := 40
  const Crab: CreatureType := 41
  const Crocodile: CreatureType := 42
  const Cyclops: CreatureType := 43
  const Dauthi: CreatureType := 44
  const Demon: CreatureType := 45
  const Deserter: CreatureType := 46
  const Devil: CreatureType := 47
  const Dinosaur: CreatureType := 48
  const Djinn: CreatureType := 49
  const Dragon: CreatureType := 50
  const Drake: CreatureType := 51
  const Dreadnought: CreatureType := 52
  const Drone: CreatureType := 53
  const Druid: CreatureType := 54
  const Dryad: CreatureType := 55
  const Dwarf: CreatureType := 56
  const Efreet: CreatureType := 57
  const Egg: CreatureType := 58
  const Elder: CreatureType := 59
  const Eldrazi: CreatureType := 60
  const Elemental: CreatureType := 61
  const Elephant: CreatureType := 62
  const Elf: CreatureType := 63
  const Elk: CreatureType := 64
  const Eye: CreatureType := 65
  const Faerie: CreatureType := 66
  const Ferret: CreatureType := 67
  const Fish: CreatureType := 68
  const Flagbearer: CreatureType := 69
  const Fox: CreatureType := 70
  const Frog: CreatureType := 71
  const Fungus: CreatureType := 72
  const Gargoyle: CreatureType := 73
  const Germ: CreatureType := 74
  const Giant: CreatureType := 75
  const Gnome: CreatureType := 76
  const Goat: CreatureType := 77
  const Goblin: CreatureType := 78
  const God: CreatureType := 79
  const Golem: CreatureType := 80
  const Gorgon: CreatureType := 81
  const Graveborn: CreatureType := 82
  const Gremlin: CreatureType := 83
  const Griffin: CreatureType := 84
  const Hag: CreatureType := 85
  const Harpy: CreatureType := 86
  const Hellion: CreatureType := 87
  const Hippo: CreatureType := 88
  const Hippogriff: CreatureType := 89
  const Homarid: CreatureType := 90
  const Homunculus: CreatureType := 91
  const Horror: CreatureType := 92
  const Horse: CreatureType := 93
  const Hound: CreatureType := 94
  const Human: CreatureType := 95
  const Hydra: CreatureType := 96
  const Hyena: CreatureType := 97
  const Illusion: CreatureType := 98
  const Imp: CreatureType := 99
  const Incarnation: CreatureType := 100
  const Insect: CreatureType := 101
  const Jackal: CreatureType := 102
  const Jellyfish: CreatureType := 103
  const Juggernaut: CreatureType := 104
  const Kavu: CreatureType := 105
  const Kirin: CreatureType := 106
  const Kithkin: CreatureType := 107
  const Knight: CreatureType := 108
  const Kobold: CreatureType := 109
  const Kor: CreatureType := 110
  const Kraken: CreatureType := 111
  const Lamia: CreatureType := 112
  const Lammasu: CreatureType := 113
  const Leech: CreatureType := 114
  const Leviathan: CreatureType := 115
  const Lhurgoyf: CreatureType := 116
  const Licid: CreatureType := 117
  const Lizard: CreatureType := 118
  const Manticore: CreatureType := 119
  const Masticore: CreatureType := 120
  const Mercenary: CreatureType := 121
  const Merfolk: CreatureType := 122
  const Metathran: CreatureType := 123
  const Minion: CreatureType := 124
  const Minotaur: CreatureType := 125
  const Mole: CreatureType := 126
  const Monger: CreatureType := 127
  const Mongoose: CreatureType := 128
  const Monk: CreatureType := 129
  const Monkey: CreatureType := 130
  const Moonfolk: CreatureType := 131
  const Mutant: CreatureType := 132
  const Myr: CreatureType := 133
  const Mystic: CreatureType := 134
  const Naga: CreatureType := 135
  const Nautilus: CreatureType := 136
  const Nephilim: CreatureType := 137
  const Nightmare: CreatureType := 138
  const Nightstalker: CreatureType := 139
  const Ninja: CreatureType := 140
  const Noggle: CreatureType := 141
  const Nomad: CreatureType := 142
  const Nymph: CreatureType := 143
  const Octopus: CreatureType := 144
  const Ogre: CreatureType := 145
  const Ooze: CreatureType := 146
  const Orb: CreatureType := 147
  const Orc: CreatureType := 148
  const Orgg: CreatureType := 149
  const Ouphe: CreatureType := 150
  const Ox: CreatureType := 151
  const Oyster: CreatureType := 152
  const Pangolin: CreatureType := 153
  const Pegasus: CreatureType := 154
  const Pentavite: CreatureType := 155
  const Pest: CreatureType := 156
  const Phelddagrif: CreatureType := 157
  const Phoenix: CreatureType := 158
  const Pilot: CreatureType := 159
  const Pincher: CreatureType := 160
  const Pirate: CreatureType := 161
  const Plant: CreatureType := 162
  const Praetor: CreatureType := 163
  const Prism: CreatureType := 164
  const Processor: CreatureType := 165
  const Rabbit: CreatureType := 166
  const Rat: CreatureType := 167
  const Rebel: CreatureType := 168
  const Reflection: CreatureType := 169
  const Rhino: CreatureType := 170
  const Rigger: CreatureType := 171
  const Rogue: CreatureType := 172
  const Sable: CreatureType := 173
  const Salamander: CreatureType := 174
  const Samurai: CreatureType := 175
  const Sand: CreatureType := 176
  const Saproling: CreatureType := 177
  const Satyr: CreatureType := 178
  const Scarecrow: CreatureType := 179
  const Scion: CreatureType := 180
  const Scorpion: CreatureType := 181
  const Scout: CreatureType := 182
  const Serf: CreatureType := 183
  const Serpent: CreatureType := 184
  const Servo: CreatureType := 185
  const Shade: CreatureType := 186
  const Shaman: CreatureType := 187
  const Shapeshifter: CreatureType := 188
  const Sheep: CreatureType := 189
  const Siren: CreatureType := 190
  const Skeleton: CreatureType := 191
  const Slith: CreatureType := 192
  const Sliver: CreatureType := 193
  const Slug: CreatureType := 194
  const Snake: CreatureType := 195
  const Soldier: CreatureType := 196
  const Soltari: CreatureType := 197
  const Spawn: CreatureType := 198
  const Specter: CreatureType := 199
  const Spellshaper: CreatureType := 200
  const Sphinx: CreatureType := 201
  const Spider: CreatureType := 202
  const Spike: CreatureType := 203
  const Spirit: CreatureType := 204
  const Splinter: CreatureType := 205
  const Sponge: CreatureType := 206
  const Squid: CreatureType := 207
  const Squirrel: CreatureType := 208
  const Starfish: CreatureType := 209
  const Surrakar: CreatureType := 210
  const Survivor: CreatureType := 211
  const Tetravite: CreatureType := 212
  const Thalakos: CreatureType := 213
  const Thopter: CreatureType := 214
  const Thrull: CreatureType := 215
  const Treefolk: CreatureType := 216
  const Trilobite: CreatureType := 217
  const Triskelavite: CreatureType := 218
  const Troll: CreatureType := 219
  const Turtle: CreatureType := 220
  const Unicorn: CreatureType := 221
  const Vampire: CreatureType := 222
  const Vedalken: CreatureType := 223
  const Viashino: CreatureType := 224
  const Volver: CreatureType := 225
  const Wall: CreatureType := 226
  const Warrior: CreatureType := 227
  const Weird: CreatureType := 228
  const Werewolf: CreatureType := 229
  const Whale: CreatureType := 230
  const Wizard: CreatureType := 231
  const Wolf: CreatureType := 232
  const Wolverine: CreatureType := 233
  const Wombat: CreatureType := 234
  const Worm: CreatureType := 235
  const Wraith: CreatureType := 236
  const Wurm: CreatureType := 237
  const Yeti: CreatureType := 238
  const Zombie: CreatureType := 239
  const Zubera: CreatureType := 240

  /** Plane types (rule 205.3n). */
  datatype PlanarType = Alara | Arkhos | Azgol | Belenon | BolassMeditationRealm | Dominaria
    | Equilor | Ergamon | Fabacin | Innistrad | Iquatana | Ir | Kaldheim | Kamigawa | Karsus
    | Kephalai | Kinshala | Kolbahan | Kyneth | Lorwyn | Luvion | Mercadia | Mirrodin | Moag
    | Mongseng | Muraganda | NewPhyrexia | Phyrexia | Pyrulea | Rabiah | Rath | Ravnica | Regatha
    | Segovia | SerrasRealm | Shadowmoor | Shandalar | Ulgrotha | Valla | Vryn | Wildfire | Xerex
    | Zendikar

  /** Supertypes (rule 205.4c). */
  datatype Supertype = Basic | Legendary | Ongoing | Snow | World

  /**
   * A subtype of any category. Its text is the inner name alone, and reading a name tries
   * the categories in this declaration order, the first that knows the name winning.
   */
  datatype Subtype =
    | Artifact(artifact: ArtifactType)
    | Enchantment(enchantment: EnchantmentType)
    | Land(land: LandType)
    | Planeswalker(planeswalker: PlaneswalkerType)
    | Spell(spell: SpellType)
    | Creature(creature: CreatureType)
    | Plane(plane: PlanarType)

  /** The text of a Type value: its variant name, or its rename. */
  function TypeName(x: Type): string
  {
    match x
    case Artifact => "Artifact"
    case Conspiracy => "Conspiracy"
    case Creature => "Creature"
    case Enchantment => "Enchantment"
    case Instant => "Instant"
    case Land => "Land"
    case Phenomenon => "Phenomenon"
    case Plane => "Plane"
    case Planeswalker => "Planeswalker"
    case Scheme => "Scheme"
    case Sorcery => "Sorcery"
    case Tribal => "Tribal"
    case Vanguard => "Vanguard"
  }

  /** Reads a Type from its text; any other text is refused. */
  function ParseType(s: string): (r: Option<Type>)
    ensures r.Some? ==> TypeName(r.value) == s
  {
    match |s|
    case 4 => (
      match s
      case "Land" => Some(Type.Land)
      case _ => None)
    case 5 => (
      match s
      case "Plane" => Some(Type.Plane)
      case _ => None)
    case 6 => (
      match s
      case "Scheme" => Some(Type.Scheme)
      case "Tribal" => Some(Type.Tribal)
      case _ => None)
    case 7 => (
      match s
      case "Instant" => Some(Type.Instant)
      case "Sorcery" => Some(Type.Sorcery)
      case _ => None)
    case 8 => (
      match s
      case "Artifact" => Some(Type.Artifact)
      case "Creature" => Some(Type.Creature)
      case "Vanguard" => Some(Type.Vanguard)
      case _ => None)
    case 10 => (
      match s
      case "Conspiracy" => Some(Type.Conspiracy)
      case "Phenomenon" => Some(Type.Phenomenon)
      case _ => None)
    case 11 => (
      match s
      case "Enchantment" => Some(Type.Enchantment)
      case _ => None)
    case 12 => (
      match s
      case "Planeswalker" => Some(Type.Planeswalker)
      case _ => None)
    case _ => None
  }

  /** The text of a ArtifactType value: its variant name, or its rename. */
  function ArtifactTypeName(x: ArtifactType): string
  {
    match x
    case Clue => "Clue"
    case Contraption => "Contraption"
    case Equipment => "Equipment"
    case Fortification => "Fortification"
    case Treasure => "Treasure"
    case Vehicle => "Vehicle"
  }

  /** Reads a ArtifactType from its text; any other text is refused. */
  function ParseArtifactType(s: string): (r: Option<ArtifactType>)
    ensures r.Some? ==> ArtifactTypeName(r.value) == s
  {
    match |s|
    case 4 => (
      match s
      case "Clue" => Some(ArtifactType.Clue)
      case _ => None)
    case 7 => (
      match s
      case "Vehicle" => Some(ArtifactType.Vehicle)
      case _ => None)
    case 8 => (
      match s
      case "Treasure" => Some(ArtifactType.Treasure)
      case _ => None)
    case 9 => (
      match s
      case "Equipment" => Some(ArtifactType.Equipment)
      case _ => None)
    case 11 => (
      match s
      case "Contraption" => Some(ArtifactType.Contraption)
      case _ => None)
    case 13 => (
      match s
      case "Fortification" => Some(ArtifactType.Fortification)
      case _ => None)
    case _ => None
  }

  /** The text of a EnchantmentType value: its variant name, or its rename. */
  function EnchantmentTypeName(x: EnchantmentType): string
  {
    match x
    case Aura => "Aura"
    case Cartouche => "Cartouche"
    case Curse => "Curse"
    case Saga => "Saga"
    case Shrine => "Shrine"
  }

  /** Reads a EnchantmentType from its text; any other text is refused. */
  function ParseEnchantmentType(s: string): (r: Option<EnchantmentType>)
    ensures r.Some? ==> EnchantmentTypeName(r.value) == s
  {
    match |s|
    case 4 => (
      match s
      case "Aura" => Some(EnchantmentType.Aura)
      case "Saga" => Some(EnchantmentType.Saga)
      case _ => None)
    case 5 => (
      match s
      case "Curse" => Some(EnchantmentType.Curse)
      case _ => None)
    case 6 => (
      match s
      case "Shrine" => Some(EnchantmentType.Shrine)
      case _ => None)
    case 9 => (
      match s
      case "Cartouche" => Some(EnchantmentType.Cartouche)
      case _ => None)
    case _ => None
  }

  /** The text of a LandType value: its variant name, or its rename. */
  function LandTypeName(x: LandType): string
  {
    match x
    case Desert => "Desert"
    case Forest => "Forest"
    case Gate => "Gate"
    case Island => "Island"
    case Lair => "Lair"
    case Locus => "Locus"
    case Mine => "Mine"
    case Mountain => "Mountain"
    case Plains => "Plains"
    case PowerPlant => "Power-Plant"
    case Swamp => "Swamp"
    case Tower => "Tower"
    case Urzas => "Urza's"
  }

  /** Reads a LandType from its text; any other text is refused. */
  function ParseLandType(s: string): (r: Option<LandType>)
    ensures r.Some? ==> LandTypeName(r.value) == s
  {
    match |s|
    case 4 => (
      match s
      case "Gate" => Some(LandType.Gate)
      case "Lair" => Some(LandType.Lair)
      case "Mine" => Some(LandType.Mine)
      case _ => None)
    case 5 => (
      match s
      case "Locus" => Some(LandType.Locus)
      case "Swamp" => Some(LandType.Swamp)
      case "Tower" => Some(LandType.Tower)
      case _ => None)
    case 6 => (
      match s
      case "Desert" => Some(LandType.Desert)
      case "Forest" => Some(LandType.Forest)
      case "Island" => Some(LandType.Island)
      case "Plains" => Some(LandType.Plains)
      case "Urza's" => Some(LandType.Urzas)
      case _ => None)
    case 8 => (
      match s
      case "Mountain" => Some(LandType.Mountain)
      case _ => None)
    case 11 => (
      match s
      case "Power-Plant" => Some(LandType.PowerPlant)
      case _ => None)
    case _ => None
  }

  /** The text of a PlaneswalkerType value: its variant name, or its rename. */
  function PlaneswalkerTypeName(x: PlaneswalkerType): string
  {
    match x
    case Ajani => "Ajani"
    case Aminatou => "Aminatou"
    case Angrath => "Angrath"
    case Arlinn => "Arlinn"
    case Ashiok => "Ashiok"
    case Bolas => "Bolas"
    case Chandra => "Chandra"
    case Dack => "Dack"
    case Daretti => "Daretti"
    case Domri => "Domri"
    case Dovin => "Dovin"
    case Elspeth => "Elspeth"
    case Estrid => "Estrid"
    case Freyalise => "Freyalise"
    case Garruk => "Garruk"
    case Gideon => "Gideon"
    case Huatli => "Huatli"
    case Jace => "Jace"
    case Jaya => "Jaya"
    case Karn => "Karn"
    case Kaya => "Kaya"
    case Kiora => "Kiora"
    case Koth => "Koth"
    case Liliana => "Liliana"
    case Nahiri => "Nahiri"
    case Narset => "Narset"
    case Nissa => "Nissa"
    case Nixilis => "Nixilis"
    case Ral => "Ral"
    case Rowan => "Rowan"
    case Saheeli => "Saheeli"
    case Samut => "Samut"
    case Sarkhan => "Sarkhan"
    case Sorin => "Sorin"
    case Tamiyo => "Tamiyo"
    case Teferi => "Teferi"
    case Tezzeret => "Tezzeret"
    case Tibalt => "Tibalt"
    case Ugin => "Ugin"
    case Venser => "Venser"
    case Vivien => "Vivien"
    case Vraska => "Vraska"
    case Will => "Will"
    case Windgrace => "Windgrace"
    case Xenagos => "Xenagos"
    case Yanggu => "Yanggu"
    case Yanling => "Yanling"
  }

  /** Reads a PlaneswalkerType from its text; any other text is refused. */
  function ParsePlaneswalkerType(s: string): (r: Option<PlaneswalkerType>)
  {
    match |s|
    case 3 => (
      match s
      case "Ral" => Some(PlaneswalkerType.Ral)
      case _ => None)
    case 4 => (
      match s[0]
      case 'D' => (
        match s
        case "Dack" => Some(PlaneswalkerType.Dack)
        case _ => None)
      case 'J' => (
        match s
        case "Jace" => Some(PlaneswalkerType.Jace)
        case "Jaya" => Some(PlaneswalkerType.Jaya)
        case _ => None)
      case 'K' => (
        match s
        case "Karn" => Some(PlaneswalkerType.Karn)
        case "Kaya" => Some(PlaneswalkerType.Kaya)
        case "Koth" => Some(PlaneswalkerType.Koth)
        case _ => None)
      case 'U' => (
        match s
        case "Ugin" => Some(PlaneswalkerType.Ugin)
        case _ => None)
      case 'W' => (
        match s
        case "Will" => Some(PlaneswalkerType.Will)
        case _ => None)
      case _ => None)
    case 5 => (
      match s[0]
      case 'A' => (
        match s
        case "Ajani" => Some(PlaneswalkerType.Ajani)
        case _ => None)
      case 'B' => (
        match s
        case "Bolas" => Some(PlaneswalkerType.Bolas)
        case _ => None)
      case 'D' => (
        match s
        case "Domri" => Some(PlaneswalkerType.Domri)
        case "Dovin" => Some(PlaneswalkerType.Dovin)
        case _ => None)
      case 'K' => (
        match s
        case "Kiora" => Some(PlaneswalkerType.Kiora)
        case _ => None)
      case 'N' => (
        match s
        case "Nissa" => Some(PlaneswalkerType.Nissa)
        case _ => None)
      case 'R' => (
        match s
        case "Rowan" => Some(PlaneswalkerType.Rowan)
        case _ => None)
      case 'S' => (
        match s
        case "Samut" => Some(PlaneswalkerType.Samut)
        case "Sorin" => Some(PlaneswalkerType.Sorin)
        case _ => None)
      case _ => None)
    case 6 => (
      match s[0]
      case 'A' => (
        match s
        case "Arlinn" => Some(PlaneswalkerType.Arlinn)
        case "Ashiok" => Some(PlaneswalkerType.Ashiok)
        case _ => None)
      case 'E' => (
        match s
        case "Estrid" => Some(PlaneswalkerType.Estrid)
        case _ => None)
      case 'G' => (
        match s
        case "Garruk" => Some(PlaneswalkerType.Garruk)
        case "Gideon" => Some(PlaneswalkerType.Gideon)
        case _ => None)
      case 'H' => (
        match s
        case "Huatli" => Some(PlaneswalkerType.Huatli)
        case _ => None)
      case 'N' => (
        match s
        case "Nahiri" => Some(PlaneswalkerType.Nahiri)
        case "Narset" => Some(PlaneswalkerType.Narset)
        case _ => None)
      case 'T' => (
        match s
        case "Tamiyo" => Some(PlaneswalkerType.Tamiyo)
        case "Teferi" => Some(PlaneswalkerType.Teferi)
        case "Tibalt" => Some(PlaneswalkerType.Tibalt)
        case _ => None)
      case 'V' => (
        match s
        case "Venser" => Some(PlaneswalkerType.Venser)
        case "Vivien" => Some(PlaneswalkerType.Vivien)
        case "Vraska" => Some(PlaneswalkerType.Vraska)
        case _ => None)
      case 'Y' => (
        match s
        case "Yanggu" => Some(PlaneswalkerType.Yanggu)
        case _ => None)
      case _ => None)
    case 7 => (
      match s[0]
      case 'A' => (
        match s
        case "Angrath" => Some(PlaneswalkerType.Angrath)
        case _ => None)
      case 'C' => (
        match s
        case "Chandra" => Some(PlaneswalkerType.Chandra)
        case _ => None)
      case 'D' => (
        match s
        case "Daretti" => Some(PlaneswalkerType.Daretti)
        case _ => None)
      case 'E' => (
        match s
        case "Elspeth" => Some(PlaneswalkerType.Elspeth)
        case _ => None)
      case 'L' => (
        match s
        case "Liliana" => Some(PlaneswalkerType.Liliana)
        case _ => None)
      case 'N' => (
        match s
        case "Nixilis" => Some(PlaneswalkerType.Nixilis)
        case _ => None)
      case 'S' => (
        match s
        case "Saheeli" => Some(PlaneswalkerType.Saheeli)
        case "Sarkhan" => Some(PlaneswalkerType.Sarkhan)
        case _ => None)
      case 'X' => (
        match s
        case "Xenagos" => Some(PlaneswalkerType.Xenagos)
        case _ => None)
      case 'Y' => (
        match s
        case "Yanling" => Some(PlaneswalkerType.Yanling)
        case _ => None)
      case _ => None)
    case 8 => (
      match s
      case "Aminatou" => Some(PlaneswalkerType.Aminatou)
      case "Tezzeret" => Some(PlaneswalkerType.Tezzeret)
      case _ => None)
    case 9 => (
      match s
      case "Freyalise" => Some(PlaneswalkerType.Freyalise)
      case "Windgrace" => Some(PlaneswalkerType.Windgrace)
      case _ => None)
    case _ => None
  }

  /** The text of a SpellType value: its variant name, or its rename. */
  function SpellTypeName(x: SpellType): string
  {
    match x
    case Arcane => "Arcane"
    case Trap => "Trap"
  }

  /** Reads a SpellType from its text; any other text is refused. */
  function ParseSpellType(s: string): (r: Option<SpellType>)
    ensures r.Some? ==> SpellTypeName(r.value) == s
  {
    match |s|
    case 4 => (
      match s
      case "Trap" => Some(SpellType.Trap)
      case _ => None)
    case 6 => (
      match s
      case "Arcane" => Some(SpellType.Arcane)
      case _ => None)
    case _ => None
  }

  /** The text of a CreatureType value: its variant name, or its rename. */
  function CreatureTypeName(x: CreatureType): string
  {
    match x
    case 0 => "Advisor"
    case 1 => "Aetherborn"
    case 2 => "Ally"
    case 3 => "Angel"
    case 4 => "Antelope"
    case 5 => "Ape"
    case 6 => "Archer"
    case 7 => "Archon"
    case 8 => "Artificer"
    case 9 => "Assassin"
    case 10 => "Assembly-Worker"
    case 11 => "Atog"
    case 12 => "Aurochs"
    case 13 => "Avatar"
    case 14 => "Azra"
    case 15 => "Badger"
    case 16 => "Barbarian"
    case 17 => "Basilisk"
    case 18 => "Bat"
    case 19 => "Bear"
    case 20 => "Beast"
    case 21 => "Beeble"
    case 22 => "Berserker"
    case 23 => "Bird"
    case 24 => "Blinkmoth"
    case 25 => "Boar"
    case 26 => "Bringer"
    case 27 => "Brushwagg"
    case 28 => "Camarid"
    case 29 => "Camel"
    case 30 => "Caribou"
    case 31 => "Carrier"
    case 32 => "Cat"
    case 33 => "Centaur"
    case 34 => "Cephalid"
    case 35 => "Chimera"
    case 36 => "Citizen"
    case 37 => "Cleric"
    case 38 => "Cockatrice"
    case 39 => "Construct"
    case 40 => "Coward"
    case 41 => "Crab"
    case 42 => "Crocodile"
    case 43 => "Cyclops"
    case 44 => "Dauthi"
    case 45 => "Demon"
    case 46 => "Deserter"
    case 47 => "Devil"
    case 48 => "Dinosaur"
    case 49 => "Djinn"
    case 50 => "Dragon"
    case 51 => "Drake"
    case 52 => "Dreadnought"
    case 53 => "Drone"
    case 54 => "Druid"
    case 55 => "Dryad"
    case 56 => "Dwarf"
    case 57 => "Efreet"
    case 58 => "Egg"
    case 59 => "Elder"
    case 60 => "Eldrazi"
    case 61 => "Elemental"
    case 62 => "Elephant"
    case 63 => "Elf"
    case 64 => "Elk"
    case 65 => "Eye"
    case 66 => "Faerie"
    case 67 => "Ferret"
    case 68 => "Fish"
    case 69 => "Flagbearer"
    case 70 => "Fox"
    case 71 => "Frog"
    case 72 => "Fungus"
    case 73 => "Gargoyle"
    case 74 => "Germ"
    case 75 => "Giant"
    case 76 => "Gnome"
    case 77 => "Goat"
    case 78 => "Goblin"
    case 79 => "God"
    case 80 => "Golem"
    case 81 => "Gorgon"
    case 82 => "Graveborn"
    case 83 => "Gremlin"
    case 84 => "Griffin"
    case 85 => "Hag"
    case 86 => "Harpy"
    case 87 => "Hellion"
    case 88 => "Hippo"
    case 89 => "Hippogriff"
    case 90 => "Homarid"
    case 91 => "Homunculus"
    case 92 => "Horror"
    case 93 => "Horse"
    case 94 => "Hound"
    case 95 => "Human"
    case 96 => "Hydra"
    case 97 => "Hyena"
    case 98 => "Illusion"
    case 99 => "Imp"
    case 100 => "Incarnation"
    case 101 => "Insect"
    case 102 => "Jackal"
    case 103 => "Jellyfish"
    case 104 => "Juggernaut"
    case 105 => "Kavu"
    case 106 => "Kirin"
    case 107 => "Kithkin"
    case 108 => "Knight"
    case 109 => "Kobold"
    case 110 => "Kor"
    case 111 => "Kraken"
    case 112 => "Lamia"
    case 113 => "Lammasu"
    case 114 => "Leech"
    case 115 => "Leviathan"
    case 116 => "Lhurgoyf"
    case 117 => "Licid"
    case 118 => "Lizard"
    case 119 => "Manticore"
    case 120 => "Masticore"
    case 121 => "Mercenary"
    case 122 => "Merfolk"
    case 123 => "Metathran"
    case 124 => "Minion"
    case 125 => "Minotaur"
    case 126 => "Mole"
    case 127 => "Monger"
    case 128 => "Mongoose"
    case 129 => "Monk"
    case 130 => "Monkey"
    case 131 => "Moonfolk"
    case 132 => "Mutant"
    case 133 => "Myr"
    case 134 => "Mystic"
    case 135 => "Naga"
    case 136 => "Nautilus"
    case 137 => "Nephilim"
    case 138 => "Nightmare"
    case 139 => "Nightstalker"
    case 140 => "Ninja"
    case 141 => "Noggle"
    case 142 => "Nomad"
    case 143 => "Nymph"
    case 144 => "Octopus"
    case 145 => "Ogre"
    case 146 => "Ooze"
    case 147 => "Orb"
    case 148 => "Orc"
    case 149 => "Orgg"
    case 150 => "Ouphe"
    case 151 => "Ox"
    case 152 => "Oyster"
    case 153 => "Pangolin"
    case 154 => "Pegasus"
    case 155 => "Pentavite"
    case 156 => "Pest"
    case 157 => "Phelddagrif"
    case 158 => "Phoenix"
    case 159 => "Pilot"
    case 160 => "Pincher"
    case 161 => "Pirate"
    case 162 => "Plant"
    case 163 => "Praetor"
    case 164 => "Prism"
    case 165 => "Processor"
    case 166 => "Rabbit"
    case 167 => "Rat"
    case 168 => "Rebel"
    case 169 => "Reflection"
    case 170 => "Rhino"
    case 171 => "Rigger"
    case 172 => "Rogue"
    case 173 => "Sable"
    case 174 => "Salamander"
    case 175 => "Samurai"
    case 176 => "Sand"
    case 177 => "Saproling"
    case 178 => "Satyr"
    case 179 => "Scarecrow"
    case 180 => "Scion"
    case 181 => "Scorpion"
    case 182 => "Scout"
    case 183 => "Serf"
    case 184 => "Serpent"
    case 185 => "Servo"
    case 186 => "Shade"
    case 187 => "Shaman"
    case 188 => "Shapeshifter"
    case 189 => "Sheep"
    case 190 => "Siren"
    case 191 => "Skeleton"
    case 192 => "Slith"
    case 193 => "Sliver"
    case 194 => "Slug"
    case 195 => "Snake"
    case 196 => "Soldier"
    case 197 => "Soltari"
    case 198 => "Spawn"
    case 199 => "Specter"
    case 200 => "Spellshaper"
    case 201 => "Sphinx"
    case 202 => "Spider"
    case 203 => "Spike"
    case 204 => "Spirit"
    case 205 => "Splinter"
    case 206 => "Sponge"
    case 207 => "Squid"
    case 208 => "Squirrel"
    case 209 => "Starfish"
    case 210 => "Surrakar"
    case 211 => "Survivor"
    case 212 => "Tetravite"
    case 213 => "Thalakos"
    case 214 => "Thopter"
    case 215 => "Thrull"
    case 216 => "Treefolk"
    case 217 => "Trilobite"
    case 218 => "Triskelavite"
    case 219 => "Troll"
    case 220 => "Turtle"
    case 221 => "Unicorn"
    case 222 => "Vampire"
    case 223 => "Vedalken"
    case 224 => "Viashino"
    case 225 => "Volver"
    case 226 => "Wall"
    case 227 => "Warrior"
    case 228 => "Weird"
    case 229 => "Werewolf"
    case 230 => "Whale"
    case 231 => "Wizard"
    case 232 => "Wolf"
    case 233 => "Wolverine"
    case 234 => "Wombat"
    case 235 => "Worm"
    case 236 => "Wraith"
    case 237 => "Wurm"
    case 238 => "Yeti"
    case 239 => "Zombie"
    case _ => "Zubera"  // 240, Zubera
  }

  /** Reads a CreatureType from its text; any other text is refused. */
  function ParseCreatureType(s: string): (r: Option<CreatureType>)
  {
    match |s|
    case 2 => (
      match s
      case "Ox" => Some(Ox)
      case _ => None)
    case 3 => (
      match s[0]
      case 'A' => (
        match s
        case "Ape" => Some(Ape)
        case _ => None)
      case 'B' => (
        match s
        case "Bat" => Some(Bat)
        case _ => None)
      case 'C' => (
        match s
        case "Cat" => Some(Cat)
        case _ => None)
      case 'E' => (
        match s
        case "Egg" => Some(Egg)
        case "Elf" => Some(Elf)
        case "Elk" => Some(Elk)
        case "Eye" => Some(Eye)
        case _ => None)
      case 'F' => (
        match s
        case "Fox" => Some(Fox)
        case _ => None)
      case 'G' => (
        match s
        case "God" => Some(God)
        case _ => None)
      case 'H' => (
        match s
        case "Hag" => Some(Hag)
        case _ => None)
      case 'I' => (
        match s
        case "Imp" => Some(Imp)
        case _ => None)
      case 'K' => (
        match s
        case "Kor" => Some(Kor)
        case _ => None)
      case 'M' => (
        match s
        case "Myr" => Some(Myr)
        case _ => None)
      case 'O' => (
        match s
        case "Orb" => Some(Orb)
        case "Orc" => Some(Orc)
        case _ => None)
      case 'R' => (
        match s
        case "Rat" => Some(Rat)
        case _ => None)
      case _ => None)
    case 4 => (
      match s[0]
      case 'A' => (
        match s
        case "Ally" => Some(Ally)
        case "Atog" => Some(Atog)
        case "Azra" => Some(Azra)
        case _ => None)
      case 'B' => (
        match s
        case "Bear" => Some(Bear)
        case "Bird" => Some(Bird)
        case "Boar" => Some(Boar)
        case _ => None)
      case 'C' => (
        match s
        case "Crab" => Some(Crab)
        case _ => None)
      case 'F' => (
        match s
        case "Fish" => Some(Fish)
        case "Frog" => Some(Frog)
        case _ => None)
      case 'G' => (
        match s
        case "Germ" => Some(Germ)
        case "Goat" => Some(Goat)
        case _ => None)
      case 'K' => (
        match s
        case "Kavu" => Some(Kavu)
        case _ => None)
      case 'M' => (
        match s
        case "Mole" => Some(Mole)
        case "Monk" => Some(Monk)
        case _ => None)
      case 'N' => (
        match s
        case "Naga" => Some(Naga)
        case _ => None)
      case 'O' => (
        match s
        case "Ogre" => Some(Ogre)
        case "Ooze" => Some(Ooze)
        case "Orgg" => Some(Orgg)
        case _ => None)
      case 'P' => (
        match s
        case "Pest" => Some(Pest)
        case _ => None)
      case 'S' => (
        match s
        case "Sand" => Some(Sand)
        case "Serf" => Some(Serf)
        case "Slug" => Some(Slug)
        case _ => None)
      case 'W' => (
        match s
        case "Wall" => Some(Wall)
        case "Wolf" => Some(Wolf)
        case "Worm" => Some(Worm)
        case "Wurm" => Some(Wurm)
        case _ => None)
      case 'Y' => (
        match s
        case "Yeti" => Some(Yeti)
        case _ => None)
      case _ => None)
    case 5 => (
      match s[0]
      case 'A' => (
        match s
        case "Angel" => Some(Angel)
        case _ => None)
      case 'B' => (
        match s
        case "Beast" => Some(Beast)
        case _ => None)
      case 'C' => (
        match s
        case "Camel" => Some(Camel)
        case _ => None)
      case 'D' => (
        match s
        case "Demon" => Some(Demon)
        case "Devil" => Some(Devil)
        case "Djinn" => Some(Djinn)
        case "Drake" => Some(Drake)
        case "Drone" => Some(Drone)
        case "Druid" => Some(Druid)
        case "Dryad" => Some(Dryad)
        case "Dwarf" => Some(Dwarf)
        case _ => None)
      case 'E' => (
        match s
        case "Elder" => Some(Elder)
        case _ => None)
      case 'G' => (
        match s
        case "Giant" => Some(Giant)
        case "Gnome" => Some(Gnome)
        case "Golem" => Some(Golem)
        case _ => None)
      case 'H' => (
        match s
        case "Harpy" => Some(Harpy)
        case "Hippo" => Some(Hippo)
        case "Horse" => Some(Horse)
        case "Hound" => Some(Hound)
        case "Human" => Some(Human)
        case "Hydra" => Some(Hydra)
        case "Hyena" => Some(Hyena)
        case _ => None)
      case 'K' => (
        match s
        case "Kirin" => Some(Kirin)
        case _ => None)
      case 'L' => (
        match s
        case "Lamia" => Some(Lamia)
        case "Leech" => Some(Leech)
        case "Licid" => Some(Licid)
        case _ => None)
      case 'N' => (
        match s
        case "Ninja" => Some(Ninja)
        case "Nomad" => Some(Nomad)
        case "Nymph" => Some(Nymph)
        case _ => None)
      case 'O' => (
        match s
        case "Ouphe" => Some(Ouphe)
        case _ => None)
      case 'P' => (
        match s
        case "Pilot" => Some(Pilot)
        case "Plant" => Some(Plant)
        case "Prism" => Some(Prism)
        case _ => None)
      case 'R' => (
        match s
        case "Rebel" => Some(Rebel)
        case "Rhino" => Some(Rhino)
        case "Rogue" => Some(Rogue)
        case _ => None)
      case 'S' => (
        match s
        case "Sable" => Some(Sable)
        case "Satyr" => Some(Satyr)
        case "Scion" => Some(Scion)
        case "Scout" => Some(Scout)
        case "Servo" => Some(Servo)
        case "Shade" => Some(Shade)
        case "Sheep" => Some(Sheep)
        case "Siren" => Some(Siren)
        case "Slith" => Some(Slith)
        case "Snake" => Some(Snake)
        case "Spawn" => Some(Spawn)
        case "Spike" => Some(Spike)
        case "Squid" => Some(Squid)
        case _ => None)
      case 'T' => (
        match s
        case "Troll" => Some(Troll)
        case _ => None)
      case 'W' => (
        match s
        case "Weird" => Some(Weird)
        case "Whale" => Some(Whale)
        case _ => None)
      case _ => None)
    case 6 => (
      match s[0]
      case 'A' => (
        match s
        case "Archer" => Some(Archer)
        case "Archon" => Some(Archon)
        case "Avatar" => Some(Avatar)
        case _ => None)
      case 'B' => (
        match s
        case "Badger" => Some(Badger)
        case "Beeble" => Some(Beeble)
        case _ => None)
      case 'C' => (
        match s
        case "Cleric" => Some(Cleric)
        case "Coward" => Some(Coward)
        case _ => None)
      case 'D' => (
        match s
        case "Dauthi" => Some(Dauthi)
        case "Dragon" => Some(Dragon)
        case _ => None)
      case 'E' => (
        match s
        case "Efreet" => Some(Efreet)
        case _ => None)
      case 'F' => (
        match s
        case "Faerie" => Some(Faerie)
        case "Ferret" => Some(Ferret)
        case "Fungus" => Some(Fungus)
        case _ => None)
      case 'G' => (
        match s
        case "Goblin" => Some(Goblin)
        case "Gorgon" => Some(Gorgon)
        case _ => None)
      case 'H' => (
        match s
        case "Horror" => Some(Horror)
        case _ => None)
      case 'I' => (
        match s
        case "Insect" => Some(Insect)
        case _ => None)
      case 'J' => (
        match s
        case "Jackal" => Some(Jackal)
        case _ => None)
      case 'K' => (
        match s
        case "Knight" => Some(Knight)
        case "Kobold" => Some(Kobold)
        case "Kraken" => Some(Kraken)
        case _ => None)
      case 'L' => (
        match s
        case "Lizard" => Some(Lizard)
        case _ => None)
      case 'M' => (
        match s
        case "Minion" => Some(Minion)
        case "Monger" => Some(Monger)
        case "Monkey" => Some(Monkey)
        case "Mutant" => Some(Mutant)
        case "Mystic" => Some(Mystic)
        case _ => None)
      case 'N' => (
        match s
        case "Noggle" => Some(Noggle)
        case _ => None)
      case 'O' => (
        match s
        case "Oyster" => Some(Oyster)
        case _ => None)
      case 'P' => (
        match s
        case "Pirate" => Some(Pirate)
        case _ => None)
      case 'R' => (
        match s
        case "Rabbit" => Some(Rabbit)
        case "Rigger" => Some(Rigger)
        case _ => None)
      case 'S' => (
        match s
        case "Shaman" => Some(Shaman)
        case "Sliver" => Some(Sliver)
        case "Sphinx" => Some(Sphinx)
        case "Spider" => Some(Spider)
        case "Spirit" => Some(Spirit)
        case "Sponge" => Some(Sponge)
        case _ => None)
      case 'T' => (
        match s
        case "Thrull" => Some(Thrull)
        case "Turtle" => Some(Turtle)
        case _ => None)
      case 'V' => (
        match s
        case "Volver" => Some(Volver)
        case _ => None)
      case 'W' => (
        match s
        case "Wizard" => Some(Wizard)
        case "Wombat" => Some(Wombat)
        case "Wraith" => Some(Wraith)
        case _ => None)
      case 'Z' => (
        match s
        case "Zombie" => Some(Zombie)
        case "Zubera" => Some(Zubera)
        case _ => None)
      case _ => None)
    case 7 => (
      match s[0]
      case 'A' => (
        match s
        case "Advisor" => Some(Advisor)
        case "Aurochs" => Some(Aurochs)
        case _ => None)
      case 'B' => (
        match s
        case "Bringer" => Some(Bringer)
        case _ => None)
      case 'C' => (
        match s
        case "Camarid" => Some(Camarid)
        case "Caribou" => Some(Caribou)
        case "Carrier" => Some(Carrier)
        case "Centaur" => Some(Centaur)
        case "Chimera" => Some(Chimera)
        case "Citizen" => Some(Citizen)
        case "Cyclops" => Some(Cyclops)
        case _ => None)
      case 'E' => (
        match s
        case "Eldrazi" => Some(Eldrazi)
        case _ => None)
      case 'G' => (
        match s
        case "Gremlin" => Some(Gremlin)
        case "Griffin" => Some(Griffin)
        case _ => None)
      case 'H' => (
        match s
        case "Hellion" => Some(Hellion)
        case "Homarid" => Some(Homarid)
        case _ => None)
      case 'K' => (
        match s
        case "Kithkin" => Some(Kithkin)
        case _ => None)
      case 'L' => (
        match s
        case "Lammasu" => Some(Lammasu)
        case _ => None)
      case 'M' => (
        match s
        case "Merfolk" => Some(Merfolk)
        case _ => None)
      case 'O' => (
        match s
        case "Octopus" => Some(Octopus)
        case _ => None)
      case 'P' => (
        match s
        case "Pegasus" => Some(Pegasus)
        case "Phoenix" => Some(Phoenix)
        case "Pincher" => Some(Pincher)
        case "Praetor" => Some(Praetor)
        case _ => None)
      case 'S' => (
        match s
        case "Samurai" => Some(Samurai)
        case "Serpent" => Some(Serpent)
        case "Soldier" => Some(Soldier)
        case "Soltari" => Some(Soltari)
        case "Specter" => Some(Specter)
        case _ => None)
      case 'T' => (
        match s
        case "Thopter" => Some(Thopter)
        case _ => None)
      case 'U' => (
        match s
        case "Unicorn" => Some(Unicorn)
        case _ => None)
      case 'V' => (
        match s
        case "Vampire" => Some(Vampire)
        case _ => None)
      case 'W' => (
        match s
        case "Warrior" => Some(Warrior)
        case _ => None)
      case _ => None)
    case 8 => (
      match s[0]
      case 'A' => (
        match s
        case "Antelope" => Some(Antelope)
        case "Assassin" => Some(Assassin)
        case _ => None)
      case 'B' => (
        match s
        case "Basilisk" => Some(Basilisk)
        case _ => None)
      case 'C' => (
        match s
        case "Cephalid" => Some(Cephalid)
        case _ => None)
      case 'D' => (
        match s
        case "Deserter" => Some(Deserter)
        case "Dinosaur" => Some(Dinosaur)
        case _ => None)
      case 'E' => (
        match s
        case "Elephant" => Some(Elephant)
        case _ => None)
      case 'G' => (
        match s
        case "Gargoyle" => Some(Gargoyle)
        case _ => None)
      case 'I' => (
        match s
        case "Illusion" => Some(Illusion)
        case _ => None)
      case 'L' => (
        match s
        case "Lhurgoyf" => Some(Lhurgoyf)
        case _ => None)
      case 'M' => (
        match s
        case "Minotaur" => Some(Minotaur)
        case "Mongoose" => Some(Mongoose)
        case "Moonfolk" => Some(Moonfolk)
        case _ => None)
      case 'N' => (
        match s
        case "Nautilus" => Some(Nautilus)
        case "Nephilim" => Some(Nephilim)
        case _ => None)
      case 'P' => (
        match s
        case "Pangolin" => Some(Pangolin)
        case _ => None)
      case 'S' => (
        match s
        case "Scorpion" => Some(Scorpion)
        case "Skeleton" => Some(Skeleton)
        case "Splinter" => Some(Splinter)
        case "Squirrel" => Some(Squirrel)
        case "Starfish" => Some(Starfish)
        case "Surrakar" => Some(Surrakar)
        case "Survivor" => Some(Survivor)
        case _ => None)
      case 'T' => (
        match s
        case "Thalakos" => Some(Thalakos)
        case "Treefolk" => Some(Treefolk)
        case _ => None)
      case 'V' => (
        match s
        case "Vedalken" => Some(Vedalken)
        case "Viashino" => Some(Viashino)
        case _ => None)
      case 'W' => (
        match s
        case "Werewolf" => Some(Werewolf)
        case _ => None)
      case _ => None)
    case 9 => (
      match s[0]
      case 'A' => (
        match s
        case "Artificer" => Some(Artificer)
        case _ => None)
      case 'B' => (
        match s
        case "Barbarian" => Some(Barbarian)
        case "Berserker" => Some(Berserker)
        case "Blinkmoth" => Some(Blinkmoth)
        case "Brushwagg" => Some(Brushwagg)
        case _ => None)
      case 'C' => (
        match s
        case "Construct" => Some(Construct)
        case "Crocodile" => Some(Crocodile)
        case _ => None)
      case 'E' => (
        match s
        case "Elemental" => Some(Elemental)
        case _ => None)
      case 'G' => (
        match s
        case "Graveborn" => Some(Graveborn)
        case _ => None)
      case 'J' => (
        match s
        case "Jellyfish" => Some(Jellyfish)
        case _ => None)
      case 'L' => (
        match s
        case "Leviathan" => Some(Leviathan)
        case _ => None)
      case 'M' => (
        match s
        case "Manticore" => Some(Manticore)
        case "Masticore" => Some(Masticore)
        case "Mercenary" => Some(Mercenary)
        case "Metathran" => Some(Metathran)
        case _ => None)
      case 'N' => (
        match s
        case "Nightmare" => Some(Nightmare)
        case _ => None)
      case 'P' => (
        match s
        case "Pentavite" => Some(Pentavite)
        case "Processor" => Some(Processor)
        case _ => None)
      case 'S' => (
        match s
        case "Saproling" => Some(Saproling)
        case "Scarecrow" => Some(Scarecrow)
        case _ => None)
      case 'T' => (
        match s
        case "Tetravite" => Some(Tetravite)
        case "Trilobite" => Some(Trilobite)
        case _ => None)
      case 'W' => (
        match s
        case "Wolverine" => Some(Wolverine)
        case _ => None)
      case _ => None)
    case 10 => (
      match s[0]
      case 'A' => (
        match s
        case "Aetherborn" => Some(Aetherborn)
        case _ => None)
      case 'C' => (
        match s
        case "Cockatrice" => Some(Cockatrice)
        case _ => None)
      case 'F' => (
        match s
        case "Flagbearer" => Some(Flagbearer)
        case _ => None)
      case 'H' => (
        match s
        case "Hippogriff" => Some(Hippogriff)
        case "Homunculus" => Some(Homunculus)
        case _ => None)
      case 'J' => (
        match s
        case "Juggernaut" => Some(Juggernaut)
        case _ => None)
      case 'R' => (
        match s
        case "Reflection" => Some(Reflection)
        case _ => None)
      case 'S' => (
        match s
        case "Salamander" => Some(Salamander)
        case _ => None)
      case _ => None)
    case 11 => (
      match s
      case "Dreadnought" => Some(Dreadnought)
      case "Incarnation" => Some(Incarnation)
      case "Phelddagrif" => Some(Phelddagrif)
      case "Spellshaper" => Some(Spellshaper)
      case _ => None)
    case 12 => (
      match s
      case "Nightstalker" => Some(Nightstalker)
      case "Shapeshifter" => Some(Shapeshifter)
      case "Triskelavite" => Some(Triskelavite)
      case _ => None)
    case 15 => (
      match s
      case "Assembly-Worker" => Some(AssemblyWorker)
      case _ => None)
    case _ => None
  }

  /** The text of a PlanarType value: its variant name, or its rename. */
  function PlanarTypeName(x: PlanarType): string
  {
    match x
    case Alara => "Alara"
    case Arkhos => "Arkhos"
    case Azgol => "Azgol"
    case Belenon => "Belenon"
    case BolassMeditationRealm => "Bolas's Meditation Realm"
    case Dominaria => "Dominaria"
    case Equilor => "Equilor"
    case Ergamon => "Ergamon"
    case Fabacin => "Fabacin"
    case Innistrad => "Innistrad"
    case Iquatana => "Iquatana"
    case Ir => "Ir"
    case Kaldheim => "Kaldheim"
    case Kamigawa => "Kamigawa"
    case Karsus => "Karsus"
    case Kephalai => "Kephalai"
    case Kinshala => "Kinshala"
    case Kolbahan => "Kolbahan"
    case Kyneth => "Kyneth"
    case Lorwyn => "Lorwyn"
    case Luvion => "Luvion"
    case Mercadia => "Mercadia"
    case Mirrodin => "Mirrodin"
    case Moag => "Moag"
    case Mongseng => "Mongseng"
    case Muraganda => "Muraganda"
    case NewPhyrexia => "New Phyrexia"
    case Phyrexia => "Phyrexia"
    case Pyrulea => "Pyrulea"
    case Rabiah => "Rabiah"
    case Rath => "Rath"
    case Ravnica => "Ravnica"
    case Regatha => "Regatha"
    case Segovia => "Segovia"
    case SerrasRealm => "Serra's Realm"
    case Shadowmoor => "Shadowmoor"
    case Shandalar => "Shandalar"
    case Ulgrotha => "Ulgrotha"
    case Valla => "Valla"
    case Vryn => "Vryn"
    case Wildfire => "Wildfire"
    case Xerex => "Xerex"
    case Zendikar => "Zendikar"
  }

  /** Reads a PlanarType from its text; any other text is refused. */
  function ParsePlanarType(s: string): (r: Option<PlanarType>)
  {
    match |s|
    case 2 => (
      match s
      case "Ir" => Some(PlanarType.Ir)
      case _ => None)
    case 4 => (
      match s
      case "Moag" => Some(PlanarType.Moag)
      case "Rath" => Some(PlanarType.Rath)
      case "Vryn" => Some(PlanarType.Vryn)
      case _ => None)
    case 5 => (
      match s
      case "Alara" => Some(PlanarType.Alara)
      case "Azgol" => Some(PlanarType.Azgol)
      case "Valla" => Some(PlanarType.Valla)
      case "Xerex" => Some(PlanarType.Xerex)
      case _ => None)
    case 6 => (
      match s
      case "Arkhos" => Some(PlanarType.Arkhos)
      case "Karsus" => Some(PlanarType.Karsus)
      case "Kyneth" => Some(PlanarType.Kyneth)
      case "Lorwyn" => Some(PlanarType.Lorwyn)
      case "Luvion" => Some(PlanarType.Luvion)
      case "Rabiah" => Some(PlanarType.Rabiah)
      case _ => None)
    case 7 => (
      match s[0]
      case 'B' => (
        match s
        case "Belenon" => Some(PlanarType.Belenon)
        case _ => None)
      case 'E' => (
        match s
        case "Equilor" => Some(PlanarType.Equilor)
        case "Ergamon" => Some(PlanarType.Ergamon)
        case _ => None)
      case 'F' => (
        match s
        case "Fabacin" => Some(PlanarType.Fabacin)
        case _ => None)
      case 'P' => (
        match s
        case "Pyrulea" => Some(PlanarType.Pyrulea)
        case _ => None)
      case 'R' => (
        match s
        case "Ravnica" => Some(PlanarType.Ravnica)
        case "Regatha" => Some(PlanarType.Regatha)
        case _ => None)
      case 'S' => (
        match s
        case "Segovia" => Some(PlanarType.Segovia)
        case _ => None)
      case _ => None)
    case 8 => (
      match s[0]
      case 'I' => (
        match s
        case "Iquatana" => Some(PlanarType.Iquatana)
        case _ => None)
      case 'K' => (
        match s
        case "Kaldheim" => Some(PlanarType.Kaldheim)
        case "Kamigawa" => Some(PlanarType.Kamigawa)
        case "Kephalai" => Some(PlanarType.Kephalai)
        case "Kinshala" => Some(PlanarType.Kinshala)
        case "Kolbahan" => Some(PlanarType.Kolbahan)
        case _ => None)
      case 'M' => (
        match s
        case "Mercadia" => Some(PlanarType.Mercadia)
        case "Mirrodin" => Some(PlanarType.Mirrodin)
        case "Mongseng" => Some(PlanarType.Mongseng)
        case _ => None)
      case 'P' => (
        match s
        case "Phyrexia" => Some(PlanarType.Phyrexia)
        case _ => None)
      case 'U' => (
        match s
        case "Ulgrotha" => Some(PlanarType.Ulgrotha)
        case _ => None)
      case 'W' => (
        match s
        case "Wildfire" => Some(PlanarType.Wildfire)
        case _ => None)
      case 'Z' => (
        match s
        case "Zendikar" => Some(PlanarType.Zendikar)
        case _ => None)
      case _ => None)
    case 9 => (
      match s
      case "Dominaria" => Some(PlanarType.Dominaria)
      case "Innistrad" => Some(PlanarType.Innistrad)
      case "Muraganda" => Some(PlanarType.Muraganda)
      case "Shandalar" => Some(PlanarType.Shandalar)
      case _ => None)
    case 10 => (
      match s
      case "Shadowmoor" => Some(PlanarType.Shadowmoor)
      case _ => None)
    case 12 => (
      match s
      case "New Phyrexia" => Some(PlanarType.NewPhyrexia)
      case _ => None)
    case 13 => (
      match s
      case "Serra's Realm" => Some(PlanarType.SerrasRealm)
      case _ => None)
    case 24 => (
      match s
      case "Bolas's Meditation Realm" => Some(PlanarType.BolassMeditationRealm)
      case _ => None)
    case _ => None
  }

  /** The text of a Supertype value: its variant name, or its rename. */
  function SupertypeName(x: Supertype): string
  {
    match x
    case Basic => "Basic"
    case Legendary => "Legendary"
    case Ongoing => "Ongoing"
    case Snow => "Snow"
    case World => "World"
  }

  /** Reads a Supertype from its text; any other text is refused. */
  function ParseSupertype(s: string): (r: Option<Supertype>)
    ensures r.Some? ==> SupertypeName(r.value) == s
  {
    match |s|
    case 4 => (
      match s
      case "Snow" => Some(Supertype.Snow)
      case _ => None)
    case 5 => (
      match s
      case "Basic" => Some(Supertype.Basic)
      case "World" => Some(Supertype.World)
      case _ => None)
    case 7 => (
      match s
      case "Ongoing" => Some(Supertype.Ongoing)
      case _ => None)
    case 9 => (
      match s
      case "Legendary" => Some(Supertype.Legendary)
      case _ => None)
    case _ => None
  }
  /** `Subtype::valid_for`: which card types a subtype may appear with. */
  predicate ValidFor(st: Subtype, t: Type)
  {
    match st
    case Artifact(_) => t == Type.Artifact
    case Enchantment(_) => t == Type.Enchantment
    case Land(_) => t == Type.Land
    case Planeswalker(_) => t == Type.Planeswalker
    case Spell(_) => t == Type.Instant || t == Type.Sorcery
    case Creature(_) => t == Type.Creature || t == Type.Tribal
    case Plane(_) => t == Type.Plane
  }

  /** The text of a subtype is the name of its inner value, whatever its category. */
  function SubtypeName(st: Subtype): string
  {
    match st
    case Artifact(x) => ArtifactTypeName(x)
    case Enchantment(x) => EnchantmentTypeName(x)
    case Land(x) => LandTypeName(x)
    case Planeswalker(x) => PlaneswalkerTypeName(x)
    case Spell(x) => SpellTypeName(x)
    case Creature(x) => CreatureTypeName(x)
    case Plane(x) => PlanarTypeName(x)
  }

  /** Reads a subtype: the categories are tried in declaration order and the first match wins. */
  function ParseSubtype(s: string): Option<Subtype>
  {
    match ParseArtifactType(s)
    case Some(x) => Some(Subtype.Artifact(x))
    case None =>
    match ParseEnchantmentType(s)
    case Some(x) => Some(Subtype.Enchantment(x))
    case None =>
    match ParseLandType(s)
    case Some(x) => Some(Subtype.Land(x))
    case None =>
    match ParsePlaneswalkerType(s)
    case Some(x) => Some(Subtype.Planeswalker(x))
    case None =>
    match ParseSpellType(s)
    case Some(x) => Some(Subtype.Spell(x))
    case None =>
    match ParseCreatureType(s)
    case Some(x) => Some(Subtype.Creature(x))
    case None =>
    match ParsePlanarType(s)
    case Some(x) => Some(Subtype.Plane(x))
    case None => None
  }

  // ---------------------------------------------------------------------------
  // Compatibility of subtypes with types.

  /** Subtypes of the artifact, enchantment, land, planeswalker and plane categories go with exactly their same-named type. */
  lemma ValidForSameNamedType(st: Subtype, t: Type)
    ensures st.Artifact? ==> (ValidFor(st, t) <==> t == Type.Artifact)
    ensures st.Enchantment? ==> (ValidFor(st, t) <==> t == Type.Enchantment)
    ensures st.Land? ==> (ValidFor(st, t) <==> t == Type.Land)
    ensures st.Planeswalker? ==> (ValidFor(st, t) <==> t == Type.Planeswalker)
    ensures st.Plane? ==> (ValidFor(st, t) <==> t == Type.Plane)
  {
  }

  /** Spell subtypes go with instants and sorceries only; creature subtypes with creatures and tribals only. */
  lemma ValidForSpellAndCreature(st: Subtype, t: Type)
    ensures st.Spell? ==> (ValidFor(st, t) <==> t == Type.Instant || t == Type.Sorcery)
    ensures st.Creature? ==> (ValidFor(st, t) <==> t == Type.Creature || t == Type.Tribal)
  {
  }

  /** No subtype goes with conspiracies, phenomena, schemes or vanguards, and every subtype goes with some type. */
  lemma ValidForSomeType(st: Subtype)
    ensures !ValidFor(st, Type.Conspiracy) && !ValidFor(st, Type.Phenomenon)
    ensures !ValidFor(st, Type.Scheme) && !ValidFor(st, Type.Vanguard)
    ensures exists t :: ValidFor(st, t)
  {
    match st
    case Artifact(_) => assert ValidFor(st, Type.Artifact);
    case Enchantment(_) => assert ValidFor(st, Type.Enchantment);
    case Land(_) => assert ValidFor(st, Type.Land);
    case Planeswalker(_) => assert ValidFor(st, Type.Planeswalker);
    case Spell(_) => assert ValidFor(st, Type.Instant);
    case Creature(_) => assert ValidFor(st, Type.Creature);
    case Plane(_) => assert ValidFor(st, Type.Plane);
  }

  // ---------------------------------------------------------------------------
  // Names and readers.

  /** Type names read back as their type; with the reader's own contract the two tables are inverse. */
  lemma TypeNameRoundTrip(t: Type)
    ensures ParseType(TypeName(t)) == Some(t)
  {
  }

  lemma SupertypeNameRoundTrip(x: Supertype)
    ensures ParseSupertype(SupertypeName(x)) == Some(x)
  {
  }

  /** Type names are single words without an em dash. */
  lemma TypeNamesAreWords(t: Type)
    ensures IsWord(TypeName(t)) && EmDash !in TypeName(t)
  {
    assert VisibleAscii(TypeName(t));
    VisibleAsciiIsWord(TypeName(t));
  }

  /** Supertype names are single words without an em dash. */
  lemma SupertypeNamesAreWords(x: Supertype)
    ensures IsWord(SupertypeName(x)) && EmDash !in SupertypeName(x)
  {
    assert VisibleAscii(SupertypeName(x));
    VisibleAsciiIsWord(SupertypeName(x));
  }

  /** No supertype name is a type name and no type name is a supertype name, so the greedy reader never confuses them. */
  lemma SupertypeAndTypeNamesDisjoint(t: Type, x: Supertype)
    ensures ParseType(SupertypeName(x)) == None
    ensures ParseSupertype(TypeName(t)) == None
  {
  }

  /** No artifact, enchantment or land subtype has the name `s`. */
  predicate UnknownBeforePlaneswalker(s: string)
  {
    ParseArtifactType(s).None? && ParseEnchantmentType(s).None? && ParseLandType(s).None?
  }

  /** No subtype of a category before the creature category has the name `s`. */
  predicate UnknownBeforeCreature(s: string)
  {
    UnknownBeforePlaneswalker(s) && ParsePlaneswalkerType(s).None? && ParseSpellType(s).None?
  }

  /** The subtype reader answers with the first category, in declaration order, whose reader accepts the text. */
  lemma ParseSubtypeFirstMatch(s: string)
    ensures ParseArtifactType(s).Some? ==>
      ParseSubtype(s) == Some(Subtype.Artifact(ParseArtifactType(s).value))
    ensures (ParseArtifactType(s).None? && ParseEnchantmentType(s).Some?) ==>
      ParseSubtype(s) == Some(Subtype.Enchantment(ParseEnchantmentType(s).value))
    ensures (ParseArtifactType(s).None? && ParseEnchantmentType(s).None? && ParseLandType(s).Some?) ==>
      ParseSubtype(s) == Some(Subtype.Land(ParseLandType(s).value))
    ensures (UnknownBeforePlaneswalker(s) && ParsePlaneswalkerType(s).Some?) ==>
      ParseSubtype(s) == Some(Subtype.Planeswalker(ParsePlaneswalkerType(s).value))
    ensures (UnknownBeforePlaneswalker(s) && ParsePlaneswalkerType(s).None? && ParseSpellType(s).Some?) ==>
      ParseSubtype(s) == Some(Subtype.Spell(ParseSpellType(s).value))
    ensures (UnknownBeforeCreature(s) && ParseCreatureType(s).Some?) ==>
      ParseSubtype(s) == Some(Subtype.Creature(ParseCreatureType(s).value))
    ensures (UnknownBeforeCreature(s) && ParseCreatureType(s).None? && ParsePlanarType(s).Some?) ==>
      ParseSubtype(s) == Some(Subtype.Plane(ParsePlanarType(s).value))
    ensures (UnknownBeforeCreature(s) && ParseCreatureType(s).None? && ParsePlanarType(s).None?) ==>
      ParseSubtype(s) == None
  {
  }

  lemma ArtifactNameRoundTrip(x: ArtifactType)
    ensures ParseArtifactType(ArtifactTypeName(x)) == Some(x)
  {
  }

  lemma EnchantmentNameRoundTrip(x: EnchantmentType)
    ensures ParseEnchantmentType(EnchantmentTypeName(x)) == Some(x)
    ensures ParseArtifactType(EnchantmentTypeName(x)) == None
  {
  }

  lemma LandNameRoundTrip(x: LandType)
    ensures ParseLandType(LandTypeName(x)) == Some(x)
    ensures ParseArtifactType(LandTypeName(x)) == None
    ensures ParseEnchantmentType(LandTypeName(x)) == None
  {
  }

  lemma SpellNameRoundTrip(x: SpellType)
    ensures ParseSpellType(SpellTypeName(x)) == Some(x)
    ensures ParseArtifactType(SpellTypeName(x)) == None
    ensures ParseEnchantmentType(SpellTypeName(x)) == None
    ensures ParseLandType(SpellTypeName(x)) == None
    ensures ParsePlaneswalkerType(SpellTypeName(x)) == None
  {
  }

  /** A planeswalker name reads back as its subtype, and as no subtype of an earlier category. */
  lemma PlaneswalkerNameRoundTrip(x: PlaneswalkerType)
    ensures ParsePlaneswalkerType(PlaneswalkerTypeName(x)) == Some(x)
    ensures UnknownBeforePlaneswalker(PlaneswalkerTypeName(x))
  {
    if x == Ajani || x == Aminatou || x == Angrath || x == Arlinn {
      PlaneswalkerNamesReadAjaniToArlinn(x);
    } else if x == Ashiok || x == Bolas || x == Chandra || x == Dack {
      PlaneswalkerNamesReadAshiokToDack(x);
    } else if x == Daretti || x == Domri || x == Dovin || x == Elspeth {
      PlaneswalkerNamesReadDarettiToElspeth(x);
    } else if x == Estrid || x == Freyalise || x == Garruk || x == Gideon {
      PlaneswalkerNamesReadEstridToGideon(x);
    } else if x == Huatli || x == Jace || x == Jaya || x == Karn {
      PlaneswalkerNamesReadHuatliToKarn(x);
    } else if x == Kaya || x == Kiora || x == Koth || x == Liliana {
      PlaneswalkerNamesReadKayaToLiliana(x);
    } else if x == Nahiri || x == Narset || x == Nissa || x == Nixilis {
      PlaneswalkerNamesReadNahiriToNixilis(x);
    } else if x == Ral || x == Rowan || x == Saheeli || x == Samut {
      PlaneswalkerNamesReadRalToSamut(x);
    } else if x == Sarkhan || x == Sorin || x == Tamiyo || x == Teferi {
      PlaneswalkerNamesReadSarkhanToTeferi(x);
    } else if x == Tezzeret || x == Tibalt || x == Ugin || x == Venser {
      PlaneswalkerNamesReadTezzeretToVenser(x);
    } else if x == Vivien || x == Vraska || x == Will || x == Windgrace {
      PlaneswalkerNamesReadVivienToWindgrace(x);
    } else {
      PlaneswalkerNamesReadXenagosToYanling(x);
    }
  }

  /** The planeswalker names from Ajani to Arlinn read back, and as no subtype of an earlier category. */
  lemma PlaneswalkerNamesReadAjaniToArlinn(x: PlaneswalkerType)
    requires x == Ajani || x == Aminatou || x == Angrath || x == Arlinn
    ensures ParsePlaneswalkerType(PlaneswalkerTypeName(x)) == Some(x)
    ensures UnknownBeforePlaneswalker(PlaneswalkerTypeName(x))
  {
  }

  /** The planeswalker names from Ashiok to Dack read back, and as no subtype of an earlier category. */
  lemma PlaneswalkerNamesReadAshiokToDack(x: PlaneswalkerType)
    requires x == Ashiok || x == Bolas || x == Chandra || x == Dack
    ensures ParsePlaneswalkerType(PlaneswalkerTypeName(x)) == Some(x)
    ensures UnknownBeforePlaneswalker(PlaneswalkerTypeName(x))
  {
  }

  /** The planeswalker names from Daretti to Elspeth read back, and as no subtype of an earlier category. */
  lemma PlaneswalkerNamesReadDarettiToElspeth(x: PlaneswalkerType)
    requires x == Daretti || x == Domri || x == Dovin || x == Elspeth
    ensures ParsePlaneswalkerType(PlaneswalkerTypeName(x)) == Some(x)
    ensures UnknownBeforePlaneswalker(PlaneswalkerTypeName(x))
  {
  }

  /** The planeswalker names from Estrid to Gideon read back, and as no subtype of an earlier category. */
  lemma PlaneswalkerNamesReadEstridToGideon(x: PlaneswalkerType)
    requires x == Estrid || x == Freyalise || x == Garruk || x == Gideon
    ensures ParsePlaneswalkerType(PlaneswalkerTypeName(x)) == Some(x)
    ensures UnknownBeforePlaneswalker(PlaneswalkerTypeName(x))
  {
  }

  /** The planeswalker names from Huatli to Karn read back, and as no subtype of an earlier category. */
  lemma PlaneswalkerNamesReadHuatliToKarn(x: PlaneswalkerType)
    requires x == Huatli || x == Jace || x == Jaya || x == Karn
    ensures ParsePlaneswalkerType(PlaneswalkerTypeName(x)) == Some(x)
    ensures UnknownBeforePlaneswalker(PlaneswalkerTypeName(x))
  {
  }

  /** The planeswalker names from Kaya to Liliana read back, and as no subtype of an earlier category. */
  lemma PlaneswalkerNamesReadKayaToLiliana(x: PlaneswalkerType)
    requires x == Kaya || x == Kiora || x == Koth || x == Liliana
    ensures ParsePlaneswalkerType(PlaneswalkerTypeName(x)) == Some(x)
    ensures UnknownBeforePlaneswalker(PlaneswalkerTypeName(x))
  {
  }

  /** The planeswalker names from Nahiri to Nixilis read back, and as no subtype of an earlier category. */
  lemma PlaneswalkerNamesReadNahiriToNixilis(x: PlaneswalkerType)
    requires x == Nahiri || x == Narset || x == Nissa || x == Nixilis
    ensures ParsePlaneswalkerType(PlaneswalkerTypeName(x)) == Some(x)
    ensures UnknownBeforePlaneswalker(PlaneswalkerTypeName(x))
  {
  }

  /** The planeswalker names from Ral to Samut read back, and as no subtype of an earlier category. */
  lemma PlaneswalkerNamesReadRalToSamut(x: PlaneswalkerType)
    requires x == Ral || x == Rowan || x == Saheeli || x == Samut
    ensures ParsePlaneswalkerType(PlaneswalkerTypeName(x)) == Some(x)
    ensures UnknownBeforePlaneswalker(PlaneswalkerTypeName(x))
  {
  }

  /** The planeswalker names from Sarkhan to Teferi read back, and as no subtype of an earlier category. */
  lemma PlaneswalkerNamesReadSarkhanToTeferi(x: PlaneswalkerType)
    requires x == Sarkhan || x == Sorin || x == Tamiyo || x == Teferi
    ensures ParsePlaneswalkerType(PlaneswalkerTypeName(x)) == Some(x)
    ensures UnknownBeforePlaneswalker(PlaneswalkerTypeName(x))
  {
  }

  /** The planeswalker names from Tezzeret to Venser read back, and as no subtype of an earlier category. */
  lemma PlaneswalkerNamesReadTezzeretToVenser(x: PlaneswalkerType)
    requires x == Tezzeret || x == Tibalt || x == Ugin || x == Venser
    ensures ParsePlaneswalkerType(PlaneswalkerTypeName(x)) == Some(x)
    ensures UnknownBeforePlaneswalker(PlaneswalkerTypeName(x))
  {
  }

  /** The planeswalker names from Vivien to Windgrace read back, and as no subtype of an earlier category. */
  lemma PlaneswalkerNamesReadVivienToWindgrace(x: PlaneswalkerType)
    requires x == Vivien || x == Vraska || x == Will || x == Windgrace
    ensures ParsePlaneswalkerType(PlaneswalkerTypeName(x)) == Some(x)
    ensures UnknownBeforePlaneswalker(PlaneswalkerTypeName(x))
  {
  }

  /** The planeswalker names from Xenagos to Yanling read back, and as no subtype of an earlier category. */
  lemma PlaneswalkerNamesReadXenagosToYanling(x: PlaneswalkerType)
    requires x == Xenagos || x == Yanggu || x == Yanling
    ensures ParsePlaneswalkerType(PlaneswalkerTypeName(x)) == Some(x)
    ensures UnknownBeforePlaneswalker(PlaneswalkerTypeName(x))
  {
  }

  /** Subtypes of the artifact, enchantment, land, planeswalker and spell categories read back as themselves. */
  lemma SmallSubtypeRoundTrip(st: Subtype)
    requires st.Artifact? || st.Enchantment? || st.Land? || st.Planeswalker? || st.Spell?
    ensures ParseSubtype(SubtypeName(st)) == Some(st)
  {
    ParseSubtypeFirstMatch(SubtypeName(st));
    match st
    case Artifact(x) => ArtifactNameRoundTrip(x);
    case Enchantment(x) => EnchantmentNameRoundTrip(x);
    case Land(x) => LandNameRoundTrip(x);
    case Planeswalker(x) => PlaneswalkerNameRoundTrip(x);
    case Spell(x) => SpellNameRoundTrip(x);
  }

  lemma ArtifactNamesAreWords(x: ArtifactType)
    ensures IsWord(ArtifactTypeName(x)) && EmDash !in ArtifactTypeName(x)
  {
    assert VisibleAscii(ArtifactTypeName(x));
    VisibleAsciiIsWord(ArtifactTypeName(x));
  }

  lemma EnchantmentNamesAreWords(x: EnchantmentType)
    ensures IsWord(EnchantmentTypeName(x)) && EmDash !in EnchantmentTypeName(x)
  {
    assert VisibleAscii(EnchantmentTypeName(x));
    VisibleAsciiIsWord(EnchantmentTypeName(x));
  }

  lemma LandNamesAreWords(x: LandType)
    ensures IsWord(LandTypeName(x)) && EmDash !in LandTypeName(x)
  {
    assert VisibleAscii(LandTypeName(x));
    VisibleAsciiIsWord(LandTypeName(x));
  }

  lemma SpellNamesAreWords(x: SpellType)
    ensures IsWord(SpellTypeName(x)) && EmDash !in SpellTypeName(x)
  {
    assert VisibleAscii(SpellTypeName(x));
    VisibleAsciiIsWord(SpellTypeName(x));
  }

  /** The subtype's name reads back as that same subtype. */
  predicate ReadsBack(st: Subtype)
  {
    ParseSubtype(SubtypeName(st)) == Some(st)
  }

  /** A creature subtype reads back when the creature reader knows its name and no earlier category claims it. */
  lemma CreatureReadsBack(x: CreatureType)
    requires UnknownBeforeCreature(CreatureTypeName(x))
    requires ParseCreatureType(CreatureTypeName(x)) == Some(x)
    ensures ReadsBack(Subtype.Creature(x))
  {
    ParseSubtypeFirstMatch(CreatureTypeName(x));
  }

  lemma VampireName()
    ensures CreatureTypeName(Vampire) == "Vampire"
  {
  }

  lemma MerfolkName()
    ensures CreatureTypeName(Merfolk) == "Merfolk"
  {
  }

  lemma WizardName()
    ensures CreatureTypeName(Wizard) == "Wizard"
  {
  }

  lemma ConstructName()
    ensures CreatureTypeName(Construct) == "Construct"
  {
  }

  lemma HumanName()
    ensures CreatureTypeName(Human) == "Human"
  {
  }

  lemma GodName()
    ensures CreatureTypeName(God) == "God"
  {
  }

  lemma AssemblyWorkerName()
    ensures CreatureTypeName(AssemblyWorker) == "Assembly-Worker"
  {
  }

  /** The creature subtypes the crate's tests use print as these names. */
  lemma CreatureTestNames()
    ensures CreatureTypeName(Vampire) == "Vampire"
    ensures CreatureTypeName(Merfolk) == "Merfolk"
    ensures CreatureTypeName(Wizard) == "Wizard"
    ensures CreatureTypeName(Construct) == "Construct"
    ensures CreatureTypeName(God) == "God"
    ensures CreatureTypeName(AssemblyWorker) == "Assembly-Worker"
  {
    VampireName();
    MerfolkName();
    WizardName();
    ConstructName();
    GodName();
    AssemblyWorkerName();
  }

  /** The creature reader maps those names back to their subtypes. */
  lemma CreatureTestParses()
    ensures ParseCreatureType("Vampire") == Some(Vampire)
    ensures ParseCreatureType("Merfolk") == Some(Merfolk)
    ensures ParseCreatureType("Wizard") == Some(Wizard)
    ensures ParseCreatureType("Construct") == Some(Construct)
    ensures ParseCreatureType("God") == Some(God)
    ensures ParseCreatureType("Assembly-Worker") == Some(AssemblyWorker)
  {
  }

  /** No category before the creature category claims those names. */
  lemma CreatureTestNamesUnknownBefore()
    ensures UnknownBeforeCreature("Vampire") && UnknownBeforeCreature("Merfolk")
    ensures UnknownBeforeCreature("Wizard") && UnknownBeforeCreature("Construct")
    ensures UnknownBeforeCreature("God") && UnknownBeforeCreature("Assembly-Worker")
  {
  }

  /** The creature subtypes of the crate's tests read back as themselves. */
  lemma CreatureTestSubtypesReadBack()
    ensures ReadsBack(Subtype.Creature(Vampire)) && ReadsBack(Subtype.Creature(Merfolk))
    ensures ReadsBack(Subtype.Creature(Wizard)) && ReadsBack(Subtype.Creature(Construct))
    ensures ReadsBack(Subtype.Creature(God)) && ReadsBack(Subtype.Creature(AssemblyWorker))
  {
    CreatureTestNames();
    CreatureTestParses();
    CreatureTestNamesUnknownBefore();
    CreatureReadsBack(Vampire);
    CreatureReadsBack(Merfolk);
    CreatureReadsBack(Wizard);
    CreatureReadsBack(Construct);
    CreatureReadsBack(God);
    CreatureReadsBack(AssemblyWorker);
  }

  /** "Human" prints from the creature subtype and reads back as it. */
  lemma HumanReadsBack()
    ensures SubtypeName(Subtype.Creature(Human)) == "Human"
    ensures ReadsBack(Subtype.Creature(Human))
  {
    HumanName();
    assert ParseCreatureType("Human") == Some(Human);
    assert UnknownBeforeCreature("Human");
    CreatureReadsBack(Human);
  }

  /** "Lorwyn" is read as the plane subtype. */
  lemma LorwynReadsBack()
    ensures SubtypeName(Subtype.Plane(Lorwyn)) == "Lorwyn"
    ensures ReadsBack(Subtype.Plane(Lorwyn))
  {
    ParseSubtypeFirstMatch("Lorwyn");
  }

  /** One subtype of each category, as in the crate's serialisation test. */
  const SampleSubtypes: seq<Subtype> := [
    Subtype.Artifact(Clue), Subtype.Enchantment(Saga), Subtype.Land(Swamp),
    Subtype.Planeswalker(Elspeth), Subtype.Spell(Arcane), Subtype.Creature(Vampire),
    Subtype.Plane(Lorwyn)
  ]

  const SampleNames: seq<string> := ["Clue", "Saga", "Swamp", "Elspeth", "Arcane", "Vampire", "Lorwyn"]

  /** The sample subtypes print as the sample names. */
  lemma SampleSubtypesPrint()
    ensures |SampleSubtypes| == |SampleNames|
    ensures forall i :: 0 <= i < |SampleSubtypes| ==> SubtypeName(SampleSubtypes[i]) == SampleNames[i]
  {
    CreatureTestNames();
  }

  /** The sample names read back as the sample subtypes. */
  lemma SampleNamesRead()
    ensures |SampleSubtypes| == |SampleNames|
    ensures forall i :: 0 <= i < |SampleNames| ==> ParseSubtype(SampleNames[i]) == Some(SampleSubtypes[i])
  {
    SampleSubtypesPrint();
    forall i | 0 <= i < |SampleNames|
      ensures ReadsBack(SampleSubtypes[i])
    {
      if i < 5 {
        SmallSubtypeRoundTrip(SampleSubtypes[i]);
      } else {
        CreatureTestSubtypesReadBack();
        LorwynReadsBack();
      }
    }
  }

  /** "Mountain" is read as the land subtype (the land category comes before every other that could claim it). */
  lemma MountainIsLand()
    ensures ParseSubtype("Mountain") == Some(Subtype.Land(Mountain))
  {
    SmallSubtypeRoundTrip(Subtype.Land(Mountain));
  }

  /** Renamed entries print as their renames and read back from them. */
  lemma RenamedEntriesRoundTrip()
    ensures SubtypeName(Subtype.Land(PowerPlant)) == "Power-Plant" && ReadsBack(Subtype.Land(PowerPlant))
    ensures SubtypeName(Subtype.Land(Urzas)) == "Urza's" && ReadsBack(Subtype.Land(Urzas))
  {
    SmallSubtypeRoundTrip(Subtype.Land(PowerPlant));
    SmallSubtypeRoundTrip(Subtype.Land(Urzas));
  }

  /** The plane "Bolas's Meditation Realm" prints with its spaces and apostrophe, and reads back. */
  lemma BolasRealmRoundTrip()
    ensures PlanarTypeName(BolassMeditationRealm) == "Bolas's Meditation Realm"
    ensures ReadsBack(Subtype.Plane(BolassMeditationRealm))
  {
    ParseSubtypeFirstMatch("Bolas's Meditation Realm");
  }
}
