/** The game-domain taxonomy of `src/xiv_util.rs`: jobs, their roles, the
    three-letter job codes of the party-finder page, the emoji glyphs shown
    for jobs and slots, and the duty colour table. */
module XivUtil {
  import opened Wrappers

  /** The 29 playable jobs and classes, in the order the source declares them. */
  datatype Job =
    | Gunbreaker | Paladin | Gladiator | DarkKnight | Warrior | Marauder
    | Scholar | Arcanist | Sage | Astrologian | WhiteMage | Conjurer
    | Samurai | Dragoon | Ninja | Monk | Reaper | Bard | Machinist | Dancer
    | BlackMage | BlueMage | Summoner | RedMage | Lancer | Pugilist | Rogue
    | Thaumaturge | Archer

  datatype Role = Tank | DPS | Healer

  /** One party position. The source's field is `available_jobs`; the
      scraper and the renderer spell it `available_roles`. */
  datatype Slot = Slot(availableJobs: seq<Job>, filled: bool)

  /** A party-finder listing; every field but `slots` is text from the page. */
  datatype PFListing = PFListing(
    title: string,
    author: string,
    flags: string,
    description: string,
    slots: seq<Slot>,
    lastUpdated: string,
    expiresIn: string,
    minIlvl: string,
    dataCenter: string,
    pfCategory: string)

  // ---------------------------------------------------------------- roles

  /** The fixed vectors `get_role` searches. */
  const Tanks: seq<Job> := [Paladin, Gunbreaker, DarkKnight, Warrior, Marauder, Gladiator]
  const Healers: seq<Job> := [Conjurer, WhiteMage, Scholar, Astrologian, Sage]

  /** `Job::get_role`: tank if in the tank vector, else healer if in the
      healer vector, else DPS. */
  function GetRole(j: Job): (r: Role)
    ensures r == Tank <==> j in Tanks
    ensures r == Healer <==> j in Healers
  {
    if j in Tanks then Tank
    else if j in Healers then Healer
    else DPS
  }

  /** The classification written out role by role, over every job. */
  const TankJobs: set<Job> := {Paladin, Gunbreaker, DarkKnight, Warrior, Marauder, Gladiator}
  const HealerJobs: set<Job> := {Conjurer, WhiteMage, Scholar, Astrologian, Sage}
  const DpsJobs: set<Job> := {
    Arcanist, Samurai, Dragoon, Ninja, Monk, Reaper, Bard, Machinist, Dancer,
    BlackMage, BlueMage, Summoner, RedMage, Lancer, Pugilist, Rogue, Thaumaturge, Archer}

  /** `get_role` gives Tank exactly for the six tanks. */
  lemma TankRole(j: Job)
    ensures GetRole(j) == Tank <==> j in TankJobs
  {
  }

  /** `get_role` gives Healer exactly for the five healers. */
  lemma HealerRole(j: Job)
    ensures GetRole(j) == Healer <==> j in HealerJobs
  {
  }

  /** `get_role` gives DPS exactly for the other eighteen jobs. */
  lemma DpsRole(j: Job)
    ensures GetRole(j) == DPS <==> j in DpsJobs
  {
  }

  // ---------------------------------------------------------------- job codes

  /** `Job::from_str`: the job codes of the party-finder page. Anything else,
      lower-case spellings and the empty string included, is `Err(())`. */
  function FromStr(input: string): (r: Result<Job, ()>)
    ensures r.Ok? ==> |input| == 3 && forall i :: 0 <= i < 3 ==> 'A' <= input[i] <= 'Z'
  {
    match input
    case "PLD" => Ok(Paladin)
    case "WAR" => Ok(Warrior)
    case "DRK" => Ok(DarkKnight)
    case "GNB" => Ok(Gunbreaker)
    case "GLD" => Ok(Gladiator)
    case "MRD" => Ok(Marauder)
    case "WHM" => Ok(WhiteMage)
    case "SCH" => Ok(Scholar)
    case "AST" => Ok(Astrologian)
    case "SGE" => Ok(Sage)
    case "CNJ" => Ok(Conjurer)
    case "ARN" => Ok(Arcanist)
    case "MNK" => Ok(Monk)
    case "PGL" => Ok(Pugilist)
    case "DRG" => Ok(Dragoon)
    case "LNC" => Ok(Lancer)
    case "NIN" => Ok(Ninja)
    case "ROG" => Ok(Rogue)
    case "SAM" => Ok(Samurai)
    case "RPR" => Ok(Reaper)
    case "BRD" => Ok(Bard)
    case "ARC" => Ok(Archer)
    case "MCH" => Ok(Machinist)
    case "DNC" => Ok(Dancer)
    case "BLM" => Ok(BlackMage)
    case "SMN" => Ok(Summoner)
    case "BLU" => Ok(BlueMage)
    case "RDM" => Ok(RedMage)
    case "RGE" => Ok(Rogue)
    case "THM" => Ok(Thaumaturge)
    case "ACN" => Ok(Arcanist)
    case _ => Err(())
  }

  /** The first code the decoder lists for each job: the table read backwards. */
  function Code(j: Job): string
  {
    match j
    case Paladin => "PLD"
    case Warrior => "WAR"
    case DarkKnight => "DRK"
    case Gunbreaker => "GNB"
    case Gladiator => "GLD"
    case Marauder => "MRD"
    case WhiteMage => "WHM"
    case Scholar => "SCH"
    case Astrologian => "AST"
    case Sage => "SGE"
    case Conjurer => "CNJ"
    case Arcanist => "ARN"
    case Monk => "MNK"
    case Pugilist => "PGL"
    case Dragoon => "DRG"
    case Lancer => "LNC"
    case Ninja => "NIN"
    case Rogue => "ROG"
    case Samurai => "SAM"
    case Reaper => "RPR"
    case Bard => "BRD"
    case Archer => "ARC"
    case Machinist => "MCH"
    case Dancer => "DNC"
    case BlackMage => "BLM"
    case Summoner => "SMN"
    case BlueMage => "BLU"
    case RedMage => "RDM"
    case Thaumaturge => "THM"
  }

  /** The two codes the decoder accepts besides `Code(j)`. */
  const AliasCodes: set<string> := {"RGE", "ACN"}

  /** Surjectivity: every job is decoded from its code. */
  lemma FromStrCode(j: Job)
    ensures FromStr(Code(j)) == Ok(j)
  {
  }

  /** The decoder accepts nothing but the 29 codes and the two aliases. */
  lemma FromStrOnlyCodes(input: string)
    requires FromStr(input).Ok?
    ensures input in AliasCodes || Code(FromStr(input).value) == input
  {
  }

  /** The decoder accepts exactly the 29 codes and the two aliases, and the
      aliases decode to Rogue and Arcanist. */
  lemma {:induction false} FromStrAccepts(input: string)
    ensures FromStr(input).Ok? <==> input in AliasCodes || exists j :: Code(j) == input
    ensures FromStr("RGE") == Ok(Rogue) && FromStr("ACN") == Ok(Arcanist)
  {
    if FromStr(input).Ok? {
      FromStrOnlyCodes(input);
    }
    if exists j :: Code(j) == input {
      var j :| Code(j) == input;
      FromStrCode(j);
    }
  }

  /** The decoder is not injective: two pairs of codes share a job. */
  lemma FromStrNotInjective()
    ensures "ROG" != "RGE" && FromStr("ROG") == FromStr("RGE") == Ok(Rogue)
    ensures "ARN" != "ACN" && FromStr("ARN") == FromStr("ACN") == Ok(Arcanist)
  {
  }

  /** `Code` is injective, as a left inverse of `FromStr` must be. */
  lemma {:induction false} CodeInjective(a: Job, b: Job)
    ensures Code(a) == Code(b) ==> a == b
  {
    FromStrCode(a);
    FromStrCode(b);
  }

  // ---------------------------------------------------------------- emoji

  /** `n` in decimal, most significant digit first, without leading zeros. */
  function Decimal(n: nat): (r: string)
    ensures |r| >= 1 && forall k :: 0 <= k < |r| ==> '0' <= r[k] <= '9'
  {
    if n < 10 then [DigitChar(n)] else Decimal(n / 10) + [DigitChar(n % 10)]
  }

  function DigitChar(d: nat): (c: char)
    requires d < 10
    ensures '0' <= c <= '9'
  {
    (48 + d) as char
  }

  /** Decimal notation tells numbers apart. */
  lemma {:induction false} DecimalInjective(m: nat, n: nat)
    ensures Decimal(m) == Decimal(n) ==> m == n
  {
    if Decimal(m) == Decimal(n) {
      var dm, dn := Decimal(m), Decimal(n);
      if m >= 10 && n >= 10 {
        assert dm[..|dm| - 1] == Decimal(m / 10);
        assert dn[..|dn| - 1] == Decimal(n / 10);
        DecimalInjective(m / 10, n / 10);
        assert dm[|dm| - 1] == DigitChar(m % 10);
      }
    }
  }

  /** The message text of a Discord custom emoji: `<:name:id>`. The source
      writes each of these as one literal; here the name and the numeric id
      are kept apart, which spells the same strings. */
  function CustomEmoji(name: string, id: nat): string
  {
    "<:" + name + ":" + Decimal(id) + ">"
  }

  /** Two custom emoji texts that are equal have equal ids. */
  lemma CustomEmojiId(name1: string, id1: nat, name2: string, id2: nat)
    requires CustomEmoji(name1, id1) == CustomEmoji(name2, id2)
    ensures id1 == id2
  {
    var s := CustomEmoji(name1, id1);
    var d1, d2 := Decimal(id1), Decimal(id2);
    assert s[|s| - 1 - |d1|..|s| - 1] == d1;
    assert s[|s| - 1 - |d2|..|s| - 1] == d2;
    assert s[|s| - 2 - |d1|] == ':';
    assert s[|s| - 2 - |d2|] == ':';
    DecimalInjective(id1, id2);
  }

  /** A custom emoji text has no space when its name has none. */
  lemma CustomEmojiNoSpace(name: string, id: nat)
    requires ' ' !in name
    ensures ' ' !in CustomEmoji(name, id)
  {
    var d := Decimal(id);
    assert CustomEmoji(name, id) == "<:" + name + ":" + d + ">";
  }

  // ---------------------------------------------------------------- job glyphs and names

  /** The emoji name of each job's glyph. */
  function EmojiName(j: Job): string
  {
    match j
    case Gunbreaker => "gunbreaker"
    case Paladin => "paladin"
    case Gladiator => "gladiator"
    case DarkKnight => "darkknight"
    case Warrior => "warrior"
    case Marauder => "marauder"
    case Scholar => "scholar"
    case Arcanist => "arcanist"
    case Sage => "sage"
    case Astrologian => "astrologian"
    case WhiteMage => "whitemage"
    case Conjurer => "conjurer"
    case Samurai => "samurai"
    case Dragoon => "dragoon"
    case Ninja => "ffxivninja"
    case Monk => "monk"
    case Reaper => "reaper"
    case Bard => "bard"
    case Machinist => "machinist"
    case Dancer => "ffxivdancer"
    case BlackMage => "blackmage"
    case BlueMage => "bluemage"
    case Summoner => "summoner"
    case RedMage => "redmage"
    case Lancer => "lancer"
    case Pugilist => "pugilist"
    case Rogue => "rogue"
    case Thaumaturge => "thaumaturge"
    case Archer => "archer"
  }

  /** The emoji id of each job's glyph. */
  function EmojiId(j: Job): nat
  {
    match j
    case Gunbreaker => 985322473337782384
    case Paladin => 985322479318892584
    case Gladiator => 985322472079491152
    case DarkKnight => 985322469873303624
    case Warrior => 985322493143318578
    case Marauder => 985322476986826782
    case Scholar => 985322486231089212
    case Arcanist => 985322461866369094
    case Sage => 985322483823566908
    case Astrologian => 985322464127107093
    case WhiteMage => 985322493919244328
    case Conjurer => 985322468308811886
    case Samurai => 985322484842758235
    case Dragoon => 985322471232245860
    case Ninja => 985322478521966612
    case Monk => 985322477683089418
    case Reaper => 985322481025966150
    case Bard => 985322465733533736
    case Machinist => 985322476244443246
    case Dancer => 985322469172850728
    case BlackMage => 985322466723377202
    case BlueMage => 985322467599974421
    case Summoner => 985322487191584839
    case RedMage => 985322481889996890
    case Lancer => 985322475225219084
    case Pugilist => 985322480203862056
    case Rogue => 985322482879848458
    case Thaumaturge => 985322492258295818
    case Archer => 985322463552495616
  }

  /** Reads an emoji id back as its job: the inverse of `EmojiId`. */
  function IdJob(id: nat): Option<Job>
  {
    match id
    case 985322473337782384 => Some(Gunbreaker)
    case 985322479318892584 => Some(Paladin)
    case 985322472079491152 => Some(Gladiator)
    case 985322469873303624 => Some(DarkKnight)
    case 985322493143318578 => Some(Warrior)
    case 985322476986826782 => Some(Marauder)
    case 985322486231089212 => Some(Scholar)
    case 985322461866369094 => Some(Arcanist)
    case 985322483823566908 => Some(Sage)
    case 985322464127107093 => Some(Astrologian)
    case 985322493919244328 => Some(WhiteMage)
    case 985322468308811886 => Some(Conjurer)
    case 985322484842758235 => Some(Samurai)
    case 985322471232245860 => Some(Dragoon)
    case 985322478521966612 => Some(Ninja)
    case 985322477683089418 => Some(Monk)
    case 985322481025966150 => Some(Reaper)
    case 985322465733533736 => Some(Bard)
    case 985322476244443246 => Some(Machinist)
    case 985322469172850728 => Some(Dancer)
    case 985322466723377202 => Some(BlackMage)
    case 985322467599974421 => Some(BlueMage)
    case 985322487191584839 => Some(Summoner)
    case 985322481889996890 => Some(RedMage)
    case 985322475225219084 => Some(Lancer)
    case 985322480203862056 => Some(Pugilist)
    case 985322482879848458 => Some(Rogue)
    case 985322492258295818 => Some(Thaumaturge)
    case 985322463552495616 => Some(Archer)
    case _ => None
  }

  lemma IdRoundTrip(j: Job)
    ensures IdJob(EmojiId(j)) == Some(j)
  {
  }

  /** `Job::get_emoji_string`: the custom emoji shown for a job. */
  function Glyph(j: Job): (r: string)
    ensures |r| > 4 && r[..2] == "<:" && r[|r| - 1] == '>'
  {
    CustomEmoji(EmojiName(j), EmojiId(j))
  }

  /** Distinct jobs have distinct glyphs: their emoji ids differ. */
  lemma {:induction false} GlyphInjective(a: Job, b: Job)
    ensures Glyph(a) == Glyph(b) ==> a == b
  {
    if Glyph(a) == Glyph(b) {
      CustomEmojiId(EmojiName(a), EmojiId(a), EmojiName(b), EmojiId(b));
      IdRoundTrip(a);
      IdRoundTrip(b);
    }
  }

  /** A glyph is one token: it holds no space. */
  lemma {:induction false} GlyphNoSpace(j: Job)
    ensures ' ' !in Glyph(j)
  {
    if j in {Gunbreaker, Paladin, Gladiator, DarkKnight, Warrior, Marauder, Scholar, Arcanist, Sage, Astrologian} {
      EmojiNameNoSpaceFirst(j);
    } else if j in {WhiteMage, Conjurer, Samurai, Dragoon, Ninja, Monk, Reaper, Bard, Machinist, Dancer} {
      EmojiNameNoSpaceSecond(j);
    } else {
      EmojiNameNoSpaceThird(j);
    }
    CustomEmojiNoSpace(EmojiName(j), EmojiId(j));
  }

  lemma EmojiNameNoSpaceFirst(j: Job)
    requires j in {Gunbreaker, Paladin, Gladiator, DarkKnight, Warrior, Marauder, Scholar, Arcanist, Sage, Astrologian}
    ensures ' ' !in EmojiName(j)
  {
  }

  lemma EmojiNameNoSpaceSecond(j: Job)
    requires j in {WhiteMage, Conjurer, Samurai, Dragoon, Ninja, Monk, Reaper, Bard, Machinist, Dancer}
    ensures ' ' !in EmojiName(j)
  {
  }

  lemma EmojiNameNoSpaceThird(j: Job)
    requires j in {BlackMage, BlueMage, Summoner, RedMage, Lancer, Pugilist, Rogue, Thaumaturge, Archer}
    ensures ' ' !in EmojiName(j)
  {
  }

  /** `impl Display for Job`: the job's name as written in the enum. */
  function Name(j: Job): (r: string)
    ensures |r| > 0 && 'A' <= r[0] <= 'Z'
  {
    match j
    case Gunbreaker => "Gunbreaker"
    case Paladin => "Paladin"
    case Gladiator => "Gladiator"
    case DarkKnight => "DarkKnight"
    case Warrior => "Warrior"
    case Marauder => "Marauder"
    case Scholar => "Scholar"
    case Arcanist => "Arcanist"
    case Sage => "Sage"
    case Astrologian => "Astrologian"
    case WhiteMage => "WhiteMage"
    case Conjurer => "Conjurer"
    case Samurai => "Samurai"
    case Dragoon => "Dragoon"
    case Ninja => "Ninja"
    case Monk => "Monk"
    case Reaper => "Reaper"
    case Bard => "Bard"
    case Machinist => "Machinist"
    case Dancer => "Dancer"
    case BlackMage => "BlackMage"
    case BlueMage => "BlueMage"
    case Summoner => "Summoner"
    case RedMage => "RedMage"
    case Lancer => "Lancer"
    case Pugilist => "Pugilist"
    case Rogue => "Rogue"
    case Thaumaturge => "Thaumaturge"
    case Archer => "Archer"
  }

  /** Reads a display name back: the left inverse of `Name`. */
  function NameJob(name: string): Option<Job>
  {
    match name
    case "Gunbreaker" => Some(Gunbreaker)
    case "Paladin" => Some(Paladin)
    case "Gladiator" => Some(Gladiator)
    case "DarkKnight" => Some(DarkKnight)
    case "Warrior" => Some(Warrior)
    case "Marauder" => Some(Marauder)
    case "Scholar" => Some(Scholar)
    case "Arcanist" => Some(Arcanist)
    case "Sage" => Some(Sage)
    case "Astrologian" => Some(Astrologian)
    case "WhiteMage" => Some(WhiteMage)
    case "Conjurer" => Some(Conjurer)
    case "Samurai" => Some(Samurai)
    case "Dragoon" => Some(Dragoon)
    case "Ninja" => Some(Ninja)
    case "Monk" => Some(Monk)
    case "Reaper" => Some(Reaper)
    case "Bard" => Some(Bard)
    case "Machinist" => Some(Machinist)
    case "Dancer" => Some(Dancer)
    case "BlackMage" => Some(BlackMage)
    case "BlueMage" => Some(BlueMage)
    case "Summoner" => Some(Summoner)
    case "RedMage" => Some(RedMage)
    case "Lancer" => Some(Lancer)
    case "Pugilist" => Some(Pugilist)
    case "Rogue" => Some(Rogue)
    case "Thaumaturge" => Some(Thaumaturge)
    case "Archer" => Some(Archer)
    case _ => None
  }

  lemma NameRoundTrip(j: Job)
    ensures NameJob(Name(j)) == Some(j)
  {
    if j in {Gunbreaker, Paladin, Gladiator, DarkKnight, Warrior, Marauder, Scholar, Arcanist, Sage, Astrologian} {
      NameRoundTripFirst(j);
    } else if j in {WhiteMage, Conjurer, Samurai, Dragoon, Ninja, Monk, Reaper, Bard, Machinist, Dancer} {
      NameRoundTripSecond(j);
    } else {
      NameRoundTripThird(j);
    }
  }

  lemma NameRoundTripFirst(j: Job)
    requires j in {Gunbreaker, Paladin, Gladiator, DarkKnight, Warrior, Marauder, Scholar, Arcanist, Sage, Astrologian}
    ensures NameJob(Name(j)) == Some(j)
  {
  }

  lemma NameRoundTripSecond(j: Job)
    requires j in {WhiteMage, Conjurer, Samurai, Dragoon, Ninja, Monk, Reaper, Bard, Machinist, Dancer}
    ensures NameJob(Name(j)) == Some(j)
  {
  }

  lemma NameRoundTripThird(j: Job)
    requires j in {BlackMage, BlueMage, Summoner, RedMage, Lancer, Pugilist, Rogue, Thaumaturge, Archer}
    ensures NameJob(Name(j)) == Some(j)
  {
  }

  /** Distinct jobs have distinct display names. */
  lemma NameInjective(a: Job, b: Job)
    ensures Name(a) == Name(b) ==> a == b
  {
    NameRoundTrip(a);
    NameRoundTrip(b);
  }

  // ---------------------------------------------------------------- slot icons

  /** `any(|x| x.get_role() == role)` over a slot's jobs. */
  predicate HasRole(jobs: seq<Job>, role: Role)
  {
    exists j :: j in jobs && GetRole(j) == role
  }

  /** The roles a slot's jobs cover. */
  function RolesOf(jobs: seq<Job>): set<Role>
  {
    set j | j in jobs :: GetRole(j)
  }

  /** The icon of an open slot, keyed on which roles it accepts; no role
      at all gives the empty string. */
  function RoleIcon(tank: bool, healer: bool, dps: bool): string
  {
    if !tank && !healer && !dps then ""
    else
      var (name, id) := RoleEmoji(tank, healer, dps);
      CustomEmoji(name, id)
  }

  /** `Slot::get_emoji_string`: a filled slot shows its first job's glyph
      (nothing when it lists no job); an open slot shows the icon of the
      roles it accepts. Either way the icon is empty exactly when the slot
      lists no job. */
  function SlotIcon(s: Slot): (r: string)
    ensures r == "" <==> s.availableJobs == []
  {
    var jobs := s.availableJobs;
    if s.filled then
      if |jobs| > 0 then Glyph(jobs[0]) else ""
    else
      var t, h, d := HasRole(jobs, Tank), HasRole(jobs, Healer), HasRole(jobs, DPS);
      RoleIconInjective(t, h, d, false, false, false);
      assert jobs != [] ==> HasRole(jobs, GetRole(jobs[0]));
      RoleIcon(t, h, d)
  }

  /** `HasRole` asks whether `role` is among the roles the jobs cover. */
  lemma HasRoleIff(jobs: seq<Job>, role: Role)
    ensures HasRole(jobs, role) <==> role in RolesOf(jobs)
  {
  }

  /** A custom emoji text is never empty. */
  lemma CustomEmojiNonEmpty(name: string, id: nat)
    ensures CustomEmoji(name, id) != ""
  {
    assert CustomEmoji(name, id)[0] == '<';
  }

  /** The eight role combinations give eight different icons, and only the
      empty combination gives the empty string. */
  lemma {:induction false} RoleIconInjective(t1: bool, h1: bool, d1: bool, t2: bool, h2: bool, d2: bool)
    ensures RoleIcon(t1, h1, d1) == RoleIcon(t2, h2, d2) ==> t1 == t2 && h1 == h2 && d1 == d2
    ensures RoleIcon(t1, h1, d1) == "" <==> !t1 && !h1 && !d1
  {
    var (n1, i1) := RoleEmoji(t1, h1, d1);
    var (n2, i2) := RoleEmoji(t2, h2, d2);
    var some1, some2 := t1 || h1 || d1, t2 || h2 || d2;
    if some1 {
      CustomEmojiNonEmpty(n1, i1);
    }
    if some2 {
      CustomEmojiNonEmpty(n2, i2);
    }
    if some1 && some2 && RoleIcon(t1, h1, d1) == RoleIcon(t2, h2, d2) {
      CustomEmojiId(n1, i1, n2, i2);
      RoleEmojiIdInjective(t1, h1, d1, t2, h2, d2);
    }
  }

  /** The seven role emoji have seven different ids. */
  lemma RoleEmojiIdInjective(t1: bool, h1: bool, d1: bool, t2: bool, h2: bool, d2: bool)
    requires t1 || h1 || d1
    requires t2 || h2 || d2
    ensures RoleEmoji(t1, h1, d1).1 == RoleEmoji(t2, h2, d2).1 ==> t1 == t2 && h1 == h2 && d1 == d2
  {
  }

  /** The emoji name and id `RoleIcon` shows for a non-empty combination. */
  function RoleEmoji(tank: bool, healer: bool, dps: bool): (string, nat)
  {
    if tank && healer && dps then ("tankhealerdps", 985322491398459482)
    else if tank && healer && !dps then ("tankhealer", 985322490375049246)
    else if tank && !healer && dps then ("tankdps", 985322489422958662)
    else if tank && !healer && !dps then ("tank", 985322488332443668)
    else if !tank && healer && dps then ("healerdps", 985322474923233390)
    else if !tank && healer && !dps then ("healer", 985322474134704138)
    else ("dps", 985322470326280213)
  }

  /** An open slot's icon is the icon of the set of roles its jobs cover. */
  lemma {:induction false} OpenSlotIconOfRoles(s: Slot)
    requires !s.filled
    ensures SlotIcon(s) == RoleIcon(Tank in RolesOf(s.availableJobs), Healer in RolesOf(s.availableJobs), DPS in RolesOf(s.availableJobs))
  {
    HasRoleIff(s.availableJobs, Tank);
    HasRoleIff(s.availableJobs, Healer);
    HasRoleIff(s.availableJobs, DPS);
  }

  /** Two sets of roles are equal when they agree on the three roles. */
  lemma RoleSetsEqual(x: set<Role>, y: set<Role>)
    requires (Tank in x <==> Tank in y) && (Healer in x <==> Healer in y) && (DPS in x <==> DPS in y)
    ensures x == y
  {
    forall r ensures r in x <==> r in y {
      match r
      case Tank =>
      case Healer =>
      case DPS =>
    }
  }

  /** An open slot's icon is determined by, and determines, the set of
      roles its jobs cover: reordering or repeating jobs, or swapping a job
      for another of the same role, does not change it. */
  lemma {:induction false} OpenSlotIconIff(a: Slot, b: Slot)
    requires !a.filled && !b.filled
    ensures SlotIcon(a) == SlotIcon(b) <==> RolesOf(a.availableJobs) == RolesOf(b.availableJobs)
  {
    var x, y := RolesOf(a.availableJobs), RolesOf(b.availableJobs);
    OpenSlotIconOfRoles(a);
    OpenSlotIconOfRoles(b);
    RoleIconInjective(Tank in x, Healer in x, DPS in x, Tank in y, Healer in y, DPS in y);
    if SlotIcon(a) == SlotIcon(b) {
      RoleSetsEqual(x, y);
    }
  }

  /** Two open slots accepting the same jobs, in any order and with any
      repetition, show the same icon. */
  lemma {:induction false} OpenSlotIconIgnoresOrder(a: Slot, b: Slot)
    requires !a.filled && !b.filled
    requires forall j :: j in a.availableJobs <==> j in b.availableJobs
    ensures SlotIcon(a) == SlotIcon(b)
  {
    assert RolesOf(a.availableJobs) == RolesOf(b.availableJobs);
    OpenSlotIconIff(a, b);
  }

  /** A filled slot with jobs shows the glyph of its first job and so
      tells that job apart from every other. */
  lemma {:induction false} FilledSlotIconIff(a: Slot, b: Slot)
    requires a.filled && b.filled && |a.availableJobs| > 0 && |b.availableJobs| > 0
    ensures SlotIcon(a) == Glyph(a.availableJobs[0])
    ensures SlotIcon(a) == SlotIcon(b) <==> a.availableJobs[0] == b.availableJobs[0]
  {
    GlyphInjective(a.availableJobs[0], b.availableJobs[0]);
  }

  /** A slot icon is one token: it holds no space. */
  lemma {:induction false} SlotIconNoSpace(s: Slot)
    ensures ' ' !in SlotIcon(s)
  {
    var jobs := s.availableJobs;
    if s.filled {
      if |jobs| > 0 {
        GlyphNoSpace(jobs[0]);
      }
    } else {
      var t, h, d := HasRole(jobs, Tank), HasRole(jobs, Healer), HasRole(jobs, DPS);
      if t || h || d {
        var (n, i) := RoleEmoji(t, h, d);
        CustomEmojiNoSpace(n, i);
        assert SlotIcon(s) == CustomEmoji(n, i);
      }
    }
  }

  // ---------------------------------------------------------------- duty colours

  /** The four ultimate duties the colour table names. */
  const UltimateDuties: set<string> := {
    "The Unending Coil of Bahamut (Ultimate)", "The Weapon's Refrain (Ultimate)",
    "The Epic of Alexander (Ultimate)", "Dragonsong's Reprise (Ultimate)"}

  const DefaultColor: nat := 0xf0a057

  /** `get_color_from_duty`: the embed colour, as a 24-bit RGB value, for a
      duty name. */
  function GetColorFromDuty(dutyName: string): (c: nat)
    ensures c < 0x100_0000
    ensures c == DefaultColor <==> dutyName !in UltimateDuties
  {
    match dutyName
    case "The Unending Coil of Bahamut (Ultimate)" => 0xfce100
    case "The Weapon's Refrain (Ultimate)" => 0x008bfc
    case "The Epic of Alexander (Ultimate)" => 0xfcaa00
    case "Dragonsong's Reprise (Ultimate)" => 0xf12916
    case _ => DefaultColor
  }

  /** The four ultimate duties have four different colours. */
  lemma UltimateColorsDistinct(d1: string, d2: string)
    requires d1 in UltimateDuties && d2 in UltimateDuties
    ensures GetColorFromDuty(d1) == GetColorFromDuty(d2) ==> d1 == d2
  {
  }
}
