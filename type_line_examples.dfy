/**
 * The type lines of the tests of src/card/type_line.rs: each prints as its text, reads back from it
 * and is valid; and the three lines of the invalid-lines test are not valid.
 */
module TypeLineExamples {

  import opened Wrappers
  import opened Text
  import opened Types
  import opened IndexSets
  import opened TypeLines

  const GodLine: Line := Line([Supertype.Legendary], [Type.Enchantment, Type.Creature], [Subtype.Creature(God)])

  lemma GodLineNames()
    ensures SupertypeNames(GodLine.supertypes) == ["Legendary"]
    ensures TypeNames(GodLine.types) == ["Enchantment", "Creature"]
    ensures SubtypeNames(GodLine.subtypes) == ["God"]
  {
    GodName();
  }

  lemma GodLinePieces()
    ensures SpaceAfterEach(["Legendary"]) == "Legendary "
    ensures JoinSpaced(["Enchantment", "Creature"]) == "Enchantment Creature"
    ensures SpaceBeforeEach(["God"]) == " God"
  {
  }

  lemma GodLineText()
    ensures SpaceAfterEach(["Legendary"]) + JoinSpaced(["Enchantment", "Creature"]) + " " + [EmDash] + SpaceBeforeEach(["God"])
         == "Legendary Enchantment Creature \U{2014} God"
  {
    GodLinePieces();
    assert "Legendary " + "Enchantment Creature" + " " + [EmDash] + " God" == "Legendary Enchantment Creature \U{2014} God";
  }

  lemma GodLineSubtypesReadBack()
    ensures SubtypesReadBack(GodLine.subtypes)
  {
    GodLineNames();
    CreatureTestSubtypesReadBack();
    SubtypeReadsBackAlone(Subtype.Creature(God), "God");
  }

  /** `Legendary Enchantment Creature — God`: printed, read back and valid. */
  lemma GodLineRoundTrip()
    ensures Render(GodLine) == "Legendary Enchantment Creature \U{2014} God"
    ensures ParseLine("Legendary Enchantment Creature \U{2014} God") == Ok(GodLine)
    ensures IsValidLine(GodLine)
  {
    GodLineNames();
    RenderByNames(GodLine, ["Legendary"], ["Enchantment", "Creature"], ["God"]);
    GodLineText();
    GodLineSubtypesReadBack();
    assert WellFormed(GodLine);
    RenderReadsBack(GodLine);
    GodLineIsValid();
  }

  lemma GodLineIsValid()
    ensures IsValidLine(GodLine)
  {
    assert exists j :: 0 <= j < |GodLine.types| && ValidFor(GodLine.subtypes[0], GodLine.types[j]) by {
      assert ValidFor(GodLine.subtypes[0], GodLine.types[1]);
    }
  }

  const ConstructLine: Line := Line([], [Type.Artifact, Type.Creature], [Subtype.Creature(Construct)])

  lemma ConstructLineNames()
    ensures SupertypeNames(ConstructLine.supertypes) == []
    ensures TypeNames(ConstructLine.types) == ["Artifact", "Creature"]
    ensures SubtypeNames(ConstructLine.subtypes) == ["Construct"]
  {
    ConstructName();
  }

  lemma ConstructLinePieces()
    ensures SpaceAfterEach([]) == ""
    ensures JoinSpaced(["Artifact", "Creature"]) == "Artifact Creature"
    ensures SpaceBeforeEach(["Construct"]) == " Construct"
  {
  }

  lemma ConstructLineText()
    ensures SpaceAfterEach([]) + JoinSpaced(["Artifact", "Creature"]) + " " + [EmDash] + SpaceBeforeEach(["Construct"])
         == "Artifact Creature \U{2014} Construct"
  {
    ConstructLinePieces();
    assert "" + "Artifact Creature" + " " + [EmDash] + " Construct" == "Artifact Creature \U{2014} Construct";
  }

  lemma ConstructLineSubtypesReadBack()
    ensures SubtypesReadBack(ConstructLine.subtypes)
  {
    ConstructLineNames();
    CreatureTestSubtypesReadBack();
    SubtypeReadsBackAlone(Subtype.Creature(Construct), "Construct");
  }

  /** `Artifact Creature — Construct`: printed, read back and valid. */
  lemma ConstructLineRoundTrip()
    ensures Render(ConstructLine) == "Artifact Creature \U{2014} Construct"
    ensures ParseLine("Artifact Creature \U{2014} Construct") == Ok(ConstructLine)
    ensures IsValidLine(ConstructLine)
  {
    ConstructLineNames();
    RenderByNames(ConstructLine, [], ["Artifact", "Creature"], ["Construct"]);
    ConstructLineText();
    ConstructLineSubtypesReadBack();
    assert WellFormed(ConstructLine);
    RenderReadsBack(ConstructLine);
    ConstructLineIsValid();
  }

  lemma ConstructLineIsValid()
    ensures IsValidLine(ConstructLine)
  {
    assert exists j :: 0 <= j < |ConstructLine.types| && ValidFor(ConstructLine.subtypes[0], ConstructLine.types[j]) by {
      assert ValidFor(ConstructLine.subtypes[0], ConstructLine.types[1]);
    }
  }

  const MerfolkWizardLine: Line := Line([], [Type.Creature], [Subtype.Creature(Merfolk), Subtype.Creature(Wizard)])

  lemma MerfolkWizardLineNames()
    ensures SupertypeNames(MerfolkWizardLine.supertypes) == []
    ensures TypeNames(MerfolkWizardLine.types) == ["Creature"]
    ensures SubtypeNames(MerfolkWizardLine.subtypes) == ["Merfolk", "Wizard"]
  {
    MerfolkName();
    WizardName();
  }

  lemma MerfolkWizardLinePieces()
    ensures SpaceAfterEach([]) == ""
    ensures JoinSpaced(["Creature"]) == "Creature"
    ensures SpaceBeforeEach(["Merfolk", "Wizard"]) == " Merfolk Wizard"
  {
  }

  lemma MerfolkWizardLineText()
    ensures SpaceAfterEach([]) + JoinSpaced(["Creature"]) + " " + [EmDash] + SpaceBeforeEach(["Merfolk", "Wizard"])
         == "Creature \U{2014} Merfolk Wizard"
  {
    MerfolkWizardLinePieces();
    assert "" + "Creature" + " " + [EmDash] + " Merfolk Wizard" == "Creature \U{2014} Merfolk Wizard";
  }

  lemma MerfolkWizardLineSubtypesReadBack()
    ensures SubtypesReadBack(MerfolkWizardLine.subtypes)
  {
    MerfolkWizardLineNames();
    CreatureTestSubtypesReadBack();
    MerfolkWizardLineWords();
    MerfolkWizardLineJoinedUnknown();
    SubtypesReadBackByNames(MerfolkWizardLine.subtypes, ["Merfolk", "Wizard"]);
  }

  lemma MerfolkWizardLineWords()
    ensures DashFreeWords(["Merfolk", "Wizard"])
    ensures JoinSpaced(["Merfolk", "Wizard"]) == "Merfolk Wizard"
  {
    VisibleAsciiIsWord("Merfolk");
    VisibleAsciiIsWord("Wizard");
  }

  lemma MerfolkWizardLineJoinedUnknown()
    ensures ParseSubtype("Merfolk Wizard") == None
  {
  }

  /** `Creature — Merfolk Wizard`: printed, read back and valid. */
  lemma MerfolkWizardLineRoundTrip()
    ensures Render(MerfolkWizardLine) == "Creature \U{2014} Merfolk Wizard"
    ensures ParseLine("Creature \U{2014} Merfolk Wizard") == Ok(MerfolkWizardLine)
    ensures IsValidLine(MerfolkWizardLine)
  {
    MerfolkWizardLineNames();
    RenderByNames(MerfolkWizardLine, [], ["Creature"], ["Merfolk", "Wizard"]);
    MerfolkWizardLineText();
    MerfolkWizardLineSubtypesReadBack();
    assert WellFormed(MerfolkWizardLine);
    RenderReadsBack(MerfolkWizardLine);
    MerfolkWizardLineIsValid();
  }

  lemma MerfolkWizardLineIsValid()
    ensures IsValidLine(MerfolkWizardLine)
  {
    assert exists j :: 0 <= j < |MerfolkWizardLine.types| && ValidFor(MerfolkWizardLine.subtypes[0], MerfolkWizardLine.types[j]) by {
      assert ValidFor(MerfolkWizardLine.subtypes[0], MerfolkWizardLine.types[0]);
    }
    assert exists j :: 0 <= j < |MerfolkWizardLine.types| && ValidFor(MerfolkWizardLine.subtypes[1], MerfolkWizardLine.types[j]) by {
      assert ValidFor(MerfolkWizardLine.subtypes[1], MerfolkWizardLine.types[0]);
    }
  }

  const LandLine: Line := Line([], [Type.Land], [])

  lemma LandLineNames()
    ensures SupertypeNames(LandLine.supertypes) == []
    ensures TypeNames(LandLine.types) == ["Land"]
    ensures SubtypeNames(LandLine.subtypes) == []
  {
  }

  lemma LandLinePieces()
    ensures SpaceAfterEach([]) == ""
    ensures JoinSpaced(["Land"]) == "Land"
  {
  }

  lemma LandLineText()
    ensures SpaceAfterEach([]) + JoinSpaced(["Land"])
         == "Land"
  {
    LandLinePieces();
    assert "" + "Land" == "Land";
  }

  /** `Land`: printed, read back and valid. */
  lemma LandLineRoundTrip()
    ensures Render(LandLine) == "Land"
    ensures ParseLine("Land") == Ok(LandLine)
    ensures IsValidLine(LandLine)
  {
    LandLineNames();
    RenderByNames(LandLine, [], ["Land"], []);
    LandLineText();
    assert SubtypesReadBack(LandLine.subtypes);
    assert WellFormed(LandLine);
    RenderReadsBack(LandLine);
    LandLineIsValid();
  }

  lemma LandLineIsValid()
    ensures IsValidLine(LandLine)
  {
  }

  const KarnLine: Line := Line([Supertype.Legendary], [Type.Planeswalker], [Subtype.Planeswalker(Karn)])

  lemma KarnLineNames()
    ensures SupertypeNames(KarnLine.supertypes) == ["Legendary"]
    ensures TypeNames(KarnLine.types) == ["Planeswalker"]
    ensures SubtypeNames(KarnLine.subtypes) == ["Karn"]
  {
  }

  lemma KarnLinePieces()
    ensures SpaceAfterEach(["Legendary"]) == "Legendary "
    ensures JoinSpaced(["Planeswalker"]) == "Planeswalker"
    ensures SpaceBeforeEach(["Karn"]) == " Karn"
  {
  }

  lemma KarnLineText()
    ensures SpaceAfterEach(["Legendary"]) + JoinSpaced(["Planeswalker"]) + " " + [EmDash] + SpaceBeforeEach(["Karn"])
         == "Legendary Planeswalker \U{2014} Karn"
  {
    KarnLinePieces();
    assert "Legendary " + "Planeswalker" + " " + [EmDash] + " Karn" == "Legendary Planeswalker \U{2014} Karn";
  }

  lemma KarnLineSubtypesReadBack()
    ensures SubtypesReadBack(KarnLine.subtypes)
  {
    KarnLineNames();
    SmallSubtypeRoundTrip(Subtype.Planeswalker(Karn));
    SubtypeReadsBackAlone(Subtype.Planeswalker(Karn), "Karn");
  }

  /** `Legendary Planeswalker — Karn`: printed, read back and valid. */
  lemma KarnLineRoundTrip()
    ensures Render(KarnLine) == "Legendary Planeswalker \U{2014} Karn"
    ensures ParseLine("Legendary Planeswalker \U{2014} Karn") == Ok(KarnLine)
    ensures IsValidLine(KarnLine)
  {
    KarnLineNames();
    RenderByNames(KarnLine, ["Legendary"], ["Planeswalker"], ["Karn"]);
    KarnLineText();
    KarnLineSubtypesReadBack();
    assert WellFormed(KarnLine);
    RenderReadsBack(KarnLine);
    KarnLineIsValid();
  }

  lemma KarnLineIsValid()
    ensures IsValidLine(KarnLine)
  {
    assert exists j :: 0 <= j < |KarnLine.types| && ValidFor(KarnLine.subtypes[0], KarnLine.types[j]) by {
      assert ValidFor(KarnLine.subtypes[0], KarnLine.types[0]);
    }
  }

  const AuraCurseLine: Line := Line([], [Type.Enchantment], [Subtype.Enchantment(Aura), Subtype.Enchantment(Curse)])

  lemma AuraCurseLineNames()
    ensures SupertypeNames(AuraCurseLine.supertypes) == []
    ensures TypeNames(AuraCurseLine.types) == ["Enchantment"]
    ensures SubtypeNames(AuraCurseLine.subtypes) == ["Aura", "Curse"]
  {
  }

  lemma AuraCurseLinePieces()
    ensures SpaceAfterEach([]) == ""
    ensures JoinSpaced(["Enchantment"]) == "Enchantment"
    ensures SpaceBeforeEach(["Aura", "Curse"]) == " Aura Curse"
  {
  }

  lemma AuraCurseLineText()
    ensures SpaceAfterEach([]) + JoinSpaced(["Enchantment"]) + " " + [EmDash] + SpaceBeforeEach(["Aura", "Curse"])
         == "Enchantment \U{2014} Aura Curse"
  {
    AuraCurseLinePieces();
    assert "" + "Enchantment" + " " + [EmDash] + " Aura Curse" == "Enchantment \U{2014} Aura Curse";
  }

  lemma AuraCurseLineSubtypesReadBack()
    ensures SubtypesReadBack(AuraCurseLine.subtypes)
  {
    AuraCurseLineNames();
    SmallSubtypeRoundTrip(Subtype.Enchantment(Aura));
    SmallSubtypeRoundTrip(Subtype.Enchantment(Curse));
    AuraCurseLineWords();
    AuraCurseLineJoinedUnknown();
    SubtypesReadBackByNames(AuraCurseLine.subtypes, ["Aura", "Curse"]);
  }

  lemma AuraCurseLineWords()
    ensures DashFreeWords(["Aura", "Curse"])
    ensures JoinSpaced(["Aura", "Curse"]) == "Aura Curse"
  {
    VisibleAsciiIsWord("Aura");
    VisibleAsciiIsWord("Curse");
  }

  lemma AuraCurseLineJoinedUnknown()
    ensures ParseSubtype("Aura Curse") == None
  {
  }

  /** `Enchantment — Aura Curse`: printed, read back and valid. */
  lemma AuraCurseLineRoundTrip()
    ensures Render(AuraCurseLine) == "Enchantment \U{2014} Aura Curse"
    ensures ParseLine("Enchantment \U{2014} Aura Curse") == Ok(AuraCurseLine)
    ensures IsValidLine(AuraCurseLine)
  {
    AuraCurseLineNames();
    RenderByNames(AuraCurseLine, [], ["Enchantment"], ["Aura", "Curse"]);
    AuraCurseLineText();
    AuraCurseLineSubtypesReadBack();
    assert WellFormed(AuraCurseLine);
    RenderReadsBack(AuraCurseLine);
    AuraCurseLineIsValid();
  }

  lemma AuraCurseLineIsValid()
    ensures IsValidLine(AuraCurseLine)
  {
    assert exists j :: 0 <= j < |AuraCurseLine.types| && ValidFor(AuraCurseLine.subtypes[0], AuraCurseLine.types[j]) by {
      assert ValidFor(AuraCurseLine.subtypes[0], AuraCurseLine.types[0]);
    }
    assert exists j :: 0 <= j < |AuraCurseLine.types| && ValidFor(AuraCurseLine.subtypes[1], AuraCurseLine.types[j]) by {
      assert ValidFor(AuraCurseLine.subtypes[1], AuraCurseLine.types[0]);
    }
  }

  const MountainLine: Line := Line([Supertype.Basic, Supertype.Snow], [Type.Land], [Subtype.Land(Mountain)])

  lemma MountainLineNames()
    ensures SupertypeNames(MountainLine.supertypes) == ["Basic", "Snow"]
    ensures TypeNames(MountainLine.types) == ["Land"]
    ensures SubtypeNames(MountainLine.subtypes) == ["Mountain"]
  {
  }

  lemma MountainLinePieces()
    ensures SpaceAfterEach(["Basic", "Snow"]) == "Basic Snow "
    ensures JoinSpaced(["Land"]) == "Land"
    ensures SpaceBeforeEach(["Mountain"]) == " Mountain"
  {
  }

  lemma MountainLineText()
    ensures SpaceAfterEach(["Basic", "Snow"]) + JoinSpaced(["Land"]) + " " + [EmDash] + SpaceBeforeEach(["Mountain"])
         == "Basic Snow Land \U{2014} Mountain"
  {
    MountainLinePieces();
    assert "Basic Snow " + "Land" + " " + [EmDash] + " Mountain" == "Basic Snow Land \U{2014} Mountain";
  }

  lemma MountainLineSubtypesReadBack()
    ensures SubtypesReadBack(MountainLine.subtypes)
  {
    MountainLineNames();
    SmallSubtypeRoundTrip(Subtype.Land(Mountain));
    SubtypeReadsBackAlone(Subtype.Land(Mountain), "Mountain");
  }

  /** `Basic Snow Land — Mountain`: printed, read back and valid. */
  lemma MountainLineRoundTrip()
    ensures Render(MountainLine) == "Basic Snow Land \U{2014} Mountain"
    ensures ParseLine("Basic Snow Land \U{2014} Mountain") == Ok(MountainLine)
    ensures IsValidLine(MountainLine)
  {
    MountainLineNames();
    RenderByNames(MountainLine, ["Basic", "Snow"], ["Land"], ["Mountain"]);
    MountainLineText();
    MountainLineSubtypesReadBack();
    assert WellFormed(MountainLine);
    RenderReadsBack(MountainLine);
    MountainLineIsValid();
  }

  lemma MountainLineIsValid()
    ensures IsValidLine(MountainLine)
  {
    assert exists j :: 0 <= j < |MountainLine.types| && ValidFor(MountainLine.subtypes[0], MountainLine.types[j]) by {
      assert ValidFor(MountainLine.subtypes[0], MountainLine.types[0]);
    }
  }

  const ArcaneLine: Line := Line([], [Type.Instant], [Subtype.Spell(Arcane)])

  lemma ArcaneLineNames()
    ensures SupertypeNames(ArcaneLine.supertypes) == []
    ensures TypeNames(ArcaneLine.types) == ["Instant"]
    ensures SubtypeNames(ArcaneLine.subtypes) == ["Arcane"]
  {
  }

  lemma ArcaneLinePieces()
    ensures SpaceAfterEach([]) == ""
    ensures JoinSpaced(["Instant"]) == "Instant"
    ensures SpaceBeforeEach(["Arcane"]) == " Arcane"
  {
  }

  lemma ArcaneLineText()
    ensures SpaceAfterEach([]) + JoinSpaced(["Instant"]) + " " + [EmDash] + SpaceBeforeEach(["Arcane"])
         == "Instant \U{2014} Arcane"
  {
    ArcaneLinePieces();
    assert "" + "Instant" + " " + [EmDash] + " Arcane" == "Instant \U{2014} Arcane";
  }

  lemma ArcaneLineSubtypesReadBack()
    ensures SubtypesReadBack(ArcaneLine.subtypes)
  {
    ArcaneLineNames();
    SmallSubtypeRoundTrip(Subtype.Spell(Arcane));
    SubtypeReadsBackAlone(Subtype.Spell(Arcane), "Arcane");
  }

  /** `Instant — Arcane`: printed, read back and valid. */
  lemma ArcaneLineRoundTrip()
    ensures Render(ArcaneLine) == "Instant \U{2014} Arcane"
    ensures ParseLine("Instant \U{2014} Arcane") == Ok(ArcaneLine)
    ensures IsValidLine(ArcaneLine)
  {
    ArcaneLineNames();
    RenderByNames(ArcaneLine, [], ["Instant"], ["Arcane"]);
    ArcaneLineText();
    ArcaneLineSubtypesReadBack();
    assert WellFormed(ArcaneLine);
    RenderReadsBack(ArcaneLine);
    ArcaneLineIsValid();
  }

  lemma ArcaneLineIsValid()
    ensures IsValidLine(ArcaneLine)
  {
    assert exists j :: 0 <= j < |ArcaneLine.types| && ValidFor(ArcaneLine.subtypes[0], ArcaneLine.types[j]) by {
      assert ValidFor(ArcaneLine.subtypes[0], ArcaneLine.types[0]);
    }
  }

  const BolasRealmLine: Line := Line([], [Type.Plane], [Subtype.Plane(BolassMeditationRealm)])

  lemma BolasRealmLineNames()
    ensures SupertypeNames(BolasRealmLine.supertypes) == []
    ensures TypeNames(BolasRealmLine.types) == ["Plane"]
    ensures SubtypeNames(BolasRealmLine.subtypes) == ["Bolas's Meditation Realm"]
  {
  }

  lemma BolasRealmLinePieces()
    ensures SpaceAfterEach([]) == ""
    ensures JoinSpaced(["Plane"]) == "Plane"
    ensures SpaceBeforeEach(["Bolas's Meditation Realm"]) == " Bolas's Meditation Realm"
  {
  }

  lemma BolasRealmLineText()
    ensures SpaceAfterEach([]) + JoinSpaced(["Plane"]) + " " + [EmDash] + SpaceBeforeEach(["Bolas's Meditation Realm"])
         == "Plane \U{2014} Bolas's Meditation Realm"
  {
    BolasRealmLinePieces();
    assert "" + "Plane" + " " + [EmDash] == "Plane \U{2014}";
    assert "Plane \U{2014}" + " Bolas's Meditation Realm" == "Plane \U{2014} Bolas's Meditation Realm";
  }

  lemma BolasRealmLineSubtypesReadBack()
    ensures SubtypesReadBack(BolasRealmLine.subtypes)
  {
    BolasRealmLineNames();
    BolasRealmRoundTrip();
    SubtypeReadsBackAlone(Subtype.Plane(BolassMeditationRealm), "Bolas's Meditation Realm");
  }

  /** `Plane — Bolas's Meditation Realm`: printed, read back and valid. */
  lemma BolasRealmLineRoundTrip()
    ensures Render(BolasRealmLine) == "Plane \U{2014} Bolas's Meditation Realm"
    ensures ParseLine("Plane \U{2014} Bolas's Meditation Realm") == Ok(BolasRealmLine)
    ensures IsValidLine(BolasRealmLine)
  {
    BolasRealmLineNames();
    RenderByNames(BolasRealmLine, [], ["Plane"], ["Bolas's Meditation Realm"]);
    BolasRealmLineText();
    BolasRealmLineSubtypesReadBack();
    assert WellFormed(BolasRealmLine);
    RenderReadsBack(BolasRealmLine);
    BolasRealmLineIsValid();
  }

  lemma BolasRealmLineIsValid()
    ensures IsValidLine(BolasRealmLine)
  {
    assert exists j :: 0 <= j < |BolasRealmLine.types| && ValidFor(BolasRealmLine.subtypes[0], BolasRealmLine.types[j]) by {
      assert ValidFor(BolasRealmLine.subtypes[0], BolasRealmLine.types[0]);
    }
  }

  /**
   * A plane subtype whose name has spaces does not read back beside a second subtype:
   * the text after the dash, trimmed, is no subtype, and read token by token its first
   * word is none either.
   */
  const TwoPlanesLine: Line := Line([], [Type.Plane], [Subtype.Plane(BolassMeditationRealm), Subtype.Plane(Lorwyn)])

  /** The words of the two plane names. */
  const TwoPlanesWords: seq<string> := ["Bolas's", "Meditation", "Realm", "Lorwyn"]

  lemma TwoPlanesLineNames()
    ensures SubtypeNames(TwoPlanesLine.subtypes) == ["Bolas's Meditation Realm", "Lorwyn"]
  {
    BolasRealmRoundTrip();
    LorwynReadsBack();
  }

  /** The two names with a space before each are the four words with a space before each. */
  lemma TwoPlanesSpacedAsWords()
    ensures SpaceBeforeEach(["Bolas's Meditation Realm", "Lorwyn"]) == SpaceBeforeEach(TwoPlanesWords)
  {
    assert SpaceBeforeEach(["Bolas's Meditation Realm", "Lorwyn"]) == " " + "Bolas's Meditation Realm" + (" " + "Lorwyn");
    assert SpaceBeforeEach(TwoPlanesWords) == " " + "Bolas's" + (" " + "Meditation" + (" " + "Realm" + (" " + "Lorwyn")));
    BolasNameAsWords();
  }

  /** The plane's name is its three words with a space before the second and the third. */
  lemma BolasNameAsWords()
    ensures "Bolas's Meditation Realm" == "Bolas's" + (" " + "Meditation" + (" " + "Realm"))
  {
  }

  lemma TwoPlanesWordsAreWords()
    ensures DashFreeWords(TwoPlanesWords)
  {
    VisibleAsciiIsWord("Bolas's");
    VisibleAsciiIsWord("Meditation");
    VisibleAsciiIsWord("Realm");
    VisibleAsciiIsWord("Lorwyn");
  }

  /** The four words joined by spaces are 31 characters long. */
  lemma TwoPlanesJoinedLength()
    ensures |JoinSpaced(TwoPlanesWords)| == 31
  {
    SpaceBeforeEachIsLeadingSpace(TwoPlanesWords);
    assert SpaceBeforeEach(TwoPlanesWords) == " " + "Bolas's" + (" " + "Meditation" + (" " + "Realm" + (" " + "Lorwyn")));
  }

  /** No subtype name is 31 characters long, and the first word is no subtype. */
  lemma TwoPlanesTextUnknown(s: string)
    requires |s| == 31
    ensures ParseSubtype(s) == None
    ensures ParseSubtype("Bolas's") == None
  {
  }

  /** The text after the dash is refused at its first word. */
  lemma TwoPlanesPostDash()
    ensures EmDash !in SpaceBeforeEach(TwoPlanesWords)
    ensures ReadPostDash(SpaceBeforeEach(TwoPlanesWords)) == Err(ExtraParts("Bolas's"))
  {
    TwoPlanesWordsAreWords();
    SpacedWordsTrim(TwoPlanesWords);
    TwoPlanesJoinedLength();
    TwoPlanesTextUnknown(JoinSpaced(TwoPlanesWords));
    ReadGreedyStop(ParseSubtype, [], TwoPlanesWords, 0);
    assert TwoPlanesWords[0..] == TwoPlanesWords;
    ReadPostDashByTokens(SpaceBeforeEach(TwoPlanesWords), [], TwoPlanesWords);
  }

  /**
   * `Plane — Bolas's Meditation Realm Lorwyn`: a well-formed line whose printed text
   * does not read back, so the read-back of printed lines needs its hypothesis on the
   * subtypes.
   */
  lemma SpacedNameAmongSeveralDoesNotReadBack()
    ensures WellFormed(TwoPlanesLine)
    ensures ParseLine(Render(TwoPlanesLine)) == Err(ExtraParts("Bolas's"))
  {
    assert WellFormed(TwoPlanesLine);
    TwoPlanesLineNames();
    TwoPlanesSpacedAsWords();
    TwoPlanesPostDash();
    var post := SpaceBeforeEach(TwoPlanesWords);
    assert Render(TwoPlanesLine) == PreDash(TwoPlanesLine) + " " + [EmDash] + post;
    PiecesOfDashedText(TwoPlanesLine, post);
    ParseLineFailsAfterDash(Render(TwoPlanesLine), PreDash(TwoPlanesLine) + " ", post, ExtraParts("Bolas's"));
  }

  const HumanArtifactLine: Line := Line([], [Type.Artifact], [Subtype.Creature(Human)])

  const JaceEnchantmentCreatureLine: Line := Line([], [Type.Enchantment, Type.Creature], [Subtype.Planeswalker(Jace)])

  const CurseLandLine: Line := Line([Supertype.Legendary, Supertype.Snow], [Type.Land], [Subtype.Enchantment(Curse)])

  /** Invalid-lines test: a creature subtype on an artifact. */
  lemma HumanArtifactLineIsInvalid()
    ensures !IsValidLine(HumanArtifactLine)
  {
    assert HumanArtifactLine.subtypes[0] == Subtype.Creature(Human);
    forall j | 0 <= j < |HumanArtifactLine.types|
      ensures !ValidFor(Subtype.Creature(Human), HumanArtifactLine.types[j])
    {
      assert HumanArtifactLine.types[j] in [Type.Artifact];
    }
  }

  lemma HumanArtifactLineNames()
    ensures SupertypeNames(HumanArtifactLine.supertypes) == []
    ensures TypeNames(HumanArtifactLine.types) == ["Artifact"]
    ensures SubtypeNames(HumanArtifactLine.subtypes) == ["Human"]
  {
    HumanName();
  }

  lemma HumanArtifactLineText()
    ensures SpaceAfterEach([]) + JoinSpaced(["Artifact"]) + " " + [EmDash] + SpaceBeforeEach(["Human"])
         == "Artifact \U{2014} Human"
  {
    assert SpaceAfterEach([]) == "" && JoinSpaced(["Artifact"]) == "Artifact" && SpaceBeforeEach(["Human"]) == " Human";
    assert "" + "Artifact" + " " + [EmDash] + " Human" == "Artifact \U{2014} Human";
  }

  lemma HumanArtifactLineSubtypesReadBack()
    ensures SubtypesReadBack(HumanArtifactLine.subtypes)
  {
    HumanArtifactLineNames();
    HumanReadsBack();
    SubtypeReadsBackAlone(Subtype.Creature(Human), "Human");
  }

  /**
   * Reading does not check validity: `Artifact — Human` prints and reads back as the
   * invalid line with a creature subtype on an artifact.
   */
  lemma InvalidLineReadsBack()
    ensures Render(HumanArtifactLine) == "Artifact \U{2014} Human"
    ensures ParseLine("Artifact \U{2014} Human") == Ok(HumanArtifactLine)
    ensures !IsValidLine(HumanArtifactLine)
  {
    HumanArtifactLineNames();
    RenderByNames(HumanArtifactLine, [], ["Artifact"], ["Human"]);
    HumanArtifactLineText();
    HumanArtifactLineSubtypesReadBack();
    assert WellFormed(HumanArtifactLine);
    RenderReadsBack(HumanArtifactLine);
    HumanArtifactLineIsInvalid();
  }

  /** Invalid-lines test: a planeswalker subtype on an enchantment creature. */
  lemma JaceEnchantmentCreatureLineIsInvalid()
    ensures !IsValidLine(JaceEnchantmentCreatureLine)
  {
    assert JaceEnchantmentCreatureLine.subtypes[0] == Subtype.Planeswalker(Jace);
    forall j | 0 <= j < |JaceEnchantmentCreatureLine.types|
      ensures !ValidFor(Subtype.Planeswalker(Jace), JaceEnchantmentCreatureLine.types[j])
    {
      assert JaceEnchantmentCreatureLine.types[j] in [Type.Enchantment, Type.Creature];
    }
  }

  /** Invalid-lines test: an enchantment subtype on a land. */
  lemma CurseLandLineIsInvalid()
    ensures !IsValidLine(CurseLandLine)
  {
    assert CurseLandLine.subtypes[0] == Subtype.Enchantment(Curse);
    forall j | 0 <= j < |CurseLandLine.types|
      ensures !ValidFor(Subtype.Enchantment(Curse), CurseLandLine.types[j])
    {
      assert CurseLandLine.types[j] in [Type.Land];
    }
  }

}
