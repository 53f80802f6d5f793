/**
 The two directed mapping tables of the transliterator, and the entries and
 widths the properties below rest on.
 */
module MappingTables {

  /** DEVANAGARI LETTER KHA, the one key whose replacement is longer than a character. */
  const Kha: char := '\U{0916}'

  /** Devanagari to Tamil; several entries deliberately collapse onto one letter. */
  function DevanagariToTamil(): map<char, string>
  {
    map[
      '\U{0905}' := "\U{0B85}",
      '\U{0906}' := "\U{0B86}",
      '\U{0907}' := "\U{0B87}",
      '\U{0908}' := "\U{0B88}",
      '\U{0909}' := "\U{0B89}",
      '\U{090A}' := "\U{0B8A}",
      '\U{090F}' := "\U{0B8E}",
      '\U{0910}' := "\U{0B8F}",
      '\U{0913}' := "\U{0B92}",
      '\U{0914}' := "\U{0B93}",
      '\U{0915}' := "\U{0B95}",
      '\U{0916}' := "\U{0B95}\U{0BCD}\U{0BB9}",
      '\U{0917}' := "\U{0B95}",
      '\U{0918}' := "\U{0B95}",
      '\U{0919}' := "\U{0B99}",
      '\U{091A}' := "\U{0B9A}",
      '\U{091B}' := "\U{0B9A}",
      '\U{091C}' := "\U{0B9C}",
      '\U{091D}' := "\U{0B9C}",
      '\U{091E}' := "\U{0B9E}",
      '\U{091F}' := "\U{0B9F}",
      '\U{0920}' := "\U{0B9F}",
      '\U{0921}' := "\U{0BA1}",
      '\U{0922}' := "\U{0BA1}",
      '\U{0923}' := "\U{0BA3}",
      '\U{0924}' := "\U{0BA4}",
      '\U{0925}' := "\U{0BA4}",
      '\U{0926}' := "\U{0BA6}",
      '\U{0927}' := "\U{0BA6}",
      '\U{0928}' := "\U{0BA8}",
      '\U{092A}' := "\U{0BAA}",
      '\U{092B}' := "\U{0BAA}",
      '\U{092C}' := "\U{0BAC}",
      '\U{092D}' := "\U{0BAC}",
      '\U{092E}' := "\U{0BAE}",
      '\U{092F}' := "\U{0BAF}",
      '\U{0930}' := "\U{0BB0}",
      '\U{0932}' := "\U{0BB2}",
      '\U{0935}' := "\U{0BB5}",
      '\U{0938}' := "\U{0BB8}",
      '\U{0939}' := "\U{0BB9}"
    ]
  }

  /** Tamil to Devanagari; every replacement is a single character. */
  function TamilToDevanagari(): map<char, string>
  {
    map[
      '\U{0B85}' := "\U{0905}",
      '\U{0B86}' := "\U{0906}",
      '\U{0B87}' := "\U{0907}",
      '\U{0B88}' := "\U{0908}",
      '\U{0B89}' := "\U{0909}",
      '\U{0B8A}' := "\U{090A}",
      '\U{0B8E}' := "\U{090F}",
      '\U{0B8F}' := "\U{0910}",
      '\U{0B92}' := "\U{0913}",
      '\U{0B93}' := "\U{0914}",
      '\U{0B95}' := "\U{0915}",
      '\U{0B99}' := "\U{0919}",
      '\U{0B9A}' := "\U{091A}",
      '\U{0B9E}' := "\U{091E}",
      '\U{0B9F}' := "\U{091F}",
      '\U{0BA3}' := "\U{0923}",
      '\U{0BA4}' := "\U{0924}",
      '\U{0BA8}' := "\U{0928}",
      '\U{0BAA}' := "\U{092A}",
      '\U{0BAE}' := "\U{092E}",
      '\U{0BAF}' := "\U{092F}",
      '\U{0BB0}' := "\U{0930}",
      '\U{0BB2}' := "\U{0932}",
      '\U{0BB5}' := "\U{0935}",
      '\U{0BB8}' := "\U{0938}",
      '\U{0BB9}' := "\U{0939}"
    ]
  }

  /** Only KHA has a replacement longer than one character: KA, VIRAMA, HA. */
  lemma DevanagariToTamilWidths()
    ensures forall k :: k in DevanagariToTamil() && k != Kha ==> |DevanagariToTamil()[k]| == 1
    ensures Kha in DevanagariToTamil() && DevanagariToTamil()[Kha] == "\U{0B95}\U{0BCD}\U{0BB9}"
  {
  }

  /** Every Tamil to Devanagari replacement is a single character. */
  lemma TamilToDevanagariWidths()
    ensures forall k :: k in TamilToDevanagari() ==> |TamilToDevanagari()[k]| == 1
  {
  }

  /** No replacement in either table is empty, so a lookup is truthy exactly
      when the character is a key. */
  lemma ValuesNonEmpty()
    ensures forall k :: k in DevanagariToTamil() ==> DevanagariToTamil()[k] != ""
    ensures forall k :: k in TamilToDevanagari() ==> TamilToDevanagari()[k] != ""
  {
    DevanagariToTamilWidths();
    TamilToDevanagariWidths();
  }

  /** The Devanagari to Tamil entries the lemmas below read. */
  lemma DevanagariEntries()
    ensures DevanagariToTamil()['\U{0915}'] == "\U{0B95}"
    ensures DevanagariToTamil()['\U{0917}'] == "\U{0B95}"
    ensures DevanagariToTamil()['\U{0918}'] == "\U{0B95}"
  {
  }

  /** The Tamil to Devanagari entries the lemmas below read. */
  lemma TamilEntries()
    ensures TamilToDevanagari()['\U{0B95}'] == "\U{0915}"
    ensures TamilToDevanagari()['\U{0BB9}'] == "\U{0939}"
    ensures '\U{0BCD}' !in TamilToDevanagari()
  {
  }

  /** A Tamil key maps to one Devanagari character that maps back to it. */
  lemma TamilKeyComesBack(k: char)
    requires k in TamilToDevanagari()
    ensures var d := TamilToDevanagari()[k];
      |d| == 1 && d[0] in DevanagariToTamil() && DevanagariToTamil()[d[0]] == [k]
  {
  }
}

/**
 What holds of the engine run with each table: Devanagari to Tamil is
 many-to-one and lossy and lengthens a text only for KHA, Tamil to Devanagari
 keeps the length, and every Tamil key comes back through the other table.
 */
module TableProperties {
  import opened Lookup
  import opened Engine
  import opened ScriptRegistry
  import opened MappingTables

  /** Every Devanagari to Tamil key is a Devanagari character. */
  lemma DevanagariToTamilKeysInBlock()
    ensures forall k :: k in DevanagariToTamil() ==> InRange(k, ScriptRange(Devanagari))
  {
  }

  /** Every Tamil to Devanagari key is a Tamil character and every replacement
      is made of Devanagari characters (one each, by TamilToDevanagariWidths). */
  lemma TamilToDevanagariInBlocks()
    ensures forall k :: k in TamilToDevanagari() ==> InRange(k, ScriptRange(Tamil))
    ensures forall k :: k in TamilToDevanagari() ==>
      forall j :: 0 <= j < |TamilToDevanagari()[k]| ==> InRange(TamilToDevanagari()[k][j], ScriptRange(Devanagari))
  {
  }

  /** Every Devanagari to Tamil replacement is made of Tamil characters. */
  lemma DevanagariToTamilValuesInBlock(k: char)
    requires k in DevanagariToTamil()
    ensures forall j :: 0 <= j < |DevanagariToTamil()[k]| ==> InRange(DevanagariToTamil()[k][j], ScriptRange(Tamil))
  {
  }

  /** Tamil to Devanagari keeps the length of every text. */
  lemma TamilToDevanagariKeepsLength(s: string)
    ensures |MapAll(TamilToDevanagari(), s)| == |s|
  {
    TamilToDevanagariWidths();
    SingleCharValuesKeepLength(TamilToDevanagari(), s);
  }

  /** Devanagari to Tamil lengthens a text by two for every KHA in it. */
  lemma DevanagariToTamilLength(s: string)
    ensures |MapAll(DevanagariToTamil(), s)| == |s| + 2 * multiset(s)[Kha]
  {
    DevanagariToTamilWidths();
    OneWideKeyLength(DevanagariToTamil(), Kha, s);
  }

  /** KA, GA and GHA all become Tamil KA, so Devanagari to Tamil is not
      injective, and GA comes back from Tamil as KA. */
  lemma DevanagariToTamilLossy()
    ensures var ka, ga, gha := "\U{0915}", "\U{0917}", "\U{0918}";
      MapAll(DevanagariToTamil(), ka) == "\U{0B95}" &&
      MapAll(DevanagariToTamil(), ga) == "\U{0B95}" &&
      MapAll(DevanagariToTamil(), gha) == "\U{0B95}" &&
      MapAll(TamilToDevanagari(), MapAll(DevanagariToTamil(), ga)) == ka
  {
    DevanagariEntries();
    TamilEntries();
    MapAllSingle(DevanagariToTamil(), '\U{0915}');
    MapAllSingle(DevanagariToTamil(), '\U{0917}');
    MapAllSingle(DevanagariToTamil(), '\U{0918}');
    MapAllSingle(TamilToDevanagari(), '\U{0B95}');
  }

  /** KA, VIRAMA, HA come back from Tamil as KA, VIRAMA (which no table maps), HA. */
  lemma KaViramaHaBack()
    ensures MapAll(TamilToDevanagari(), "\U{0B95}\U{0BCD}\U{0BB9}") == "\U{0915}\U{0BCD}\U{0939}"
  {
    TamilEntries();
    MapAllThree(TamilToDevanagari(), '\U{0B95}', '\U{0BCD}', '\U{0BB9}');
  }

  /** KHA does not survive the trip to Tamil and back. */
  lemma KhaRoundTrip()
    ensures MapAll(DevanagariToTamil(), [Kha]) == "\U{0B95}\U{0BCD}\U{0BB9}"
    ensures MapAll(TamilToDevanagari(), MapAll(DevanagariToTamil(), [Kha])) == "\U{0915}\U{0BCD}\U{0939}"
  {
    DevanagariToTamilWidths();
    MapAllSingle(DevanagariToTamil(), Kha);
    KaViramaHaBack();
  }

  /** Devanagari to Tamil undoes Tamil to Devanagari. */
  lemma TamilKeysComeBack()
    ensures Undoes(TamilToDevanagari(), DevanagariToTamil())
  {
    ValuesNonEmpty();
    forall k | Present(TamilToDevanagari(), k)
      ensures |TamilToDevanagari()[k]| == 1
      ensures Present(DevanagariToTamil(), TamilToDevanagari()[k][0])
      ensures DevanagariToTamil()[TamilToDevanagari()[k][0]] == [k]
    {
      TamilKeyComesBack(k);
    }
  }

  /** Tamil to Devanagari and back is the identity on a text each of whose
      characters is a Tamil key or a key of neither table. */
  lemma TamilRoundTrip(s: string)
    requires forall i :: 0 <= i < |s| ==>
      s[i] in TamilToDevanagari() || (s[i] !in TamilToDevanagari() && s[i] !in DevanagariToTamil())
    ensures MapAll(DevanagariToTamil(), MapAll(TamilToDevanagari(), s)) == s
  {
    TamilKeysComeBack();
    ValuesNonEmpty();
    RoundTrip(TamilToDevanagari(), DevanagariToTamil(), s);
  }
}
