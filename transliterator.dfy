/**
 The entry point of the transliterator: choose a mapping table by the exact
 (source script, target script) pair, or describe the pair as not implemented.
 */
module Transliterator {
  import opened Engine
  import opened MappingTables
  import opened TableProperties
  import opened ScriptRegistry

  /** The pairs a mapping table is registered for, compared as exact strings. */
  predicate HasTable(fromScript: string, toScript: string)
  {
    (fromScript == "Devanagari" && toScript == "Tamil") ||
    (fromScript == "Tamil" && toScript == "Devanagari")
  }

  /** The note returned for a pair with no table; it ends with the text itself. */
  function NotImplemented(fromScript: string, toScript: string, text: string): (note: string)
    ensures |note| == 48 + |fromScript| + |toScript| + |text|
    ensures note[|note| - |text|..] == text
    ensures note[|note| - |text| - 2..|note| - |text|] == "] "
    ensures note[..22] == "[Transliteration from "
    ensures note[22..22 + |fromScript|] == fromScript
    ensures note[22 + |fromScript|..26 + |fromScript|] == " to "
    ensures note[26 + |fromScript|..26 + |fromScript| + |toScript|] == toScript
  {
    "[Transliteration from " + fromScript + " to " + toScript + " not yet implemented] " + text
  }

  /** Transliterates `text` between two canonical script names. */
  function TransliterateText(text: string, fromScript: string, toScript: string): (r: string)
    ensures |r| >= |text|
    ensures !HasTable(fromScript, toScript) ==> r[|r| - |text|..] == text
  {
    if fromScript == "Devanagari" && toScript == "Tamil" then
      MapAll(DevanagariToTamil(), text)
    else if fromScript == "Tamil" && toScript == "Devanagari" then
      MapAll(TamilToDevanagari(), text)
    else
      NotImplemented(fromScript, toScript, text)
  }

  /** A table is used exactly for the two registered pairs; every other pair,
      the same script twice or a display label that was not resolved to a
      canonical name included, gets the not-implemented note. */
  lemma TransliterateTextDispatch(text: string, fromScript: string, toScript: string)
    ensures var r := TransliterateText(text, fromScript, toScript);
      && (fromScript == "Devanagari" && toScript == "Tamil" ==> r == MapAll(DevanagariToTamil(), text))
      && (fromScript == "Tamil" && toScript == "Devanagari" ==> r == MapAll(TamilToDevanagari(), text))
      && (!HasTable(fromScript, toScript) ==> r == NotImplemented(fromScript, toScript, text))
    ensures !HasTable(fromScript, fromScript)
    ensures !HasTable("Devanagari (Hindi, Marathi, etc.)", toScript)
    ensures !HasTable(fromScript, "Devanagari (Hindi, Marathi, etc.)")
  {
  }

  /** The empty text stays empty for a registered pair; for any other pair the
      note is all there is, and it ends with "] ". */
  lemma EmptyText(fromScript: string, toScript: string)
    ensures HasTable(fromScript, toScript) ==> TransliterateText("", fromScript, toScript) == ""
    ensures !HasTable(fromScript, toScript) ==>
      TransliterateText("", fromScript, toScript) ==
        "[Transliteration from " + fromScript + " to " + toScript + " not yet implemented] "
  {
    assert "" + "" == "";
  }

  /** For a registered pair the transliteration of a concatenation is the
      concatenation of the transliterations. */
  lemma TransliterateTextConcat(a: string, b: string, fromScript: string, toScript: string)
    requires HasTable(fromScript, toScript)
    ensures TransliterateText(a + b, fromScript, toScript) ==
      TransliterateText(a, fromScript, toScript) + TransliterateText(b, fromScript, toScript)
  {
    if fromScript == "Devanagari" {
      MapAllConcat(DevanagariToTamil(), a, b);
    } else {
      MapAllConcat(TamilToDevanagari(), a, b);
    }
  }

  /** Of all pairs of catalog labels, once each label is resolved to its
      canonical name, only Devanagari with Tamil, in either order, has a table. */
  lemma CatalogPairs(i: nat, j: nat)
    requires i < |SupportedScripts()| && j < |SupportedScripts()|
    ensures HasTable(ScriptName(SupportedScripts()[i]), ScriptName(SupportedScripts()[j])) <==>
      (i == 0 && j == 2) || (i == 2 && j == 0)
  {
    CatalogResolves();
    var names := CanonicalNames();
    assert forall k :: 0 <= k < 12 && k != 0 ==> names[k] != "Devanagari";
    assert forall k :: 0 <= k < 12 && k != 2 ==> names[k] != "Tamil";
  }

  /** KA goes to Tamil KA and Tamil KA comes back as KA. */
  lemma RegisteredPairExamples()
    ensures TransliterateText("\U{0915}", "Devanagari", "Tamil") == "\U{0B95}"
    ensures TransliterateText("\U{0B95}", "Tamil", "Devanagari") == "\U{0915}"
  {
    DevanagariToTamilLossy();
  }

  /** Tamil to Devanagari and back to Tamil returns a text made of Tamil keys
      and of characters neither table knows. */
  lemma TamilDevanagariTamil(s: string)
    requires forall i :: 0 <= i < |s| ==>
      s[i] in TamilToDevanagari() || (s[i] !in TamilToDevanagari() && s[i] !in DevanagariToTamil())
    ensures TransliterateText(TransliterateText(s, "Tamil", "Devanagari"), "Devanagari", "Tamil") == s
  {
    TamilRoundTrip(s);
  }

  /** Devanagari to Tamil and back is not the identity: GA comes back as KA. */
  lemma DevanagariTamilDevanagariLossy()
    ensures TransliterateText(TransliterateText("\U{0917}", "Devanagari", "Tamil"), "Tamil", "Devanagari") == "\U{0915}"
  {
    DevanagariToTamilLossy();
  }
}
