/**
 The script registry: the Unicode block of each Indic script, the catalog of
 display labels offered to the user, and the resolution of a display label to
 the canonical script name that selects a mapping table.
 */
module ScriptRegistry {
  import opened Lookup

  /** The scripts that carry a Unicode block range. */
  datatype BlockScript =
    | Devanagari | Bengali | Gurmukhi | Gujarati | Oriya | Tamil
    | Telugu | Kannada | Malayalam | Sinhala | Assamese

  /** An inclusive range of code points. */
  datatype CodeRange = CodeRange(start: int, end: int)

  /** The block range of each script. No operation consults these ranges:
      they are descriptive data only. */
  function ScriptRange(script: BlockScript): CodeRange
  {
    match script
    case Devanagari => CodeRange(0x0900, 0x097F)
    case Bengali => CodeRange(0x0980, 0x09FF)
    case Gurmukhi => CodeRange(0x0A00, 0x0A7F)
    case Gujarati => CodeRange(0x0A80, 0x0AFF)
    case Oriya => CodeRange(0x0B00, 0x0B7F)
    case Tamil => CodeRange(0x0B80, 0x0BFF)
    case Telugu => CodeRange(0x0C00, 0x0C7F)
    case Kannada => CodeRange(0x0C80, 0x0CFF)
    case Malayalam => CodeRange(0x0D00, 0x0D7F)
    case Sinhala => CodeRange(0x0D80, 0x0DFF)
    case Assamese => CodeRange(0x0980, 0x09FF)
  }

  predicate InRange(c: char, r: CodeRange)
  {
    r.start <= c as int <= r.end
  }

  /** Every range is one 128-code-point block aligned on a multiple of 128, and
      two scripts share code points only when they are Bengali and Assamese,
      which share one range. */
  lemma ScriptRangesAreBlocks(s: BlockScript, t: BlockScript)
    ensures ScriptRange(s).start % 0x80 == 0
    ensures ScriptRange(s).end == ScriptRange(s).start + 0x7F
    ensures ScriptRange(s).start == ScriptRange(t).start <==>
      s == t || {s, t} == {Bengali, Assamese}
    ensures ScriptRange(s).start != ScriptRange(t).start ==>
      ScriptRange(s).end < ScriptRange(t).start || ScriptRange(t).end < ScriptRange(s).start
  {
  }

  /** The display labels in the order the user is offered them. */
  function SupportedScripts(): (labels: seq<string>)
    ensures |labels| == 12
    ensures forall i, j :: 0 <= i < j < |labels| ==> labels[i] != labels[j]
    ensures forall i :: 0 <= i < |labels| ==> labels[i] in ScriptNames()
  {
    [ "Devanagari (Hindi, Marathi, etc.)",
      "Bengali",
      "Tamil",
      "Telugu",
      "Malayalam",
      "Kannada",
      "Gujarati",
      "Punjabi (Gurmukhi)",
      "Oriya",
      "Assamese",
      "Urdu",
      "Sinhala" ]
  }

  /** From display label to canonical script name. */
  function ScriptNames(): map<string, string>
  {
    map[
      "Devanagari (Hindi, Marathi, etc.)" := "Devanagari",
      "Bengali" := "Bengali",
      "Tamil" := "Tamil",
      "Telugu" := "Telugu",
      "Malayalam" := "Malayalam",
      "Kannada" := "Kannada",
      "Gujarati" := "Gujarati",
      "Punjabi (Gurmukhi)" := "Gurmukhi",
      "Oriya" := "Oriya",
      "Assamese" := "Assamese",
      "Urdu" := "Urdu",
      "Sinhala" := "Sinhala"
    ]
  }

  /** The canonical name of a display label; a label the table does not know
      (or whose name is empty) is returned as it is. */
  function ScriptName(fullName: string): (name: string)
    ensures fullName in ScriptNames() ==> name in CanonicalNames()
    ensures fullName !in ScriptNames() ==> name == fullName
  {
    if Present(ScriptNames(), fullName) then ScriptNames()[fullName] else fullName
  }

  /** The canonical names: what ScriptName yields for the catalog's labels. */
  function CanonicalNames(): seq<string>
  {
    [ "Devanagari", "Bengali", "Tamil", "Telugu", "Malayalam", "Kannada",
      "Gujarati", "Gurmukhi", "Oriya", "Assamese", "Urdu", "Sinhala" ]
  }

  /** Every catalog label resolves, position by position, to its canonical name. */
  lemma CatalogResolves()
    ensures forall i :: 0 <= i < 12 ==> ScriptName(SupportedScripts()[i]) == CanonicalNames()[i]
  {
  }

  /** Resolving a name twice is resolving it once: a canonical name is either
      not a label ("Devanagari", "Gurmukhi") or a label naming itself. */
  lemma ScriptNameIdempotent(fullName: string)
    ensures ScriptName(ScriptName(fullName)) == ScriptName(fullName)
  {
  }
}
