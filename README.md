# Scriptsetu transliterator, modelled in Dafny

Scriptsetu transliterates text between Indic scripts. Its logic lives in one
TypeScript module, `app/utils/transliterator.ts`. This project models that
module:

- **The engine** (`transliterateWithMap`, module `Engine`). It walks a text one
  character at a time. When the table's lookup for a character is truthy, it
  appends the replacement, which may be several characters long. Otherwise it
  appends the character itself. `Engine.TransliterateWithMap` is that loop,
  written as a method. It is proved equal to `Engine.MapAll`, the
  concatenation of the per-character images in input order. Every other
  property is proved about `MapAll`: the engine is a homomorphism, characters
  without a mapping keep their place, and length and round-trip facts follow.
- **The two tables** (module `MappingTables`). These are the
  Devanagari→Tamil and Tamil→Devanagari tables, entry for entry, as
  `map<char, string>`. Module `TableProperties` proves what the engine does
  with each table:
  - Devanagari→Tamil is many-to-one (KA, GA and GHA all become Tamil KA). It
    lengthens a text by two for each KHA, the one key whose replacement has
    three characters.
  - Tamil→Devanagari keeps the length.
  - Tamil→Devanagari→Tamil is the identity on texts made of Tamil keys and of
    characters that neither table knows.
- **The dispatch** (`transliterateText`, module `Transliterator`). It picks a
  table by exact string comparison on the (source, target) pair. Every other
  pair gets the note `"[Transliteration from X to Y not yet implemented] "`
  followed by the text.
- **The registry** (module `ScriptRegistry`). It holds:
  - the catalog of twelve display labels (`getSupportedScripts`);
  - label resolution (`getScriptName`), which passes unknown labels through;
  - the `SCRIPT_RANGES` block constants. No code reads these, so they are kept
    as data, with their shape proved.

JavaScript's `mapping[char]` and `scriptNames[fullName] || fullName` test
truthiness. For a string value that means "the key is present and the value is
not empty". `Lookup.Present` states exactly that. `MappingTables.ValuesNonEmpty`
shows that no value in either table is empty, so for these tables the test is
plain key membership.

The table values are kept exactly as the source writes them. In the
Devanagari→Tamil table, DDA and DDHA map to U+0BA1, DA and DHA to U+0BA6, and
BA and BHA to U+0BAC. These are code points that the Unicode Standard leaves
unassigned in the Tamil block. None of them is a key of the Tamil→Devanagari
table, so on the way back they pass through unchanged.

Three behaviours of the code are worth stating outright:
- There is no operation to register a table; the two tables are hard-coded.
- An unsupported pair returns the note even for an empty text, ending in
  `"] "` (`Transliterator.EmptyText`).
- KHA comes back from Tamil as KA, VIRAMA, HA, not KHA, because the Tamil
  VIRAMA is a key of neither table (`TableProperties.KhaRoundTrip`).

## Model

| member | source | states |
|---|---|---|
| Engine.Image | app/utils/transliterator.ts:159-166 | every character's image is non-empty |
| Engine.MapAll | app/utils/transliterator.ts:155-170 | the engine's output (the images of the characters in input order) is never shorter than its input |
| Engine.TransliterateWithMap | app/utils/transliterator.ts:155-170 | the loop that grows `result` returns exactly the concatenation, in input order, of each character's image |
| Engine.MapAllConcat | app/utils/transliterator.ts:156-169 | the output for `a + b` is the output for `a` followed by the output for `b` |
| Engine.MapAllSplit | app/utils/transliterator.ts:158-167 | the output is the output of the characters before position i, then the image of the character at i, then the output of the characters after it |
| Engine.ImageAt | app/utils/transliterator.ts:158-167 | the image of the character at position i sits in the output right after the output of the characters before it |
| Engine.UnmappedCharKept | app/utils/transliterator.ts:163-166 | a character whose lookup is not truthy appears unchanged at its position in the output |
| Engine.NoKeysUnchanged | app/utils/transliterator.ts:156-169 | a text with no mapped character comes back unchanged (the empty text included) |
| Engine.SingleCharValuesKeepLength | app/utils/transliterator.ts:161-162 | when every replacement has one character the output has the input's length |
| Engine.OneWideKeyLength | app/utils/transliterator.ts:161-162 | when all replacements but one key's have one character, each occurrence of that key adds its replacement's extra characters to the length |
| Engine.RoundTrip | app/utils/transliterator.ts:155-170 | when one table undoes another key by key, mapping with both gives the text back, provided no character is a key of the second table only |
| ScriptRegistry.ScriptRangesAreBlocks | app/utils/transliterator.ts:21-33 | every script range is one aligned 128-code-point block, and two scripts share code points exactly when they are Bengali and Assamese |
| ScriptRegistry.SupportedScripts | app/utils/transliterator.ts:176-191 | the catalog has twelve distinct labels, each a key of the label table |
| ScriptRegistry.ScriptName | app/utils/transliterator.ts:198-215 | a known label resolves to one of the twelve canonical names; an unknown label is returned unchanged |
| ScriptRegistry.CatalogResolves | app/utils/transliterator.ts:176-212 | the catalog's labels resolve, in order, to Devanagari, Bengali, Tamil, Telugu, Malayalam, Kannada, Gujarati, Gurmukhi, Oriya, Assamese, Urdu, Sinhala |
| ScriptRegistry.ScriptNameIdempotent | app/utils/transliterator.ts:198-215 | resolving a name twice gives the same as resolving it once |
| MappingTables.DevanagariToTamilWidths | app/utils/transliterator.ts:39-89 | every Devanagari→Tamil replacement has one character except KHA's, which is KA, VIRAMA, HA |
| MappingTables.TamilToDevanagariWidths | app/utils/transliterator.ts:91-120 | every Tamil→Devanagari replacement has one character |
| MappingTables.ValuesNonEmpty | app/utils/transliterator.ts:39-120 | no replacement in either table is empty, so the truthiness test is key membership |
| MappingTables.DevanagariEntries | app/utils/transliterator.ts:53-56 | KA, GA and GHA each map to Tamil KA |
| MappingTables.TamilEntries | app/utils/transliterator.ts:104-119 | Tamil KA maps to KA, Tamil HA to HA, and the Tamil VIRAMA is not a key |
| MappingTables.TamilKeyComesBack | app/utils/transliterator.ts:91-120 | each Tamil key maps to one Devanagari character that Devanagari→Tamil maps back to that key |
| TableProperties.DevanagariToTamilKeysInBlock | app/utils/transliterator.ts:39-89 | every Devanagari→Tamil key lies in the Devanagari block |
| TableProperties.DevanagariToTamilValuesInBlock | app/utils/transliterator.ts:39-89 | every character of a Devanagari→Tamil replacement lies in the Tamil block |
| TableProperties.TamilToDevanagariInBlocks | app/utils/transliterator.ts:91-120 | every Tamil→Devanagari key lies in the Tamil block and every character of its replacement lies in the Devanagari block |
| TableProperties.TamilToDevanagariKeepsLength | app/utils/transliterator.ts:91-120 | Tamil→Devanagari output has exactly the input's length |
| TableProperties.DevanagariToTamilLength | app/utils/transliterator.ts:39-89 | Devanagari→Tamil output length is the input length plus twice the number of KHAs |
| TableProperties.DevanagariToTamilLossy | app/utils/transliterator.ts:53-56 | KA, GA and GHA all become Tamil KA, so the table is not injective, and GA comes back from Tamil as KA |
| TableProperties.KaViramaHaBack | app/utils/transliterator.ts:104-119 | Tamil KA, VIRAMA, HA becomes Devanagari KA, the unchanged VIRAMA, HA |
| TableProperties.KhaRoundTrip | app/utils/transliterator.ts:54 | KHA becomes KA, VIRAMA, HA, and Devanagari→Tamil→Devanagari turns it into KA, VIRAMA, HA rather than KHA |
| TableProperties.TamilKeysComeBack | app/utils/transliterator.ts:91-120 | Devanagari→Tamil undoes Tamil→Devanagari on every Tamil key |
| TableProperties.TamilRoundTrip | app/utils/transliterator.ts:39-120 | Tamil→Devanagari→Tamil is the identity on any text whose characters are Tamil keys or keys of neither table |
| Transliterator.NotImplemented | app/utils/transliterator.ts:145 | the note begins "[Transliteration from ", carries the source name at offset 22 and the target name right after " to ", has length 48 plus the lengths of both names and the text, and ends with "] " followed by the text verbatim |
| Transliterator.TransliterateText | app/utils/transliterator.ts:131-147 | the result is never shorter than the text, and for a pair without a table it ends with the text verbatim |
| Transliterator.TransliterateTextDispatch | app/utils/transliterator.ts:139-146 | only ("Devanagari", "Tamil") and ("Tamil", "Devanagari") select a table; every other pair, including a script paired with itself and the unresolved label "Devanagari (Hindi, Marathi, etc.)", gets the note |
| Transliterator.EmptyText | app/utils/transliterator.ts:139-146 | the empty text gives "" for a pair with a table, and the bare note ending in "] " for any other pair |
| Transliterator.TransliterateTextConcat | app/utils/transliterator.ts:139-142 | for a pair with a table, transliterating a concatenation concatenates the transliterations |
| Transliterator.CatalogPairs | app/utils/transliterator.ts:139-146 | among the catalog labels resolved to canonical names, only Devanagari with Tamil, in either order, selects a table |
| Transliterator.RegisteredPairExamples | app/utils/transliterator.ts:139-142 | "क" from Devanagari to Tamil gives "க", and "க" from Tamil to Devanagari gives "क" |
| Transliterator.TamilDevanagariTamil | app/utils/transliterator.ts:139-142 | Tamil→Devanagari then Devanagari→Tamil returns a text made of Tamil keys and characters neither table knows |
| Transliterator.DevanagariTamilDevanagariLossy | app/utils/transliterator.ts:139-142 | Devanagari→Tamil then Tamil→Devanagari turns "ग" into "क", so the pair is not mutually inverse |

## Left out

- Strings are modelled as sequences of Unicode scalar values (`seq<char>`). The source indexes UTF-16 code units. Every table key is a character of the Basic Multilingual Plane and not a surrogate, so the two readings agree on every key. A surrogate pair is copied through unchanged either way.
- JavaScript prototype-chain lookups are not modelled (for example `scriptNames["toString"]` finding an inherited member). Lookups see only the table's own entries.
- The `SCRIPT_RANGES` constants are modelled as data with lemmas about their shape. No operation checks input against them, because the source does not.
- `transliterateText` is modelled as a function over `Engine.MapAll`. A function cannot call a method, and `MapAll` is proved equal to the loop in `Engine.TransliterateWithMap`.
- The user interface (screens, splash animation, navigation and timers) and the theme constants are not part of this model. They hold no transliteration logic.
