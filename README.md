# Materials data portal: synthesis planning core in Dafny

This project models the rule-based core of the materials data portal, a web
application that helps plan the laboratory synthesis of inorganic materials.
It also proves properties of that model. The core has six parts:

- **Formula tokeniser and message classifiers** (`ElementParser`). This part:
  - reads a chemical formula greedily, trying two-letter symbols before one-letter ones;
  - takes the count that follows a symbol and merges repeated symbols;
  - finds the target material in a chat message by trying three patterns in order;
  - detects the synthesis method named in a message;
  - names a material from its elements.
- **Precursor table and method catalog** (`PrecursorDb`, `SynthesisMethods`):
  - the precursor compounds catalogued for each element, filtered by synthesis method and stably ordered by preference;
  - the four synthesis methods (solid-state, sol-gel, hydrothermal, solution) with their condition ranges and procedures;
  - the reducing-atmosphere rule.
- **Recipe generator and the recipe chat route** (`RecipeGenerator`, `RecipeRoute`). The generator:
  - chooses a precursor per element, skipping O, N, C and H and falling back to solid-state and then solution precursors;
  - prints the 30 %–70 % window of the method's temperature and time ranges;
  - picks the atmosphere and copies the procedure, rewriting the sintering step when a reducing atmosphere is needed;
  - adds safety notes and up to three literature references with distinct DOIs.

  The route drives a small state machine over the chat turns. Its state is the target material, a flag saying whether the assistant is waiting for a method choice, and the method chosen.
- **Literature recipe store** (`SynthesisData`, `ParseSynthesis`):
  - the server-side searches by formula, precursor and temperature interval over the text-mined recipe dataset;
  - the extraction script that builds that dataset from reaction records: the running minimum and maximum of temperatures and times, the first atmosphere, the operation types and positional ids;
  - the filter that keeps records with a target;
  - the web copy of the searches that the script generates.
- **Combination screening** (`ElementCombinations`, `Research`):
  - enumerating k-element combinations by backtracking, and the binomial count;
  - the query classifiers for element group, system size and application;
  - the score 2·materials + 10·stable phases + 5·recipes and the reasons given for it;
  - screening at most 30 combinations and reporting the top 15 that score, best first.
- **Synthesis search route** (`SynthesisRoute`):
  - classifies a question as a temperature, precursor, formula or general query, in that order of precedence;
  - runs the matching dataset search, where a general search falls back to precursors;
  - formats each record with null-aware ranges.

Every source file gets its own module. `Text`, `Seqs` and `Wrappers` hold the
string, sequence and option helpers the modules share: JavaScript's `\s`,
`trim`, `includes`, `join` and `split`, ASCII case mapping, `Math.round`,
number printing, first-match filtering, a stable sort and order-keeping
de-duplication.

The code is modelled in the form it has in the source:
- Loops and in-place updates become methods with loop invariants. Each is proved equal to a function of its inputs:
  - `ParseFormula`, `ExtractTargetMaterial` and `DetectSynthesisMethod`;
  - `ChoosePrecursors`, `CollectReferences` and `BuildProcedure`;
  - `GetConversationState`;
  - `ExtractRange` and `ExtractAtmosphere`;
  - `GenerateCombinations` and `CombinationCount`;
  - `ScreenCombination` and `ConductResearch`.
- Expressions and table lookups become functions.
- The properties the code promises are lemmas about those functions.

Regular expressions are modelled as scanners that try each start position and keep the first that matches. The comments beside each scanner say why backtracking cannot change the result.

The model follows the code as written. Two defects in the code are recorded under "## Findings". Each has an as-written definition and a corrected one; the operations use only the as-written definitions:
- `SynthesisRoute.Respond` and `SynthesisRoute.RespondMessage` search with `SynthesisRoute.SearchResultsAsWritten`. For formula, precursor and general queries this delegates to `SynthesisRoute.SearchResults`, since the code is the same there; it differs only for temperature queries.
- `ElementCombinations.ParseResearchQuery`, `Research.SelectCombinations` and `Research.ConductResearch` take the system size from `ElementCombinations.ParseSystemSizeAsWritten`.

Apart from that delegation, the corrected definitions `SynthesisRoute.SearchResults` and `ElementCombinations.ParseSystemSize` are used only by the lemmas beside them, which compare them with the as-written definitions.

Three other surprising behaviours are stated as lemmas and kept as written. They are not claimed as defects, because nothing in the code shows that another reading was intended:
- `RecipeRoute.SolutionWordIsNotSolution`: typing "solution" selects sol-gel.
- `SynthesisRoute.SyllablesAreSingleMarks`: the Korean range separators are single characters.
- `Research.OsmiumGivesNoNobleReason`: the screen's noble list omits osmium.

## Model

| member | source | states |
|---|---|---|
| SynthesisData.NormalizeFormula | mcp-server/src/api/synthesis-data.ts:14-16 | the normalised formula is no longer than the input and holds no white space and no upper-case letter |
| SynthesisData.NormalizeAppend | mcp-server/src/api/synthesis-data.ts:14-16 | normalising a concatenation normalises each part: the result is the input with each white-space character removed and each letter lower-cased |
| SynthesisData.NormalizeChar | mcp-server/src/api/synthesis-data.ts:14-16 | one character normalises to nothing when it is white space and to its lower-case form otherwise |
| SynthesisData.NormalizeIdempotent | mcp-server/src/api/synthesis-data.ts:14-16 | normalising twice is normalising once |
| SynthesisData.NormalizeBlank | mcp-server/src/api/synthesis-data.ts:14-16 | an empty or white-space-only formula normalises to the empty string |
| SynthesisData.OverlapsEmpty | mcp-server/src/api/synthesis-data.ts:38-39 | the empty normalised query passes the symmetric substring test against every formula |
| SynthesisData.SearchByFormula | mcp-server/src/api/synthesis-data.ts:29-44 | the result is a subsequence of the dataset, at most `limit` long, and every record in it has a formula overlapping the normalised query and the requested type; `SearchByFormulaFirstLimit` states that it is exactly the first `limit` matches |
| SynthesisData.SearchByFormulaComplete | mcp-server/src/api/synthesis-data.ts:36-43 | with a limit covering the dataset, a record is returned exactly when it matches (both directions) |
| SynthesisData.SearchByFormulaFirst | mcp-server/src/api/synthesis-data.ts:36-43 | once `limit` matches are found, records after them do not change the result |
| SynthesisData.BlankQueryMatchesType | mcp-server/src/api/synthesis-data.ts:34-41 | a blank query matches a record exactly when the record has the requested type |
| SynthesisData.BlankQueryReturnsAll | mcp-server/src/api/synthesis-data.ts:29-44 | a blank query of any type with a limit of at least `getRecipeCount()` returns the whole dataset (see also mcp-server/src/api/synthesis-data.ts:99-101) |
| SynthesisData.SearchByPrecursor | mcp-server/src/api/synthesis-data.ts:49-63 | the result is a subsequence of the dataset, at most `limit` long, and every record in it has a precursor overlapping the normalised query; `SearchByPrecursorFirstLimit` states that it is exactly the first `limit` matches |
| SynthesisData.SearchByPrecursorComplete | mcp-server/src/api/synthesis-data.ts:55-62 | with a limit covering the dataset, a record is returned exactly when one of its precursors matches |
| SynthesisData.TemperatureOverlapsIff | mcp-server/src/api/synthesis-data.ts:76-79 | for a well-ordered record and range, the overlap test holds exactly when some temperature lies in both, a missing minimum counting as 0 and a missing maximum as unbounded |
| SynthesisData.TemperatureExcluded | mcp-server/src/api/synthesis-data.ts:76-79 | a record run at 700-750 °C does not overlap 800-1000 °C |
| SynthesisData.TemperatureIncluded | mcp-server/src/api/synthesis-data.ts:76-79 | a record run at 750-850 °C overlaps 800-1000 °C |
| SynthesisData.ContainsElementsIgnoresCase | mcp-server/src/api/synthesis-data.ts:21-24 | the element test gives the same answer for a formula and its lower-cased form |
| SynthesisData.ContainsElementsAt | mcp-server/src/api/synthesis-data.ts:21-24 | an element that occurs in the formula, letter case ignored, passes the test |
| SynthesisData.SearchByTemperature | mcp-server/src/api/synthesis-data.ts:68-87 | the result is a subsequence of the dataset, at most `limit` long, and every record in it overlaps the range and holds the elements when they are given; `SearchByTemperatureFirstLimit` states that it is exactly the first `limit` matches |
| SynthesisData.SearchByTemperatureComplete | mcp-server/src/api/synthesis-data.ts:74-86 | with a limit covering the dataset, a record is returned exactly when it passes both tests |
| SynthesisData.GetSynthesisTypes | mcp-server/src/api/synthesis-data.ts:92-94 | the types are listed without repetition, and a type is listed exactly when some record has it |
| SynthesisData.AtMostTwoTypes | mcp-server/src/api/synthesis-data.ts:92-94 | at most two types are listed |
| SynthesisData.GetRecipeCount | mcp-server/src/api/synthesis-data.ts:99-101 | specification function: the number of records of the dataset; `BlankQueryReturnsAll` states that a limit of at least this count lets a blank query return everything |
| SynthesisData.SearchByFormulaFirstLimit | mcp-server/src/api/synthesis-data.ts:36-43 | the result is the front of the complete result, exactly `limit` long when there are that many matches (else every match), and a matching record is left out only when `limit` matches come before it |
| SynthesisData.SearchByPrecursorFirstLimit | mcp-server/src/api/synthesis-data.ts:55-62 | the result is the front of the complete result, exactly `limit` long when there are that many matches (else every match), and a matching record is left out only when `limit` matches come before it |
| SynthesisData.SearchByTemperatureFirstLimit | mcp-server/src/api/synthesis-data.ts:74-86 | the result is the front of the complete result, exactly `limit` long when there are that many matches (else every match), and a matching record is left out only when `limit` matches come before it |
| SynthesisData.FormulaMatches | mcp-server/src/api/synthesis-data.ts:36-41 | specification predicate: the symmetric substring test on normalised formulas and the type test; `SearchByFormulaComplete` and `BlankQueryMatchesType` state how it selects records |
| SynthesisData.PrecursorMatches | mcp-server/src/api/synthesis-data.ts:55-61 | specification predicate: some precursor passes the symmetric substring test; `SearchByPrecursorComplete` states that it selects the records |
| SynthesisData.TemperatureOverlaps | mcp-server/src/api/synthesis-data.ts:76-79 | specification predicate: the source's interval test; `TemperatureOverlapsIff` states that it is the overlap of the two ranges |
| SynthesisData.ContainsElements | mcp-server/src/api/synthesis-data.ts:21-24 | specification predicate: every element occurs in the upper-cased formula; `ContainsElementsIgnoresCase` and `ContainsElementsAt` state its properties |
| SynthesisMethods.Entry | src/lib/recipe/synthesis-methods.ts:32-438 | the k-th catalog entry carries the k-th key as its id, and its temperature and time ranges are ordered and its atmosphere list is not empty |
| SynthesisMethods.KeyIndex | src/lib/recipe/synthesis-methods.ts:443-445 | the key lookup is negative exactly for an id that is not one of the four keys, and otherwise gives that key's position |
| SynthesisMethods.GetMethod | src/lib/recipe/synthesis-methods.ts:443-445 | a method is found exactly for the four keys, and the method found carries the id asked for |
| SynthesisMethods.AllMethodsInOrder | src/lib/recipe/synthesis-methods.ts:450-452 | `getAllMethods` lists the four entries in key order, each the one `getMethod` finds for its key |
| SynthesisMethods.CatalogKeys | src/lib/recipe/synthesis-methods.ts:32-438 | the keys are distinct and each finds its own entry |
| SynthesisMethods.CatalogWellFormed | src/lib/recipe/synthesis-methods.ts:32-438 | every entry found has ordered temperature and time ranges and at least one atmosphere |
| SynthesisMethods.OneSinteringStep | src/lib/recipe/synthesis-methods.ts:46-125 | the solid-state procedure has exactly one step named 'sintering', the sixth |
| SynthesisMethods.HasNoble | src/lib/recipe/synthesis-methods.ts:458-459 | the test holds exactly when some target element is one of the eight noble metals |
| SynthesisMethods.NeedsReducingAtmosphere | src/lib/recipe/synthesis-methods.ts:457-467 | a reducing atmosphere is needed exactly for solid-state synthesis of a target holding a noble metal |
| SynthesisMethods.NeedsReducingAppend | src/lib/recipe/synthesis-methods.ts:457-467 | the answer for two element lists together is the disjunction of the answers for each |
| SynthesisMethods.ReducingFlagIgnored | src/lib/recipe/synthesis-methods.ts:436 | the solution method is flagged `reducingRequired`, yet `needsReducingAtmosphere` answers false for it whatever the elements (see also src/lib/recipe/synthesis-methods.ts:457-467) |
| SynthesisMethods.GoldNeedsReducing | src/lib/recipe/synthesis-methods.ts:457-467 | gold by solid-state needs it, cobalt oxide by solid-state and gold by sol-gel do not |
| SynthesisMethods.GetAllMethods | src/lib/recipe/synthesis-methods.ts:450-452 | specification function: the catalog entries in declaration order; `AllMethodsInOrder` states which entries and in which order |
| PrecursorDb.Prioritize | src/lib/recipe/precursor-db.ts:238-245 | the result keeps exactly the precursors that list the method, as a permutation of them, ordered by the method's position in each `preferredFor` list, and stable: precursors of equal rank keep their catalog order |
| PrecursorDb.GetPrecursors | src/lib/recipe/precursor-db.ts:233-246 | every precursor returned is catalogued for the element and lists the method; every catalogued precursor that lists the method is returned; the result is ordered by preference rank; an uncatalogued element gives none |
| PrecursorDb.GetBestPrecursor | src/lib/recipe/precursor-db.ts:251-257 | there is no best precursor exactly when there are no precursors, and otherwise it is the first of them |
| PrecursorDb.FirstChoiceWins | src/lib/recipe/precursor-db.ts:238-245 | a first entry whose first preference is the method stays first after filtering and sorting |
| PrecursorDb.BestFromFirstChoice | src/lib/recipe/precursor-db.ts:251-257 | when the element's first catalogued precursor names the method first, it is the best precursor |
| PrecursorDb.LithiumFirstEntry | src/lib/recipe/precursor-db.ts:14-15 | lithium's first entry is lithium carbonate for solid-state |
| PrecursorDb.CobaltFirstEntry | src/lib/recipe/precursor-db.ts:77-78 | cobalt's first entry is Co3O4 for solid-state |
| PrecursorDb.SolidStateBest | src/lib/recipe/precursor-db.ts:251-257 | the best solid-state precursors of lithium and cobalt are Li2CO3 and Co3O4 |
| PrecursorDb.GoldHasNoSolGel | src/lib/recipe/precursor-db.ts:156-159 | gold is catalogued, yet has no sol-gel precursor, so its best sol-gel precursor is null |
| PrecursorDb.PrioritizeSkipFirst | src/lib/recipe/precursor-db.ts:238-245 | of three precursors where the first does not list the method, the other two are returned in rank order |
| PrecursorDb.IridiumEntries | src/lib/recipe/precursor-db.ts:146-150 | iridium's catalog entries are IrO2, IrCl3·xH2O and H2IrCl6 in that order |
| PrecursorDb.IridiumSolutionReordered | src/lib/recipe/precursor-db.ts:233-246 | for the solution method iridium's precursors come back as H2IrCl6 before IrCl3·xH2O, the reverse of catalog order, because solution is the latter's second preference |
| PrecursorDb.IridiumPrioritized | src/lib/recipe/precursor-db.ts:238-245 | the sort places the rank-0 H2IrCl6 before the rank-1 chloride hydrate |
| PrecursorDb.IridiumSolutionRanks | src/lib/recipe/precursor-db.ts:242-244 | the solution method ranks 1 in the hydrate's list and 0 in the acid's, and is missing from the oxide's |
| PrecursorDb.Entries | src/lib/recipe/precursor-db.ts:12-228 | specification function: the catalogued compounds of each key in declaration order, none for a symbol that is not a key; `KeysHaveEntries`, `OnlyKeysHaveEntries` and the entry lemmas state what it holds |
| PrecursorDb.KeysHaveEntries | src/lib/recipe/precursor-db.ts:12-228 | every key of the table has at least one catalogued compound |
| PrecursorDb.OnlyKeysHaveEntries | src/lib/recipe/precursor-db.ts:12-228 | a symbol that is not a key of the table has no catalogued compound |
| PrecursorDb.HasElement | src/lib/recipe/precursor-db.ts:262-264 | specification predicate: `element in precursorDB`, a test on the keys of the table; `HasElementIff` relates it to the entries |
| PrecursorDb.HasElementIff | src/lib/recipe/precursor-db.ts:262-264 | an element is a key of the table exactly when it has catalogued compounds, so the key test and "has entries" agree (see also src/lib/recipe/precursor-db.ts:237) |
| ElementParser.ElementsShape | src/lib/recipe/element-parser.ts:6-17 | every symbol of the periodic table is one upper-case letter, or one upper-case and one lower-case letter |
| ElementParser.ElementMembership | src/lib/recipe/element-parser.ts:6-17 | the element test holds exactly for the symbols of the table |
| ElementParser.TwoLetterElement | src/lib/recipe/element-parser.ts:20 | the two-letter list holds exactly the table's symbols of length 2 |
| ElementParser.CountLength | src/lib/recipe/element-parser.ts:51 | the count prefix matched after a symbol never runs past the text |
| ElementParser.SymbolLength | src/lib/recipe/element-parser.ts:47-73 | the symbol matched at the front never runs past the text |
| ElementParser.SymbolInTable | src/lib/recipe/element-parser.ts:47-73 | a symbol matched at the front is an element of the table |
| ElementParser.TokensAreElements | src/lib/recipe/element-parser.ts:44-79 | every token the scan yields names an element of the table |
| ElementParser.MergeFacts | src/lib/recipe/element-parser.ts:82-90 | merging keeps one entry per symbol, only symbols that were scanned, every symbol that was scanned, and gives each the sum of its counts |
| ElementParser.FormulaOfFacts | src/lib/recipe/element-parser.ts:40-97 | the parsed formula is the input unchanged, its unique elements are the merged symbols without repetition and all in the table, each count is the sum over the trimmed input, and every scanned symbol appears |
| ElementParser.MergeKeepsElements | src/lib/recipe/element-parser.ts:82-90 | merging tokens that name elements yields entries that name elements |
| ElementParser.MergeKeepsSymbols | src/lib/recipe/element-parser.ts:82-90 | every scanned symbol survives the merge |
| ElementParser.NoElementsIff | src/lib/recipe/element-parser.ts:40-97 | a formula has no unique elements exactly when the scan of its trimmed text finds no symbol |
| ElementParser.StartsWithSymbolParses | src/lib/recipe/element-parser.ts:40-97 | a trimmed formula that starts with a symbol has at least one element |
| ElementParser.TokensAtSymbol | src/lib/recipe/element-parser.ts:47-73 | a symbol at the front becomes the first token, with the count read after it, and the scan resumes after the count |
| ElementParser.TokenWithoutCount | src/lib/recipe/element-parser.ts:52 | a symbol not followed by a digit gets the count 1 (see also src/lib/recipe/element-parser.ts:67) |
| ElementParser.TotalAbsent | src/lib/recipe/element-parser.ts:82-85 | a symbol that was never scanned totals 0 |
| ElementParser.TotalDistinct | src/lib/recipe/element-parser.ts:82-85 | with distinct symbols, a symbol's total is its own count |
| ElementParser.MergeDistinct | src/lib/recipe/element-parser.ts:82-90 | merging tokens with distinct symbols changes nothing |
| ElementParser.FormulaFromTokens | src/lib/recipe/element-parser.ts:40-97 | the parsed elements are the merge of the tokens of the trimmed formula |
| ElementParser.FormulaOfDistinct | src/lib/recipe/element-parser.ts:40-97 | when the tokens have distinct symbols, the parsed elements are the tokens themselves, in scan order |
| ElementParser.CobaltIsOneSymbol | src/lib/recipe/element-parser.ts:47-58 | "Co" parses as cobalt, because two-letter symbols are tried first |
| ElementParser.CarbonMonoxideIsTwoSymbols | src/lib/recipe/element-parser.ts:40-97 | "CO" parses as carbon then oxygen, because the match is case-sensitive |
| ElementParser.RepeatedSymbolsMerge | src/lib/recipe/element-parser.ts:82-90 | "FeFeO" parses as two iron and one oxygen, in first-seen order |
| ElementParser.CountsFollowSymbols | src/lib/recipe/element-parser.ts:51-55 | "Fe2O3" parses as two iron and three oxygen |
| ElementParser.OneDigitCount | src/lib/recipe/element-parser.ts:51-52 | a single digit not followed by a digit or a dot is a count of that digit's value |
| ElementParser.TwoLetterStep | src/lib/recipe/element-parser.ts:48-58 | a two-letter symbol at the front is taken with its count |
| ElementParser.OneLetterStep | src/lib/recipe/element-parser.ts:61-73 | when no two-letter symbol matches, an upper-case one-letter element is taken with its count |
| ElementParser.SkipStep | src/lib/recipe/element-parser.ts:75-78 | a character that starts no symbol is skipped |
| ElementParser.MatchTwoLetter | src/lib/recipe/element-parser.ts:48-59 | the loop finds a two-letter symbol that the text starts with, or reports that none of the list is a prefix |
| ElementParser.ScanSymbol | src/lib/recipe/element-parser.ts:45-78 | one pass of the loop shortens the text and either emits the next token of the scan or skips a character |
| ElementParser.ScanElements | src/lib/recipe/element-parser.ts:44-79 | the loop collects exactly the tokens of the text |
| ElementParser.MergeElements | src/lib/recipe/element-parser.ts:82-90 | the merge loop over a record gives exactly the merged entries, in first-seen order |
| ElementParser.ParseFormula | src/lib/recipe/element-parser.ts:40-97 | parsing gives exactly the parsed formula defined by scanning the trimmed input and merging |
| ElementParser.KeywordAt | src/lib/recipe/element-parser.ts:106 | a keyword matched at a position ends inside the text |
| ElementParser.NameAfterVerbOccurs | src/lib/recipe/element-parser.ts:106 | the name captured after a verb occurs in the message |
| ElementParser.NounEnd | src/lib/recipe/element-parser.ts:108 | the name captured before a noun has at least two characters and ends inside the message |
| ElementParser.MatchAtOccurs | src/lib/recipe/element-parser.ts:104-111 | a capture of any of the three patterns occurs in the message |
| ElementParser.FirstMatchInMessage | src/lib/recipe/element-parser.ts:114 | the leftmost capture of a pattern is a substring of the message |
| ElementParser.TargetFromParses | src/lib/recipe/element-parser.ts:113-121 | a returned target parses to at least one element |
| ElementParser.ExtractTargetMaterial | src/lib/recipe/element-parser.ts:102-125 | the loop returns the first pattern's capture that parses to an element; that capture occurs in the message; null is returned exactly when every pattern fails to match or captures a text with no element |
| ElementParser.MakeIsAVerb | src/lib/recipe/element-parser.ts:106 | "make" is matched as a verb at the start of "make LiCoO2" |
| ElementParser.VerbCapturesName | src/lib/recipe/element-parser.ts:106 | the verb pattern captures "LiCoO2" from "make LiCoO2" |
| ElementParser.LithiumCobaltOxideParses | src/lib/recipe/element-parser.ts:36 | "LiCoO2" parses to at least one element |
| ElementParser.VerbPicksName | src/lib/recipe/element-parser.ts:102-125 | the target of "make LiCoO2" is "LiCoO2" |
| ElementParser.MethodMentionedIgnoresCase | src/lib/recipe/element-parser.ts:131 | the method detected does not depend on letter case |
| ElementParser.MethodFromFirst | src/lib/recipe/element-parser.ts:140-148 | no method is found exactly when no keyword list matches; otherwise the method found is the first whose list has a keyword in the message |
| ElementParser.DetectSynthesisMethod | src/lib/recipe/element-parser.ts:130-149 | the nested loops return exactly the method the keyword table picks |
| ElementParser.SolidStateCheckedFirst | src/lib/recipe/element-parser.ts:133-140 | "sintered sol-gel" is read as solid-state, because solid-state keywords are tried first |
| ElementParser.MaterialNameWords | src/lib/recipe/element-parser.ts:167 | the name has one space-separated word per element, the i-th being that element's word |
| ElementParser.NameOfTwo | src/lib/recipe/element-parser.ts:167 | two elements are named by their two words joined by a space |
| ElementParser.NameOfThree | src/lib/recipe/element-parser.ts:167 | three elements are named by their three words joined by spaces |
| ElementParser.KnownNames | src/lib/recipe/element-parser.ts:154-168 | Li, Co, O is named "lithium cobalt oxide" |
| ElementParser.UnknownNames | src/lib/recipe/element-parser.ts:154-168 | Mo, S is named "mo sulfide" |
| ElementParser.FormulaOf | src/lib/recipe/element-parser.ts:40-97 | specification function: the scan of the trimmed formula, merged; `FormulaOfFacts`, `NoElementsIff` and `ParseFormula` state its properties and that the loop computes it |
| ElementParser.TargetFrom | src/lib/recipe/element-parser.ts:102-125 | specification function: the first pattern, in order, whose leftmost capture parses to at least one element; `TargetFromParses` and `ExtractTargetMaterial` state its properties and that the loop computes it |
| ElementParser.MethodMentioned | src/lib/recipe/element-parser.ts:130-149 | specification function: the first method whose keyword the lower-cased message includes; `MethodMentionedIgnoresCase` and `DetectSynthesisMethod` state its properties and that the loop computes it |
| ElementParser.GenerateMaterialName | src/lib/recipe/element-parser.ts:154-168 | specification function: the word of each symbol joined by single spaces; `MaterialNameWords`, `KnownNames` and `UnknownNames` state its properties |
| ElementParser.IsElement | src/lib/recipe/element-parser.ts:6-17 | specification predicate: membership in the periodic table list; `ElementMembership` and `ElementsShape` state its properties |
| ElementParser.Tokens | src/lib/recipe/element-parser.ts:44-79 | specification function: the symbols of the text with their counts, before merging; `TokensAreElements`, `TokensAtSymbol`, `TwoLetterStep`, `OneLetterStep` and `SkipStep` state its properties and `ScanElements` that the loop computes it |
| ElementParser.Merge | src/lib/recipe/element-parser.ts:82-90 | specification function: one entry per symbol with summed counts; `MergeFacts` and `MergeKeepsSymbols` state its properties and `MergeElements` that the loop computes it |
| ElementParser.MethodFrom | src/lib/recipe/element-parser.ts:130-149 | specification function: the first method of the table with a keyword in the text; `MethodFromFirst` and `SolidStateCheckedFirst` state its properties |
| ElementParser.EnglishName | src/lib/recipe/element-parser.ts:155-165 | specification function: the names map; `NamesHaveNoSpaces`, `KnownNames` and `UnknownNames` state what it holds |
| ElementParser.NamesHaveNoSpaces | src/lib/recipe/element-parser.ts:155-165 | no English name in the map contains a space, so the joined name has one word per symbol |
| ElementCombinations.GroupElements | src/lib/research/element-combinations.ts:9-16 | every element group lists at least one element (see also src/lib/research/element-combinations.ts:61-70) |
| ElementCombinations.BinomAbove | src/lib/research/element-combinations.ts:50 | there are no ways to choose more items than there are |
| ElementCombinations.BinomAll | src/lib/research/element-combinations.ts:51 | there is one way to choose all the items |
| ElementCombinations.BinomStep | src/lib/research/element-combinations.ts:54-56 | the multiplicative step of the loop: (k+1)·C(n,k+1) = (n−k)·C(n,k) |
| ElementCombinations.BinomOne | src/lib/research/element-combinations.ts:49-58 | there are n ways to choose one of n items |
| ElementCombinations.Combine | src/lib/research/element-combinations.ts:32-42 | the recursive helper appends to the result exactly the combinations that extend the current prefix with items from `start` on |
| ElementCombinations.GenerateCombinations | src/lib/research/element-combinations.ts:29-46 | the result is the combinations of the requested size, there are C(n, size) of them, and each has that size |
| ElementCombinations.CombsFromCount | src/lib/research/element-combinations.ts:32-42 | from a prefix and a start position, the helper produces C(remaining items, missing slots) combinations |
| ElementCombinations.CombsFromOver | src/lib/research/element-combinations.ts:33-41 | a prefix already longer than the size produces nothing, because the helper returns only at equality |
| ElementCombinations.CombinationsCount | src/lib/research/element-combinations.ts:29-46 | the number of combinations of size k of n items is C(n, k) |
| ElementCombinations.CombinationsPositions | src/lib/research/element-combinations.ts:29-46 | every combination picks items at strictly increasing positions, exactly `size` of them, and the combinations come out in lexicographic order of those positions |
| ElementCombinations.LexSortedAppend | src/lib/research/element-combinations.ts:37-41 | the loop's later branches produce combinations that follow the earlier ones in lexicographic order |
| ElementCombinations.CombinationCount | src/lib/research/element-combinations.ts:49-58 | 0 when r exceeds n, 1 when r is 0 or n, C(n, r) in between, and 1 for a negative r (the loop does not run) |
| ElementCombinations.CountMatches | src/lib/research/element-combinations.ts:29-58 | the number of combinations generated equals what `combinationCount` returns for a non-negative size |
| ElementCombinations.MentionsKeyword | src/lib/research/element-combinations.ts:74-76 | a keyword contained in the lower-cased query is mentioned |
| ElementCombinations.MentionsIgnoresCase | src/lib/research/element-combinations.ts:74 | keyword tests do not depend on the query's letter case |
| ElementCombinations.ParseElementGroup | src/lib/research/element-combinations.ts:73-93 | no group is found exactly when none of the four keyword families is mentioned; a group found is one of the five defined; lanthanides only when a lanthanide keyword is mentioned |
| ElementCombinations.ParseElementGroupIgnoresCase | src/lib/research/element-combinations.ts:74 | the group found does not depend on letter case |
| ElementCombinations.TransitionMetalsFirst | src/lib/research/element-combinations.ts:76-78 | a query naming transition metals gets that group whatever else it names |
| ElementCombinations.RareEarthWithAlkali | src/lib/research/element-combinations.ts:82-87 | a query naming both rare earths and alkali gets the alkaline-earth group, because "earth" is tested inside the alkali branch |
| ElementCombinations.AlkalineEarthQuery | src/lib/research/element-combinations.ts:82-85 | "alkaline earth" gives the alkaline-earth group |
| ElementCombinations.ParseSystemSizeAsWritten | src/lib/research/element-combinations.ts:96-106 | the size is between 2 and 5; 2 exactly when a binary keyword is mentioned; 4 only when no ternary keyword is, so "quaternary", which contains "ternary", never gives 4 |
| ElementCombinations.QuaternaryReadAsTernary | src/lib/research/element-combinations.ts:100-101 | a query saying "quaternary" and no binary keyword is read as size 3 by the code as written |
| ElementCombinations.ParseSystemSize | src/lib/research/element-combinations.ts:96-106 | the corrected reading: the size is between 2 and 5; 2 exactly when a binary keyword is mentioned; 4 exactly when no binary keyword and a quaternary keyword are mentioned |
| ElementCombinations.QuaternaryIsFour | src/lib/research/element-combinations.ts:101 | the corrected reading gives 4 for "quaternary" |
| ElementCombinations.SystemSizeAgrees | src/lib/research/element-combinations.ts:96-106 | the two readings agree on every query with no quaternary keyword |
| ElementCombinations.SystemSizeDefault | src/lib/research/element-combinations.ts:104-105 | a query naming no size defaults to 3 |
| ElementCombinations.SymbolWordAt | src/lib/research/element-combinations.ts:138 | a symbol-shaped word has one or two letters and ends inside the message |
| ElementCombinations.MentionedFrom | src/lib/research/element-combinations.ts:138-140 | every word collected from a position on has the shape of an element symbol |
| ElementCombinations.MentionedElements | src/lib/research/element-combinations.ts:138-140 | the filter on symbol shape keeps every word collected |
| ElementCombinations.MentionedExamples | src/lib/research/element-combinations.ts:138 | "Fe-Co" mentions Fe and Co; "FeO" mentions nothing, since neither symbol ends at a word boundary |
| ElementCombinations.ParseApplicationLastWins | src/lib/research/element-combinations.ts:147-152 | an application found is mentioned and no later-tested application is; none is found exactly when none is mentioned |
| ElementCombinations.ParseResearchQuery | src/lib/research/element-combinations.ts:128-166 | combination screening exactly when a group is found, whose elements are then used; otherwise the mentioned symbols if any; the size is the as-written parse of the system size, between 2 and 5; the application is the last one mentioned in test order; the limit is 20; stability is asked exactly when a stability keyword is mentioned |
| ElementCombinations.Binom | src/lib/research/element-combinations.ts:49-58 | specification function: the binomial coefficient by Pascal's rule; `BinomAbove`, `BinomAll`, `BinomOne` and `CombinationCount` state its properties and that the loop computes it |
| ElementCombinations.CombsFrom | src/lib/research/element-combinations.ts:32-42 | specification function: what `combine(start, combo)` appends; `CombsFromCount` and `CombsFromPositions` state its properties and `Combine` that the recursion computes it |
| ElementCombinations.Combinations | src/lib/research/element-combinations.ts:29-46 | specification function: the combinations returned; `CombinationsCount` and `CombinationsPositions` state how many there are and how each is drawn, and `GenerateCombinations` that the method computes it |
| ElementCombinations.ParseApplication | src/lib/research/element-combinations.ts:147-152 | specification function: the application the five tests leave; `ParseApplicationLastWins` states that the last one mentioned in test order wins |
| RecipeGenerator.FindElement | src/lib/recipe/recipe-generator.ts:77 | `find` returns an entry of the list with the symbol asked for, and nothing exactly when no entry has it |
| RecipeGenerator.ChoiceForFacts | src/lib/recipe/recipe-generator.ts:69-98 | O, N, C and H get no precursor; an element with a precursor for the method gets the best one with the parsed count in moles; otherwise the solid-state then the solution fallback at 1 mol; nothing when the element is skipped or all three lookups are empty; a chosen precursor is catalogued for its element |
| RecipeGenerator.ChoiceKeepsElement | src/lib/recipe/recipe-generator.ts:78-92 | every choice is recorded under the element it was made for |
| RecipeGenerator.PrecursorsForFacts | src/lib/recipe/recipe-generator.ts:69-99 | the precursor list follows the unique elements in order, keeping exactly those that got a choice, each with its own choice |
| RecipeGenerator.PrecursorsForShape | src/lib/recipe/recipe-generator.ts:69-99 | the elements of the precursor list are a subsequence of the unique elements, without repetition, and an element is listed exactly when it got a choice |
| RecipeGenerator.PrecursorsSkipNonMetals | src/lib/recipe/recipe-generator.ts:71-73 | no precursor is listed for O, N, C or H; each listed one belongs to a unique element and is catalogued for it |
| RecipeGenerator.MissingForIff | src/lib/recipe/recipe-generator.ts:93-98 | an element is reported missing exactly when it is a unique element, not skipped, and got no choice |
| RecipeGenerator.FallbackNeedsCatalog | src/lib/recipe/recipe-generator.ts:83-92 | the fallback applies only to elements the catalog has |
| RecipeGenerator.StoichiometryOfParsed | src/lib/recipe/recipe-generator.ts:77-81 | a parsed element's stoichiometry is its summed count followed by " mol" |
| RecipeGenerator.ChooseOne | src/lib/recipe/recipe-generator.ts:75-98 | one pass of the loop body makes exactly the choice defined for the element |
| RecipeGenerator.ChoosePrecursors | src/lib/recipe/recipe-generator.ts:66-99 | the loop builds exactly the defined precursor list and missing-element list |
| RecipeGenerator.RoundMonotone | src/lib/recipe/recipe-generator.ts:106-107 | rounding never reverses an order |
| RecipeGenerator.WindowInside | src/lib/recipe/recipe-generator.ts:106-107 | for a whole-number span the 30 %–70 % window lies inside the method's range, low end first |
| RecipeGenerator.WindowOvershoots | src/lib/recipe/recipe-generator.ts:106-107 | for a fractional span the rounding can push the window's top past the range: 0 to 0.8 gives a top of 1 |
| RecipeGenerator.WindowTextOfWhole | src/lib/recipe/recipe-generator.ts:106-107 | a window with whole ends prints as "low-high" followed by the unit |
| RecipeGenerator.SolidStateTemperatureWindow | src/lib/recipe/recipe-generator.ts:106 | the solid-state range 800–1400 °C gives "980-1220°C" |
| RecipeGenerator.SolidStateTimeWindow | src/lib/recipe/recipe-generator.ts:107 | the solid-state range 6–48 h gives "19-35h" |
| RecipeGenerator.SolidStateRanges | src/lib/recipe/synthesis-methods.ts:33-45 | the solid-state entry's temperature range is 800 to 1400, its time range 6 to 48, and its first atmosphere air |
| RecipeGenerator.Atmosphere | src/lib/recipe/recipe-generator.ts:108-110 | a reducing atmosphere gives "Ar/H2 (5%)", otherwise the method's first atmosphere |
| RecipeGenerator.ProcedureOfFacts | src/lib/recipe/recipe-generator.ts:113-120 | the procedure has one entry per method step, numbered from 1, with the step's name, its description in the chosen language, its temperature and time, and details exactly when the step has them |
| RecipeGenerator.FirstNamed | src/lib/recipe/recipe-generator.ts:125 | `findIndex` gives the first position with the name, or −1 exactly when no entry has it |
| RecipeGenerator.SinteringOverrideFacts | src/lib/recipe/recipe-generator.ts:125-130 | only the first sintering entry changes, and only its details, which become the reducing note |
| RecipeGenerator.SinteringOverrideShape | src/lib/recipe/recipe-generator.ts:125-130 | the length is kept, entries not named sintering are untouched, and nothing but details ever changes |
| RecipeGenerator.ProcedureForFacts | src/lib/recipe/recipe-generator.ts:113-131 | the procedure is changed only for a reducing solid-state synthesis, and then only the details of a sintering entry |
| RecipeGenerator.FindStepIndex | src/lib/recipe/recipe-generator.ts:125 | the search loop returns the first position with the name, or −1 |
| RecipeGenerator.FirstNamedIs | src/lib/recipe/recipe-generator.ts:125 | a position with the name and none before it is what `findIndex` returns |
| RecipeGenerator.HydrogenNote | src/lib/recipe/recipe-generator.ts:152-157 | the hydrogen note is not empty, so the filter keeps it |
| RecipeGenerator.GeneralNote | src/lib/recipe/recipe-generator.ts:149-159 | the three general notes are not empty |
| RecipeGenerator.HydrogenNoteIsNotGeneral | src/lib/recipe/recipe-generator.ts:149-159 | the hydrogen note differs from every general note |
| RecipeGenerator.SafetyNotesFacts | src/lib/recipe/recipe-generator.ts:149-159 | four notes with the hydrogen note third when reducing, otherwise the three general ones; the hydrogen note is present exactly when reducing |
| RecipeGenerator.NotesFiltered | src/lib/recipe/recipe-generator.ts:149-159 | `filter(Boolean)` drops only the empty placeholder |
| RecipeGenerator.CollectFacts | src/lib/recipe/recipe-generator.ts:162-176 | collecting references keeps the ones already held, stops at three, never repeats a DOI, adds only references of records searched, and when it ends below three every record searched has its DOI listed |
| RecipeGenerator.CollectFull | src/lib/recipe/recipe-generator.ts:173-175 | once three references are held nothing more is added |
| RecipeGenerator.SearchResultsFrom | src/lib/recipe/recipe-generator.ts:163-164 | every record searched comes from the formula search for one of the elements |
| RecipeGenerator.ReferencesFacts | src/lib/recipe/recipe-generator.ts:162-176 | at most three references with distinct DOIs, each from the search for one of the first two unique elements |
| RecipeGenerator.ReferencesComplete | src/lib/recipe/recipe-generator.ts:162-176 | when fewer than three references are found, every record the searches returned has its DOI listed |
| RecipeGenerator.CollectSimilar | src/lib/recipe/recipe-generator.ts:165-174 | the inner loop over one search's records continues the collection exactly, stopping at three |
| RecipeGenerator.CollectReferences | src/lib/recipe/recipe-generator.ts:162-176 | the two nested loops give exactly the defined references |
| RecipeGenerator.GenerateNoneIff | src/lib/recipe/recipe-generator.ts:54-63 | no recipe exactly when the formula has no element or the method id is not one of the four |
| RecipeGenerator.GenerateIsBuild | src/lib/recipe/recipe-generator.ts:54-63 | a recipe that is produced is built from the parsed formula and the well-formed method with that id |
| RecipeGenerator.BuildFacts | src/lib/recipe/recipe-generator.ts:65-196 | the recipe's target, method, precursors, temperature and time windows, atmosphere, procedure length, hydrogen note and references are as the steps above define them |
| RecipeGenerator.BuildProcedure | src/lib/recipe/recipe-generator.ts:113-131 | the map and the in-place sintering update give exactly the defined procedure |
| RecipeGenerator.BuildRecipe | src/lib/recipe/recipe-generator.ts:65-196 | building gives exactly the defined recipe |
| RecipeGenerator.GenerateRecipe | src/lib/recipe/recipe-generator.ts:48-197 | the method returns exactly the defined result |
| RecipeGenerator.ReducingRecipe | src/lib/recipe/recipe-generator.ts:122-131 | a reducing solid-state recipe carries the reducing note on its sintering step and four safety notes (see also src/lib/recipe/recipe-generator.ts:149-159) |
| RecipeGenerator.SolidStateSinteringEntry | src/lib/recipe/recipe-generator.ts:125 | in the solid-state procedure the sintering entry is the sixth |
| RecipeGenerator.FirstNamedInProcedure | src/lib/recipe/recipe-generator.ts:113-125 | a name carried by exactly one step is found at that step's position in the procedure |
| RecipeGenerator.JoinContainsPart | src/lib/recipe/recipe-generator.ts:305 | every line pushed appears in the joined text |
| RecipeGenerator.TriggerInQuestion | src/lib/recipe/recipe-generator.ts:284-295 | the question line contains the phrase the recipe route looks for |
| RecipeGenerator.MenuHasTrigger | src/lib/recipe/recipe-generator.ts:278-306 | the method menu, in either language, contains that phrase |
| RecipeGenerator.ChoiceFor | src/lib/recipe/recipe-generator.ts:69-99 | specification function: the entry one pass of the precursor loop pushes; `ChoiceForFacts`, `SkippedChoice` and `ChooseOne` state its properties and that the loop body computes it |
| RecipeGenerator.MiddleWindow | src/lib/recipe/recipe-generator.ts:106-107 | specification function: the 30 %-70 % part of a range; `WindowInside` and `WindowOvershoots` state where it lies |
| RecipeGenerator.Build | src/lib/recipe/recipe-generator.ts:48-197 | specification function: the recipe for a parsed target and a catalog entry; `BuildFacts`, `ReducingRecipe` and `BuildRecipe` state its properties and that the method computes it |
| RecipeGenerator.Generate | src/lib/recipe/recipe-generator.ts:48-197 | specification function: what `generateRecipe` returns; `GenerateNoneIff`, `GenerateIsBuild` and `GenerateRecipe` state its properties and that the method computes it |
| RecipeGenerator.FormatMethodSelection | src/lib/recipe/recipe-generator.ts:278-306 | specification function: the method menu; `MenuHasTrigger` states that it contains the text the route recognises as a menu |
| RecipeGenerator.Stoichiometry | src/lib/recipe/recipe-generator.ts:77-81 | specification function: the parsed count followed by " mol", or "1 mol"; `StoichiometryOfParsed` states its properties |
| RecipeGenerator.PrecursorsFor | src/lib/recipe/recipe-generator.ts:69-99 | specification function: the entries the precursor loop pushes; `PrecursorsForFacts`, `PrecursorsForShape` and `PrecursorsSkipNonMetals` state its properties and `ChoosePrecursors` that the loop computes it |
| RecipeGenerator.MissingFor | src/lib/recipe/recipe-generator.ts:69-99 | specification function: the elements the loop reports missing; `MissingForIff` states which, and `ChoosePrecursors` that the loop computes it |
| RecipeGenerator.WindowText | src/lib/recipe/recipe-generator.ts:106-107 | specification function: the window printed with its unit; `WindowTextOfWhole` and `SolidStateTemperatureWindow` state its properties |
| RecipeGenerator.ConditionsFor | src/lib/recipe/recipe-generator.ts:186-191 | specification function: the conditions record; `BuildFacts` states each of its fields |
| RecipeGenerator.ProcedureOf | src/lib/recipe/recipe-generator.ts:113-120 | specification function: the mapped steps; `ProcedureOfFacts` states one numbered step per catalog step in the requested language |
| RecipeGenerator.SinteringOverride | src/lib/recipe/recipe-generator.ts:125-130 | specification function: the procedure with the first sintering step's details replaced; `SinteringOverrideFacts` and `SinteringOverrideShape` state that nothing else changes |
| RecipeGenerator.ProcedureFor | src/lib/recipe/recipe-generator.ts:113-131 | specification function: the procedure with the override for a reducing solid-state run; `ProcedureForFacts` states when the override applies |
| RecipeGenerator.SafetyNotes | src/lib/recipe/recipe-generator.ts:149-159 | specification function: the notes with blanks filtered out; `SafetyNotesFacts` states that the hydrogen note appears exactly when a reducing atmosphere is needed |
| RecipeGenerator.Collect | src/lib/recipe/recipe-generator.ts:165-174 | specification function: the inner references loop; `CollectFacts` and `CollectFull` state its properties and `CollectSimilar` that the loop computes it |
| RecipeGenerator.ReferencesFor | src/lib/recipe/recipe-generator.ts:162-176 | specification function: the references from the first two unique elements' searches; `ReferencesFacts` and `ReferencesComplete` state its properties and `CollectReferences` that the loops compute it |
| RecipeRoute.ShortReplyHasNoKeyword | src/app/api/recipe/route.ts:24-31 | a one-character reply contains none of the selection keywords, so only the digit tests can pick a method for it |
| RecipeRoute.SelectionKeywordsSpelled | src/app/api/recipe/route.ts:24-31 | the keyword list is exactly the substrings the selection tests |
| RecipeRoute.SelectionNoneIff | src/app/api/recipe/route.ts:20-34 | no method is selected exactly when the lower-cased, trimmed input is not a digit 1 to 4 and holds no selection keyword |
| RecipeRoute.DigitSelects | src/app/api/recipe/route.ts:24-27 | the digit k selects the k-th method |
| RecipeRoute.SolutionHoldsSol | src/app/api/recipe/route.ts:25-27 | any text containing "solution" contains "sol" |
| RecipeRoute.SolOrGelIsSolGel | src/app/api/recipe/route.ts:24-25 | a reply with "sol" or "gel" but no "solid" selects sol-gel |
| RecipeRoute.SolutionWordIsNotSolution | src/app/api/recipe/route.ts:24-27 | a reply containing "solution" selects solid-state or sol-gel, never solution, because the "sol" test comes first |
| RecipeRoute.SolutionOnlyByFourOrKorean | src/app/api/recipe/route.ts:27 | solution is selected only by "4" or by the Korean word for solution |
| RecipeRoute.SelectionIsRouteId | src/app/api/recipe/route.ts:20-34 | a selection is always one of the four method ids |
| RecipeRoute.StateAfterSnoc | src/app/api/recipe/route.ts:48-80 | the state after one more message is one loop step from the state before it |
| RecipeRoute.GetConversationState | src/app/api/recipe/route.ts:39-83 | the loop computes exactly the state folded over the messages |
| RecipeRoute.StepTarget | src/app/api/recipe/route.ts:51-56 | a step replaces the target only when a user message yields one |
| RecipeRoute.TargetIsLatest | src/app/api/recipe/route.ts:48-56 | the target is the latest one extracted from a user message |
| RecipeRoute.LatestOfferNone | src/app/api/recipe/route.ts:48-80 | the latest offer is absent exactly when no message offers one |
| RecipeRoute.LatestOfferFrom | src/app/api/recipe/route.ts:48-80 | the latest offer comes from a message after which no message offers one |
| RecipeRoute.TargetIsLatestExtraction | src/app/api/recipe/route.ts:48-56 | no target exactly when no user message yields one; otherwise the target is the one from the last message that yields one |
| RecipeRoute.MethodMentionedIsId | src/lib/recipe/element-parser.ts:133-148 | a detected method is one of the four ids |
| RecipeRoute.StepSound | src/app/api/recipe/route.ts:48-80 | a step keeps the target parseable and the selected method a valid id |
| RecipeRoute.StateAfterIsSound | src/app/api/recipe/route.ts:39-83 | after any conversation the target parses to an element and the selected method is one of the four ids |
| RecipeRoute.MenuSetsAwaiting | src/app/api/recipe/route.ts:74-78 | an assistant message holding the method menu sets the awaiting flag and changes nothing else (see also src/lib/recipe/recipe-generator.ts:278-306) |
| RecipeRoute.AwaitingRaisedOnlyByAsking | src/app/api/recipe/route.ts:74-78 | the awaiting flag is raised exactly by an assistant message that asks for a method |
| RecipeRoute.AwaitingClearedOnlyBySelection | src/app/api/recipe/route.ts:65-71 | the awaiting flag is cleared exactly by a user reply that selects a method, and that selection becomes the method |
| RecipeRoute.MenuThenChoice | src/app/api/recipe/route.ts:48-80 | after the menu and a user reply that selects a method, that method is selected and nothing is awaited |
| RecipeRoute.DecideRequest | src/app/api/recipe/route.ts:90-124 | the request is classified exactly as the branches define: invalid, need a target, need a method, or ready |
| RecipeRoute.AnswerRequest | src/app/api/recipe/route.ts:100-153 | the reply to a decision is exactly the defined one |
| RecipeRoute.AnswerRecipe | src/app/api/recipe/route.ts:127-153 | no recipe gives the cannot-generate reply, a recipe without precursors the missing-precursor reply, otherwise the recipe with the follow-up |
| RecipeRoute.Post | src/app/api/recipe/route.ts:85-154 | the handler's reply is exactly the defined response |
| RecipeRoute.SecondExtractionFindsNothing | src/app/api/recipe/route.ts:101-103 | when the state has no target, extracting again from the last message finds none either |
| RecipeRoute.NeedTargetIff | src/app/api/recipe/route.ts:101-111 | a valid request asks for a target exactly when no message yields one |
| RecipeRoute.NeedMethodIff | src/app/api/recipe/route.ts:114-124 | the menu is sent exactly when the request is valid, has a target, and neither the last message nor the state selects a method; the menu names that target |
| RecipeRoute.ReadyIsSound | src/app/api/recipe/route.ts:126-127 | a request ready for generation has a target that parses to an element and a valid method id |
| RecipeRoute.OutcomeOfSome | src/app/api/recipe/route.ts:129-134 | a generated recipe never gets the cannot-generate reply |
| RecipeRoute.OutcomeRecipe | src/app/api/recipe/route.ts:136-153 | a recipe reply carries the generated recipe, which has precursors, and the follow-up for the language |
| RecipeRoute.AnswerNeverCannotGenerate | src/app/api/recipe/route.ts:127-134 | a sound decision never reaches the cannot-generate branch |
| RecipeRoute.NeverCannotGenerate | src/app/api/recipe/route.ts:129-134 | the handler never replies that it cannot generate a recipe: that branch is dead code |
| RecipeRoute.RecipeAnswerFacts | src/app/api/recipe/route.ts:126-153 | a recipe reply comes from a ready decision, is the recipe generated for its target and method, has precursors, and ends with the follow-up |
| RecipeRoute.ParseMethodSelection | src/app/api/recipe/route.ts:20-34 | specification function: the first selection rule that matches; `SelectionNoneIff`, `DigitSelects`, `SolOrGelIsSolGel`, `SolutionWordIsNotSolution` and `SelectionIsRouteId` state its properties |
| RecipeRoute.Step | src/app/api/recipe/route.ts:49-79 | specification function: one turn of the state loop; `StepTarget` and `StepSound` state its properties |
| RecipeRoute.StateAfter | src/app/api/recipe/route.ts:39-83 | specification function: the state after replaying the conversation; `TargetIsLatest`, `MenuSetsAwaiting`, `AwaitingRaisedOnlyByAsking`, `AwaitingClearedOnlyBySelection` and `GetConversationState` state its properties and that the loop computes it |
| RecipeRoute.Decide | src/app/api/recipe/route.ts:85-162 | specification function: the handler's checks in order; `DecideRequest`, `NeedTargetIff`, `NeedMethodIff` and `ReadyIsSound` state each outcome's condition |
| RecipeRoute.Respond | src/app/api/recipe/route.ts:85-162 | specification function: the reply of `POST`; `Post` and `NeverCannotGenerate` state its properties |
| Research.ScoreIncrements | src/app/api/lab/research/route.ts:101 | one more material, stable phase or recipe raises the score by exactly 2, 10 or 5 |
| Research.ScoreZeroIff | src/app/api/lab/research/route.ts:101 | the score is never negative, and is 0 exactly when all three counts are 0 |
| Research.StableCountBound | src/app/api/lab/research/route.ts:56-63 | the stable count is the number of hits whose hull energy is below 0.05, and so at most the number of hits |
| Research.Formulas | src/app/api/lab/research/route.ts:43-44 | one formula per hit, the i-th being the i-th hit's formula, so the materials found are the hits returned |
| Research.KnownPhasesFacts | src/app/api/lab/research/route.ts:47-54 | at most three known phases, without repetition, none empty, each the formula of one of the first three hits |
| Research.CountReasons | src/app/api/lab/research/route.ts:65-83 | a count-based reason is given exactly when the score is positive |
| Research.DomainReasonsIff | src/app/api/lab/research/route.ts:89-95 | the noble, magnetic and refractory reasons are given exactly when the combination holds an element of the respective list |
| Research.OsmiumGivesNoNobleReason | src/app/api/lab/research/route.ts:89 | osmium is a noble metal of the group table, yet gives no noble reason, because the screen's list omits it (see also src/lib/research/element-combinations.ts:16) |
| Research.FallbackNeverAdded | src/app/api/lab/research/route.ts:104-106 | the reasons are the count reasons followed by the domain reasons; a positive score always has a reason, so the fallback reason is never added |
| Research.ScreenFacts | src/app/api/lab/research/route.ts:31-118 | a screened combination reports its elements sorted (a permutation of the combination), its formula as the combination joined, at most as many stable phases as materials, at most five recipes, the weighted score, a reason whenever it scores, a zero score exactly for zero counts, and at most three distinct known phases |
| Research.SortedMembers | src/lib/materials-api.ts:103 | sorting the combination does not change which lists it meets |
| Research.CollectKnownPhases | src/app/api/lab/research/route.ts:47-54 | the loop collects exactly the defined known phases |
| Research.CountStable | src/app/api/lab/research/route.ts:58-63 | the loop counts exactly the stable hits |
| Research.AddCountReasons | src/app/api/lab/research/route.ts:65-83 | the pushes give exactly the count reasons |
| Research.AddDomainReasons | src/app/api/lab/research/route.ts:89-95 | the pushes append exactly the domain reasons |
| Research.CollectReasons | src/app/api/lab/research/route.ts:65-106 | all pushes together give exactly the reasons defined |
| Research.ScreenCombination | src/app/api/lab/research/route.ts:31-118 | the method returns exactly the defined screening result |
| Research.PhasesStep | src/app/api/lab/research/route.ts:48-53 | one pass adds a phase name exactly when it is not empty and not yet held |
| Research.Universe | src/app/api/lab/research/route.ts:134-154 | the universe is the group named if any, else the symbols mentioned if any, else the first twelve common transition metals; it is never empty |
| Research.Shuffle | src/app/api/lab/research/route.ts:197 | the shuffle is a permutation of the combinations: same length, same multiset of entries |
| Research.Selection | src/app/api/lab/research/route.ts:181 | at most 30 combinations are all screened in enumeration order; otherwise exactly 30 are, drawn without repetition beyond the input's own (their multiset is contained in the input's) (see also src/app/api/lab/research/route.ts:194-199) |
| Research.KeptScore | src/app/api/lab/research/route.ts:202-211 | every candidate kept scores above 0, and there are at most as many as combinations screened |
| Research.KeepIfScoring | src/app/api/lab/research/route.ts:205-207 | one pass keeps the kept list scoring and grows it by at most one |
| Research.KeptSnoc | src/app/api/lab/research/route.ts:202-211 | screening one more combination appends its result exactly when it scores |
| Research.TopCandidatesFacts | src/app/api/lab/research/route.ts:214-217 | exactly min(number kept, 15) results, drawn from the kept candidates without repetition beyond theirs (multiset inclusion), each scoring above 0, in non-increasing score order, and every kept candidate left out scores no higher than any returned |
| Research.SelectCombinations | src/app/api/lab/research/route.ts:130-199 | the method screens exactly the selection of the universe's combinations of the size the code as written parses |
| Research.ScreenAll | src/app/api/lab/research/route.ts:201-211 | the loop keeps exactly the scoring results, in screening order |
| Research.ConductResearch | src/app/api/lab/research/route.ts:121-294 | the candidates are the top results of the kept screenings of the selection at the size parsed as written: exactly min(number kept, 15), a sub-multiset of the kept ones, all scoring above 0, in non-increasing score order, and no kept candidate left out scores higher than one returned |
| Research.Score | src/app/api/lab/research/route.ts:101 | specification function: 2 per material, 10 per stable phase, 5 per recipe; `ScoreIncrements` and `ScoreZeroIff` state its properties |
| Research.Screen | src/app/api/lab/research/route.ts:31-118 | specification function: the screening of one combination; `ScreenFacts` states its properties and `ScreenCombination` that the method computes it |
| Research.Pick | src/app/api/lab/research/route.ts:197 | the list picked by a list of indices has one entry per index, the entry at each index |
| Research.PickPermutation | src/app/api/lab/research/route.ts:197 | picking by a permutation of the indices gives the same multiset of entries |
| Research.PermutationStep | src/app/api/lab/research/route.ts:197 | taking the last index out of a permutation leaves a permutation of one fewer, and the picked multiset loses exactly the last element |
| Research.Kept | src/app/api/lab/research/route.ts:202-211 | specification function: the scoring screenings in screening order; `KeptScore` and `KeptSnoc` state its properties and `ScreenAll` that the loop computes it |
| Research.TopCandidates | src/app/api/lab/research/route.ts:214-217 | specification function: the first fifteen of the stable sort by descending score; `TopCandidatesFacts` states its properties |
| Research.SortedPrefixBest | src/app/api/lab/research/route.ts:214-217 | a prefix of a list sorted by descending score is a sub-multiset of it, stays in order, and nothing outside it scores higher than anything in it |
| Research.StableCount | src/app/api/lab/research/route.ts:56-63 | specification function: the number of stable hits; `StableCountBound` states it and `CountStable` that the loop computes it |
| Research.KnownPhases | src/app/api/lab/research/route.ts:47-54 | specification function: the distinct formulas of the first three hits; `KnownPhasesFacts` states its properties and `CollectKnownPhases` that the loop computes it |
| Research.DomainReasons | src/app/api/lab/research/route.ts:89-95 | specification function: the element-based reasons; `DomainReasonsIff` states when each is given and `AddDomainReasons` that the pushes compute it |
| Research.Reasons | src/app/api/lab/research/route.ts:65-106 | specification function: the whole reasons list; `FallbackNeverAdded` states its composition and `CollectReasons` that the pushes compute it |
| ParseSynthesis.LeastIsMinimum | scripts/parse-synthesis.js:15-45 | the running minimum is null exactly when no candidate value exists, and otherwise is one of them and no larger than any |
| ParseSynthesis.GreatestIsMaximum | scripts/parse-synthesis.js:15-45 | the running maximum is null exactly when no candidate value exists, and otherwise is one of them and no smaller than any |
| ParseSynthesis.LeastSnoc | scripts/parse-synthesis.js:24-36 | one more value updates the minimum exactly as the comparison against null or the current minimum does |
| ParseSynthesis.GreatestSnoc | scripts/parse-synthesis.js:29-37 | one more value updates the maximum exactly as the comparison against null or the current maximum does |
| ParseSynthesis.ListCandidatesSnoc | scripts/parse-synthesis.js:22-40 | one more measurement adds its candidates after those before it |
| ParseSynthesis.CandidatesSnoc | scripts/parse-synthesis.js:19-42 | one more operation adds the candidates of its readings after those before it |
| ParseSynthesis.AddValues | scripts/parse-synthesis.js:34-39 | the loop over a values array extends the running minimum and maximum by those values |
| ParseSynthesis.AddMeasurement | scripts/parse-synthesis.js:22-40 | one measurement extends the minimum by its `min_value` and values, and the maximum by its `max_value` and values |
| ParseSynthesis.ExtractRange | scripts/parse-synthesis.js:15-45 | `extractTemperature` and `extractTime` return the least lower-side candidate and the greatest upper-side candidate of the chosen quantity (see also scripts/parse-synthesis.js:47-77) |
| ParseSynthesis.InListCandidates | scripts/parse-synthesis.js:22-40 | a candidate of any one measurement is a candidate of the list |
| ParseSynthesis.InCandidates | scripts/parse-synthesis.js:19-42 | a candidate of any reading of any operation is a candidate of the whole |
| ParseSynthesis.ValuesWithinRange | scripts/parse-synthesis.js:34-39 | every entry of a `values` array lies between the extracted minimum and maximum |
| ParseSynthesis.RangeMayBeReversed | scripts/parse-synthesis.js:23-32 | a single reading with `min_value` 900 and `max_value` 800 gives a minimum of 900 and a maximum of 800, since the two sides are tracked separately |
| ParseSynthesis.AtmosphereFrom | scripts/parse-synthesis.js:79-87 | null exactly when no operation from here on lists an atmosphere; otherwise the first atmosphere of the first operation that lists one |
| ParseSynthesis.ExtractAtmosphere | scripts/parse-synthesis.js:79-87 | the loop with early return gives exactly that atmosphere |
| ParseSynthesis.OperationTypes | scripts/parse-synthesis.js:89-93 | the types kept are a subsequence of the operations' types, none empty or `StartingSynthesis`, and every other type appears |
| ParseSynthesis.OperationTypesAppend | scripts/parse-synthesis.js:89-93 | the types of two operation lists together are the types of each, in order |
| ParseSynthesis.OperationTypesOne | scripts/parse-synthesis.js:92 | one operation contributes its type exactly when the filter keeps it |
| ParseSynthesis.MaterialFormula | scripts/parse-synthesis.js:108-111 | the formula falls back from `material_formula` to `material_string` and is empty only when both are |
| ParseSynthesis.Precursors | scripts/parse-synthesis.js:110-113 | every precursor kept has a formula, every material with a formula is kept, and the order is the input's |
| ParseSynthesis.RecipeIdParts | scripts/parse-synthesis.js:106 | the id carries 's' or 'g' for the type at position 7 and the one-based index after position 9 |
| ParseSynthesis.RecipeIdInjective | scripts/parse-synthesis.js:106 | equal ids come from the same index and type |
| ParseSynthesis.ParseReaction | scripts/parse-synthesis.js:95-122 | the record carries the positional id and the type; its target formula is empty exactly when the reaction has no target or neither target field is set; every precursor has a formula |
| ParseSynthesis.ParseAll | scripts/parse-synthesis.js:143-144 | one record per reaction |
| ParseSynthesis.Dataset | scripts/parse-synthesis.js:143-149 | every record kept has a target formula, and the records kept are a subsequence of the solid-state records followed by the sol-gel ones |
| ParseSynthesis.ParseAllId | scripts/parse-synthesis.js:143-144 | the record at position i carries the id for position i |
| ParseSynthesis.ParsedIdsDistinct | scripts/parse-synthesis.js:106 | no two parsed records share an id (see also scripts/parse-synthesis.js:143-146) |
| ParseSynthesis.DatasetIdsDistinct | scripts/parse-synthesis.js:146-149 | no two records of the dataset share an id |
| ParseSynthesis.WebRecipes | scripts/parse-synthesis.js:169 | the web copy is the first 5000 records, or all of them when there are fewer |
| ParseSynthesis.WebSearchByFormula | scripts/parse-synthesis.js:182-188 | the web formula search returns records in dataset order, at most `limit`, each overlapping the lower-cased, space-stripped query by substring either way; `WebSearchByFormulaFirstLimit` states that it is exactly the first `limit` matches |
| ParseSynthesis.WebQueryIsNormalized | scripts/parse-synthesis.js:183 | the web search normalises its query as the server does (see also mcp-server/src/api/synthesis-data.ts:14-16) |
| ParseSynthesis.WebSearchByFormulaAgrees | scripts/parse-synthesis.js:182-188 | when no target formula holds a space, the web and server formula searches agree (see also mcp-server/src/api/synthesis-data.ts:29-44) |
| ParseSynthesis.SpacedTargetNormalized | mcp-server/src/api/synthesis-data.ts:14-16 | the server normalises "Co O" to "coo" |
| ParseSynthesis.QueryNormalized | scripts/parse-synthesis.js:183 | both normalise the query "CoO" to "coo" |
| ParseSynthesis.SpacedTargetDoesNotOverlap | scripts/parse-synthesis.js:185-186 | "co o" and "coo" are not substrings of each other |
| ParseSynthesis.WebSearchKeepsTargetSpaces | scripts/parse-synthesis.js:185-186 | a record targeting "Co O" matches "CoO" on the server but not on the web, which does not strip spaces from the record (see also mcp-server/src/api/synthesis-data.ts:36-43) |
| ParseSynthesis.WebSearchByPrecursor | scripts/parse-synthesis.js:190-198 | the web precursor search returns records in dataset order, at most `limit`, each with a precursor overlapping the normalised query; `WebSearchByPrecursorFirstLimit` states that it is exactly the first `limit` matches |
| ParseSynthesis.WebSearchByTemperature | scripts/parse-synthesis.js:200-208 | the web temperature search returns records in dataset order, at most `limit`, each whose interval overlaps the query's; `WebSearchByTemperatureFirstLimit` states that it is exactly the first `limit` matches |
| ParseSynthesis.WebSearchByTemperatureAgrees | scripts/parse-synthesis.js:200-208 | the web temperature search is the server's without a type filter (see also mcp-server/src/api/synthesis-data.ts:68-87) |
| ParseSynthesis.WebSearchByFormulaFirstLimit | scripts/parse-synthesis.js:182-188 | the result is the front of the complete result, exactly `limit` long when there are that many matches (else every match), and a matching record is left out only when `limit` matches come before it |
| ParseSynthesis.WebSearchByPrecursorFirstLimit | scripts/parse-synthesis.js:190-198 | the result is the front of the complete result, exactly `limit` long when there are that many matches (else every match), and a matching record is left out only when `limit` matches come before it |
| ParseSynthesis.WebSearchByTemperatureFirstLimit | scripts/parse-synthesis.js:200-208 | the result is the front of the complete result, exactly `limit` long when there are that many matches (else every match), and a matching record is left out only when `limit` matches come before it |
| ParseSynthesis.Candidates | scripts/parse-synthesis.js:19-42 | specification function: every candidate value in the order the loops visit them; `CandidatesSnoc`, `InCandidates` and `ExtractRange` state its properties and that the loops use it |
| ParseSynthesis.Least | scripts/parse-synthesis.js:15-45 | specification function: the running minimum; `LeastIsMinimum` states that it is null exactly when there is no value and otherwise the least one, and `LeastSnoc` how one more value updates it |
| ParseSynthesis.Greatest | scripts/parse-synthesis.js:15-45 | specification function: the running maximum; `GreatestIsMaximum` states that it is null exactly when there is no value and otherwise the greatest one, and `GreatestSnoc` how one more value updates it |
| ParseSynthesis.RecipeId | scripts/parse-synthesis.js:106 | specification function: the positional id; `RecipeIdParts` and `RecipeIdInjective` state that it encodes the type and the one-based index and that distinct positions give distinct ids |
| SynthesisRoute.DigitRun | src/app/api/synthesis/route.ts:47-48 | the `\d+` run matched at a position ends inside the query |
| SynthesisRoute.SpaceRun | src/app/api/synthesis/route.ts:47-48 | the `\s*` run matched at a position ends inside the query |
| SynthesisRoute.DigitRunDigits | src/app/api/synthesis/route.ts:47-48 | the run holds only digits and is maximal: a non-digit or the end follows it |
| SynthesisRoute.DigitRunIsDigits | src/app/api/synthesis/route.ts:47-48 | a non-empty run is a string of digits |
| SynthesisRoute.CelsiusRangeAt | src/app/api/synthesis/route.ts:47 | both numbers captured by the Celsius pattern are digit strings |
| SynthesisRoute.KoreanRangeAt | src/app/api/synthesis/route.ts:48 | both numbers captured by the Korean pattern are digit strings |
| SynthesisRoute.KoreanMarkIndex | src/app/api/synthesis/route.ts:48 | the optional spaces and '도' before the separator stay inside the query |
| SynthesisRoute.FirstRange | src/app/api/synthesis/route.ts:47-48 | the leftmost match's captures are digit strings |
| SynthesisRoute.FirstRangeNone | src/app/api/synthesis/route.ts:47-48 | a pattern fails exactly when it matches at no position |
| SynthesisRoute.FirstRangeLeftmost | src/app/api/synthesis/route.ts:47-48 | the match returned is the one at the leftmost position where the pattern matches |
| SynthesisRoute.TemperatureRange | src/app/api/synthesis/route.ts:47-48 | the Celsius pattern is tried first, then the Korean one; the captures are digit strings |
| SynthesisRoute.UnitLength | src/app/api/synthesis/route.ts:59-64 | an element unit `[A-Z][a-z]?\d*` starts exactly at an upper-case letter |
| SynthesisRoute.UnitsEnd | src/app/api/synthesis/route.ts:59-64 | a run of units extends past the first unit and ends inside the query |
| SynthesisRoute.GroupEnd | src/app/api/synthesis/route.ts:59 | the optional bracketed group ends inside the query |
| SynthesisRoute.FirstTokenNone | src/app/api/synthesis/route.ts:59-64 | a token pattern fails exactly when it matches at no position |
| SynthesisRoute.FirstTokenLeftmost | src/app/api/synthesis/route.ts:59-66 | the first global match is the one at the leftmost position where the pattern matches |
| SynthesisRoute.PrecursorTokenAtUpper | src/app/api/synthesis/route.ts:59 | the precursor pattern matches exactly at upper-case letters |
| SynthesisRoute.PrecursorTokenFound | src/app/api/synthesis/route.ts:59-60 | the precursor pattern finds nothing exactly when the query has no upper-case letter, and otherwise matches at the first one |
| SynthesisRoute.FormulaTokenShape | src/app/api/synthesis/route.ts:64 | a formula token holds at least two capital-led units and occurs in the query where it was matched |
| SynthesisRoute.TemperatureFirst | src/app/api/synthesis/route.ts:47-53 | the query is a temperature query exactly when a range matches or it mentions 'temperature' or '온도', whatever else it holds |
| SynthesisRoute.TemperatureBounds | src/app/api/synthesis/route.ts:49-52 | a temperature query keeps the whole query; without a range the bounds are 300 and 1200; with one they are the values of the two numbers captured, which occur in the query |
| SynthesisRoute.RangeCapturesOccur | src/app/api/synthesis/route.ts:47-48 | both captured numbers occur in the query |
| SynthesisRoute.CelsiusCapturesOccur | src/app/api/synthesis/route.ts:47 | the Celsius captures occur in the query |
| SynthesisRoute.KoreanCapturesOccur | src/app/api/synthesis/route.ts:48 | the Korean captures occur in the query |
| SynthesisRoute.PrecursorIff | src/app/api/synthesis/route.ts:55-61 | a precursor query is exactly a query that is not a temperature query and names a precursor keyword; its value is the token at the first upper-case letter, or the whole query when there is none |
| SynthesisRoute.FormulaIff | src/app/api/synthesis/route.ts:63-67 | a formula query is exactly one that is neither of the above and holds a token of two or more units; the value is such a token and occurs in the query |
| SynthesisRoute.GeneralIff | src/app/api/synthesis/route.ts:69 | a general query is exactly one that is none of the above, and its value is the query |
| SynthesisRoute.ResultsBounded | src/app/api/synthesis/route.ts:90-121 | at most ten results, in dataset order, both for the search as written and for the corrected one |
| SynthesisRoute.TemperatureResultsOverlap | src/app/api/synthesis/route.ts:105-106 | every result of a temperature query overlaps the parsed range |
| SynthesisRoute.GeneralFallback | src/app/api/synthesis/route.ts:112-117 | a general query uses the formula search when it finds something and otherwise the precursor search; every result matches the query one way or the other |
| SynthesisRoute.AsWrittenAgreesAwayFromZero | src/app/api/synthesis/route.ts:106 | the code as written and the corrected search agree unless a parsed bound is 0 |
| SynthesisRoute.ZeroLowerBoundReplaced | src/app/api/synthesis/route.ts:106 | for "0-500°C" a recipe at 100–200 °C is found by the corrected search but missed as written, since `|| 300` replaces the bound 0 |
| SynthesisRoute.NumberTextStart | src/app/api/synthesis/route.ts:22-26 | a printed number is never empty and starts with a digit or a minus sign, so never with '?' |
| SynthesisRoute.BoundTextMissing | src/app/api/synthesis/route.ts:22-26 | a bound prints as '?' exactly when it is null |
| SynthesisRoute.RangeTextShape | src/app/api/synthesis/route.ts:21-27 | a range prints 'N/A' exactly when both bounds are null; otherwise "low-high" with the unit, each missing bound as '?' |
| SynthesisRoute.RangeTextOneLine | src/app/api/synthesis/route.ts:21-27 | a printed range holds no line break |
| SynthesisRoute.BoundTextOneLine | src/app/api/synthesis/route.ts:22-26 | a printed bound holds no line break |
| SynthesisRoute.FormatRecipeLines | src/app/api/synthesis/route.ts:29-35 | a record whose fields hold no line break formats as exactly seven lines: title, DOI, precursors, temperature, time, atmosphere, operations |
| SynthesisRoute.RecipeLinesOneLine | src/app/api/synthesis/route.ts:29-35 | none of the seven lines holds a line break |
| SynthesisRoute.TitleLineOneLine | src/app/api/synthesis/route.ts:29 | the title line holds no line break |
| SynthesisRoute.DoiLineOneLine | src/app/api/synthesis/route.ts:30 | the DOI line holds no line break |
| SynthesisRoute.RespondStatus | src/app/api/synthesis/route.ts:77-80 | status 400 with "Invalid request" exactly when there is no last message or it is not a user's; 200 otherwise |
| SynthesisRoute.RespondMessage | src/app/api/synthesis/route.ts:82-144 | a valid request gets the no-results message exactly when the search as written is empty; otherwise the message opens with the bold description |
| SynthesisRoute.ReplyShape | src/app/api/synthesis/route.ts:124-144 | the reply is the no-results message exactly when nothing was found, and otherwise opens with the bold description |
| SynthesisRoute.HeaderOpens | src/app/api/synthesis/route.ts:132-134 | the header opens with the bold description and a line break |
| SynthesisRoute.NoResultsOpening | src/app/api/synthesis/route.ts:125-127 | the no-results message does not open with '*', so it differs from every header |
| SynthesisRoute.CelsiusRangeExample | src/app/api/synthesis/route.ts:47-52 | "800-1000°C" is a temperature query from 800 to 1000 |
| SynthesisRoute.CelsiusMatchExample | src/app/api/synthesis/route.ts:47 | the Celsius pattern captures 800 and 1000 from "800-1000°C" |
| SynthesisRoute.DigitsExample | src/app/api/synthesis/route.ts:50-51 | `parseInt` reads "800" and "1000" as 800 and 1000 |
| SynthesisRoute.KoreanRangeExample | src/app/api/synthesis/route.ts:48 | the Korean pattern captures 800 and 1000 from "800~1000도" |
| SynthesisRoute.SyllablesAreSingleMarks | src/app/api/synthesis/route.ts:48 | the bracket `[-~에서부터]` is a set of single characters, so "800도에서 1000도" does not match: after '에' the pattern wants digits but finds '서' |
| SynthesisRoute.FormulaTokenExample | src/app/api/synthesis/route.ts:64 | "LiCoO2" is a formula token; "O2", with one unit, is not |
| SynthesisRoute.ParseQuery | src/app/api/synthesis/route.ts:38-70 | specification function: the query classifier; `TemperatureFirst`, `PrecursorIff`, `FormulaIff` and `GeneralIff` state when each kind is chosen |
| SynthesisRoute.SearchResultsAsWritten | src/app/api/synthesis/route.ts:90-121 | specification function: the dataset search the route runs, with `|| 300` and `|| 1200` replacing a parsed bound of 0; `ResultsBounded` and `AsWrittenResultsOverlap` state its properties |
| SynthesisRoute.AsWrittenResultsOverlap | src/app/api/synthesis/route.ts:106 | every result of a temperature query, as written, overlaps the parsed range with a bound of 0 replaced by 300 (lower) or 1200 (upper) |
| SynthesisRoute.SearchResults | src/app/api/synthesis/route.ts:90-121 | specification function: the corrected search of "## Findings", which keeps a parsed bound of 0; `TemperatureResultsOverlap` and `GeneralFallback` state its properties |
| SynthesisRoute.FormatRecipe | src/app/api/synthesis/route.ts:20-36 | specification function: the lines of one record; `FormatRecipeLines` states what they are |
| SynthesisRoute.Respond | src/app/api/synthesis/route.ts:72-153 | specification function: the reply of `POST`, built from the search as written; `RespondStatus` and `RespondMessage` state its properties |
| SynthesisRoute.RecipeLines | src/app/api/synthesis/route.ts:20-36 | specification function: the seven lines of one record; `FormatRecipeLines` and `RecipeLinesOneLine` state its properties |
| SynthesisRoute.Description | src/app/api/synthesis/route.ts:90-121 | specification function: the search description per kind of query and language; `RespondMessage` states that a non-empty reply opens with it |
| SynthesisRoute.Reply | src/app/api/synthesis/route.ts:124-144 | specification function: the no-results message or header, records and footer; `ReplyShape` states its shape |

## Left out

- HTTP handling is not modelled: request JSON parsing, `NextResponse`, status codes and the catch blocks that answer 500 (src/app/api/recipe/route.ts:155-161, src/app/api/synthesis/route.ts:146-152, src/app/api/lab/research/route.ts:296-313). Each route is modelled from the parsed message to its reply value.
- Console logging is not modelled. Neither is the file reading and writing of the extraction script's `main`: the input records are a parameter and the output is the returned value.
- The module src/data/synthesis-recipes.ts, which the routes import, is not part of this model. The extraction script generates it. Its search functions are modelled from the script's template as `ParseSynthesis.WebSearchByFormula`, `WebSearchByPrecursor` and `WebSearchByTemperature` (scripts/parse-synthesis.js:182-208). Its recipe array is the `recipes` parameter.
- The Materials Database lookups are a lookup parameter that returns structured hits. The regular expressions that pull counts and hull energies out of the returned prose (src/app/api/lab/research/route.ts:43, 57) are not modelled, and a failed call counts as an empty list.
- `Math.random` in the shuffle of the research route is a permutation parameter. The model proves what follows for every permutation.
- Numbers are exact reals, and parsing reads the decimal digits exactly. `Math.round` is floor(x + 1/2). Printing is plain decimal with a bounded number of fraction digits. IEEE-754 rounding, exponent notation and NaN are not modelled.
- `toLocaleString` number formatting is not modelled. The values are printed as plain decimals.
- Case mapping is ASCII only: JavaScript's Unicode `toLowerCase` and `toUpperCase` of non-ASCII letters are not modelled. Hangul has no case, so the Korean keywords are unaffected.
- String sorting compares characters as Dafny `char` values. This is the same as JavaScript's UTF-16 code-unit order for characters in the Basic Multilingual Plane.
- The research route's Markdown step texts and log lines (src/app/api/lab/research/route.ts:162-291) are not modelled, apart from the counts and candidates they report. The band-gap pattern in the query parser (src/lib/research/element-combinations.ts:143) is not modelled either.
- The full Markdown text of `formatRecipe` in the recipe generator (src/lib/recipe/recipe-generator.ts:202-273) is not modelled. The recipe route's reply carries the generated recipe value in its place.
- The catalog fields `equipment`, `advantages` and `suitableFor` (src/lib/recipe/synthesis-methods.ts) are display-only and are not in the method datatype.
- Some in-place updates are modelled by value:
  - the copy and rewrite of procedure steps;
  - the push and pop of the combination backtracking;
  - the in-place sorts of the research candidates and of the element list in `searchByElements` (src/lib/materials-api.ts:103).

  Each is a function or method over sequences with the same result. Aliasing between these arrays is not modelled.
- Objects are modelled as finite maps, so JavaScript prototype keys such as `constructor` are not modelled. Looking one up behaves as a missing key.
- RecipeRoute.Respond: the conditions under which the route asks for a target or for a method are stated as if-and-only-if lemmas on `RecipeRoute.Decide` (NeedTargetIff, NeedMethodIff). `Respond` maps each decision to its reply.
- Research.TopCandidatesFacts: does not state that candidates with equal scores keep their screening order (the stable sort of `Seqs.SortBy` gives it, but no contract names it). It states the exact length, the multiset inclusion, the positive score, the order and that no left-out candidate scores higher.
- The single-material lab route and the other pages and components of the portal are outside this core.

## Findings

| source | as written | input that shows it | evidently intended | confidence | as-written member | corrected member |
|---|---|---|---|---|---|---|
| src/app/api/synthesis/route.ts:106 | `parsed.minTemp \|\| 300` replaces a lower bound of 0 by 300, because 0 is falsy | the question "0-500°C": a record run at 100-200 °C lies inside the range but is not returned | search from the bound the user gave; fall back to 300 only when there is no bound | not executed | SynthesisRoute.ZeroLowerBoundReplaced | SynthesisRoute.TemperatureResultsOverlap |
| src/lib/research/element-combinations.ts:100-101 | the ternary test runs before the quaternary test, and "quaternary" contains "ternary" | the question "quaternary oxides" gives system size 3 | "quaternary" gives 4 | not executed | ElementCombinations.QuaternaryReadAsTernary | ElementCombinations.QuaternaryIsFour |

In the first row, `SynthesisRoute.SearchResultsAsWritten` models line 106 as written. `SynthesisRoute.SearchResults` is the corrected search, and `SynthesisRoute.AsWrittenAgreesAwayFromZero` shows that the two agree whenever neither bound is 0. In the second row, `ElementCombinations.ParseSystemSizeAsWritten` keeps the order of the source and `ElementCombinations.ParseSystemSize` tests "quaternary" first. The routes use the as-written halves; the corrected halves are used only by the lemmas that compare them.
