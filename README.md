# Triple extraction and classification for UML class diagrams

This project models the core of a pipeline that builds UML class diagrams from encyclopaedic text. The model is written in Dafny and its properties are proved. The pipeline has five parts:

- **Wikipedia extractor.** It reads the first sentences of a Wikipedia article. For each phrase of a fixed table ("is a", "consists of", "is part of", …) it finds the phrase's anchor word among the tokens of a dependency parse. It then picks a subject and an object among the children of fixed tokens, and resolves each picked token to a class name. A token that names a link takes the link's title; otherwise it is the noun with its modifiers. The resulting lower-cased triples go into the extractor's set.
- **Wikidata helpers.** These are the nested-dictionary search `recursive_find`, the claim filter `get_entities_of_property`, and the memoising id-to-name cache.
- **Classifier and corrector.** The classifier parses raw triple lines, drops filtered lines and gives each endpoint a type (`class`, `object` or `attribute name`). It maps the relation phrase onto one of five relation types and grows a process-wide registry of confirmed class names. The corrector then promotes an `aggregation` to `composition` when the batch holds the mirror triple. The writer prints every registered endpoint as `class`.
- **UML converter.** It reads classified lines back into relations and a class→attributes dictionary and writes the PlantUML text.
- **Common-triple finder.** It reads two classified files and keeps, in order, the Wikipedia triples that Wikidata also has.

Modules and files:

| file | module | models |
|---|---|---|
| `wrappers.dfy` | `Wrappers` | `Option` |
| `pystr.dfy` | `PyStr` | the Python string and list built-ins the code uses: `in`, `find`, `split`, slicing with negative bounds, `replace`, ASCII `lower`/`isdigit`, `list.index`, `list.count` |
| `classifier.dfy` | `Classifier` | `triples_parse_and_verify.py` |
| `uml.dfy` | `Uml` | `convert_from_triples_to_UML.py` |
| `common.dfy` | `CommonTriples` | `find_common_wikipedia_wikidata.py` |
| `wikidata.dfy` | `Wikidata` | `wikidata_triples_extract.py` |
| `resolver.dfy` | `Resolver` | `WikipediaExtractor.get_full_class_name` in `wikipedia_triples_extract.py` |
| `matcher.dfy` | `Matcher` | `WikipediaExtractor.get_triples` and the `triples` set in `wikipedia_triples_extract.py` |

Code that loops and mutates is modelled imperatively. The registry (`Classifier.ClassRegistry`), the name cache (`Wikidata.NameCache`) and the triple set (`Matcher.WikipediaExtractor`) are classes whose methods update their fields. The reading, comparing, correcting, resolving and matching loops are methods with loop invariants. Each such method is proved equal to a specification function, and the properties are proved about that function.

External judgements are parameters:

- The named-entity judgement of the classifier is a predicate `isEntity`.
- The Wikidata label service is a function `fetch` from an id to the response dictionary.
- The spaCy parse of a sentence is a `Resolver.Doc`: a sequence of tokens with text, part of speech, dependency label, child indices, left-child indices and tree depth.
- The HTML parsing of a sentence gives its text and its `<a>` anchors (text and optional title), or None where the parser raised.

Python's uncaught exceptions are modelled as explicit results:

- An IndexError in `read_file` or `read_triples` makes the whole read None.
- A missing glyph (KeyError) makes the UML document None.
- An IndexError in `get_triples` is the `Crashed` outcome. It stops the scan and keeps the triples already added.

Behaviour of the code worth knowing:

- **Relation-type lookups.** The relation type is computed twice, at lines 103-114 and 116-127 of `triples_parse_and_verify.py`. Both lists have the same members in a different order. `Classifier.RelationTypeOf` proves they agree on every phrase.
- **Registry growth.** Only the object of "is a", "instance of" or "part of" is registered, and only when it is not an entity. Both endpoints of "subclass of" are registered. So an entity name enters the registry only through "subclass of" (`Classifier.EntityRegisteredOnlyBySubclass`).
- **Missing tokens in the matcher.** `doc[index+1]` or `doc[index+2]` past the last token raises an uncaught IndexError. `doc[index-1]` at index 0 wraps to the last token. The model keeps both behaviours (`Matcher.PyIndex`, `Matcher.CrashStopsExtraction`).

Quirks of the code kept literally:

- **Classifier:**
  - the four-character text `\xa0` is replaced, not the no-break space;
  - `[2:-3]`, `[:-1]` and `[1:-1]` are Python slices.
- **Resolver:**
  - the dependency label `'compund'` is misspelt, so a `compound` child alone never triggers the extended lookup (`Resolver.CompoundDoesNotExtend`);
  - `context[:-1]` drops the leftmost modifier once there are two or more;
  - `v[:-1] == '-'` decides the gluing.
- **Matcher:**
  - `pos_ in 'PRON'` is a substring test;
  - the `" are the "` alternative of the first arm is unreachable (`Matcher.AreTheUnreachable`).
- **UML writer:** the document ends with the literal `@endtuml`.
- **Common-triple finder:** the saved line has no comma between subject and relation, so a saved file does not read back (`CommonTriples.SavedLineSkipped`).

## Model

| member | source | states |
|---|---|---|
| Classifier.HasNumbers | triples_parse_and_verify.py:28-34 | true exactly when some character is a digit |
| Classifier.ParseRawLine | triples_parse_and_verify.py:64-78 | a line that after normalisation mentions "list of", "wikidata property", "wikidata qualifier" or a digit yields nothing; a line yields nothing exactly when it is filtered so or its `[2:-3]` middle does not split on ", " into three fields |
| Classifier.CorpusLineRoundTrip | triples_parse_and_verify.py:64-78 | a corpus line `('sub', 'rel', 'obj')` of plain fields parses back to exactly that sub, rel and obj: sub loses its closing quote, rel both quotes, obj its opening quote |
| Classifier.CorpusMiddleSplit | triples_parse_and_verify.py:71-74 | the `[2:-3]` middle of a corpus line splits on ", " into exactly the three quoted fields |
| Classifier.CorpusLineKept | triples_parse_and_verify.py:64-69 | a corpus line of plain fields is unchanged by the `\xa0` replacement and lower-casing, and is not filtered |
| Classifier.CorpusLineFree | triples_parse_and_verify.py:72 | a separator absent from the fields and not starting with a literal character cannot occur in the corpus line |
| Classifier.RelationTypeOf | triples_parse_and_verify.py:103-127 | the conditional expression gives the same relation type as the if/elif chain for every relation phrase |
| Classifier.ClassifyRaw | triples_parse_and_verify.py:83-129 | fields kept; the relation type is the lookup's; "subclass of" makes both endpoints `class` and registers both; "is a"/"instance of"/"part of" with a non-entity object make it `class` and register it; attribute relations give an `attribute name` object; otherwise an endpoint is `object` exactly when it is an entity; nothing else is registered |
| Classifier.EntityRegisteredOnlyBySubclass | triples_parse_and_verify.py:91-98 | an entity name is in the registry only if some "subclass of" line names it |
| Classifier.RegistryCollectsEveryLine | triples_parse_and_verify.py:26 | the registry after a file holds the registrations of every line of the file |
| Classifier.RegisteredByGrows | triples_parse_and_verify.py:26 | the registry only grows: the names after any prefix of a file stay after the whole file |
| Classifier.ReprocessAggregationRelations | triples_parse_and_verify.py:36-50 | the loop builds the corrected batch |
| Classifier.ReprocessChangesOnlyAggregation | triples_parse_and_verify.py:43-49 | same length and order; only the relation type may change, exactly for an aggregation that has a mirror triple in the batch (possibly itself), and then to composition |
| Classifier.ReprocessIdempotent | triples_parse_and_verify.py:36-50 | correcting twice equals correcting once |
| Classifier.ReciprocalExample | triples_parse_and_verify.py:45-48 | a mirror pair of aggregations both become compositions; a lone one stays |
| Classifier.PromoteProperties | triples_parse_and_verify.py:145-148 | a registered endpoint is printed as `class`; every other field is unchanged; promotion is idempotent and monotone in the registry |
| Classifier.ClassRegistry.constructor | triples_parse_and_verify.py:26 | the registry starts empty |
| Classifier.ClassRegistry.ProcessTriplesFile | triples_parse_and_verify.py:52-133 | the result is the corrected batch of the surviving lines in file order; the registry grows by exactly those lines' registrations and is never cleared |
| Classifier.ClassRegistry.WriteProcessedTriples | triples_parse_and_verify.py:135-149 | one output line per triple: the classified line of the triple promoted against the registry |
| Classifier.FormatLineSplit | triples_parse_and_verify.py:149 | a classified line with separable names splits on ", " into its subject, relation and object pieces |
| Classifier.SubjectPieceSplit | triples_parse_and_verify.py:149 | the subject piece splits on " (" into the quoted subject and its type with `)` |
| Classifier.ObjectPieceSplitType | triples_parse_and_verify.py:149 | the object piece splits on " (" into the quoted object and a rest whose `)`-prefix is the object type |
| Classifier.ObjectPieceSplitRelation | triples_parse_and_verify.py:149 | the object piece splits on " : " into two parts, the second being the relation type and the newline |
| Classifier.PieceSlices | triples_parse_and_verify.py:149 | the slices the readers take of the pieces give back each name and type |
| Classifier.TypeNameChars | triples_parse_and_verify.py:88-127 | type names are lower-case letters and spaces only |
| Classifier.Normalize | triples_parse_and_verify.py:64 | definition: the line with the four characters `\xa0` replaced by a space, lower-cased; properties in `CorpusLineNormal`, `CorpusLineKept`, `ParseRawLine` |
| Classifier.ClassifyLine | triples_parse_and_verify.py:64-129 | definition: one corpus line filtered, parsed and classified, None for a skipped line; properties in `EntityRegisteredOnlyBySubclass`, `RegistryCollectsEveryLine` |
| Classifier.ClassifyLines | triples_parse_and_verify.py:62-129 | definition: the triples of the surviving lines in file order; `ClassRegistry.ProcessTriplesFile` is proved to compute it |
| Classifier.Reprocess | triples_parse_and_verify.py:36-50 | the corrected batch has the length of the batch; further properties in `ReprocessAggregationRelations`, `ReprocessChangesOnlyAggregation`, `ReprocessIdempotent` |
| Classifier.Promote | triples_parse_and_verify.py:145-148 | definition: an endpoint whose name is registered is typed `class`; properties in `PromoteProperties` |
| Classifier.FormatLine | triples_parse_and_verify.py:149 | definition: one output line; properties in `FormatLineSplit`, `SubjectPieceSplit`, `ObjectPieceSplitType`, `ObjectPieceSplitRelation` |
| Uml.ClassifiedLineFields | convert_from_triples_to_UML.py:24-31 | the six fields cut out of a classified line with separable names are its own subject, types, object, relation type and relation name |
| Uml.ReadClassifiedLine | convert_from_triples_to_UML.py:22-47 | a classified line reads back as nothing when an endpoint is an object, as an attribute of the subject for attribute relations, and otherwise as exactly (subject, relation name, relation type, object) |
| Uml.AddAttributeLookup | convert_from_triples_to_UML.py:41-44 | adding appends the attribute to that class's list and changes no other class's list |
| Uml.AddAttributeKeys | convert_from_triples_to_UML.py:41-44 | a known class keeps its place; a new class is added at the end |
| Uml.AddAttributeDistinct | convert_from_triples_to_UML.py:41-44 | no class ever gets two entries |
| Uml.ReadFile | convert_from_triples_to_UML.py:16-48 | the reading loop computes the fold of the parsed lines, None on an IndexError |
| Uml.FoldFailureSticks | convert_from_triples_to_UML.py:21-47 | once a line has crashed, the read stays failed |
| Uml.FoldFails | convert_from_triples_to_UML.py:21-47 | the fold fails exactly when some parsed line crashes |
| Uml.ReadLinesFails | convert_from_triples_to_UML.py:21-47 | the read fails exactly when some line crashes |
| Uml.FoldDistinctClasses | convert_from_triples_to_UML.py:41-44 | the attribute dictionary read has no class twice |
| Uml.ClassifiedLineMentionsRelation | convert_from_triples_to_UML.py:38-40 | a classified line contains its relation phrase, so the attribute-phrase test sees it |
| Uml.Glyph | convert_from_triples_to_UML.py:2-7 | an arrow exists exactly for association, inheritance, composition and aggregation |
| Uml.GlyphOfRelationType | convert_from_triples_to_UML.py:2-7 | every classifier relation type except `attributes` has an arrow |
| Uml.RelationLinesDefined | convert_from_triples_to_UML.py:75-76 | the relations can be written exactly when every relation type has an arrow |
| Uml.ClassesTextHasEveryClass | convert_from_triples_to_UML.py:59-63 | every dictionary entry opens its own `class "…" {` block |
| Uml.UmlDocumentFrame | convert_from_triples_to_UML.py:87-94 | the document starts with `@startuml <filename>` and `hide empty methods` and ends with `@endtuml` |
| Uml.FoldRelationsHaveGlyphs | convert_from_triples_to_UML.py:47 | relations read from lines whose types all have arrows all have arrows |
| Uml.ClassifiedFileConverts | convert_from_triples_to_UML.py:16-94 | a file of classifier lines with separable names reads without error and converts to a complete document |
| Uml.LineFields | convert_from_triples_to_UML.py:24-31 | definition: the fields of the three pieces of a line, None on an index error; properties in `ClassifiedLineFields` |
| Uml.ReadLine | convert_from_triples_to_UML.py:22-47 | definition: one line read as skipped, an attribute, a relation or a crash; properties in `ReadClassifiedLine`, `ReadLinesFails` |
| Uml.Fold | convert_from_triples_to_UML.py:21-47 | definition: the parsed lines folded in order, None from the first crash on; properties in `FoldFailureSticks`, `FoldFails`, `FoldDistinctClasses`, `FoldRelationsHaveGlyphs` |
| Uml.ReadLines | convert_from_triples_to_UML.py:16-48 | definition: `read_file` on the lines of a file; properties in `ReadFile`, `ReadLinesFails`, `ClassifiedFileConverts` |
| Uml.ClassesText | convert_from_triples_to_UML.py:59-63 | definition: the class blocks in insertion order; properties in `ClassesTextHasEveryClass`, `ClassesTextHasEveryBlock` |
| Uml.RelationLines | convert_from_triples_to_UML.py:75-76 | definition: the relation lines in order, None at the first relation without an arrow; properties in `RelationLinesDefined`, `RelationLinesHaveEveryRelation` |
| Uml.UmlDocument | convert_from_triples_to_UML.py:79-94 | definition: the whole PlantUML text, None on a missing arrow; properties in `UmlDocumentFrame`, `UmlDocumentHasEveryLine`, `ClassifiedFileConverts` |
| Uml.ClassBlockHasEveryAttribute | convert_from_triples_to_UML.py:60-63 | each attribute of a class has its `+"attr" : String` line in the class block |
| Uml.AttributeLinesHaveEveryAttribute | convert_from_triples_to_UML.py:61-62 | the attribute lines of a class contain the line of each of its attributes |
| Uml.ClassesTextHasEveryBlock | convert_from_triples_to_UML.py:59-63 | the block of every class of the dictionary is part of the class text |
| Uml.RelationLinesHaveEveryRelation | convert_from_triples_to_UML.py:75-76 | when the relations can be written, each relation has an arrow and its line is part of the relation text |
| Uml.UmlDocumentHasEveryLine | convert_from_triples_to_UML.py:59-94 | the written document contains the line of every attribute of every class and the line of every relation |
| CommonTriples.ReadTriplesFile | find_common_wikipedia_wikidata.py:20-30 | the reading loop computes the collected triples, None on an IndexError |
| CommonTriples.CollectFailureSticks | find_common_wikipedia_wikidata.py:23-29 | once a line has crashed, the read stays failed |
| CommonTriples.CollectKeepsInOrder | find_common_wikipedia_wikidata.py:23-29 | a successful read had no crash and is exactly the kept lines' triples in order |
| CommonTriples.KeptAppend | find_common_wikipedia_wikidata.py:29 | one more line appends its triple if kept |
| CommonTriples.ReadClassifiedTriple | find_common_wikipedia_wikidata.py:24-29 | a classified lower-case line reads as (subject, relation type, object); the relation phrase is not kept |
| CommonTriples.FormatLineLowerCase | find_common_wikipedia_wikidata.py:24 | lower-casing leaves a classified line of lower-case names unchanged |
| CommonTriples.CompareTriples | find_common_wikipedia_wikidata.py:40-44 | the comparison loop computes the order-preserving filter |
| CommonTriples.CommonCounts | find_common_wikipedia_wikidata.py:40-44 | each triple occurs in the result as often as in the Wikipedia list if Wikidata has it, else never |
| CommonTriples.CommonMembership | find_common_wikipedia_wikidata.py:41-43 | a triple is in the result exactly when it is in both lists |
| CommonTriples.CommonWithEmpty | find_common_wikipedia_wikidata.py:40-44 | an empty Wikidata list gives an empty result |
| CommonTriples.CommonConcat | find_common_wikipedia_wikidata.py:41-43 | the result on a concatenation is the concatenation of results (order preserved) |
| CommonTriples.CommonAllShared | find_common_wikipedia_wikidata.py:40-44 | when Wikidata has every Wikipedia triple the result is the Wikipedia list with its duplicates |
| CommonTriples.SaveLineSplit | find_common_wikipedia_wikidata.py:55 | a saved line splits on ", " into only two pieces |
| CommonTriples.SaveLineLowerCase | find_common_wikipedia_wikidata.py:55 | a saved line of lower-case fields is unchanged by lower-casing |
| CommonTriples.SavedLineSkipped | find_common_wikipedia_wikidata.py:24-25 | a saved line is skipped when read back as a triples file |
| CommonTriples.ReadTripleLine | find_common_wikipedia_wikidata.py:24-29 | definition: one line lower-cased and split on ", ", giving a triple, a skip or an index error; properties in `ReadClassifiedTriple`, `SavedLineSkipped` |
| CommonTriples.Common | find_common_wikipedia_wikidata.py:40-44 | definition: the Wikipedia triples, in order and with repeats, that the Wikidata list also holds; properties in `CommonMembership`, `CommonCounts`, `CommonConcat`, `CommonWithEmpty`, `CommonAllShared`; `CompareTriples` is proved to compute it |
| CommonTriples.SaveLine | find_common_wikipedia_wikidata.py:55 | definition: one saved triple; properties in `SaveLineSplit`, `SaveLineLowerCase`, `SavedLineSkipped` |
| Wikidata.RelationPropertiesTypes | wikidata_triples_extract.py:11-21 | each property's relation phrase gets, from the classifier, the relation type the table's comment names |
| Wikidata.RecursiveFindSkips | wikidata_triples_extract.py:51-55 | entries before the first match or dictionary value do not affect the result |
| Wikidata.FirstMatchWins | wikidata_triples_extract.py:52-53 | the first matching key before any dictionary value gives its value |
| Wikidata.FirstDictionaryDecides | wikidata_triples_extract.py:54-55 | the first dictionary value before any match decides the result by itself |
| Wikidata.NoMatchNoDictionary | wikidata_triples_extract.py:51-55 | no match and no dictionary value give None |
| Wikidata.NameLookupTransparent | wikidata_triples_extract.py:64-76 | a cached id is answered from the cache with the cache unchanged; an agreeing cache answers as the service does and stays agreeing; only truthy names are added; nothing is removed or changed |
| Wikidata.EntitiesMatchReference | wikidata_triples_extract.py:92-105 | with an agreeing cache the claim filter equals the cache-free reference, and the cache stays agreeing |
| Wikidata.ReferenceEntries | wikidata_triples_extract.py:93-105 | each returned entity has an id other than the parent and the service's name, which is not None |
| Wikidata.MissingPropertyGivesNothing | wikidata_triples_extract.py:88-107 | a property absent from the claims gives no entities and leaves the cache alone |
| Wikidata.NameCache.constructor | wikidata_triples_extract.py:40 | the cache starts empty |
| Wikidata.NameCache.ConvertIdToName | wikidata_triples_extract.py:57-76 | the name and the new cache are those of the lookup from the old cache |
| Wikidata.NameCache.GetEntitiesOfProperty | wikidata_triples_extract.py:79-107 | the table and the new cache are those of the claim filter from the old cache |
| Wikidata.RecursiveFind | wikidata_triples_extract.py:43-55 | definition of `recursive_find`; properties in `RecursiveFindSkips`, `FirstMatchWins`, `FirstDictionaryDecides`, `NoMatchNoDictionary` |
| Wikidata.NameLookup | wikidata_triples_extract.py:64-76 | definition: the name of an id and the cache afterwards; properties in `NameLookupTransparent`; `NameCache.ConvertIdToName` is proved to compute it |
| Wikidata.Entities | wikidata_triples_extract.py:93-105 | definition: the entities of one claim list, threading the cache; properties in `EntitiesMatchReference` |
| Wikidata.EntitiesOfProperty | wikidata_triples_extract.py:79-107 | definition: the entities of a property, threading the cache; properties in `MissingPropertyGivesNothing`; `NameCache.GetEntitiesOfProperty` is proved to compute it |
| Resolver.UniqueLink | wikipedia_triples_extract.py:151-158 | an accepted link is one of the anchors and contains the name |
| Resolver.UniqueLinkExactlyOne | wikipedia_triples_extract.py:151-158 | a containing anchor is accepted exactly when no other anchor contains the name |
| Resolver.UniqueLinkNone | wikipedia_triples_extract.py:162-169 | no containing anchor gives no link |
| Resolver.TwoMatches | wikipedia_triples_extract.py:151-158 | two containing anchors make the match count at least two, so no link |
| Resolver.OneMatch | wikipedia_triples_extract.py:151-158 | a single containing anchor is the only match |
| Resolver.MatchesMember | wikipedia_triples_extract.py:152-153 | the matches are exactly the anchors that contain the name |
| Resolver.MatchUniqueLink | wikipedia_triples_extract.py:151-158 | the `match_ctr` loop computes the unique link |
| Resolver.ExtendedNameUsesNearestLeft | wikipedia_triples_extract.py:147-150 | the extension is tried exactly with an `amod` (or `compund`) child and a left child, and prefixes the last left child's text |
| Resolver.CompoundDoesNotExtend | wikipedia_triples_extract.py:148 | a token whose children are all `compound` is never extended |
| Resolver.LinkFor | wikipedia_triples_extract.py:146-169 | a link found is one of the anchors |
| Resolver.RepeatedTextNotLookedUp | wikipedia_triples_extract.py:159-161 | with the token text occurring twice or more, only the extended name can find a link |
| Resolver.LinkContainsName | wikipedia_triples_extract.py:146-169 | a found link contains the extended name, or the bare text that occurs fewer than twice |
| Resolver.Modifiers | wikipedia_triples_extract.py:174-181 | every collected modifier is a left child's text |
| Resolver.SortDescendingSorted | wikipedia_triples_extract.py:182-183 | the re-ordering sorts the modifiers by descending left position and is a permutation |
| Resolver.InsertDescending | wikipedia_triples_extract.py:183 | inserting keeps the order descending |
| Resolver.KeyInjective | wikipedia_triples_extract.py:183 | equal sort keys mean equal texts, so the sort's tie order cannot matter |
| Resolver.NounNameOneModifier | wikipedia_triples_extract.py:177-179 | one modifier is put in front of the noun with a space |
| Resolver.NounNameNoModifier | wikipedia_triples_extract.py:170-189 | without modifiers the noun keeps its text |
| Resolver.FullClassName | wikipedia_triples_extract.py:192-199 | the result is never empty |
| Resolver.LinkedTokenTakesTitle | wikipedia_triples_extract.py:190-199 | a linked token is named by the title at the first index of its anchor, followed by the conj names |
| Resolver.UnlinkedNonNounIsEmpty | wikipedia_triples_extract.py:170-176 | an unlinked non-noun, or a noun with an "of" child, resolves to `['']` |
| Resolver.UnlinkedNounNamed | wikipedia_triples_extract.py:170-189 | an unlinked noun without an "of" child is named by its text and modifiers |
| Resolver.ConjNamesCollect | wikipedia_triples_extract.py:192-197 | the primary name of every `conj` child appears among the appended names |
| Resolver.CollectModifiers | wikipedia_triples_extract.py:174-181 | the children walk stops exactly on an "of" child, else collects the modifiers and the prefixed name |
| Resolver.GlueSorted | wikipedia_triples_extract.py:184-189 | the rebuild glues all sorted modifiers but the last in front of the text |
| Resolver.FindLink | wikipedia_triples_extract.py:146-169 | the two lookups compute the specified link |
| Resolver.NameNoun | wikipedia_triples_extract.py:170-189 | an unlinked noun has no name exactly when it has an "of" child, and is otherwise named by its text and sorted modifiers |
| Resolver.CollectConjNames | wikipedia_triples_extract.py:192-197 | the loop over the children collects the specified `conj` names |
| Resolver.GetFullClassName | wikipedia_triples_extract.py:132-199 | the resolver computes the specified name list |
| Resolver.ExtendedName | wikipedia_triples_extract.py:147-150 | definition: the name extended by the nearest left child; properties in `ExtendedNameUsesNearestLeft`, `CompoundDoesNotExtend` |
| Resolver.NounName | wikipedia_triples_extract.py:170-189 | definition: the noun with its left modifiers; properties in `NounNameOneModifier`, `NounNameNoModifier`, `UnlinkedNounNamed`; `NameNoun` is proved to compute it |
| Resolver.PrimaryName | wikipedia_triples_extract.py:146-189 | definition: the link title, the noun name, or None; properties through `FullClassName` in `LinkedTokenTakesTitle`, `UnlinkedNonNounIsEmpty`, `UnlinkedNounNamed` |
| Resolver.ConjNames | wikipedia_triples_extract.py:192-197 | definition: the names of the `conj` children; `CollectConjNames` is proved to compute it and `ConjNamesCollect` relates it to the children |
| Matcher.LinkTitles | wikipedia_triples_extract.py:222-223 | titles align with anchor texts, falling back to the text where the title is missing or empty |
| Matcher.PhraseTableHandled | wikipedia_triples_extract.py:28-44 | every phrase of the table has an arm with one of the nine labels |
| Matcher.AreTheUnreachable | wikipedia_triples_extract.py:239 | " are the " is not in the table, so that alternative is never taken |
| Matcher.HandlerLabel | wikipedia_triples_extract.py:238-375 | every arm's label is one of the nine labels |
| Matcher.InheritancePhrasesTyped | wikipedia_triples_extract.py:28-30 | the classifier types the labels of the five "is a"/"refer to" phrases as inheritance |
| Matcher.PartWholePhrasesTyped | wikipedia_triples_extract.py:32-39 | the classifier types the labels of the nine part-whole phrases as aggregation or composition |
| Matcher.AssociationPhraseTyped | wikipedia_triples_extract.py:41-42 | the classifier types the label of " uses " as association |
| Matcher.PyIndex | wikipedia_triples_extract.py:240-370 | the arms' subscripts `doc[index_of_phrase_base+k]` (for example lines 259, 327, 352): `doc[j]` is defined exactly for -n <= j < n, negative indices counting from the end |
| Matcher.SubjectNeedsLabel | wikipedia_triples_extract.py:252-257 | without a child of the subject label the subject stays empty |
| Matcher.ObjectFromLastMatch | wikipedia_triples_extract.py:258-262 | the object list is empty exactly when no child has the object label and a nominal tag |
| Matcher.ScanSubject | wikipedia_triples_extract.py:252-257 | the subject loop computes the specified subject, a later child overriding an earlier one |
| Matcher.ScanObject | wikipedia_triples_extract.py:258-262 | the object loop computes the specified object list |
| Matcher.MissingAnchorAddsNothing | wikipedia_triples_extract.py:232-236 | a phrase whose first word is not a token is skipped and adds nothing |
| Matcher.MissingReanchorAddsNothing | wikipedia_triples_extract.py:303-307 | a re-anchoring arm whose second word is not a token adds nothing |
| Matcher.IsANeedsAux | wikipedia_triples_extract.py:239-241 | the "is a" arm adds nothing when the anchor is not tagged AUX |
| Matcher.MatchPhrase | wikipedia_triples_extract.py:226-236 | one phrase's containment test, anchor lookup and arm compute the specified outcome |
| Matcher.MatchArm | wikipedia_triples_extract.py:238-375 | one arm's re-anchoring on `phrase.split(" ")[2]` (the phrase's second word), then its scan, computes the specified outcome; a missing word raises, a missing token skips |
| Matcher.ScanArm | wikipedia_triples_extract.py:238-375 | the AUX test and the two scans around the anchor compute the specified outcome, `Crashed` on an index out of range |
| Matcher.Emitted | wikipedia_triples_extract.py:377-380 | a triple is added exactly for a non-empty object of a scan with a non-empty subject: (lower subject, label, lower object) |
| Matcher.ScannedLabel | wikipedia_triples_extract.py:238-380 | a scan with a subject carries an arm's label |
| Matcher.PhraseOutcomeShaped | wikipedia_triples_extract.py:377-380 | every added triple has a non-empty lower-case subject and object and an arm's label |
| Matcher.SentenceScanStops | wikipedia_triples_extract.py:226-380 | after an IndexError no later phrase of the sentence is matched |
| Matcher.SentenceScanShaped | wikipedia_triples_extract.py:226-380 | every triple of a sentence is well shaped |
| Matcher.ExtractedShaped | wikipedia_triples_extract.py:211-380 | every extracted triple is well shaped |
| Matcher.ExtractedStep | wikipedia_triples_extract.py:211-218 | one more sentence adds its phrases' triples; a sentence the HTML parser rejected adds nothing |
| Matcher.CrashStopsExtraction | wikipedia_triples_extract.py:211-380 | after an IndexError later sentences change nothing |
| Matcher.Examined | wikipedia_triples_extract.py:211 | at most `max_sentences_from_paragraph` sentences, a prefix of the list, are examined |
| Matcher.Handler | wikipedia_triples_extract.py:238-375 | definition: the arm of the `match phrase` statement for a phrase; properties in `PhraseTableHandled`, `HandlerLabel`, `AreTheUnreachable`, `InheritancePhrasesTyped`, `PartWholePhrasesTyped`, `AssociationPhraseTyped` |
| Matcher.PhraseOutcome | wikipedia_triples_extract.py:226-236 | definition: the outcome of one phrase in one sentence; properties in `PhraseOutcomeShaped`, `ScannedLabel`, `IsANeedsAux`, `MissingAnchorAddsNothing`, `MissingReanchorAddsNothing`; `MatchPhrase` is proved to compute it |
| Matcher.ArmOutcome | wikipedia_triples_extract.py:238-375 | definition: the outcome of one arm from the anchor index; `MatchArm` is proved to compute it |
| Matcher.SentenceScan | wikipedia_triples_extract.py:226-380 | definition: the triples of one sentence and whether it raised; properties in `SentenceScanShaped`, `SentenceScanStops`, `SentenceScanStep` |
| Matcher.Extracted | wikipedia_triples_extract.py:211-380 | definition: the triples of the article and whether the extraction raised; properties in `ExtractedShaped`, `ExtractedStep`, `CrashStopsExtraction`; `WikipediaExtractor.GetTriples` is proved to compute it |
| Matcher.WikipediaExtractor.constructor | wikipedia_triples_extract.py:71 | the triple set starts empty |
| Matcher.WikipediaExtractor.Emit | wikipedia_triples_extract.py:377-380 | the set grows by exactly the outcome's triples |
| Matcher.WikipediaExtractor.ScanPhrase | wikipedia_triples_extract.py:226-380 | one phrase of the table adds exactly its triples to those of the earlier phrases and reports an IndexError |
| Matcher.WikipediaExtractor.ScanSentence | wikipedia_triples_extract.py:226-380 | the set grows by exactly the sentence's triples; the result reports an IndexError |
| Matcher.WikipediaExtractor.GetTriples | wikipedia_triples_extract.py:202-380 | the set grows by exactly the triples of the examined sentences, up to an IndexError, which is reported |

## Left out

- HTTP and the network are not modelled: `get_article`, `session.get`, the recursive crawl `extract`, `search_structure_from_top` and its visited set. The Wikidata service is the parameter `fetch`.
- The spaCy model is not modelled: loading it, parsing a sentence and the named-entity recognition of the classifier (`ent.label_ in ['ORG', 'GPE']`). The parse is an input and the entity judgement the predicate `isEntity`.
- BeautifulSoup and regular-expression scraping are not modelled: `get_triples_from_infobox`, `get_links`, `trim_first_paragraph_and_extract_infobox`, sentence splitting with `SENTENCE_UNTIL_PERIOD`, and the extraction of sentence text and anchors. These are inputs. A sentence the HTML parser rejects is None.
- File reading and writing and the module-level driver loops are not modelled. Files are sequences of lines and writers return strings. Also left out: the `FILES` loops, `save_triples_to_file` (sort and write), timing, prints, and the shared `PARAMS` dictionary mutation.
- `wikipedia_words_test.py` is not part of this model: it is a scraping crawl.
- Classifier.HasNumbers: `str.isdigit` is modelled for ASCII digits only; Unicode digits are not.
- `str.lower` is modelled as ASCII-only lower-casing (`PyStr.Lower`).
- Wikidata.Lookup: a response dictionary is an association list, and the model does not exclude a repeated key. For a repeated key `Lookup` takes the first entry, where `json.loads` keeps the last; service responses carry no repeated keys, so this difference is not modelled.
- Wikidata.ItemId: a non-string id is treated like a missing one, where Python would go on with the non-string value.
- Wikidata.NameCache.ConvertIdToName: the fetch is a pure function, so a service that answers differently over time is not modelled.
- Resolver.WellFormed: a parse is required to be a tree. Each token has a depth one more than its head, and indices are in range. spaCy guarantees this. The recursion on `conj` children terminates by this depth.
- Resolver.GetFullClassName: spaCy tokens are compared by index, so `child in value.lefts` is index membership.
- Matcher.MatchPhrase: `phrase.split(" ")` with fewer than two words (three for the re-anchoring arms) would raise IndexError and is modelled as `Crashed`. No phrase of the table is that short.
- Matcher.WikipediaExtractor.GetTriples: the IndexError is reported as a result. In the code it propagates out of `extract` and ends the run; this model does not cover the propagation.
