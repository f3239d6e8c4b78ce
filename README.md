# tagging — a verified model of the tag-filter compiler

The `tagging` library turns a boolean tag filter such as
`tag1 & (tag2 | !tag3) & sort:newest` into a SQL SELECT over a user-data
table and renders that statement as text. This project models its core
pipeline in Dafny and proves properties of each stage:

- **Filter tree** (`filters.dfy`, module `Filters`): the six node kinds of
  `src/Tag.ts` as one datatype `Filter`.
- **Optional** (`optionals.dfy`, module `Optionals`): `src/Optional.ts`.
  `get()` fails with "No value present" on an absent value.
- **Trie** (`tries.dfy`, module `Tries`): `src/Trie.ts`.
  - `Node` is the value a trie stands for. The class `Trie` is the mutable
    object, with a ghost `Model` and a `Repr` footprint.
  - Insertion and lookup stop when the remaining key is empty or equals the
    node's one-character prefix. So a key whose last two characters are equal
    lands where that key without its last character lands (`tag11` shares
    the slot of `tag1`). `StoragePath` and its closed form `Slot` state this.
    Round-trip and non-interference are proved relative to that path.
- **Tag-id cache** (`tagidcache.dfy`, module `TagIdCaches`):
  `src/TagIdCache.ts`, with the message of `src/TagIdNotFoundError.ts`.
  - The canonical key is `key` or `key:value`.
  - A miss reports `Tag not found: <key>`.
  - `init` is proved equal to a reference answer: the last pair for a slot
    wins.
- **Scanner** (`tagscanner.dfy`, module `TagScanning`): `src/TagScanner.ts`.
  - `ScanToken` specifies one `nextToken()` call and `Tokens` the whole
    token stream.
  - The class `TagScanner` with its cursor fields `current` and `begin` is
    proved to follow them.
  - The tokens spell the input back with whitespace removed.
- **Parser** (`tagparser.dfy`, module `TagParsing`): `src/TagParser.ts`.
  - `Primary`, `Unary`, `Binary`/`BinaryTail` and `ParseFrom` say what each
    parsing method computes from a token position.
  - The class `TagParser` holds the `current`/`previous` cursor fields. Its
    methods, including the `while` loop of `parseBinary`, are proved against
    those functions.
  - A printer `Print` is proved to be inverted by the parser for every
    filter the parser can produce (`TrueTag` only at the top, since it
    arises only from an empty input). This shows that AND and OR chain to the left at one level, that
    NOT takes one operand and that parentheses group.
- **Query compiler and serializer** (`tagsql.dfy`, module `TagSql`):
  `src/TagSqlBuilder.ts`.
  - `Lower` is the recursive lowering of a filter to the HAVING condition,
    threading the sort state that `sort:` meta tags change.
  - Lowering fails exactly on the first tag missing from the cache, with
    that tag's message.
  - On success the sort state is the one the last directive chose.
  - The class `TagSqlBuilder`, whose fields `sortBy`/`sortDirection` are the
    `currentParse` record, is proved to compute `Lower`. `buildTagFilterQuery`
    is proved independent of what earlier calls left in the sort state.
- **Sample builder** (`sampletagsql.dfy`, module `SampleTagSql`):
  `sample/TagSqlBuilder.ts`, whose statement fields after `from` are
  optional.
  - Its lowering methods are proved to compute the same `TagSql.Lower`.
  - Its serializer differs from the src one: it has an extra WHERE slot, and
    a missing or empty field leaves only its separating spaces.
  - The two fixed queries are given as text.

Thrown errors are modelled as `Result` values carrying the same message.

The scanner follows the code in one case that a reader might not expect. Any
character outside `& | ! ( ) :` and whitespace starts an identifier. That
first character is always consumed, even when it is not an identifier
character, so `#` alone is the identifier `#` and never a lexical error
(`TagScanning.IdentifierIsMaximal`).

## Model

| member | source | states |
|---|---|---|
| Optionals.Optional.Get | src/Optional.ts:12-18 | succeeds exactly when a value is present, returning it unchanged; otherwise fails with "No value present" |
| Tries.Node.Insert | src/Trie.ts:13-28 | the node keeps its own prefix; what it stores is stated by the lookup lemmas below |
| Tries.Node.Lookup | src/Trie.ts:30-41 | `lookup` on the value of a trie; stated by `LeafLookup`, `LookupAfterInsert` and `LookupFindsStoredValue` |
| Tries.FindChild | src/Trie.ts:19 | `children.find`: the index of the first child with the wanted prefix, no earlier child has it, or the child count when none does |
| Tries.Trie.Find | src/Trie.ts:19 | the same search over the child objects |
| Tries.StoragePathFromNode | src/Trie.ts:13-28 | below a node with a prefix of at most one character, the path insert/lookup follow is the key's slot behind that prefix |
| Tries.StoragePathIsSlot | src/Trie.ts:14 | from the root the storage path is the key itself, except that a final character equal to the one before it is dropped |
| Tries.LeafLookup | src/Trie.ts:30-41 | a fresh node answers absent for every key |
| Tries.LookupAfterInsert | src/Trie.ts:13-41 | after `insert(k, v)`, `lookup(k')` answers `v` exactly when `k'` has the storage path of `k`, and answers as before otherwise |
| Tries.LookupInserted | src/Trie.ts:13-41 | after `insert(k, v)`, `lookup(k)` answers `v` |
| Tries.InsertOverwrites | src/Trie.ts:14-16 | inserting the same key twice leaves the second value: the last write wins |
| Tries.RootLookupAfterInsert | src/Trie.ts:13-41 | from the root: after `insert(k, v)`, `lookup(k')` answers `v` exactly when `Slot(k) == Slot(k')`, otherwise as before |
| Tries.InsertPreservesWellFormed | src/Trie.ts:19-24 | insertion keeps every child's prefix one character long and sibling prefixes pairwise distinct |
| Tries.LookupFindsStoredValue | src/Trie.ts:30-41 | a lookup only ever answers a value stored somewhere in the tree |
| Tries.Trie.constructor | src/Trie.ts:8-11 | a new trie with the given prefix, no children and no data |
| Tries.Trie.Insert | src/Trie.ts:13-28 | the object now stands for the value-level insert of the old tree; only new nodes are added to the footprint |
| Tries.Trie.InsertIntoNewChild | src/Trie.ts:20-24 | a new child for the key's first character is appended and receives the rest of the key; siblings are untouched |
| Tries.Trie.InsertIntoChild | src/Trie.ts:25-27 | the existing child receives the rest of the key; its siblings are untouched |
| Tries.Trie.Lookup | src/Trie.ts:30-41 | the answer of the object equals the value-level lookup; it reads and changes nothing |
| TagIdCaches.NotFoundMessage | src/TagIdNotFoundError.ts:1-5 | the message ends with the key it reports |
| TagIdCaches.TagToString | src/TagIdCache.ts:8-14 | the canonical key is `key` or `key:value`; only `Tag("")` has the empty canonical key |
| TagIdCaches.ResolveTagId | src/TagIdCache.ts:16-24 | succeeds exactly when the trie holds the canonical key, with the stored id; otherwise fails with `Tag not found: <canonical key>` |
| TagIdCaches.AddTag | src/TagIdCache.ts:37-42 | the trie stays rooted at the same prefix and well formed; its effect on lookups is `ResolveAfterAdd` |
| TagIdCaches.InitTags | src/TagIdCache.ts:26-35 | the trie stays rooted at the same prefix and well formed; its effect on lookups is `ResolveAfterInit` |
| TagIdCaches.EmptyCacheMisses | test/unit/TagIdCache.test.ts:6-9 | an empty cache misses every tag with `Tag not found: <key>` |
| TagIdCaches.ResolveAfterAdd | src/TagIdCache.ts:37-42 | after `onTagAdded(tag, id)`, exactly the tags sharing the slot of tag's non-empty key resolve to `id`; an empty key changes nothing |
| TagIdCaches.ResolveAfterInit | src/TagIdCache.ts:26-35 | after `init(pairs)` a tag resolves to the id of the LAST pair for its slot, or as before when no pair touches it |
| TagIdCaches.TagAndMetaTagShareSlot | src/TagIdCache.ts:8-14 | `Tag("a:b")` and `MetaTag("a","b")` always resolve alike |
| TagIdCaches.PrefixOverlappingKeysCoexist | test/unit/TagIdCache.test.ts:11-22 | after adding tag1, tag2, tag3 and tag1tag, each resolves to its own id |
| TagIdCaches.RepeatedLastCharacterSharesSlot | src/Trie.ts:14 | after adding only tag1, looking up tag11 answers tag1's id |
| TagIdCaches.TagIdCache.constructor | src/TagIdCache.ts:6 | the cache owns a fresh, empty trie rooted at "" |
| TagIdCaches.TagIdCache.TagToTagId | src/TagIdCache.ts:16-24 | the object's answer is `ResolveTagId` of its trie |
| TagIdCaches.TagIdCache.OnTagAdded | src/TagIdCache.ts:37-42 | the trie becomes `AddTag` of the old one |
| TagIdCaches.TagIdCache.Init | src/TagIdCache.ts:26-35 | the `forEach` loop leaves the trie equal to `InitTags` of the old one |
| TagScanning.SingleCharKind | src/TagScanner.ts:77-89 | exactly `& \| ! ( ) :` are single-character tokens, none of them IDENTIFIER or EOF |
| TagScanning.WhitespaceEnd | src/TagScanner.ts:42-50 | the skipped run is all whitespace and stops at the end or at a non-blank character |
| TagScanning.IdentifierEnd | src/TagScanner.ts:59-68 | the run is all identifier characters and is maximal |
| TagScanning.ScanToken | src/TagScanner.ts:70-93 | the lexeme is the input from the first non-blank position to the new cursor; EOF exactly at the end of input; every other token consumes at least one character |
| TagScanning.Tokens | src/TagScanner.ts:70-74 | the stream of successive calls ends with EOF |
| TagScanning.EofIsSticky | src/TagScanner.ts:71-74 | at the end of input the token is EOF with an empty lexeme, and the next call answers the same |
| TagScanning.SingleCharacterTokens | src/TagScanner.ts:77-89 | `& \| ! ( ) :` give AND, OR, NOT, LPAREN, RPAREN, COLON with a one-character lexeme |
| TagScanning.IdentifierIsMaximal | src/TagScanner.ts:76-91 | any other character starts an IDENTIFIER that keeps that first character and takes the longest following run of identifier characters |
| TagScanning.LexemeHasNoWhitespace | src/TagScanner.ts:42-50 | no lexeme contains whitespace |
| TagScanning.ScanTokenSpelling | src/TagScanner.ts:70-93 | one token accounts exactly for the non-blank text it passes over |
| TagScanning.TokensSpellInput | src/TagScanner.ts:70-93 | the lexemes of all tokens, in order, are the input with its whitespace removed |
| TagScanning.TagScanner.constructor | src/TagScanner.ts:27-30 | both cursors start at 0 |
| TagScanning.TagScanner.MakeToken | src/TagScanner.ts:32-40 | the lexeme is `filter[begin..current]`, and `begin` catches up with `current` |
| TagScanning.TagScanner.SkipWhitespace | src/TagScanner.ts:42-50 | the loop stops where `WhitespaceEnd` says, and `begin` follows |
| TagScanning.TagScanner.Advance | src/TagScanner.ts:52-57 | the next character and one step forward, or "" and no move at the end |
| TagScanning.TagScanner.MakeIdentifier | src/TagScanner.ts:59-68 | the loop stops where `IdentifierEnd` says; the token spans from `begin` |
| TagScanning.TagScanner.NextToken | src/TagScanner.ts:70-93 | the token and the new cursor are `ScanToken` of the old cursor; `begin <= current <= \|filter\|` is kept |
| TagParsing.Next | src/TagScanner.ts:71-74 | advancing moves one token forward, except that on the final EOF the position stays put |
| TagParsing.ParseTokens | src/TagParser.ts:86-94 | a stream that starts with EOF parses to `TrueTag`; any error is one of the fixed syntax messages (round trip: `ParseInvertsPrint`) |
| TagParsing.ParseFilter | src/TagParser.ts:14-18 | scanning then parsing fails only with the fixed syntax messages (blank text: `BlankInputIsTrue`) |
| TagParsing.Primary | src/TagParser.ts:42-56 | `parsePrimary` from a position: progress on success; the only errors are the fixed syntax messages |
| TagParsing.Unary | src/TagParser.ts:59-65 | `parseUnary` from a position: progress on success; only syntax messages |
| TagParsing.BinaryTail | src/TagParser.ts:70-80 | the loop of `parseBinary`: never moves back; only syntax messages |
| TagParsing.Binary | src/TagParser.ts:68-83 | `parseBinary` from a position: progress on success; only syntax messages |
| TagParsing.ParseFrom | src/TagParser.ts:86-94 | `parse`: the only errors are the fixed syntax messages |
| TagParsing.OperandRoundTrip | src/TagParser.ts:42-65 | `parseUnary` reads back the tokens of any operand, ending right after them |
| TagParsing.ChainRoundTrip | src/TagParser.ts:68-83 | `parseBinary` reads back a printed left-associated chain when neither AND, OR nor COLON follows |
| TagParsing.LinksRoundTrip | src/TagParser.ts:71-80 | the loop of `parseBinary` folds a run of operator/operand links to the left |
| TagParsing.ParseInvertsPrint | src/TagParser.ts:42-94 | parsing the printed tokens of every filter the parser can produce (`TrueTag` only at the top) gives that filter back |
| TagParsing.OneLevelLeftAssociative | src/TagParser.ts:68-83 | `a & b \| c` gives `Or(And(a,b),c)` and `a \| b & c` gives `And(Or(a,b),c)` |
| TagParsing.NegationAndGrouping | src/TagParser.ts:42-65 | `!abcd & (efgh \| ijkl)` gives `And(Not(abcd), Or(efgh, ijkl))` |
| TagParsing.MetaTagValueIsAnyToken | src/TagParser.ts:51-53 | after `key:` any token is the value: `a:&` gives `MetaTag(a, &)`, `a:` gives `MetaTag(a, "")` |
| TagParsing.SyntaxErrors | src/TagParser.ts:42-94 | `(a` fails with "Expected closing parenthesis", `a &` with "Expected identifier", `a )` and `a b` with "Expected end of input" |
| TagParsing.BlankInputIsTrue | src/TagParser.ts:86-89 | an empty or all-blank input scans to EOF alone and parses to `TrueTag` |
| TagParsing.TokenSource.constructor | src/TagParser.ts:15 | the scanner as the parser sees it starts at its first token |
| TagParsing.TokenSource.NextToken | src/TagParser.ts:4-6 | each call hands out the next token, and EOF again at the end |
| TagParsing.TagParser.constructor | src/TagParser.ts:14-18 | the scanner delivers `Tokens(filter, 0)`; `current` and `previous` both hold its first token |
| TagParsing.TagParser.Advance | src/TagParser.ts:20-23 | `previous` takes the old current token; the position moves as `Next` says |
| TagParsing.TagParser.Match | src/TagParser.ts:25-31 | consumes the current token exactly when it has the expected type, and reports whether it did |
| TagParsing.TagParser.Expect | src/TagParser.ts:33-39 | consumes a token of the expected type, otherwise fails with the given message and stays where it was |
| TagParsing.TagParser.ParsePrimary | src/TagParser.ts:42-56 | the result and new position are those of `Primary` |
| TagParsing.TagParser.ParseUnary | src/TagParser.ts:59-65 | the result and new position are those of `Unary` |
| TagParsing.TagParser.ParseBinary | src/TagParser.ts:68-83 | the `while` loop computes `Binary`, folding to the left |
| TagParsing.TagParser.Parse | src/TagParser.ts:86-94 | the result is `ParseFrom` at the current position, and the parser stays consistent with its scanner |
| TagParsing.ParseText | src/TagParser.ts:14-18 | `new TagParser(filter).parse()` is `ParseFilter(filter)` |
| TagSql.QueryStartsAndEnds | src/TagSqlBuilder.ts:24-32 | the text starts with `SELECT <select> FROM <from>` and ends with `ORDER BY <sortBy> <sortDirection>` |
| TagSql.BuildQuery | src/TagSqlBuilder.ts:24-32 | `buildQueryFromSelectStatement`; what its text keeps is stated by `QueryStartsAndEnds`, `BuildQueryKeepsSortState` and `BuildQueryKeepsHaving` |
| TagSql.BuildQueryKeepsSortState | src/TagSqlBuilder.ts:24-32 | the sort column and direction can be read back from the end of the text, so different sort states never render alike |
| TagSql.BuildQueryKeepsHaving | src/TagSqlBuilder.ts:24-32 | statements that differ only in their HAVING condition render to different texts |
| TagSql.ApplySortDirective | src/TagSqlBuilder.ts:60-76 | values other than `random`, `oldest` and `newest` leave the sort state alone; only `oldest` and `newest` change the direction |
| TagSql.Lower | src/TagSqlBuilder.ts:81-97 | the only error is a `Tag not found` message; a filter without `sort:` directives leaves the sort state as it was (the full outcome is `LowerFailsOnFirstMiss` and `LowerAppliesDirectives`) |
| TagSql.LowerPair | src/TagSqlBuilder.ts:88-91 | the same for the two operands of AND/OR, the left one lowered first |
| TagSql.BuildTagFilter | src/TagSqlBuilder.ts:104-132 | fails only with a `Tag not found` message; without directives the order is timestamp/asc (the full outcome is `BuildTagFilterOutcome`) |
| TagSql.LowerFailsOnFirstMiss | src/TagSqlBuilder.ts:81-97 | lowering fails exactly when a looked-up leaf is missing from the cache, with the message of the first such leaf from the left, whatever the sort state |
| TagSql.LowerAppliesDirectives | src/TagSqlBuilder.ts:60-97 | a successful lowering leaves the sort state that the `sort:` directives produce, applied in traversal order |
| TagSql.LastDirectiveWins | src/TagSqlBuilder.ts:60-76 | applying directives in order gives the column of the last `random`/`oldest`/`newest` and the direction of the last `oldest`/`newest` |
| TagSql.BuildTagFilterOutcome | src/TagSqlBuilder.ts:104-132 | the query fails exactly on a cache miss, with the first miss's message; otherwise its sort fields are those the last directives chose and HAVING is the lowered condition |
| TagSql.NewestFirstExample | src/TagSqlBuilder.ts:104-132 | `tag1 & sort:newest` gives `(<tag1 condition> AND 1=1)` ordered by timestamp desc |
| TagSql.RandomKeepsDirectionExample | src/TagSqlBuilder.ts:63-65 | `sort:newest & sort:random` orders randomly and keeps the desc direction |
| TagSql.MissingTagExample | src/TagSqlBuilder.ts:126-131 | with an empty cache `!tag9 \| sort:oldest` fails with `Tag not found: tag9` |
| TagSql.TagSqlBuilder.constructor | src/TagSqlBuilder.ts:50-58 | the sort state starts at timestamp/asc |
| TagSql.TagSqlBuilder.ParseMetaTag | src/TagSqlBuilder.ts:60-79 | the condition and the new sort state are those of `Lower` on the meta tag |
| TagSql.TagSqlBuilder.SqlFilterConditions | src/TagSqlBuilder.ts:81-97 | the condition and the new sort state are those of `Lower`; a failed lookup ends the traversal |
| TagSql.TagSqlBuilder.SetupParse | src/TagSqlBuilder.ts:99-102 | the sort state is reset to timestamp/asc |
| TagSql.TagSqlBuilder.BuildTagFilterQuery | src/TagSqlBuilder.ts:104-132 | the answer is `BuildTagFilter` of the configuration, the cache and the filter, whatever the sort state before the call |
| SampleTagSql.SerializersDifferByWhereSlot | sample/TagSqlBuilder.ts:39-52 | on a src statement with non-empty GROUP BY and HAVING, the sample text is the src text with one more space after the joins |
| SampleTagSql.EmptySlotsKeepTheirSpaces | sample/TagSqlBuilder.ts:41-51 | missing or empty joins, WHERE, GROUP BY, HAVING and sort leave only the five separating spaces |
| SampleTagSql.SampleBuildQuery | sample/TagSqlBuilder.ts:39-52 | the sample's `buildQueryFromSelectStatement`; stated by `SerializersDifferByWhereSlot`, `EmptySlotsKeepTheirSpaces` and `SampleKeepsSortState` |
| SampleTagSql.SampleKeepsSortState | sample/TagSqlBuilder.ts:47-49 | with a sort column set, the column and the direction (desc by default) can be read back from the end of the text |
| SampleTagSql.BuildListFilteredEntities | sample/TagSqlBuilder.ts:137-167 | fails only with a `Tag not found` message; on success there is no WHERE and joins and HAVING are set |
| SampleTagSql.OrderDefaultsToDescending | sample/TagSqlBuilder.ts:47-49 | ORDER BY without a direction is descending |
| SampleTagSql.EntityTagsQueryText | sample/TagSqlBuilder.ts:169-195 | the text of the entity-tags query: one LEFT join, the WHERE clause, three empty trailing slots |
| SampleTagSql.AddTagQueryText | sample/TagSqlBuilder.ts:197-216 | the text of the entity-tag lookup: an empty join slot, the WHERE clause, three empty trailing slots |
| SampleTagSql.TagSqlBuilder.constructor | sample/TagSqlBuilder.ts:75-83 | the sort state starts at timestamp/asc |
| SampleTagSql.TagSqlBuilder.ParseMetaTag | sample/TagSqlBuilder.ts:85-106 | the condition and the new sort state are those of the src `Lower` on the meta tag |
| SampleTagSql.TagSqlBuilder.SqlFilterConditions | sample/TagSqlBuilder.ts:108-130 | the same lowering as the src builder: condition and sort state are `TagSql.Lower` |
| SampleTagSql.TagSqlBuilder.SetupParse | sample/TagSqlBuilder.ts:132-135 | the sort state is reset to timestamp/asc |
| SampleTagSql.TagSqlBuilder.BuildListFilteredEntitiesQuery | sample/TagSqlBuilder.ts:137-167 | the statement of the src `buildTagFilterQuery` with every optional field set and no WHERE, whatever the sort state before the call |
| SampleTagSql.TagSqlBuilder.BuildListEntityTagsQuery | sample/TagSqlBuilder.ts:169-195 | always succeeds; no GROUP BY, HAVING or sort |
| SampleTagSql.TagSqlBuilder.BuildAddTagToEntityQuery | sample/TagSqlBuilder.ts:197-216 | always succeeds; no joins, GROUP BY, HAVING or sort |

## Left out

- Strings are sequences of Unicode code points, while JavaScript strings index UTF-16 code units. A character outside the Basic Multilingual Plane is one `char` here but two code units in the source, which `advance()` takes one at a time and `/[\w\.\/]/` rejects. So TagScanning.Tokens, TagParsing.ParseFilter and Tries.Slot differ from the source on such text: `ParseFilter("😀")` is `Tag("😀")` here, while the source scans two lone-surrogate identifiers and fails with "Expected end of input"; and `Slot("😀😀")` equals `Slot("😀")` here, while the source stores the two keys apart.
- The regular-expression classes `\s` and `\w` of src/TagScanner.ts are ASCII predicates here: space, tab, line feed, vertical tab, form feed and carriage return; letters, digits and `_`, plus `.` and `/`. Unicode semantics are not modelled.
- TagParsing.TagParser.constructor: the optional `Scanner` class parameter (any `BaseTagScanner`) is not modelled. The parser always reads the tokens of the `TagScanner`, given to it as the sequence `Tokens(filter, 0)` in a `TokenSource`, so the lazy interleaving of scanning and parsing is not captured. The `TagScanner` object is proved separately to produce `ScanToken` call by call.
- Thrown errors are `Result` values carrying the same message. What the parser's fields hold after an error is left unspecified: its methods promise only their invariant on failure. (The builders' methods do state their sort fields on failure.)
- The "Unknown error" branch of sample/TagSqlBuilder.ts is not modelled. Every throw in the core is an `Error`, so the branch cannot be taken.
- The success/message/sql/stmt result records become `Result<SelectStatement, string>`.
- The meaning of a HAVING condition inside a database is not modelled: the model builds the SQL text but has no evaluator for conditions.
- The unused `UpdateStatement` type and the `Parameters` type parameter of sample/TagSqlBuilder.ts are not modelled. The same goes for the `TokenType`/`tokenType` naming split: the model has one token-kind datatype, whose field is named `kind`.
- TagParsing.OneLevelLeftAssociative, NegationAndGrouping, MetaTagValueIsAnyToken and SyntaxErrors are stated on token sequences, not on filter text. The scanner lemmas relate text and tokens.
- TagSql.Statement: the fixed skeleton (select list, `u` alias, INNER join, GROUP BY on the id column) is given by its definition only, with no separate lemma.
- Tries.Node.Insert, TagIdCaches.AddTag and TagIdCaches.InitTags: their own contracts only keep the root prefix (and, for the last two, well-formedness). What they store is stated by the lemmas about lookups after them.
