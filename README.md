# Knowledge base with retrieval-augmented chat: a Dafny model

The system is a personal knowledge base. Its knowledge items come from a
spreadsheet and live in one SQLite table. A retrieval-augmented chat service
indexes the items in a vector store and answers questions from the chunks it
retrieves. A browser client keeps a store of "virtual desktops" of links and
fetches favicons for those links.

This project models six parts of that system in Dafny and proves properties
about them. There is one module per source file, plus two shared modules:

| module | file | models |
|---|---|---|
| `Wrappers` | wrappers.dfy | `Option` and `Result` |
| `Text` | text.dfy | JavaScript white space, `trim()`, prefixes, joining, substrings |
| `SqlLike` | sql_like.dfy | SQLite's `LIKE` with `%` and `_`, ASCII-only case folding |
| `KnowledgeTable` | knowledge_table.dfy | `server/database.js`: the `knowledge` table |
| `RagService` | rag_service.dfy | `server/rag-service.js`: the vector-store lifecycle, `search`, the prompt, `chat` |
| `ExcelToJson` | excel_to_json.dfy | `server/excel-to-json.js`: the cleaners, the per-sheet rules, the counters and the category tally |
| `ImportToDb` | import_to_db.dfy | `server/import-to-db.js`: batches of 50 and the summed totals |
| `Favicon` | favicon.dfy | `client/src/utils/favicon.js`: favicon candidates, the first one that loads, the cache, `normalizeUrl` |
| `Desktops` | desktops.dfy | `client/src/stores/desktops.js`: the desktop store |

## How the source becomes the model

Code that changes state in place is modelled as a class. The SQLite table is
`KnowledgeTable.Database`: its rows in rowid order, the AUTOINCREMENT sequence
and a logical clock that stands for `CURRENT_TIMESTAMP`. The RAG service is
`RagService.RagService`: the in-memory index and the snapshot directory. The
favicon cache and the desktop store are classes too. Each method's `ensures`
gives the whole new state, and the class invariant `Valid()` is preserved.

The loops of the source are methods with loop invariants:
- the chunk loop of `buildVectorStore`;
- the row loops and the tally loop of the spreadsheet script;
- the batching and import loops;
- `getValidFavicon`.

Each such method is proved against a recursive specification function. The
properties are then proved about that function.

Code that only computes becomes functions and lemmas:
- the cleaners and the per-sheet rules;
- the rendering of an item;
- the prompt, and the assembly of the chat answer;
- the favicon URLs.

Libraries whose code is not part of the system become function-typed
parameters, so nothing is assumed about them:
- the text splitter, the vector store's similarity search and the chat model in `RagService`;
- the bulk endpoint in `ImportToDb`;
- the URL parser and the image check in `Favicon`;
- `Date.now()` in `Desktops`.

Three consequences of the code as written are proved:

- **Rebuilding on an empty table.** `RagService.RagService.Rebuild` and `RagService.RebuildOnEmptyTable` deal with `rebuildVectorStore` on an empty table. It deletes the snapshot directory. `buildVectorStore` then returns early, so the previous in-memory index stays in use and nothing is saved.
- **Chat with no data.** On a fresh service whose table is empty and which has no snapshot, `chat` fails with "not initialized" (`RagService.ChatOnEmptyTable`). It does not give the canned "no information" answer. That answer only comes from an index that returns no hits.
- **Removing a desktop before the current one.** `removeDesktop` only pulls the current index back when it points past the end. Removing a desktop in front of the current one therefore changes which desktop is on show: it becomes the one that followed (`Desktops.RemoveBeforeCurrentShows`).

## Model

| member | source | states |
|---|---|---|
| `RagService.RagService.Create` | server/rag-service.js:14-31 | Fails with a missing-key error exactly when the API key is absent or empty. Otherwise it gives a new service with no in-memory index and the snapshot directory as found. |
| `RagService.RagService.constructor` | server/rag-service.js:28-30 | A new service has no in-memory index. |
| `RagService.Render` | server/rag-service.js:70-76 | The rendered item is the five labelled lines (Título, Categoría, Contenido, Palabras clave, URLs, with missing fields as ''), trimmed. It is a prefix of the labelled lines, only white space is cut from their end, it has no white space at either end, and everything up to the `URLs:` label survives. |
| `RagService.LabelledShape` | server/rag-service.js:70-75 | The labelled lines start with the non-blank `T` of `Título:`. The block up to `URLs:` is a non-empty prefix of them that ends in a non-blank character. |
| `RagService.RenderCarriesFields` | server/rag-service.js:70-76 | The indexed text of an item holds its title, category, content and keywords (the `Labelled` lines survive trimming up to the `URLs:` label). |
| `RagService.TrimAroundLines` | server/rag-service.js:70-76 | Trimming the template, with its leading newline and trailing indentation, is the same as removing white space from the end of the lines. |
| `RagService.ItemDocuments` | server/rag-service.js:78-85 | An item gives one document per chunk of its rendered text, in chunk order. Each document carries that item's `{id, titulo, categoria}`. |
| `RagService.DocumentProvenance` | server/rag-service.js:69-88 | Every indexed document carries the metadata of one of the rows. |
| `RagService.DocumentCoverage` | server/rag-service.js:69-88 | Every chunk of every row is among the indexed documents, under that row's metadata. |
| `RagService.RagService.Build` | server/rag-service.js:52-103 | With no rows, returns early and changes neither the in-memory index nor the snapshot. If embedding fails, neither changes. Otherwise the index of the per-row chunk lists, concatenated in row order, becomes the in-memory index, and that same index is saved as the snapshot. |
| `RagService.RagService.Initialize` | server/rag-service.js:33-50 | With a snapshot present, it loads it and does not build. Without one, it builds. It never does both. |
| `RagService.RagService.Rebuild` | server/rag-service.js:105-112 | Deletes the snapshot and then builds. On an empty table this leaves no snapshot while the old in-memory index stays. |
| `RagService.RebuildOnEmptyTable` | server/rag-service.js:105-112 | After a build over rows and a rebuild over an empty table, the in-memory index is still that of the first build and the snapshot is gone. |
| `RagService.RagService.Search` | server/rag-service.js:114-131 | Fails as "not initialized" without an index, and fails when the similarity search rejects. Otherwise it gives the hits in the index's order and number, each as `{content, metadata, score}`. |
| `RagService.RagService.Chat` | server/rag-service.js:164-200 | Search failures pass through. With no hits it gives the canned answer, with no sources, no context and no generation call. Otherwise it generates once, from k = 3 hits. Its sources are the distinct ids, resolved with the missing ones dropped, and its context is a preview of every hit. |
| `RagService.ChatOnEmptyTable` | server/rag-service.js:164-174 | On a fresh service with an empty table and no snapshot, `chat` fails as "not initialized" rather than giving the canned answer. |
| `RagService.Contents` | server/rag-service.js:141 | The context block lists the hits' contents in hit order. |
| `RagService.PromptCarriesContext` | server/rag-service.js:139-145 | The user prompt contains every retrieved chunk and the question. |
| `RagService.Request` | server/rag-service.js:139-155 | The chat request uses gpt-3.5-turbo with the system prompt, temperature 0.7 and 500 tokens. Its user message holds the question and every retrieved chunk. |
| `RagService.SourceIds` | server/rag-service.js:180 | One source id per hit, in hit order. |
| `RagService.FirstIndex` | server/rag-service.js:180 | The position where a value first appears. |
| `RagService.Distinct` | server/rag-service.js:180 | `[...new Set(ids)]`: the same values as the input, each exactly once, in order of first appearance. |
| `RagService.Resolve` | server/rag-service.js:183-186 | At most one source per id. A row is a source exactly when some id resolves to it. |
| `RagService.ResolveConcat` | server/rag-service.js:183-186 | Dropping unresolved ids keeps the order: resolving a concatenation concatenates the results. |
| `RagService.ResolveAllFound` | server/rag-service.js:183-186 | When every id resolves, the sources are the looked-up rows, one per id, in id order. |
| `RagService.Preview` | server/rag-service.js:192 | A preview is the first min(n, 200) characters of the content followed by `...`. |
| `RagService.Previews` | server/rag-service.js:191-194 | One preview per hit, each with that hit's score. |
| `KnowledgeTable.Database.constructor` | server/database.js:30-41 | A new table is empty and has never handed out an id. |
| `KnowledgeTable.Database.Add` | server/database.js:58-74 | A NULL `contenido` fails the NOT NULL constraint and leaves the table and the id sequence unchanged. Otherwise it appends one row with an id greater than every id ever assigned, and the row is then found by that id. The result is `{id, ...data}`: the new id, unless the caller's data carries its own `id`, which wins, together with the input fields. |
| `KnowledgeTable.SpreadId` | server/database.js:69 | `{id, ...data}` on the `id` key: the caller's own `id` when it has one, otherwise the given id. |
| `KnowledgeTable.Database.GetAll` | server/database.js:76-88 | Every row exactly once, each as often as it is stored, newest first. |
| `KnowledgeTable.Database.GetById` | server/database.js:90-102 | The row with that id, or absent exactly when no row has it. |
| `KnowledgeTable.Database.GetByCategory` | server/database.js:104-116 | Exactly the rows of that category, each as often as it is stored, newest first. |
| `KnowledgeTable.Database.Search` | server/database.js:118-135 | Exactly the rows whose `titulo`, `contenido` or `pclave` is LIKE `%term%` (`SearchMatch`), each as often as it is stored, newest first. A NULL field never matches. |
| `KnowledgeTable.SearchMatch` | server/database.js:121-124 | The WHERE clause of `searchKnowledge`. An empty term gives the pattern `%%`, which matches every row. |
| `KnowledgeTable.SearchIsSubstringSearch` | server/database.js:121-124 | `SearchMatch`, the WHERE clause of the search, through `LikeField` on the nullable columns: for a term without `%` or `_`, a row matches exactly when one of the three fields contains the term, ignoring the case of ASCII letters. A NULL field never matches. |
| `KnowledgeTable.Database.Update` | server/database.js:137-154 | For an unknown id: zero changes and nothing changes. For a known id: a NULL `contenido` fails with the table unchanged; otherwise it reports one change. The row then holds all six new fields (absent ones NULL) and a refreshed `updated_at`, and keeps its id and `created_at`. Every other row is unchanged. The reported id is the caller's own `id` when the data has one. |
| `KnowledgeTable.Database.Delete` | server/database.js:156-168 | Removes exactly the row with that id, reporting one change, or zero changes when there is none. The remaining rows keep their order. |
| `KnowledgeTable.Database.GetCategories` | server/database.js:170-182 | Each non-NULL category exactly once, in ascending code-point order. |
| `KnowledgeTable.Categories` | server/database.js:171 | The distinct non-NULL categories of the rows, strictly ascending. |
| `KnowledgeTable.InsertCategory` | server/database.js:171 | Adding a category to a strictly ascending list keeps it strictly ascending, and adds exactly that value. |
| `KnowledgeTable.StrictlyAscendingDistinct` | server/database.js:171 | A strictly ascending list has no repeated category. |
| `KnowledgeTable.BeforeIrreflexive` | server/database.js:171 | The BINARY collation order is irreflexive. |
| `KnowledgeTable.BeforeTransitive` | server/database.js:171 | The BINARY collation order is transitive. |
| `KnowledgeTable.BeforeTotal` | server/database.js:171 | Of two different strings, one sorts before the other. |
| `KnowledgeTable.FindRow` | server/database.js:91 | `WHERE id = ?` finds a row with that id, or reports that none has it. |
| `KnowledgeTable.FindUniqueRow` | server/database.js:91 | With unique ids, the row found for an id is the one that carries it. |
| `KnowledgeTable.Filter` | server/database.js:105 | A WHERE clause keeps exactly the rows that satisfy it, each as often as it occurs, and drops the others. |
| `KnowledgeTable.FilterConcat` | server/database.js:105 | A WHERE clause keeps the relative order of the rows: filtering a concatenation concatenates the filtered parts. |
| `KnowledgeTable.FilterNewestFirst` | server/database.js:105 | The rows a WHERE clause keeps stay in newest-first order. |
| `KnowledgeTable.Reverse` | server/database.js:77 | Reading the rows backwards. |
| `KnowledgeTable.ReverseMultiset` | server/database.js:77 | Reading the rows backwards keeps every row, as often as it is stored. |
| `KnowledgeTable.RemoveAtMembers` | server/database.js:157 | With increasing ids, deleting one row leaves exactly the rows with another id. |
| `KnowledgeTable.RemoveAtOrdered` | server/database.js:157 | Deleting a row keeps ids and creation times increasing along the rowid order. |
| `SqlLike.FoldAscii` | server/database.js:121 | LIKE folds only the 26 ASCII capitals to lower case. |
| `SqlLike.Like` | server/database.js:121-124 | `s LIKE p`. The empty pattern matches only the empty text, and a pattern without `%` only matches texts of its own length. |
| `SqlLike.PercentMatchesAll` | server/database.js:124 | `%` alone matches every text. |
| `SqlLike.TrailingPercent` | server/database.js:124 | A pattern `t%` matches exactly the texts that start with `t`, ignoring ASCII case. |
| `SqlLike.LeadingPercent` | server/database.js:124 | A pattern `%q` matches exactly when `q` matches some suffix. |
| `SqlLike.SubstringPattern` | server/database.js:124 | For `t` without wildcards, `%t%` matches exactly the texts containing `t`, ignoring ASCII case. |
| `Text.TrimStart` | server/excel-to-json.js:25 | The result is no longer than the input and does not start with white space. |
| `Text.TrimStartCut` | server/excel-to-json.js:25 | The result is a suffix of the input, and every character it drops is white space. |
| `Text.TrimEnd` | server/excel-to-json.js:25 | The result is no longer than the input and does not end with white space. |
| `Text.TrimEndCut` | server/excel-to-json.js:25 | The result is a prefix of the input, and every character it drops is white space. |
| `Text.Trim` | server/excel-to-json.js:25 | `trim()`: no longer than the input, with no white space at either end. |
| `Text.TrimCut` | server/excel-to-json.js:25 | `trim()` keeps one contiguous piece of the input and drops only white space before and after it. |
| `Text.TrimIdempotent` | server/excel-to-json.js:25 | Trimming twice is trimming once. |
| `ExcelToJson.Collapse` | server/excel-to-json.js:25 | `replace(/\s+/g, ' ')` never lengthens the text, and it keeps whether the text starts with white space. |
| `ExcelToJson.CollapseShape` | server/excel-to-json.js:25 | After collapsing, there are no two adjacent spaces and no white space other than plain spaces. A text ending in a visible character still does. |
| `ExcelToJson.CollapseVisible` | server/excel-to-json.js:25 | Collapsing keeps every visible character, in order. |
| `ExcelToJson.Words` | server/excel-to-json.js:25 | The white-space separated words of a text: each is non-empty and holds no white space. |
| `ExcelToJson.WordsOfTrim` | server/excel-to-json.js:25 | Trimming a text keeps its words. |
| `ExcelToJson.CollapseWords` | server/excel-to-json.js:25 | On a text with no white space at either end, collapsing gives its words joined by single spaces. |
| `ExcelToJson.TrimVisible` | server/excel-to-json.js:25 | Trimming keeps every visible character, in order. |
| `ExcelToJson.CleanText` | server/excel-to-json.js:23-26 | A missing value gives ''. Otherwise the result is the words of the text joined by single spaces. So it has no white space at either end, no two consecutive white-space characters and only plain spaces, and keeps exactly the input's visible characters, in order. |
| `ExcelToJson.CleanTextIdempotent` | server/excel-to-json.js:23-26 | Cleaning a cleaned text changes nothing. |
| `ExcelToJson.SplitKeywords` | server/excel-to-json.js:32 | `split(/[,;]/)` gives at least one piece, and no piece holds a separator. |
| `ExcelToJson.SplitKeywordsSpells` | server/excel-to-json.js:32 | There is one piece more than there are separators, and the pieces laid end to end are the input without its separators. |
| `ExcelToJson.SplitNoSeparator` | server/excel-to-json.js:32 | A text without `,` or `;` splits into itself alone. |
| `ExcelToJson.SplitAtFirstSeparator` | server/excel-to-json.js:32 | `split` cuts at the first separator: the text before it is the first piece, followed by the pieces of the text after it. With `SplitNoSeparator` this fixes every piece. |
| `ExcelToJson.TrimEach` | server/excel-to-json.js:33 | Every piece trimmed, in place. |
| `ExcelToJson.NonEmpty` | server/excel-to-json.js:34 | Exactly the non-empty pieces are kept, each as often as it occurs. |
| `ExcelToJson.NonEmptyConcat` | server/excel-to-json.js:34 | The filter keeps the order of the pieces: filtering a concatenation concatenates the filtered parts. |
| `ExcelToJson.ConcatNonEmpty` | server/excel-to-json.js:34 | Dropping empty pieces does not change what the pieces spell end to end. |
| `ExcelToJson.KeywordList` | server/excel-to-json.js:31-34 | Every keyword is non-empty, trimmed and free of `,` and `;`. There are at most one more keywords than separators. Ignoring white space, the keywords laid end to end spell the input without its separators. Which keywords they are, in order, is fixed by `KeywordListAtSeparator` and `KeywordListOfPiece`. |
| `ExcelToJson.PieceKeyword` | server/excel-to-json.js:33-34 | What one separator-free piece contributes: its trimmed text, or nothing when that is blank. |
| `ExcelToJson.KeywordListOfPiece` | server/excel-to-json.js:31-34 | A text without separators gives its trimmed self as its only keyword, or no keyword when it is blank. |
| `ExcelToJson.KeywordListAtSeparator` | server/excel-to-json.js:31-34 | The keywords of a text are those of the piece before its first separator, then those of the text after it. With `KeywordListOfPiece` this fixes the whole list. |
| `ExcelToJson.CleanKeywords` | server/excel-to-json.js:29-36 | '' exactly when the value is missing or holds no keyword. Otherwise the result is the input's keywords joined with `, `, and splitting it again and trimming gives back exactly that keyword list, so it holds no `;` and only non-empty, trimmed keywords. Ignoring separators and white space, the result spells the input. |
| `ExcelToJson.VisibleStripJoin` | server/excel-to-json.js:35 | Ignoring separators and white space, keywords joined with `, ` spell the keywords end to end. |
| `ExcelToJson.PiecesOfJoin` | server/excel-to-json.js:31-35 | Splitting good keywords joined with `, ` and trimming the pieces gives the keywords back. |
| `ExcelToJson.KeywordsFixpoint` | server/excel-to-json.js:31-35 | A list of good keywords, once joined, cleans back to itself. |
| `ExcelToJson.CleanKeywordsIdempotent` | server/excel-to-json.js:29-36 | Cleaning cleaned keywords changes nothing. |
| `ExcelToJson.SabiduriaRule` | server/excel-to-json.js:44-58 | A row is emitted exactly when its cleaned description is longer than 10, and is skipped otherwise. The item's content is the cleaned description, with the same visible text as the cell; its category is 'Sabiduría'; its keywords are the cleaned keyword cell; it has no title and no urls. |
| `ExcelToJson.HttpOnly` | server/excel-to-json.js:80 | Keeps exactly the candidates that are non-empty and start with 'http'. |
| `ExcelToJson.HttpOnlyMultiset` | server/excel-to-json.js:80 | Each http candidate is kept as often as it occurs, and nothing else is kept. |
| `ExcelToJson.HttpOnlyConcat` | server/excel-to-json.js:80 | The filter keeps the order of the candidates: filtering a concatenation concatenates the filtered parts. |
| `ExcelToJson.JoinedUrls` | server/excel-to-json.js:80 | null exactly when no candidate starts with 'http'. Otherwise the result is the http candidates, in order, joined by ', '; it starts with 'http' and contains every such candidate. |
| `ExcelToJson.HttpJoinFacts` | server/excel-to-json.js:80 | The joined http candidates start with 'http' when there are any, are '' otherwise, and contain each candidate. |
| `ExcelToJson.LongerText` | server/excel-to-json.js:75-77 | The extra description replaces the main text only when it is strictly longer. The result is never shorter than the main text. |
| `ExcelToJson.CienciaRule` | server/excel-to-json.js:67-93 | Emitted exactly when the main text is longer than 10; otherwise skipped. The content is the longer of the main text and the extra description. The title is the main text exactly when it is shorter than 100. There are no keywords. The urls are `JoinedUrls` of Columna12 and Columna2, in that order. |
| `ExcelToJson.LiberalismoRule` | server/excel-to-json.js:102-123 | Emitted exactly when column C is longer than 20. Skipped exactly when it is non-empty but not longer. Ignored exactly when it is empty. The content is column C and the keywords are the cleaned column D; there is no title; urls is column E exactly when E starts with 'http'. |
| `ExcelToJson.PsicologiaRule` | server/excel-to-json.js:132-148 | Emitted exactly when the text is longer than 10; otherwise skipped. The content is that text. The category is the row's own when non-empty, else 'Psicología'. No title, keywords or urls. |
| `ExcelToJson.PairRule` | server/excel-to-json.js:151-228 | The rule the 'internet' and 'Feminismo, idealismo, comunismo' sheets share. Emitted exactly when column B is longer than 20. Skipped exactly when it is non-empty but not longer. Ignored when it is empty. The content is column B, the keywords are the cleaned column C, and there is no title and no urls. |
| `ExcelToJson.InternetRule` | server/excel-to-json.js:151-176 | The 'internet' sheet: column B longer than 20 is emitted as content under 'Internet'; a shorter non-empty one is a skip. |
| `ExcelToJson.FrasesRule` | server/excel-to-json.js:178-201 | Emitted exactly when column B is longer than 5; otherwise skipped. The content is column B, under 'Frases célebres' with the fixed keywords, and with no title or urls. |
| `ExcelToJson.FeminismoRule` | server/excel-to-json.js:203-228 | The 'Feminismo, idealismo, comunismo' sheet: column B longer than 20 is emitted as content under 'Feminismo e Ideología'; a shorter non-empty one is a skip. |
| `ExcelToJson.FirstSubstantial` | server/excel-to-json.js:246-248 | The first cell whose trimmed text is longer than 20, or none when no cell is. |
| `ExcelToJson.OtherRule` | server/excel-to-json.js:244-263 | Rows of the other sheets are never counted as skipped. They are emitted exactly when a substantial cell exists and its cleaned text is longer than 20. That text is the content, under the sheet's name, with no title, keywords or urls. |
| `ExcelToJson.Emitted` | server/excel-to-json.js:44-58 | The items a sheet's rows produce, in row order; never more than the rows. |
| `ExcelToJson.OutcomesPartitionRows` | server/excel-to-json.js:44-58 | Every row is emitted, skipped or ignored, exactly one of these. |
| `ExcelToJson.RejectedRowsAreSkipped` | server/excel-to-json.js:55-57 | On sheets that never ignore a row, every row not emitted is counted as skipped. |
| `ExcelToJson.NoIgnored` | server/excel-to-json.js:55-57 | A rule that never ignores a row ignores none of a sheet. |
| `ExcelToJson.EmittedAccepted` | server/excel-to-json.js:46 | A rule whose items are accepted at a threshold makes every emitted item accepted. |
| `ExcelToJson.ProcessRows` | server/excel-to-json.js:44-58 | The row loop appends exactly the emitted items, in row order. It adds their number to `totalProcessed` and the number of skipped rows to `skipped`. |
| `ExcelToJson.ProcessSheet` | server/excel-to-json.js:40-59 | A missing sheet adds nothing; a present one is processed row by row. |
| `ExcelToJson.ProcessNamedSheets` | server/excel-to-json.js:38-230 | The seven named sheets, in source order. `totalProcessed` equals the number of items. |
| `ExcelToJson.ProcessOtherSheets` | server/excel-to-json.js:233-268 | For a list of sheet names and a rule per name, the loop appends each sheet's items in list order and adds their number to the total. `Convert` runs it on the seven other sheets. |
| `ExcelToJson.Convert` | server/excel-to-json.js:15-268 | `knowledgeData` is the items of the named sheets followed by those of the other sheets. `totalProcessed` equals its length. `skipped` counts the skips. Every item has non-empty cleaned content longer than 5 and a category. |
| `ExcelToJson.ScriptItemsAccepted` | server/excel-to-json.js:46-252 | Every item of every sheet passed its sheet's length threshold. |
| `ExcelToJson.NamedItemsAccepted` | server/excel-to-json.js:46-217 | The items of the named sheets are accepted. |
| `ExcelToJson.OtherItemsAccepted` | server/excel-to-json.js:252 | The items of the other sheets are accepted. |
| `ExcelToJson.FindLabel` | server/excel-to-json.js:285 | The tally entry of a label, or none when there is no entry for it. |
| `ExcelToJson.Label` | server/excel-to-json.js:284 | `item.categoria || 'Sin categoría'`: never empty, and the item's own category whenever it has one. |
| `ExcelToJson.TallyBump` | server/excel-to-json.js:284-285 | Incrementing an existing label's count keeps the tally exact for one more item. |
| `ExcelToJson.TallyAppend` | server/excel-to-json.js:284-285 | Adding a new label with count 1 keeps the tally exact for one more item. |
| `ExcelToJson.NewKeyUncounted` | server/excel-to-json.js:284-285 | A label that has no entry yet has not been seen among the items counted so far. |
| `ExcelToJson.TallyCategories` | server/excel-to-json.js:282-286 | Each label, the category or 'Sin categoría', is listed once. Its count is the number of items with that label, and is positive. Every item's label is listed. The counts sum to the number of items. |
| `ExcelToJson.InsertByCount` | server/excel-to-json.js:288-289 | Inserting one entry keeps every entry and adds exactly that one. |
| `ExcelToJson.InsertKeepsDescending` | server/excel-to-json.js:288-289 | Inserting into a list in descending count order keeps it descending. |
| `ExcelToJson.SortByCount` | server/excel-to-json.js:288-289 | The same entries, in descending count order. |
| `ImportToDb.SplitBatches` | server/import-to-db.js:47-52 | The batches laid end to end are the input. Each batch is non-empty and at most 50 long, all but the last are exactly 50, and there are ceil(n/50) of them. |
| `ImportToDb.ImportBatch` | server/import-to-db.js:18-44 | An ok response gives the server's counts. A response that is not ok, or a request that throws, counts the whole batch as errors, with nothing imported or duplicated. |
| `ImportToDb.Requests` | server/import-to-db.js:24-28 | One request per batch, in batch order, each sending its batch as `data` with `skipDuplicates: true`. |
| `ImportToDb.Results` | server/import-to-db.js:61-62 | One result per batch. |
| `ImportToDb.SumAppend` | server/import-to-db.js:62-64 | One more batch result adds its counts to the running totals, missing counts as 0. |
| `ImportToDb.OrZero` | server/import-to-db.js:62-64 | `x || 0` on a count: the count when the server reported one, otherwise 0. |
| `ImportToDb.ImportAll` | server/import-to-db.js:57-71 | The loop sends exactly those requests, in order. Each total is the sum of the per-batch counts, missing counts as 0. |
| `ImportToDb.AllFailedAreErrors` | server/import-to-db.js:33-42 | When no request succeeds, every item is an error and nothing is imported or duplicated. |
| `ImportToDb.ProcessedCountsEveryItem` | server/import-to-db.js:78 | When every ok report accounts for each item of its batch once, the processed total (imported + duplicates + errors) is the number of items. |
| `ImportToDb.Processed` | server/import-to-db.js:78 | The processed figure is at least each of its three totals, and 0 only when all three are. |
| `ImportToDb.Import` | server/import-to-db.js:47-71 | The whole script: batching, the requests and the totals. If every request fails, the totals are 0, 0 and the number of items. |
| `Favicon.AbsoluteUrl` | client/src/utils/favicon.js:10 | Starts with 'http'. It is the URL itself exactly when the URL already starts with 'http', and otherwise has 'https://' in front. |
| `Favicon.GetDomainFromUrl` | client/src/utils/favicon.js:8-16 | null for a missing URL. Otherwise it is the hostname the URL parser finds in the absolute form of the URL. |
| `Favicon.Services` | client/src/utils/favicon.js:25-37 | Exactly the four services: google, duckduckgo, faviconIO and direct. |
| `Favicon.BuiltUrlNamesDomain` | client/src/utils/favicon.js:25-37 | A URL made of `https://`, a host part, the domain and a tail starts with `https://` and contains the domain. |
| `Favicon.ServicesNameDomain` | client/src/utils/favicon.js:25-37 | Every service URL is an https URL that contains the domain. |
| `Favicon.GetFaviconUrl` | client/src/utils/favicon.js:21-40 | null exactly when there is no non-empty domain. Otherwise an https URL that contains the domain. |
| `Favicon.UnknownServiceIsGoogle` | client/src/utils/favicon.js:39 | An unknown service key gives the Google URL. |
| `Favicon.GetFaviconUrls` | client/src/utils/favicon.js:45-55 | [] exactly when there is no non-empty domain. Otherwise exactly four https candidates: the google, duckduckgo and direct service URLs, then `https://<domain>/apple-touch-icon.png`, in that order. |
| `Favicon.CandidatesMatchServices` | client/src/utils/favicon.js:45-55 | The first three candidates are the google, duckduckgo and direct service URLs, in that order, and the fourth is the domain's `apple-touch-icon.png`. |
| `Favicon.FirstValid` | client/src/utils/favicon.js:78-85 | A chosen candidate is in the list and loads. None means no candidate loads. A failure names a candidate whose check threw. |
| `Favicon.FirstLoadingIsChosen` | client/src/utils/favicon.js:78-85 | The first candidate that loads, after candidates that all failed to load, is the one returned. |
| `Favicon.GetValidFavicon` | client/src/utils/favicon.js:75-86 | The early-return loop gives the first candidate in list order that loads, null when none does, and stops at a check that throws. |
| `Favicon.Computed` | client/src/utils/favicon.js:100-108 | What a cache miss stores is null or a candidate of that URL that loads. |
| `Favicon.FaviconCache.constructor` | client/src/utils/favicon.js:92 | The cache starts empty. |
| `Favicon.FaviconCache.GetFavicon` | client/src/utils/favicon.js:94-109 | A cached URL answers from the cache without recomputing or changing it. Otherwise the computed favicon, or null when the lookup throws, is stored for that URL and returned. Every cached favicon stays a loaded candidate of its URL. |
| `Favicon.FaviconCache.Preload` | client/src/utils/favicon.js:111-114 | Fills the cache for a URL not yet seen, and changes nothing for one already cached. |
| `Favicon.FaviconCache.ClearCache` | client/src/utils/favicon.js:116-118 | The cache is empty afterwards. |
| `Favicon.HasScheme` | client/src/utils/favicon.js:147 | A URL with an http or https scheme starts with 'http' and is at least 7 characters long. |
| `Favicon.NormalizeUrl` | client/src/utils/favicon.js:143-153 | '' exactly for a missing or empty URL. An http or https URL is returned unchanged; anything else gets 'https://' in front. A non-empty result always has one of the two schemes. |
| `Favicon.NormalizeIdempotent` | client/src/utils/favicon.js:143-153 | Normalising twice is normalising once. |
| `Desktops.NewDesktop` | client/src/stores/desktops.js:35-40 | A new desktop has the timestamp as id and no links. Its name defaults to 'Nuevo Escritorio' and its background to '#1e293b' when missing or empty. |
| `Desktops.ApplyUpdate` | client/src/stores/desktops.js:55 | The given keys are overwritten and the others kept. An empty update changes nothing. |
| `Desktops.MakeLink` | client/src/stores/desktops.js:61-64 | The link keeps the caller's properties. The caller's own id wins over the timestamp. |
| `Desktops.SpliceStart` | client/src/stores/desktops.js:46 | `splice` starts at the index when it is in range. A negative index counts from the end, and stops at 0. An index past the end removes nothing. |
| `Desktops.RemoveAt` | client/src/stores/desktops.js:46 | Removing one element keeps the others, in order, and removes exactly that one. |
| `Desktops.CurrentAfterRemove` | client/src/stores/desktops.js:47-49 | The current index is kept when still in range; one past the end is pulled back to the last desktop. A non-negative index stays in range whenever a desktop is left. |
| `Desktops.FindLink` | client/src/stores/desktops.js:70 | `findIndex` gives the first link with that id, or none when no link has it. |
| `Desktops.WithoutLink` | client/src/stores/desktops.js:70-73 | Removes exactly the first link with that id and keeps the others in order, and removes nothing when no link has it. |
| `Desktops.DesktopStore.constructor` | client/src/stores/desktops.js:4-19 | Two desktops, 'Trabajo' (id 0) and 'Ocio' (id 1), both without links, and desktop 0 on show. |
| `Desktops.DesktopStore.GetCurrentDesktop` | client/src/stores/desktops.js:23-25 | The desktop at the current index, absent exactly when the index is out of range. |
| `Desktops.DesktopStore.SetCurrentDesktop` | client/src/stores/desktops.js:30-32 | Stores the index without any range check. The desktops are unchanged. |
| `Desktops.DesktopStore.AddDesktop` | client/src/stores/desktops.js:34-42 | Appends exactly one new desktop. The existing desktops and the current index are unchanged. |
| `Desktops.DesktopStore.RemoveDesktop` | client/src/stores/desktops.js:44-51 | Never removes the only desktop. Otherwise it removes the desktop `splice` picks. The current index is pulled back to the last desktop only when it now points past the end. |
| `Desktops.DesktopStore.UpdateDesktop` | client/src/stores/desktops.js:53-57 | Overwrites the given keys of that one desktop. A missing index changes nothing. |
| `Desktops.DesktopStore.AddLink` | client/src/stores/desktops.js:59-66 | Appends one link to that desktop only. A missing desktop changes nothing. |
| `Desktops.DesktopStore.RemoveLink` | client/src/stores/desktops.js:68-75 | Removes the first link with that id from that desktop only. No matching link or a missing desktop changes nothing. |
| `Desktops.RemoveKeepsCurrentInRange` | client/src/stores/desktops.js:44-51 | Removing a desktop keeps an in-range current index in range. |
| `Desktops.RemoveBeforeCurrentShows` | client/src/stores/desktops.js:47-49 | Removing a desktop in front of the current one leaves the index as it was, so the desktop that followed is now on show. |
| `Desktops.RemoveMinusOneRemovesLast` | client/src/stores/desktops.js:46 | `removeDesktop(-1)` removes the last desktop. |

## Left out

- Reading the spreadsheet and its cell types: XLSX parsing, `sheet_to_json`, `decode_range` and the `try`/`catch` around the other sheets. A sheet is a sequence of rows whose cells are optional strings.
- Numeric and boolean cells, and JavaScript's falsy `0`: every cell is a string or missing.
- File and console I/O: the JSON file, console output, `fs.existsSync`, `fs.rmSync`, the snapshot save and load. A snapshot is an optional index value.
- The pause between batches, `setTimeout`, and the five-second timeout of the image check.
- `localStorage` in the desktop store (`saveToLocalStorage`, `loadFromLocalStorage`), a browser API.
- Code not part of this model, each a function-typed parameter: the text splitter, the embeddings, the HNSW similarity search, the chat model, the bulk-import endpoint, the WHATWG URL parser and the image check. Nothing is claimed about how they behave inside.
- Floating-point values: scores and the temperature are carried along uninterpreted. The model name, temperature and token limit are constants of the request.
- Failures the model does not represent: a snapshot that fails to load, a save that fails after the index is assigned, and sqlite3 driver errors other than NOT NULL. Each would throw in the source.
- The `loc` metadata that the splitter adds to each chunk. Chunk metadata is modelled as `{id, titulo, categoria}` only.
- Lengths and substrings count code points. JavaScript counts UTF-16 code units, which differs outside the Basic Multilingual Plane.
- Concurrency: interleaved `rebuild` and `search`, and parallel source lookups. The model is sequential.
- `created_at` and `updated_at` come from a logical clock that ticks on every write. Rows never share a creation time, so the order of rows with equal SQLite timestamps is not modelled. The query contracts state only newest-first order.
- `isValidUrl`, which depends on the browser's URL parser.
- The Express routes, the bulk-import endpoint with duplicate detection, and the knowledge HTTP handlers. None of them is part of this model.
- `getAllDesktops`, which returns the `desktops` field itself.
- Desktops and links are values. Aliasing of the objects the store hands out, and an `Object.assign` with keys other than `id`, `name`, `background` and `links`, are not modelled. Neither are `undefined` values and non-integer indices.
- `Favicon.GetFaviconUrl`: keys inherited from `Object.prototype`, such as `toString`, are treated as unknown services.
- `ExcelToJson.SortByCount`: the contract does not fix the order of equal counts. `Object.entries` lists integer-like category names first, which the model does not reproduce.
- `ExcelToJson.TallyCategories`: its contract does not fix the order of the tally entries.
- `ExcelToJson.TallyCategories`: the tally is a plain object. For a category named after an `Object.prototype` key, `(categoryCounts[cat] || 0) + 1` reads the inherited function (`constructor`, `toString`) and stores a string rather than a count, and assigning to `__proto__` adds no entry. The model counts every label from 0 in its own entry.
- `ExcelToJson.SplitKeywords`: its own contract states only the shape of the pieces. Their number and concatenation are stated by `ExcelToJson.SplitKeywordsSpells`, and where the cuts fall by `ExcelToJson.SplitNoSeparator` and `ExcelToJson.SplitAtFirstSeparator`.
- `KnowledgeTable.Database.Add`: only the `id` key of the `{id, ...data}` spread is modelled. Keys of the caller's data other than `id` and the six columns are not.
- `KnowledgeTable.Database.Update`: likewise, only `id` of `{id, changes, ...data}` is modelled. A caller's own `changes` key, which would override the reported count, is not.
- `RagService.RagService.Chat`: the `getKnowledgeById` lookup is a parameter that answers every id, so a lookup that fails (rather than finds nothing) is not modelled.
