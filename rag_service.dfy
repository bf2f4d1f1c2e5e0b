/** server/rag-service.js: the RAG service. Its state is the in-memory vector
    index (`vectorStore`, possibly null) and the snapshot directory on disk. The
    text splitter, the embedding model with its HNSW index, the chat model and the
    SQLite reads are outside this model and enter as function-typed parameters. */
module RagService {
  import opened Wrappers
  import opened Text

  /** A row as the service's own `getAllKnowledge` selects it. */
  datatype KnowledgeRow = KnowledgeRow(
    id: int,
    titulo: Option<string>,
    contenido: Option<string>,
    categoria: Option<string>,
    pclave: Option<string>,
    urls: Option<string>)

  /** A row as the service's own `getKnowledgeById` selects it. */
  datatype Source = Source(id: int, titulo: Option<string>, categoria: Option<string>, contenido: string)

  /** The metadata attached to every chunk of one item. */
  datatype Metadata = Metadata(id: int, titulo: Option<string>, categoria: Option<string>)

  /** A LangChain document: one chunk of text and its metadata. */
  datatype Document = Document(pageContent: string, metadata: Metadata)

  /** An HNSW index, known here only by the documents it was built from. */
  datatype Index = Index(documents: seq<Document>)

  /** One hit of `similaritySearchWithScore`: a document and its (floating-point) score. */
  datatype Hit = Hit(doc: Document, score: real)

  datatype SearchResult = SearchResult(content: string, metadata: Metadata, score: real)

  datatype ContextEntry = ContextEntry(content: string, score: real)

  /** `{ response, sources, context }`; the canned answer has no `context`. */
  datatype ChatAnswer = ChatAnswer(response: string, sources: seq<Source>, context: Option<seq<ContextEntry>>)

  /** The request `generateResponse` sends to the chat-completion endpoint. */
  datatype Completion = Completion(model: string, system: string, user: string, temperature: real, maxTokens: nat)

  datatype ServiceError =
    | MissingApiKey      // the constructor's guard
    | NotInitialized     // `search` with `vectorStore` null
    | EmbeddingFailed    // the embedding service rejected while indexing or searching
    | GenerationFailed   // the chat completion rejected

  datatype Outcome =
    | Loaded             // an existing snapshot was loaded
    | NothingToIndex     // the knowledge table was empty; nothing was assigned or saved
    | Indexed(chunks: nat)

  /** Splits one rendered item into chunk texts (chunkSize 1000, chunkOverlap 200). */
  type Splitter = string -> seq<string>
  /** `similaritySearchWithScore(query, k)` on an index; None when it rejects. */
  type AnnSearch = (Index, string, int) -> Option<seq<Hit>>
  /** The chat model; None when the request rejects. */
  type Generator = Completion -> Option<string>
  /** `getKnowledgeById`; None stands for `undefined` (no such row). */
  type Lookup = int -> Option<Source>

  const SystemPrompt: string :=
    "Eres un asistente útil que responde preguntas basándose en el contexto proporcionado.\n"
    + "Si la respuesta no está en el contexto, dilo claramente.\n"
    + "Responde en español de manera clara y concisa."

  const NoInformation: string := "No encontré información relevante en la base de conocimientos."

  /** `x || ''` on a nullable text column. */
  function OrEmpty(o: Option<string>): string {
    o.GetOr("")
  }

  /** The five labelled lines of an item, before trimming. */
  function Labelled(item: KnowledgeRow): string {
    LabelledUpToUrls(item) + " " + OrEmpty(item.urls)
  }

  /** The labelled lines up to and including the label `URLs:`. */
  function LabelledUpToUrls(item: KnowledgeRow): string {
    "Título: " + OrEmpty(item.titulo)
    + "\nCategoría: " + OrEmpty(item.categoria)
    + "\nContenido: " + OrEmpty(item.contenido)
    + "\nPalabras clave: " + OrEmpty(item.pclave)
    + "\nURLs:"
  }

  /** The template literal of `buildVectorStore`, `.trim()`med: the labelled lines
      with only the white space at the end cut away. */
  function Render(item: KnowledgeRow): (r: string)
    ensures |r| <= |Labelled(item)|
    ensures r == Labelled(item)[..|r|]
    ensures AllWhitespace(Labelled(item)[|r|..])
    ensures Trimmed(r)
    ensures StartsWith(r, LabelledUpToUrls(item))
  {
    var lines := Labelled(item);
    LabelledShape(item);
    TrimAroundLines(lines, "\n        ");
    TrimEndKeeps(lines, |LabelledUpToUrls(item)| - 1);
    TrimEndCut(lines);
    Trim("\n" + lines + "\n        ")
  }

  /** The indexed text of an item holds its title, category, content and keywords. */
  lemma RenderCarriesFields(item: KnowledgeRow)
    ensures Contains(Render(item), OrEmpty(item.titulo))
    ensures Contains(Render(item), OrEmpty(item.categoria))
    ensures Contains(Render(item), OrEmpty(item.contenido))
    ensures Contains(Render(item), OrEmpty(item.pclave))
  {
    var r, u := Render(item), LabelledUpToUrls(item);
    TituloLabelled(item);
    ContainsInPrefix(r, u, OrEmpty(item.titulo));
    CategoriaLabelled(item);
    ContainsInPrefix(r, u, OrEmpty(item.categoria));
    ContenidoLabelled(item);
    ContainsInPrefix(r, u, OrEmpty(item.contenido));
    PclaveLabelled(item);
    ContainsInPrefix(r, u, OrEmpty(item.pclave));
  }

  lemma TituloLabelled(item: KnowledgeRow)
    ensures Contains(LabelledUpToUrls(item), OrEmpty(item.titulo))
  {
    var q := "\nCategoría: " + OrEmpty(item.categoria) + "\nContenido: " + OrEmpty(item.contenido)
      + "\nPalabras clave: " + OrEmpty(item.pclave) + "\nURLs:";
    assert LabelledUpToUrls(item) == "Título: " + OrEmpty(item.titulo) + q;
    ContainsMiddle("Título: ", OrEmpty(item.titulo), q);
  }

  lemma CategoriaLabelled(item: KnowledgeRow)
    ensures Contains(LabelledUpToUrls(item), OrEmpty(item.categoria))
  {
    var p := "Título: " + OrEmpty(item.titulo) + "\nCategoría: ";
    var q := "\nContenido: " + OrEmpty(item.contenido) + "\nPalabras clave: " + OrEmpty(item.pclave) + "\nURLs:";
    assert LabelledUpToUrls(item) == p + OrEmpty(item.categoria) + q;
    ContainsMiddle(p, OrEmpty(item.categoria), q);
  }

  lemma ContenidoLabelled(item: KnowledgeRow)
    ensures Contains(LabelledUpToUrls(item), OrEmpty(item.contenido))
  {
    var p := "Título: " + OrEmpty(item.titulo) + "\nCategoría: " + OrEmpty(item.categoria) + "\nContenido: ";
    var q := "\nPalabras clave: " + OrEmpty(item.pclave) + "\nURLs:";
    assert LabelledUpToUrls(item) == p + OrEmpty(item.contenido) + q;
    ContainsMiddle(p, OrEmpty(item.contenido), q);
  }

  lemma PclaveLabelled(item: KnowledgeRow)
    ensures Contains(LabelledUpToUrls(item), OrEmpty(item.pclave))
  {
    var p := "Título: " + OrEmpty(item.titulo) + "\nCategoría: " + OrEmpty(item.categoria)
      + "\nContenido: " + OrEmpty(item.contenido) + "\nPalabras clave: ";
    assert LabelledUpToUrls(item) == p + OrEmpty(item.pclave) + "\nURLs:";
    ContainsMiddle(p, OrEmpty(item.pclave), "\nURLs:");
  }

  /** The labelled lines start with `T` and hold `URLs:` in front of the urls. */
  lemma LabelledShape(item: KnowledgeRow)
    ensures |LabelledUpToUrls(item)| > 0
    ensures Labelled(item)[0] == 'T'
    ensures Labelled(item)[..|LabelledUpToUrls(item)|] == LabelledUpToUrls(item)
    ensures Labelled(item)[|LabelledUpToUrls(item)| - 1] == ':'
    ensures !IsWhitespace(Labelled(item)[0])
    ensures !IsWhitespace(Labelled(item)[|LabelledUpToUrls(item)| - 1])
  {
    var u := LabelledUpToUrls(item);
    var rest := "\nCategoría: " + OrEmpty(item.categoria)
      + "\nContenido: " + OrEmpty(item.contenido)
      + "\nPalabras clave: " + OrEmpty(item.pclave);
    assert u == "Título: " + OrEmpty(item.titulo) + rest + "\nURLs:";
    assert u[0] == 'T';
    assert u[|u| - 1] == ':';
    assert !IsWhitespace('T') && !IsWhitespace(':');
  }

  /** Trimming a line block wrapped in a leading newline and trailing white space
      only cuts the white space at the end of the block. */
  lemma TrimAroundLines(lines: string, tail: string)
    requires lines != [] && !IsWhitespace(lines[0]) && AllWhitespace(tail)
    ensures Trim("\n" + lines + tail) == TrimEnd(lines)
  {
    var template := "\n" + lines + tail;
    assert IsWhitespace(template[0]);
    assert template[1..] == lines + tail;
    assert TrimStart(template) == TrimStart(lines + tail);
    TrimStartOfTrimmed(lines + tail);
    TrimEndWhitespaceTail(lines, tail);
  }

  function MetadataOf(item: KnowledgeRow): Metadata {
    Metadata(item.id, item.titulo, item.categoria)
  }

  /** `textSplitter.createDocuments([content], [{id, titulo, categoria}])`. */
  function ItemDocuments(item: KnowledgeRow, split: Splitter): (r: seq<Document>)
    ensures |r| == |split(Render(item))|
    ensures forall i :: 0 <= i < |r| ==>
      r[i].pageContent == split(Render(item))[i] && r[i].metadata == MetadataOf(item)
  {
    var chunks := split(Render(item));
    seq(|chunks|, i requires 0 <= i < |chunks| => Document(chunks[i], MetadataOf(item)))
  }

  /** The `documents` array after the loop of `buildVectorStore`: the chunk lists of
      the items, concatenated in row order. */
  function AllDocuments(items: seq<KnowledgeRow>, split: Splitter): seq<Document>
  {
    if items == [] then []
    else AllDocuments(items[..|items| - 1], split) + ItemDocuments(items[|items| - 1], split)
  }

  /** Every indexed document is a chunk of one of the items and carries that item's metadata. */
  lemma {:induction false} DocumentProvenance(items: seq<KnowledgeRow>, split: Splitter, d: Document)
    requires d in AllDocuments(items, split)
    ensures exists item :: item in items && d.metadata == MetadataOf(item)
                           && d.pageContent in split(Render(item))
  {
    var last := items[|items| - 1];
    var front := items[..|items| - 1];
    if d in AllDocuments(front, split) {
      DocumentProvenance(front, split, d);
      var item :| item in front && d.metadata == MetadataOf(item) && d.pageContent in split(Render(item));
      assert item in items;
    } else {
      var ds := ItemDocuments(last, split);
      var i :| 0 <= i < |ds| && ds[i] == d;
      assert last in items;
    }
  }

  /** Every chunk of every item is indexed, under that item's metadata. */
  lemma {:induction false} DocumentCoverage(items: seq<KnowledgeRow>, split: Splitter, k: nat, c: nat)
    requires k < |items| && c < |split(Render(items[k]))|
    ensures Document(split(Render(items[k]))[c], MetadataOf(items[k])) in AllDocuments(items, split)
  {
    var front := items[..|items| - 1];
    if k < |items| - 1 {
      assert front[k] == items[k];
      DocumentCoverage(front, split, k, c);
    } else {
      assert ItemDocuments(items[k], split)[c] == Document(split(Render(items[k]))[c], MetadataOf(items[k]));
    }
  }

  /** The effect of `buildVectorStore` on the pair (in-memory index, snapshot). */
  ghost predicate BuildEffect(
    vs0: Option<Index>, snap0: Option<Index>, vs: Option<Index>, snap: Option<Index>,
    rows: seq<KnowledgeRow>, split: Splitter, embeddingsReachable: bool,
    r: Result<Outcome, ServiceError>)
  {
    if rows == [] then
      r == Success(NothingToIndex) && vs == vs0 && snap == snap0
    else if !embeddingsReachable then
      r == Failure(EmbeddingFailed) && vs == vs0 && snap == snap0
    else
      var index := Index(AllDocuments(rows, split));
      r == Success(Indexed(|index.documents|)) && vs == Some(index) && snap == Some(index)
  }

  class RagService {
    /** The in-memory index; None is JavaScript's `null`. */
    var vectorStore: Option<Index>
    /** The `vectorstore` directory: absent, or holding the index saved there. */
    var snapshot: Option<Index>

    /** The constructor with its guard on the API key; `onDisk` is what the
        snapshot directory holds when the process starts. */
    static method Create(apiKey: Option<string>, onDisk: Option<Index>) returns (r: Result<RagService, ServiceError>)
      ensures r.Failure? <==> apiKey.None? || apiKey.value == ""
      ensures r.Failure? ==> r.error == MissingApiKey
      ensures r.Success? ==> fresh(r.value) && r.value.vectorStore.None? && r.value.snapshot == onDisk
    {
      if apiKey.None? || apiKey.value == "" {
        return Failure(MissingApiKey);
      }
      var service := new RagService(onDisk);
      r := Success(service);
    }

    constructor (onDisk: Option<Index>)
      ensures vectorStore.None? && snapshot == onDisk
    {
      vectorStore := None;
      snapshot := onDisk;
    }

    /** `buildVectorStore`: indexes every row's chunks, assigns the index and saves it.
        With no rows it returns early without touching either. */
    method Build(rows: seq<KnowledgeRow>, split: Splitter, embeddingsReachable: bool)
      returns (r: Result<Outcome, ServiceError>)
      modifies this
      ensures BuildEffect(old(vectorStore), old(snapshot), vectorStore, snapshot,
                          rows, split, embeddingsReachable, r)
    {
      if |rows| == 0 {
        return Success(NothingToIndex);
      }
      var documents: seq<Document> := [];
      for i := 0 to |rows|
        invariant documents == AllDocuments(rows[..i], split)
      {
        assert rows[..i + 1][..i] == rows[..i];
        documents := documents + ItemDocuments(rows[i], split);
      }
      assert rows[..|rows|] == rows;
      if !embeddingsReachable {
        return Failure(EmbeddingFailed);
      }
      var index := Index(documents);
      vectorStore := Some(index);
      snapshot := Some(index);
      r := Success(Indexed(|documents|));
    }

    /** `initializeVectorStore`: loads the snapshot when the directory exists, and
        builds otherwise; never both. */
    method Initialize(rows: seq<KnowledgeRow>, split: Splitter, embeddingsReachable: bool)
      returns (r: Result<Outcome, ServiceError>)
      modifies this
      ensures old(snapshot).Some? ==>
        r == Success(Loaded) && vectorStore == old(snapshot) && snapshot == old(snapshot)
      ensures old(snapshot).None? ==>
        BuildEffect(old(vectorStore), old(snapshot), vectorStore, snapshot, rows, split, embeddingsReachable, r)
    {
      if snapshot.Some? {
        vectorStore := snapshot;
        return Success(Loaded);
      }
      r := Build(rows, split, embeddingsReachable);
    }

    /** `rebuildVectorStore`: deletes the snapshot directory, then builds. On an empty
        table the snapshot is gone while the old in-memory index stays in use. */
    method Rebuild(rows: seq<KnowledgeRow>, split: Splitter, embeddingsReachable: bool)
      returns (r: Result<Outcome, ServiceError>)
      modifies this
      ensures BuildEffect(old(vectorStore), None, vectorStore, snapshot, rows, split, embeddingsReachable, r)
      ensures rows == [] ==> snapshot.None? && vectorStore == old(vectorStore)
    {
      snapshot := None;
      r := Build(rows, split, embeddingsReachable);
    }

    /** `search(query, k = 5)`: fails without an index; otherwise the index's hits,
        in its order and number, as `{content, metadata, score}`. */
    function Search(query: string, ann: AnnSearch, k: int := 5): (r: Result<seq<SearchResult>, ServiceError>)
      reads this
      ensures vectorStore.None? ==> r == Failure(NotInitialized)
      ensures vectorStore.Some? && ann(vectorStore.value, query, k).None? ==> r == Failure(EmbeddingFailed)
      ensures vectorStore.Some? && ann(vectorStore.value, query, k).Some? ==>
        var hits := ann(vectorStore.value, query, k).value;
        && r.Success? && |r.value| == |hits|
        && forall i :: 0 <= i < |hits| ==>
             r.value[i] == SearchResult(hits[i].doc.pageContent, hits[i].doc.metadata, hits[i].score)
    {
      if vectorStore.None? then Failure(NotInitialized)
      else match ann(vectorStore.value, query, k)
        case None => Failure(EmbeddingFailed)
        case Some(hits) =>
          Success(seq(|hits|, i requires 0 <= i < |hits| =>
            SearchResult(hits[i].doc.pageContent, hits[i].doc.metadata, hits[i].score)))
    }

    /** `chat(query)`: retrieves 3 chunks; none gives the canned answer without a
        generation call; otherwise one generation, the distinct source ids in order of
        first appearance resolved with the missing ones dropped, and a preview of every
        chunk. */
    function Chat(query: string, ann: AnnSearch, generate: Generator, lookup: Lookup)
      : (r: Result<ChatAnswer, ServiceError>)
      reads this
      ensures Search(query, ann, 3).Failure? ==> r == Failure(Search(query, ann, 3).error)
      ensures Search(query, ann, 3) == Success([]) ==> r == Success(ChatAnswer(NoInformation, [], None))
      ensures Search(query, ann, 3).Success? && Search(query, ann, 3).value != [] ==>
        var context := Search(query, ann, 3).value;
        match generate(Request(query, context))
        case None => r == Failure(GenerationFailed)
        case Some(response) =>
          r == Success(ChatAnswer(response, Resolve(Distinct(SourceIds(context)), lookup), Some(Previews(context))))
    {
      match Search(query, ann, 3)
      case Failure(e) => Failure(e)
      case Success(context) =>
        if |context| == 0 then Success(ChatAnswer(NoInformation, [], None))
        else match generate(Request(query, context))
          case None => Failure(GenerationFailed)
          case Some(response) =>
            Success(ChatAnswer(response, Resolve(Distinct(SourceIds(context)), lookup), Some(Previews(context))))
    }
  }

  /** The user message of `generateResponse`. */
  function UserPrompt(query: string, context: seq<SearchResult>): string {
    "\nContexto:\n" + Join(Contents(context), "\n\n---\n\n") + "\n\nPregunta: " + query + "\n\nRespuesta:"
  }

  function Contents(context: seq<SearchResult>): (r: seq<string>)
    ensures |r| == |context| && forall i :: 0 <= i < |r| ==> r[i] == context[i].content
  {
    seq(|context|, i requires 0 <= i < |context| => context[i].content)
  }

  /** The chat-completion request of `generateResponse`: the fixed model, system
      prompt, temperature and token limit, and a user message that carries the
      question and every retrieved chunk. */
  function Request(query: string, context: seq<SearchResult>): (r: Completion)
    ensures r.model == "gpt-3.5-turbo" && r.system == SystemPrompt
    ensures r.temperature == 0.7 && r.maxTokens == 500
    ensures Contains(r.user, query)
    ensures forall k :: 0 <= k < |context| ==> Contains(r.user, context[k].content)
  {
    PromptCarriesAll(query, context);
    Completion("gpt-3.5-turbo", SystemPrompt, UserPrompt(query, context), 0.7, 500)
  }

  lemma PromptCarriesAll(query: string, context: seq<SearchResult>)
    ensures Contains(UserPrompt(query, context), query)
    ensures forall k :: 0 <= k < |context| ==> Contains(UserPrompt(query, context), context[k].content)
  {
    forall k | 0 <= k < |context| ensures Contains(UserPrompt(query, context), context[k].content) {
      PromptCarriesContext(query, context, k);
    }
    if context == [] {
      var before := "\nContexto:\n" + Join(Contents(context), "\n\n---\n\n") + "\n\nPregunta: ";
      assert UserPrompt(query, context) == before + query + "\n\nRespuesta:";
      assert OccursAt(query, query, 0);
      ContainsWithin(before, query, "\n\nRespuesta:", query);
    } else {
      PromptCarriesContext(query, context, 0);
    }
  }

  /** The prompt carries every retrieved chunk and the question itself. */
  lemma PromptCarriesContext(query: string, context: seq<SearchResult>, k: nat)
    requires k < |context|
    ensures Contains(UserPrompt(query, context), context[k].content)
    ensures Contains(UserPrompt(query, context), query)
  {
    var joined := Join(Contents(context), "\n\n---\n\n");
    JoinContainsPart(Contents(context), "\n\n---\n\n", k);
    ContainsWithin("\nContexto:\n", joined, "\n\nPregunta: " + query + "\n\nRespuesta:", context[k].content);
    assert UserPrompt(query, context)
        == "\nContexto:\n" + joined + ("\n\nPregunta: " + query + "\n\nRespuesta:");
    var before := "\nContexto:\n" + joined + "\n\nPregunta: ";
    assert UserPrompt(query, context) == before + query + "\n\nRespuesta:";
    assert OccursAt(query, query, 0);
    ContainsWithin(before, query, "\n\nRespuesta:", query);
  }

  function SourceIds(context: seq<SearchResult>): (r: seq<int>)
    ensures |r| == |context| && forall i :: 0 <= i < |r| ==> r[i] == context[i].metadata.id
  {
    seq(|context|, i requires 0 <= i < |context| => context[i].metadata.id)
  }

  /** The position of the first occurrence of `x` in `s`. */
  function FirstIndex(s: seq<int>, x: int): (k: nat)
    requires x in s
    ensures k < |s| && s[k] == x && x !in s[..k]
  {
    if s[0] == x then 0 else 1 + FirstIndex(s[1..], x)
  }

  /** `[...new Set(s)]`: each value once, in order of first appearance. */
  function Distinct(s: seq<int>): (r: seq<int>)
    ensures forall x :: x in r <==> x in s
    ensures forall i, j :: 0 <= i < j < |r| ==> r[i] != r[j]
    ensures forall i, j :: 0 <= i < j < |r| ==> FirstIndex(s, r[i]) < FirstIndex(s, r[j])
  {
    if s == [] then []
    else
      var front := s[..|s| - 1];
      var x := s[|s| - 1];
      var r := Distinct(front);
      forall y | y in front ensures FirstIndex(s, y) == FirstIndex(front, y) {
        FirstIndexOfPrefix(front, s, y);
      }
      if x in r then r
      else
        assert forall y :: y in front ==> FirstIndex(s, y) < |s| - 1;
        assert FirstIndex(s, x) == |s| - 1;
        r + [x]
  }

  lemma {:induction false} FirstIndexOfPrefix(front: seq<int>, s: seq<int>, y: int)
    requires y in front && |front| <= |s| && s[..|front|] == front
    ensures FirstIndex(s, y) == FirstIndex(front, y)
  {
    if front[0] != y {
      assert s[1..][..|front| - 1] == front[1..];
      FirstIndexOfPrefix(front[1..], s[1..], y);
    }
  }

  /** `sources.filter(Boolean)` after looking every id up: the rows found, with the
      ids that no longer resolve dropped. */
  function Resolve(ids: seq<int>, lookup: Lookup): (r: seq<Source>)
    ensures |r| <= |ids|
    ensures forall x :: x in r <==> exists id :: id in ids && lookup(id) == Some(x)
  {
    if ids == [] then []
    else
      var rest := Resolve(ids[1..], lookup);
      assert forall id :: id in ids <==> id == ids[0] || id in ids[1..];
      match lookup(ids[0])
      case None => rest
      case Some(s) => [s] + rest
  }

  /** Dropping unresolved ids keeps the order: resolving a concatenation resolves
      the parts one after the other. */
  lemma {:induction false} ResolveConcat(a: seq<int>, b: seq<int>, lookup: Lookup)
    ensures Resolve(a + b, lookup) == Resolve(a, lookup) + Resolve(b, lookup)
  {
    if a != [] {
      assert (a + b)[1..] == a[1..] + b;
      ResolveConcat(a[1..], b, lookup);
    } else {
      assert a + b == b;
    }
  }

  /** When every id resolves, the sources are exactly the looked-up rows in id order. */
  lemma {:induction false} ResolveAllFound(ids: seq<int>, lookup: Lookup)
    requires forall i :: 0 <= i < |ids| ==> lookup(ids[i]).Some?
    ensures |Resolve(ids, lookup)| == |ids|
    ensures forall i :: 0 <= i < |ids| ==> Resolve(ids, lookup)[i] == lookup(ids[i]).value
  {
    if ids != [] {
      ResolveAllFound(ids[1..], lookup);
      var r := Resolve(ids, lookup);
      forall i | 0 < i < |ids| ensures r[i] == lookup(ids[i]).value {
        assert ids[1..][i - 1] == ids[i];
      }
    }
  }

  /** `content.substring(0, 200) + '...'`. */
  function Preview(content: string): (r: string)
    ensures |r| == (if |content| < 200 then |content| else 200) + 3
    ensures r[|r| - 3..] == "..."
    ensures StartsWith(content, r[..|r| - 3])
  {
    var cut := if |content| < 200 then |content| else 200;
    var r := content[..cut] + "...";
    assert r[..|r| - 3] == content[..cut];
    r
  }

  function Previews(context: seq<SearchResult>): (r: seq<ContextEntry>)
    ensures |r| == |context|
    ensures forall i :: 0 <= i < |r| ==> r[i] == ContextEntry(Preview(context[i].content), context[i].score)
  {
    seq(|context|, i requires 0 <= i < |context| => ContextEntry(Preview(context[i].content), context[i].score))
  }

  /** After `rebuild` on an empty table, the snapshot is deleted while the in-memory
      index of the previous build keeps answering searches. */
  method RebuildOnEmptyTable(rows: seq<KnowledgeRow>, split: Splitter)
    returns (inMemory: Option<Index>, onDisk: Option<Index>)
    requires rows != []
    ensures inMemory == Some(Index(AllDocuments(rows, split)))
    ensures onDisk == None
  {
    var service := new RagService(None);
    var built := service.Initialize(rows, split, true);
    var rebuilt := service.Rebuild([], split, true);
    inMemory, onDisk := service.vectorStore, service.snapshot;
  }

  /** With an empty table and no snapshot, initialization leaves no index, so `chat`
      fails as "not initialized" instead of giving the canned answer. */
  method ChatOnEmptyTable(query: string, split: Splitter, ann: AnnSearch, generate: Generator, lookup: Lookup)
    returns (answer: Result<ChatAnswer, ServiceError>)
    ensures answer == Failure(NotInitialized)
  {
    var service := new RagService(None);
    var init := service.Initialize([], split, true);
    answer := service.Chat(query, ann, generate, lookup);
  }
}
