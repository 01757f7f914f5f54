/** The retrieval knowledge base: a store of text passages that is seeded
    once with the built-in shipping documents, grows by appending, and is
    searched to build the context given to the assistant. The vector store,
    its embeddings and the text splitter are outside the model: the store is
    the sequence of passages it holds, the splitter and the similarity
    ranking are functions the knowledge base is given. */
module KnowledgeBase {
  import opened Text

  /** A passage with its metadata, as the vector store keeps it. */
  datatype Document = Document(content: string, metadata: map<string, string>)

  /** One entry of the built-in knowledge list, before it becomes a
      document. */
  datatype KnowledgeItem = KnowledgeItem(content: string, metadata: map<string, string>)

  /** How many passages a search returns when the caller does not say. */
  const DefaultK: nat := 3

  /** The first line of every context handed to the assistant. */
  const ContextHeader: string := "Relevant shipping knowledge:\n\n"

  /** POSIX `os.path.join(a, b)` for a relative `b`: a separator is added
      only when `a` is non-empty and does not already end in one. */
  function JoinPath(a: string, b: string): (p: string)
    ensures a <= p && |b| <= |p| && p[|p| - |b|..] == b
    ensures |p| == |a| + |b| || (|p| == |a| + |b| + 1 && p[|a|] == '/')
    ensures (|a| == 0 || a[|a| - 1] == '/') <==> |p| == |a| + |b|
  {
    if |a| == 0 || a[|a| - 1] == '/' then a + b else a + "/" + b
  }

  /** Where the store lives when no directory is given:
      `os.path.join(project_root, "Data_And_Config", "chroma_db")`. */
  function DefaultDirectory(projectRoot: string): string {
    JoinPath(JoinPath(projectRoot, "Data_And_Config"), "chroma_db")
  }

  /** Joining two relative parts one after the other is joining them as one
      path, when the first part is non-empty and has no trailing '/'. */
  lemma JoinTwice(a: string, b: string, c: string)
    requires |b| > 0 && b[|b| - 1] != '/'
    ensures JoinPath(JoinPath(a, b), c) == JoinPath(a, b + "/" + c)
  {
    var ab := JoinPath(a, b);
    assert ab[|ab| - 1] == b[|b| - 1];
    if |a| == 0 || a[|a| - 1] == '/' {
      assert ab + "/" + c == a + (b + "/" + c);
    } else {
      assert ab + "/" + c == a + "/" + (b + "/" + c);
    }
  }

  /** The default directory is the root joined with the one relative path
      Data_And_Config/chroma_db, so it starts with the root. */
  lemma DefaultDirectoryUnderRoot(projectRoot: string)
    ensures DefaultDirectory(projectRoot) == JoinPath(projectRoot, "Data_And_Config/chroma_db")
    ensures projectRoot <= DefaultDirectory(projectRoot)
  {
    JoinTwice(projectRoot, "Data_And_Config", "chroma_db");
    assert "Data_And_Config" + "/" + "chroma_db" == "Data_And_Config/chroma_db";
  }

  /** A root that ends in '/', such as the filesystem root, gets no doubled
      separator. */
  lemma DefaultDirectoryAfterSlash(projectRoot: string)
    requires |projectRoot| > 0 && projectRoot[|projectRoot| - 1] == '/'
    ensures DefaultDirectory(projectRoot) == projectRoot + "Data_And_Config/chroma_db"
  {
    DefaultDirectoryUnderRoot(projectRoot);
  }

  /** Any other non-empty root gets exactly one separator. */
  lemma DefaultDirectoryAddsSlash(projectRoot: string)
    requires |projectRoot| > 0 && projectRoot[|projectRoot| - 1] != '/'
    ensures DefaultDirectory(projectRoot) == projectRoot + "/" + "Data_And_Config/chroma_db"
  {
    DefaultDirectoryUnderRoot(projectRoot);
  }

  function Meta(kind: string, category: string): map<string, string> {
    map["type" := kind, "category" := category]
  }

  /** The five built-in knowledge entries, in order. Each text is shortened
      to its title line; nothing here depends on the rest of the text. */
  const ShippingKnowledge: seq<KnowledgeItem> := [
    KnowledgeItem("Indonesian Shipping Regions and Areas:", Meta("location_info", "indonesia_cities")),
    KnowledgeItem("Shipping Weight Guidelines:", Meta("shipping_info", "weight_guidelines")),
    KnowledgeItem("Item Value Guidelines:", Meta("shipping_info", "item_value")),
    KnowledgeItem("Courier Services Information:", Meta("courier_info", "service_types")),
    KnowledgeItem("Common User Questions and Responses:", Meta("faq", "common_questions"))
  ]

  /** The documents made from knowledge entries, one each, in order. */
  function AsDocuments(items: seq<KnowledgeItem>): seq<Document>
    decreases |items|
  {
    if |items| == 0 then []
    else AsDocuments(items[..|items| - 1]) + [Document(items[|items| - 1].content, items[|items| - 1].metadata)]
  }

  /** The documents a fresh store is seeded with, before splitting. */
  function SeedDocuments(): seq<Document> {
    AsDocuments(ShippingKnowledge)
  }

  /** Each built-in entry becomes exactly one document with the same text
      and metadata, in the same order. */
  lemma {:induction false} AsDocumentsKeeps(items: seq<KnowledgeItem>)
    ensures |AsDocuments(items)| == |items|
    ensures forall i :: 0 <= i < |items| ==>
      AsDocuments(items)[i] == Document(items[i].content, items[i].metadata)
    decreases |items|
  {
    if |items| > 0 {
      AsDocumentsKeeps(items[..|items| - 1]);
    }
  }

  /** The seeded documents carry the five categories of built-in knowledge. */
  lemma SeedDocumentsCategories()
    ensures |SeedDocuments()| == 5
    ensures SeedDocuments()[0].metadata == Meta("location_info", "indonesia_cities")
    ensures SeedDocuments()[1].metadata == Meta("shipping_info", "weight_guidelines")
    ensures SeedDocuments()[2].metadata == Meta("shipping_info", "item_value")
    ensures SeedDocuments()[3].metadata == Meta("courier_info", "service_types")
    ensures SeedDocuments()[4].metadata == Meta("faq", "common_questions")
  {
    AsDocumentsKeeps(ShippingKnowledge);
  }

  /** How one retrieved passage is shown: a dash, its text, a blank line. */
  function Entry(d: Document): string {
    "- " + d.content + "\n\n"
  }

  /** The context built from retrieved passages, in retrieval order. */
  function ContextText(docs: seq<Document>): string
    decreases |docs|
  {
    if |docs| == 0 then ContextHeader else ContextText(docs[..|docs| - 1]) + Entry(docs[|docs| - 1])
  }

  /** The total length the passages add: their texts plus four characters
      of layout each. */
  function EntriesLength(docs: seq<Document>): nat
    decreases |docs|
  {
    if |docs| == 0 then 0 else EntriesLength(docs[..|docs| - 1]) + |docs[|docs| - 1].content| + 4
  }

  /** Every context starts with the header. */
  lemma {:induction false} ContextStartsWithHeader(docs: seq<Document>)
    ensures |ContextHeader| <= |ContextText(docs)|
    ensures ContextText(docs)[..|ContextHeader|] == ContextHeader
    decreases |docs|
  {
    if |docs| > 0 {
      var before := ContextText(docs[..|docs| - 1]);
      ContextStartsWithHeader(docs[..|docs| - 1]);
      assert (before + Entry(docs[|docs| - 1]))[..|ContextHeader|] == before[..|ContextHeader|];
    }
  }

  /** The context is as long as the header plus the passages' texts plus
      four characters per passage. */
  lemma {:induction false} ContextLength(docs: seq<Document>)
    ensures |ContextText(docs)| == |ContextHeader| + EntriesLength(docs)
    decreases |docs|
  {
    if |docs| > 0 {
      ContextLength(docs[..|docs| - 1]);
    }
  }

  /** The context is the bare header exactly when nothing was retrieved. */
  lemma ContextIsHeaderOnlyWhenEmpty(docs: seq<Document>)
    ensures ContextText(docs) == ContextHeader <==> |docs| == 0
  {
    ContextLength(docs);
  }

  /** The context for a prefix of the passages is a prefix of the context. */
  lemma {:induction false} ContextOfPrefix(docs: seq<Document>, j: nat)
    requires j <= |docs|
    ensures ContextText(docs[..j]) <= ContextText(docs)
    decreases |docs| - j
  {
    if j < |docs| {
      var next := docs[..j + 1];
      assert next[..|next| - 1] == docs[..j];
      ContextOfPrefix(docs, j + 1);
    } else {
      assert docs[..j] == docs;
    }
  }

  /** Passage `i` appears in full right after the passages retrieved before
      it, so the passages are shown in retrieval order. */
  lemma ContextEntryAt(docs: seq<Document>, i: nat)
    requires i < |docs|
    ensures var at := |ContextHeader| + EntriesLength(docs[..i]);
      at + |Entry(docs[i])| <= |ContextText(docs)| &&
      ContextText(docs)[at..at + |Entry(docs[i])|] == Entry(docs[i])
  {
    var upto := docs[..i + 1];
    assert upto[..|upto| - 1] == docs[..i] && upto[|upto| - 1] == docs[i];
    ContextOfPrefix(docs, i + 1);
    ContextLength(docs[..i]);
    PrefixThenBlock(ContextText(docs[..i]), Entry(docs[i]), ContextText(docs));
  }

  function Min(a: nat, b: nat): nat {
    if a <= b then a else b
  }

  /** The knowledge base over its vector store. */
  class ShippingKnowledgeBase {
    /** Where the store is persisted. */
    const persistDirectory: string
    /** The text splitter: the chunks a list of documents is cut into. */
    const splitDocuments: seq<Document> -> seq<Document>
    /** The similarity ranking: the store's passages, most similar to the
        query first. */
    const rank: (string, seq<Document>) -> seq<Document>
    /** The passages the vector store holds. */
    var passages: seq<Document>

    /** Opens the store if its directory exists and seeds a new one with the
        built-in documents otherwise. */
    constructor (persistDirectory: Option<string>, projectRoot: string, directoryExists: bool,
                 persisted: seq<Document>, splitDocuments: seq<Document> -> seq<Document>,
                 rank: (string, seq<Document>) -> seq<Document>)
      ensures this.persistDirectory ==
        if persistDirectory.Some? then persistDirectory.value else DefaultDirectory(projectRoot)
      ensures this.splitDocuments == splitDocuments && this.rank == rank
      ensures passages == if directoryExists then persisted else splitDocuments(SeedDocuments())
    {
      this.persistDirectory :=
        if persistDirectory.Some? then persistDirectory.value else DefaultDirectory(projectRoot);
      this.splitDocuments := splitDocuments;
      this.rank := rank;
      new;
      passages := InitializeVectorstore(directoryExists, persisted);
    }

    /** The store's passages: those already persisted when the directory
        exists, the split built-in documents otherwise. */
    method InitializeVectorstore(directoryExists: bool, persisted: seq<Document>) returns (store: seq<Document>)
      ensures store == if directoryExists then persisted else splitDocuments(SeedDocuments())
    {
      if directoryExists {
        return persisted;
      }
      var documents := CreateInitialDocuments();
      store := documents;
    }

    /** The built-in entries as documents, cut into chunks. */
    method CreateInitialDocuments() returns (splitDocs: seq<Document>)
      ensures splitDocs == splitDocuments(SeedDocuments())
    {
      var documents: seq<Document> := [];
      for i := 0 to |ShippingKnowledge|
        invariant documents == AsDocuments(ShippingKnowledge[..i])
      {
        var item := ShippingKnowledge[i];
        var doc := Document(item.content, item.metadata);
        documents := documents + [doc];
        assert ShippingKnowledge[..i + 1][..i] == ShippingKnowledge[..i];
      }
      assert ShippingKnowledge[..|ShippingKnowledge|] == ShippingKnowledge;
      splitDocs := splitDocuments(documents);
    }

    /** The `k` passages most similar to the query, or all of them when the
        store holds fewer. */
    function SearchKnowledge(query: string, k: nat := DefaultK): (found: seq<Document>)
      reads this
      ensures |found| == Min(k, |rank(query, passages)|)
      ensures found <= rank(query, passages)
    {
      var ranked := rank(query, passages);
      if k <= |ranked| then ranked[..k] else ranked
    }

    /** Cuts the new document into chunks and appends them to the store;
        nothing already stored is removed. */
    method AddKnowledge(content: string, metadata: map<string, string>)
      modifies this
      ensures passages == old(passages) + splitDocuments([Document(content, metadata)])
      ensures old(passages) <= passages
    {
      var doc := Document(content, metadata);
      var splitDocs := splitDocuments([doc]);
      passages := passages + splitDocs;
    }

    /** The context for a query: the header, then each of the three most
        similar passages as an entry. */
    method GetContextForQuery(query: string) returns (context: string)
      ensures context == ContextText(SearchKnowledge(query, DefaultK))
      ensures |context| == |ContextHeader| + EntriesLength(SearchKnowledge(query, DefaultK))
    {
      var relevantDocs := SearchKnowledge(query, k := 3);
      context := ContextHeader;
      for i := 0 to |relevantDocs|
        invariant context == ContextText(relevantDocs[..i])
      {
        context := context + "- " + relevantDocs[i].content + "\n\n";
        assert relevantDocs[..i + 1][..i] == relevantDocs[..i];
      }
      assert relevantDocs[..|relevantDocs|] == relevantDocs;
      ContextLength(relevantDocs);
    }
  }
}
