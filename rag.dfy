/**
 * The retrieval-augmented generation example: its sample knowledge base of
 * five AWS service documents and `format_docs`, which serialises the
 * retrieved documents into the prompt's context. Embeddings, the vector
 * store and the model call are foreign and are not modelled.
 */
module Rag {
  import opened Wrappers
  import opened Text

  /** A LangChain `Document`: its text and its metadata dictionary. */
  datatype Document = Document(pageContent: string, metadata: map<string, string>)

  const Separator := "\n\n"

  /** The page contents of the sample documents. */
  const LambdaText := "AWS Lambda is a serverless compute service that runs code without provisioning servers. It automatically scales and charges only for compute time used. Supports multiple languages including Python, Node.js, Java, and Go."
  const S3Text := "Amazon S3 is object storage with 99.999999999% durability. It offers multiple storage classes for different use cases: Standard, IA, Glacier, and Deep Archive. Supports versioning, encryption, and lifecycle policies."
  const DynamoDbText := "Amazon DynamoDB is a NoSQL database service with single-digit millisecond performance. It offers on-demand and provisioned billing modes. Supports global tables for multi-region replication."
  const ApiGatewayText := "Amazon API Gateway is a managed service for creating REST and WebSocket APIs. It handles authentication, throttling, caching, and monitoring. Integrates with Lambda, EC2, and other AWS services."
  const CloudFormationText := "AWS CloudFormation is infrastructure as code service. It uses JSON or YAML templates to provision AWS resources. Supports rollback, change sets, and stack policies for safe deployments."

  /** A document whose metadata dictionary holds a service and a category. */
  function Doc(content: string, service: string, category: string): (d: Document)
    ensures d.pageContent == content
    ensures "service" in d.metadata && d.metadata["service"] == service
    ensures "category" in d.metadata && d.metadata["category"] == category
  {
    Document(content, map["service" := service, "category" := category])
  }

  /** `create_sample_knowledge_base`: five documents, one per AWS service, each tagged with its service and category. */
  function SampleKnowledgeBase(): seq<Document> {
    [ Doc(LambdaText, "Lambda", "Compute"),
      Doc(S3Text, "S3", "Storage"),
      Doc(DynamoDbText, "DynamoDB", "Database"),
      Doc(ApiGatewayText, "API Gateway", "Networking"),
      Doc(CloudFormationText, "CloudFormation", "Management") ]
  }

  /** The document carries the "service" key `format_docs` reads. */
  predicate HasService(d: Document) {
    "service" in d.metadata
  }

  /** One document's entry: "Service: <service>", a newline, then its text. */
  function Entry(d: Document): string
    requires HasService(d)
  {
    "Service: " + d.metadata["service"] + "\n" + d.pageContent
  }

  /** The entries of the documents, in order. */
  function Entries(docs: seq<Document>): (r: seq<string>)
    requires forall i :: 0 <= i < |docs| ==> HasService(docs[i])
    ensures |r| == |docs|
    ensures forall i :: 0 <= i < |docs| ==> r[i] == Entry(docs[i])
    decreases |docs|
  {
    if docs == [] then [] else Entries(docs[..|docs| - 1]) + [Entry(docs[|docs| - 1])]
  }

  /**
   * `format_docs`: the entries joined by a blank line; a document without
   * a "service" key raises KeyError.
   */
  function FormatDocs(docs: seq<Document>): (r: Result<string, string>)
    ensures r.Ok? <==> forall i :: 0 <= i < |docs| ==> HasService(docs[i])
    ensures docs == [] ==> r == Ok("")
    ensures |docs| == 1 && r.Ok? ==> r.value == Entry(docs[0])
  {
    if forall i :: 0 <= i < |docs| ==> HasService(docs[i]) then Ok(Join(Separator, Entries(docs)))
    else Err("KeyError")
  }

  /** Where the `i`-th part starts in `sep.join(parts)`: after every earlier part and its separator. */
  function Start(sep: string, parts: seq<string>, i: nat): nat
    requires i <= |parts|
    decreases i
  {
    if i == 0 then 0 else Start(sep, parts, i - 1) + |parts[i - 1]| + |sep|
  }

  /** The joined text is as long as the parts and the separators between them. */
  lemma {:induction false} JoinLength(sep: string, parts: seq<string>)
    requires parts != []
    ensures |Join(sep, parts)| + |sep| == Start(sep, parts, |parts|)
    decreases |parts|
  {
    if |parts| > 1 {
      var init := parts[..|parts| - 1];
      JoinLength(sep, init);
      StartPrefix(sep, parts, init, |init|);
    }
  }

  /** The start of a part only depends on the parts before it. */
  lemma {:induction false} StartPrefix(sep: string, parts: seq<string>, init: seq<string>, i: nat)
    requires i <= |init| <= |parts| && init == parts[..|init|]
    ensures Start(sep, parts, i) == Start(sep, init, i)
    decreases i
  {
    if i > 0 {
      StartPrefix(sep, parts, init, i - 1);
    }
  }

  /** Every part occurs in `sep.join(parts)` at its own start, so the parts appear in input order. */
  lemma {:induction false} JoinOccurs(sep: string, parts: seq<string>, i: nat)
    requires i < |parts|
    ensures OccursAt(Join(sep, parts), parts[i], Start(sep, parts, i))
    decreases |parts|
  {
    if |parts| > 1 {
      var init := parts[..|parts| - 1];
      var last := parts[|parts| - 1];
      assert Join(sep, parts) == Join(sep, init) + sep + last;
      if i < |init| {
        JoinOccurs(sep, init, i);
        StartPrefix(sep, parts, init, i);
        var s := Start(sep, parts, i);
        assert Join(sep, parts)[s..s + |parts[i]|] == Join(sep, init)[s..s + |parts[i]|];
      } else {
        JoinLength(sep, init);
        StartPrefix(sep, parts, init, |init|);
        OccursBetween(Join(sep, init) + sep, last, []);
        assert Join(sep, init) + sep + last + [] == Join(sep, parts);
      }
    }
  }

  /** The entry of the `i`-th document occurs in the formatted context, at its start among the entries. */
  lemma FormatDocsInOrder(docs: seq<Document>, i: nat)
    requires i < |docs|
    requires FormatDocs(docs).Ok?
    ensures OccursAt(FormatDocs(docs).value, Entry(docs[i]), Start(Separator, Entries(docs), i))
  {
    JoinOccurs(Separator, Entries(docs), i);
  }

  /** One more document adds a blank line and its entry at the end. */
  lemma FormatDocsAppend(docs: seq<Document>, d: Document)
    requires docs != [] && FormatDocs(docs).Ok? && HasService(d)
    ensures FormatDocs(docs + [d]) == Ok(FormatDocs(docs).value + Separator + Entry(d))
  {
    var all := docs + [d];
    assert forall i :: 0 <= i < |all| ==> HasService(all[i]);
    assert Entries(all) == Entries(docs) + [Entry(d)];
    JoinAppend(Separator, Entries(docs), Entry(d));
  }

  /** The sample knowledge base holds five documents, the first about Lambda, each with a service and a category. */
  lemma SampleKnowledgeBaseShape()
    ensures var docs := SampleKnowledgeBase();
      && |docs| == 5
      && (forall i :: 0 <= i < |docs| ==> "service" in docs[i].metadata && "category" in docs[i].metadata)
      && docs[0].metadata["service"] == "Lambda"
  {
  }

  /** The sample knowledge base formats without a KeyError, starting with the Lambda entry. */
  lemma SampleKnowledgeBaseFormats()
    ensures FormatDocs(SampleKnowledgeBase()).Ok?
    ensures OccursAt(FormatDocs(SampleKnowledgeBase()).value, Entry(SampleKnowledgeBase()[0]), 0)
  {
    SampleKnowledgeBaseShape();
    FormatDocsInOrder(SampleKnowledgeBase(), 0);
  }
}
