/**
 * `format_inputs` of src/rag_chain.py: the retrieved documents' page contents joined
 * by a blank line, and the question passed through.
 */
module RagChain {
  import opened Schema

  const ContextSeparator: string := "\n\n"

  /** `sep.join(parts)`; it opens with the first part. */
  function Join(sep: string, parts: seq<string>): (r: string)
    ensures parts != [] ==> parts[0] <= r
    decreases |parts|
  {
    if parts == [] then ""
    else if |parts| == 1 then parts[0]
    else parts[0] + sep + Join(sep, parts[1..])
  }

  /** Total length of the parts. */
  function TotalLength(parts: seq<string>): (n: nat)
    decreases |parts|
  {
    if parts == [] then 0 else |parts[0]| + TotalLength(parts[1..])
  }

  /** Joining one more part adds a separator and that part at the end. */
  lemma {:induction false} JoinAppend(sep: string, parts: seq<string>, last: string)
    requires parts != []
    ensures Join(sep, parts + [last]) == Join(sep, parts) + sep + last
    decreases |parts|
  {
    if |parts| == 1 {
      assert parts + [last] == [parts[0], last];
    } else {
      assert (parts + [last])[1..] == parts[1..] + [last];
      JoinAppend(sep, parts[1..], last);
    }
  }

  /** A join is as long as its parts plus one separator between each two of them. */
  lemma {:induction false} JoinLength(sep: string, parts: seq<string>)
    requires parts != []
    ensures |Join(sep, parts)| == TotalLength(parts) + (|parts| - 1) * |sep|
    decreases |parts|
  {
    if |parts| > 1 {
      JoinLength(sep, parts[1..]);
    } else {
      assert parts[1..] == [];
    }
  }

  /** The last part closes the join. */
  lemma {:induction false} JoinEnds(sep: string, parts: seq<string>)
    requires parts != []
    ensures |parts[|parts| - 1]| <= |Join(sep, parts)|
    ensures Join(sep, parts)[|Join(sep, parts)| - |parts[|parts| - 1]|..] == parts[|parts| - 1]
    decreases |parts|
  {
    if |parts| > 1 {
      JoinEnds(sep, parts[1..]);
      var rest := Join(sep, parts[1..]);
      var last := parts[|parts| - 1];
      assert parts[1..][|parts[1..]| - 1] == last;
      assert Join(sep, parts) == parts[0] + (sep + rest);
      assert |Join(sep, parts)| == |parts[0]| + |sep| + |rest|;
      SuffixOfConcat(parts[0] + sep, rest, |last|);
    }
  }

  /** The last `k` characters of `a + b` are those of `b` when `b` has that many. */
  lemma SuffixOfConcat(a: string, b: string, k: nat)
    requires k <= |b|
    ensures (a + b)[|a| + |b| - k..] == b[|b| - k..]
  {
    assert (a + b)[|a|..] == b;
    assert (a + b)[|a| + |b| - k..] == (a + b)[|a|..][|b| - k..];
  }

  /** The dictionary `RunnableMap` hands to `format_inputs`. */
  datatype RetrievalInputs = RetrievalInputs(documents: seq<Document>, question: string)

  /** `format_inputs`: exactly the keys "context" and "question"; the question is
      passed through; the context is the page contents joined by a blank line, in
      document order; no documents give an empty context and one document gives its
      own content. */
  function FormatInputs(inputs: RetrievalInputs): (r: map<string, string>)
    ensures r.Keys == {"context", "question"}
    ensures r["question"] == inputs.question
    ensures r["context"] == Join(ContextSeparator, PageContents(inputs.documents))
    ensures inputs.documents == [] ==> r["context"] == ""
    ensures |inputs.documents| == 1 ==> r["context"] == inputs.documents[0].pageContent
  {
    map["context" := Join(ContextSeparator, PageContents(inputs.documents)), "question" := inputs.question]
  }

  /** A document retrieved after the others adds a blank line and its content at the
      end of the context. */
  lemma {:induction false} FormatInputsAppend(documents: seq<Document>, last: Document, question: string)
    requires documents != []
    ensures FormatInputs(RetrievalInputs(documents + [last], question))["context"]
            == FormatInputs(RetrievalInputs(documents, question))["context"] + "\n\n" + last.pageContent
  {
    assert PageContents(documents + [last]) == PageContents(documents) + [last.pageContent];
    JoinAppend(ContextSeparator, PageContents(documents), last.pageContent);
  }
}
