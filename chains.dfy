/**
 * What the two chain wrappers (src/hist_rag_chain.py and src/hist_rag_chain_v2.py)
 * share: the question lookup, the shape of the chain's input and output, and the
 * dictionary the wrapper returns.
 *
 * The retrieval chain itself (history-aware retriever, prompt, LLM) is a parameter:
 * a function from the chain's input to its outcome, which may be an exception.
 */
module Chains {
  import opened Wrappers
  import opened Schema

  /** The dictionary `{"input": ..., "chat_history": ...}` the wrappers pass to `chain.invoke`. */
  datatype ChainInput = ChainInput(input: string, chatHistory: seq<Message>)

  /** What `chain.invoke` does: raise, or return a dictionary in which the keys
      "answer" and "context" may or may not be present. */
  datatype ChainOutput =
    | Raised
    | Returned(answer: Option<string>, context: Option<seq<Document>>)

  /** What a wrapper call does: raise, or return `{"answer": ..., "source_documents": ...}`. */
  datatype CallResult =
    | CallRaised
    | Answered(answer: string, sourceDocuments: seq<Document>)

  /** `inputs.get("question", inputs.get("query", ""))`. */
  function QuestionOf(inputs: map<string, string>): (q: string)
    ensures "question" in inputs ==> q == inputs["question"]
    ensures "question" !in inputs && "query" in inputs ==> q == inputs["query"]
    ensures "question" !in inputs && "query" !in inputs ==> q == ""
    ensures q == "" || q in inputs.Values
  {
    if "question" in inputs then inputs["question"]
    else if "query" in inputs then inputs["query"]
    else ""
  }

  /** A "question" key decides the question whatever else the inputs hold. */
  lemma {:induction false} QuestionOverridesQuery(inputs: map<string, string>, question: string, query: string)
    ensures QuestionOf(inputs["query" := query]["question" := question]) == question
    ensures "question" !in inputs ==> QuestionOf(inputs["query" := query]) == query
  {
  }

  /** The wrapper's reading of the chain's outcome: an exception propagates,
      `result["answer"]` raises `KeyError` when the key is absent, and
      `result.get("context", [])` defaults the documents to none. */
  function ResultOf(out: ChainOutput): (r: CallResult)
    ensures r.Answered? <==> out.Returned? && out.answer.Some?
    ensures r.Answered? ==> r.answer == out.answer.value
    ensures r.Answered? && out.context.None? ==> r.sourceDocuments == []
    ensures r.Answered? && out.context.Some? ==> r.sourceDocuments == out.context.value
  {
    match out
    case Raised => CallRaised
    case Returned(answer, context) =>
      if answer.None? then CallRaised else Answered(answer.value, context.GetOr([]))
  }
}
