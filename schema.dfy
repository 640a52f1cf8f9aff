/**
 * The LangChain values the core passes around: chat messages and retrieved
 * documents. Only the fields the core reads are modelled.
 */
module Schema {

  /** `HumanMessage`, `AIMessage` and the `SystemMessage` a summary memory may return. */
  datatype Role = Human | AI | System

  datatype Message = Message(role: Role, content: string)

  /** `langchain_core.documents.Document`. */
  datatype Document = Document(pageContent: string, metadata: map<string, string>)

  function UserMessage(text: string): (m: Message) {
    Message(Human, text)
  }

  function AiMessage(text: string): (m: Message) {
    Message(AI, text)
  }

  /** `[doc.page_content for doc in documents]`. */
  function PageContents(documents: seq<Document>): (contents: seq<string>)
    ensures |contents| == |documents|
    ensures forall i :: 0 <= i < |documents| ==> contents[i] == documents[i].pageContent
  {
    seq(|documents|, i requires 0 <= i < |documents| => documents[i].pageContent)
  }
}
