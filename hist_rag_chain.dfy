/**
 * src/hist_rag_chain.py: the retrieval chain with a single conversation buffer.
 *
 * `RAGChainWrapper` reads the buffer's messages, runs the chain on the question and
 * that history, and only then appends the question and the answer to the buffer.
 */
module HistRagChain {
  import opened Wrappers
  import opened Schema
  import opened Chains

  /** The `chat_memory` of a `ConversationBufferMemory`: a message log appended in place. */
  class BufferMemory {
    var messages: seq<Message>

    constructor()
      ensures messages == []
    {
      messages := [];
    }

    method AddUserMessage(text: string)
      modifies this
      ensures messages == old(messages) + [UserMessage(text)]
    {
      messages := messages + [UserMessage(text)];
    }

    method AddAiMessage(text: string)
      modifies this
      ensures messages == old(messages) + [AiMessage(text)]
    {
      messages := messages + [AiMessage(text)];
    }
  }

  /** The buffer after a call whose chain outcome is `out`, from the buffer `before`. */
  function BufferAfter(before: seq<Message>, question: string, out: ChainOutput): (after: seq<Message>)
    ensures ResultOf(out).CallRaised? ==> after == before
    ensures ResultOf(out).Answered? ==>
              after == before + [UserMessage(question), AiMessage(ResultOf(out).answer)]
  {
    match ResultOf(out)
    case CallRaised => before
    case Answered(answer, _) => before + [UserMessage(question), AiMessage(answer)]
  }

  /** A run of calls grows the buffer by exactly one question and one answer per
      answered call, in order, and leaves what was there before it untouched. */
  lemma {:induction false} BufferGrowsByAnsweredTurns(before: seq<Message>, questions: seq<string>, outs: seq<ChainOutput>)
    requires |questions| == |outs|
    ensures |BufferAfterRun(before, questions, outs)| == |before| + 2 * AnsweredCount(outs)
    ensures BufferAfterRun(before, questions, outs)[..|before|] == before
    decreases |outs|
  {
    if outs != [] {
      var next := BufferAfter(before, questions[0], outs[0]);
      BufferGrowsByAnsweredTurns(next, questions[1..], outs[1..]);
      var after := BufferAfterRun(next, questions[1..], outs[1..]);
      assert after[..|next|] == next;
      assert next[..|before|] == before;
      assert after[..|before|] == after[..|next|][..|before|];
    }
  }

  function BufferAfterRun(before: seq<Message>, questions: seq<string>, outs: seq<ChainOutput>): (after: seq<Message>)
    requires |questions| == |outs|
    decreases |outs|
  {
    if outs == [] then before
    else BufferAfterRun(BufferAfter(before, questions[0], outs[0]), questions[1..], outs[1..])
  }

  function AnsweredCount(outs: seq<ChainOutput>): (n: nat)
    decreases |outs|
  {
    if outs == [] then 0
    else (if ResultOf(outs[0]).Answered? then 1 else 0) + AnsweredCount(outs[1..])
  }

  /** `RAGChainWrapper`, with the chain as a function and the memory it was given. */
  class RAGChainWrapper {
    const chain: ChainInput -> ChainOutput
    const memory: BufferMemory

    constructor(chain: ChainInput -> ChainOutput, memory: BufferMemory)
      ensures this.chain == chain && this.memory == memory
    {
      this.chain := chain;
      this.memory := memory;
    }

    /** The chain's input for `inputs`: the question and the buffer as it stands. */
    function InputFor(inputs: map<string, string>): (input: ChainInput)
      reads memory
    {
      ChainInput(QuestionOf(inputs), memory.messages)
    }

    /** `__call__`: the chain sees the buffer as it was before the call; if it returns
        an answer, the buffer gains the question and then that answer, and the call
        returns that same answer with the documents under "context" (none when the key
        is absent); if it raises, or returns no "answer", the buffer is unchanged. */
    method Call(inputs: map<string, string>) returns (r: CallResult)
      modifies memory
      ensures r == ResultOf(chain(old(InputFor(inputs))))
      ensures memory.messages == BufferAfter(old(memory.messages), QuestionOf(inputs), chain(old(InputFor(inputs))))
    {
      var chatHistory := memory.messages;
      var out := chain(ChainInput(QuestionOf(inputs), chatHistory));
      r := ResultOf(out);
      if r.Answered? {
        var question := QuestionOf(inputs);
        memory.AddUserMessage(question);
        memory.AddAiMessage(r.answer);
      }
    }

    /** `invoke` is the call itself. */
    method Invoke(inputs: map<string, string>) returns (r: CallResult)
      modifies memory
      ensures r == ResultOf(chain(old(InputFor(inputs))))
      ensures memory.messages == BufferAfter(old(memory.messages), QuestionOf(inputs), chain(old(InputFor(inputs))))
    {
      r := Call(inputs);
    }
  }

  /** `create_rag_chain`: the memory supplied is used as it is; without one, a fresh
      empty buffer is made. */
  method CreateRagChain(chain: ChainInput -> ChainOutput, memory: BufferMemory?) returns (w: RAGChainWrapper)
    ensures fresh(w)
    ensures w.chain == chain
    ensures memory != null ==> w.memory == memory
    ensures memory == null ==> fresh(w.memory) && w.memory.messages == []
  {
    var m := memory;
    if m == null {
      m := new BufferMemory();
    }
    w := new RAGChainWrapper(chain, m);
  }
}
