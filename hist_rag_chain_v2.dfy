/**
 * src/hist_rag_chain_v2.py: the retrieval chain with a hybrid memory.
 *
 * `HybridMemory` keeps two LangChain memories, a summary memory and a window memory,
 * each with its own message log, and appends every turn to both. What the two
 * memories make of their logs (the LLM-written summary, and which recent messages the
 * window keeps for a window size `k`) is library and LLM behaviour; the model takes it
 * as a `MemoryBackend` of functions and proves only what the code around it does.
 */
module HistRagChainV2 {
  import opened Wrappers
  import opened Schema
  import opened Chains

  /** The default `window_size` of `HybridMemory` and of `create_rag_chain`. */
  const DefaultWindowSize: int := 4

  const SummaryPrefix: string := "Previous conversation summary: "

  /** What `summary_memory.load_memory_variables({})` holds under the summary key:
      nothing, a list of messages, or a text. */
  datatype SummaryValue = Missing | MessageList(messages: seq<Message>) | Text(text: string)

  /** Python truthiness of that value, which is what lines 91 and 93 test. */
  predicate Truthy(v: SummaryValue) {
    match v
    case Missing => false
    case MessageList(messages) => messages != []
    case Text(text) => text != ""
  }

  /** The library side of the two memories, as functions of their message logs. */
  datatype MemoryBackend = MemoryBackend(
    summaryOf: seq<Message> -> SummaryValue,       // the summary memory's variable
    windowOf: (seq<Message>, int) -> seq<Message>, // the window memory's variable, [] when absent
    renderList: seq<Message> -> string)            // `str` of a list of messages

  /** The part of the combined history that comes from the summary: a list is used
      as it is, a text becomes one AI message, and a falsy value gives nothing. */
  function SummaryPart(v: SummaryValue): (part: seq<Message>)
    ensures !Truthy(v) ==> part == []
    ensures v.MessageList? ==> part == v.messages
    ensures v.Text? && Truthy(v) ==> part == [AiMessage(SummaryPrefix + v.text)]
  {
    match v
    case Missing => []
    case MessageList(messages) => messages
    case Text(text) => if text == "" then [] else [AiMessage(SummaryPrefix + text)]
  }

  /** `get_combined_history` on the two memories' variables: the summary part
      followed by the window messages, unchanged and in order. */
  function CombinedHistory(summary: SummaryValue, window: seq<Message>): (h: seq<Message>)
    ensures |h| == |SummaryPart(summary)| + |window|
    ensures h[..|SummaryPart(summary)|] == SummaryPart(summary)
    ensures h[|SummaryPart(summary)|..] == window
    ensures !Truthy(summary) ==> h == window
    ensures summary.Text? && Truthy(summary) ==> h == [AiMessage(SummaryPrefix + summary.text)] + window
  {
    SummaryPart(summary) + window
  }

  // ---------------------------------------------------------------------------
  // The two logs
  // ---------------------------------------------------------------------------

  /** The summary memory's log and the window memory's log. */
  datatype Logs = Logs(summary: seq<Message>, window: seq<Message>)

  /** The operations of `HybridMemory` that change the logs. */
  datatype MemoryOp = AddUser(text: string) | AddAi(text: string) | ClearAll

  /** One operation: an add appends to both logs, `clear` empties both. */
  function Step(l: Logs, op: MemoryOp): (r: Logs)
    ensures op.ClearAll? ==> r == Logs([], [])
    ensures op.AddUser? ==> r == Logs(l.summary + [UserMessage(op.text)], l.window + [UserMessage(op.text)])
    ensures op.AddAi? ==> r == Logs(l.summary + [AiMessage(op.text)], l.window + [AiMessage(op.text)])
  {
    match op
    case AddUser(text) => Logs(l.summary + [UserMessage(text)], l.window + [UserMessage(text)])
    case AddAi(text) => Logs(l.summary + [AiMessage(text)], l.window + [AiMessage(text)])
    case ClearAll => Logs([], [])
  }

  /** The logs after the operations `ops`, in order, from `l`. */
  function Replay(l: Logs, ops: seq<MemoryOp>): (after: Logs)
    decreases |ops|
  {
    if ops == [] then l else Step(Replay(l, ops[..|ops| - 1]), ops[|ops| - 1])
  }

  /** The messages added since the last `clear` in `ops`, appended to `start` when
      there was none. */
  function Transcript(start: seq<Message>, ops: seq<MemoryOp>): (t: seq<Message>)
    decreases |ops|
  {
    if ops == [] then start
    else
      var before := Transcript(start, ops[..|ops| - 1]);
      match ops[|ops| - 1]
      case AddUser(text) => before + [UserMessage(text)]
      case AddAi(text) => before + [AiMessage(text)]
      case ClearAll => []
  }

  /** From two equal logs (as after construction or `clear`), any run of operations
      leaves both logs equal to the same transcript. */
  lemma {:induction false} LockStep(start: seq<Message>, ops: seq<MemoryOp>)
    ensures Replay(Logs(start, start), ops) == Logs(Transcript(start, ops), Transcript(start, ops))
    decreases |ops|
  {
    if ops != [] {
      LockStep(start, ops[..|ops| - 1]);
    }
  }

  /** The logs after a wrapper call that ended with `r`: an answered call appends
      exactly the question and then the answer to both logs; a call that raised
      leaves them as they were. */
  function LogsAfterCall(l: Logs, question: string, r: CallResult): (after: Logs)
    ensures r.Answered? ==> after == Logs(l.summary + [UserMessage(question), AiMessage(r.answer)],
                                          l.window + [UserMessage(question), AiMessage(r.answer)])
    ensures r.CallRaised? ==> after == l
  {
    if r.Answered? then Step(Step(l, AddUser(question)), AddAi(r.answer)) else l
  }

  /** After `clear`, the combined history is empty exactly when the library's views of
      two empty logs are empty; it is not empty when the summary memory reports
      something for an empty log (a summary memory that returns messages reports a
      one-message list holding its empty summary). */
  lemma {:induction false} ClearedHistory(backend: MemoryBackend, windowSize: int)
    ensures var h := CombinedHistory(backend.summaryOf([]), backend.windowOf([], windowSize));
            h == [] <==> !Truthy(backend.summaryOf([])) && backend.windowOf([], windowSize) == []
  {
  }

  // ---------------------------------------------------------------------------
  // HybridMemory
  // ---------------------------------------------------------------------------

  /** `get_memory_stats`. */
  datatype MemoryStats = MemoryStats(
    summaryLength: nat,
    recentMessagesCount: nat,
    totalMessagesInSummary: nat,
    windowSize: int)

  /** `len(str(summary_vars.get(key, "")))`. */
  function SummaryLength(backend: MemoryBackend, v: SummaryValue): (n: nat)
    ensures v.Missing? ==> n == 0
    ensures v.Text? ==> n == |v.text|
  {
    match v
    case Missing => 0
    case MessageList(messages) => |backend.renderList(messages)|
    case Text(text) => |text|
  }

  class HybridMemory {
    var summaryLog: seq<Message>   // summary_memory.chat_memory.messages
    var windowLog: seq<Message>    // window_memory.chat_memory.messages
    const windowSize: int
    const backend: MemoryBackend

    function CurrentLogs(): (logs: Logs)
      reads this
    {
      Logs(summaryLog, windowLog)
    }

    /** The two logs agree, as every operation keeps them. */
    predicate InLockStep()
      reads this
    {
      summaryLog == windowLog
    }

    /** What `get_combined_history` returns in the current state. */
    function History(): (h: seq<Message>)
      reads this
    {
      CombinedHistory(backend.summaryOf(summaryLog), backend.windowOf(windowLog, windowSize))
    }

    constructor(backend: MemoryBackend, windowSize: int := DefaultWindowSize)
      ensures CurrentLogs() == Logs([], []) && InLockStep()
      ensures this.backend == backend && this.windowSize == windowSize
    {
      this.backend := backend;
      this.windowSize := windowSize;
      summaryLog := [];
      windowLog := [];
    }

    /** `add_user_message`: the same message goes to both logs. */
    method AddUserMessage(text: string)
      modifies this
      ensures CurrentLogs() == Step(old(CurrentLogs()), AddUser(text))
      ensures old(InLockStep()) ==> InLockStep()
    {
      summaryLog := summaryLog + [UserMessage(text)];
      windowLog := windowLog + [UserMessage(text)];
    }

    /** `add_ai_message`. */
    method AddAiMessage(text: string)
      modifies this
      ensures CurrentLogs() == Step(old(CurrentLogs()), AddAi(text))
      ensures old(InLockStep()) ==> InLockStep()
    {
      summaryLog := summaryLog + [AiMessage(text)];
      windowLog := windowLog + [AiMessage(text)];
    }

    /** `get_combined_history`: builds the list step by step. It changes no state
        (there is no `modifies` clause), so two reads in a row give the same list. */
    method GetCombinedHistory() returns (messages: seq<Message>)
      ensures messages == History()
    {
      messages := [];
      var summaryVars := backend.summaryOf(summaryLog);
      if Truthy(summaryVars) {
        match summaryVars
        case MessageList(summaryMessages) =>
          messages := messages + summaryMessages;
        case Text(summaryText) =>
          messages := messages + [AiMessage(SummaryPrefix + summaryText)];
      }
      var recentMessages := backend.windowOf(windowLog, windowSize);
      if recentMessages != [] {
        messages := messages + recentMessages;
      }
    }

    /** `clear`: both logs become empty. */
    method Clear()
      modifies this
      ensures CurrentLogs() == Step(old(CurrentLogs()), ClearAll)
      ensures InLockStep()
    {
      summaryLog := [];
      windowLog := [];
    }
  }

  // ---------------------------------------------------------------------------
  // HybridRAGChainWrapper
  // ---------------------------------------------------------------------------

  class HybridRAGChainWrapper {
    const chain: ChainInput -> ChainOutput
    const hybridMemory: HybridMemory

    constructor(chain: ChainInput -> ChainOutput, hybridMemory: HybridMemory)
      ensures this.chain == chain && this.hybridMemory == hybridMemory
    {
      this.chain := chain;
      this.hybridMemory := hybridMemory;
    }

    /** The chain's input for `inputs`: the question and the combined history as it stands. */
    function InputFor(inputs: map<string, string>): (input: ChainInput)
      reads hybridMemory
    {
      ChainInput(QuestionOf(inputs), hybridMemory.History())
    }

    /** `__call__`: the history is read before the chain runs; if the chain returns an
        answer, both logs gain the question and then that answer, and the call returns
        that answer with the documents under "context" (none when absent); if the chain
        raises, or returns no "answer", the memory is unchanged. */
    method Call(inputs: map<string, string>) returns (r: CallResult)
      modifies hybridMemory
      ensures r == ResultOf(chain(old(InputFor(inputs))))
      ensures hybridMemory.CurrentLogs() == LogsAfterCall(old(hybridMemory.CurrentLogs()), QuestionOf(inputs), r)
      ensures old(hybridMemory.InLockStep()) ==> hybridMemory.InLockStep()
    {
      var chatHistory := hybridMemory.GetCombinedHistory();
      var out := chain(ChainInput(QuestionOf(inputs), chatHistory));
      r := ResultOf(out);
      if r.Answered? {
        var question := QuestionOf(inputs);
        hybridMemory.AddUserMessage(question);
        hybridMemory.AddAiMessage(r.answer);
      }
    }

    /** `invoke` is the call itself. */
    method Invoke(inputs: map<string, string>) returns (r: CallResult)
      modifies hybridMemory
      ensures r == ResultOf(chain(old(InputFor(inputs))))
      ensures hybridMemory.CurrentLogs() == LogsAfterCall(old(hybridMemory.CurrentLogs()), QuestionOf(inputs), r)
      ensures old(hybridMemory.InLockStep()) ==> hybridMemory.InLockStep()
    {
      r := Call(inputs);
    }

    /** `clear_memory`. */
    method ClearMemory()
      modifies hybridMemory
      ensures hybridMemory.CurrentLogs() == Logs([], [])
    {
      hybridMemory.Clear();
    }

    /** `get_memory_stats`: reads both memories and changes nothing. */
    method GetMemoryStats() returns (stats: MemoryStats)
      ensures stats.summaryLength == SummaryLength(hybridMemory.backend, hybridMemory.backend.summaryOf(hybridMemory.summaryLog))
      ensures stats.recentMessagesCount == |hybridMemory.backend.windowOf(hybridMemory.windowLog, hybridMemory.windowSize)|
      ensures stats.totalMessagesInSummary == |hybridMemory.summaryLog|
      ensures stats.windowSize == hybridMemory.windowSize
    {
      var m := hybridMemory;
      var summaryVars := m.backend.summaryOf(m.summaryLog);
      var windowVars := m.backend.windowOf(m.windowLog, m.windowSize);
      stats := MemoryStats(SummaryLength(m.backend, summaryVars), |windowVars|, |m.summaryLog|, m.windowSize);
    }
  }

  /** `create_rag_chain`: always a fresh hybrid memory with empty logs and the given
      window size; a memory passed in is not used. */
  method CreateRagChain(chain: ChainInput -> ChainOutput, backend: MemoryBackend, memory: HybridMemory?,
                        windowSize: int := DefaultWindowSize)
    returns (w: HybridRAGChainWrapper)
    ensures fresh(w) && fresh(w.hybridMemory)
    ensures w.chain == chain
    ensures w.hybridMemory.CurrentLogs() == Logs([], []) && w.hybridMemory.InLockStep()
    ensures w.hybridMemory.backend == backend && w.hybridMemory.windowSize == windowSize
  {
    var hybridMemory := new HybridMemory(backend, windowSize);
    w := new HybridRAGChainWrapper(chain, hybridMemory);
  }
}
