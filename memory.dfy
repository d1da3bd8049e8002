/**
 * The conversation memory: a bounded history per chat, where a new message is appended and
 * the oldest one is dropped once the history is longer than the limit, and a selection of the
 * history that keeps every user message and the last answer of the assistant.
 *
 * The storage behind the agent is a map from chat id to history; whether a storage call
 * raises is a parameter.
 */
module Memory {
  import opened Wrappers
  import opened Strings

  /** One message of a conversation. */
  datatype Entry = Entry(role: string, content: string)

  /**
   * The history after `add_to_memory`: the new entry is the last one, at most the oldest entry
   * is dropped, and only when the appended history is longer than the limit.
   */
  function Remember(history: seq<Entry>, e: Entry, maxHistory: int): (r: seq<Entry>)
    ensures |r| == |history| + 1 <==> |history| + 1 <= maxHistory
    ensures |history| <= |r| <= |history| + 1 && r == (history + [e])[|history| + 1 - |r|..]
    ensures 0 < maxHistory && |history| <= maxHistory ==> |r| <= maxHistory
    ensures 0 < maxHistory || history != [] ==> r != [] && r[|r| - 1] == e
  {
    var appended := history + [e];
    if |appended| > maxHistory then appended[1..] else appended
  }

  /** The history a chat has after its messages were added one by one to an empty one. */
  function Conversation(messages: seq<Entry>, maxHistory: int): seq<Entry>
    decreases |messages|
  {
    if messages == [] then []
    else Remember(Conversation(messages[..|messages| - 1], maxHistory), messages[|messages| - 1], maxHistory)
  }

  /** With a positive limit the history is always the last `maxHistory` messages. */
  lemma {:induction false} ConversationWindow(messages: seq<Entry>, maxHistory: int)
    requires maxHistory > 0
    ensures Conversation(messages, maxHistory) == messages[|messages| - Min(maxHistory, |messages|)..]
    decreases |messages|
  {
    if messages != [] {
      ConversationWindow(messages[..|messages| - 1], maxHistory);
      WindowStep(messages, maxHistory);
    }
  }

  lemma {:induction false} WindowStep(messages: seq<Entry>, maxHistory: int)
    requires maxHistory > 0 && messages != []
    ensures var pre := messages[..|messages| - 1];
            Remember(pre[|pre| - Min(maxHistory, |pre|)..], messages[|messages| - 1], maxHistory)
            == messages[|messages| - Min(maxHistory, |messages|)..]
  {
    var pre := messages[..|messages| - 1];
    var e := messages[|messages| - 1];
    var h := pre[|pre| - Min(maxHistory, |pre|)..];
    if |pre| < maxHistory {
      assert h == pre;
      assert pre + [e] == messages;
    } else {
      assert h + [e] == messages[|messages| - 1 - maxHistory..];
      assert (h + [e])[1..] == messages[|messages| - maxHistory..];
    }
  }

  function IsUser(): Entry -> bool {
    (e: Entry) => e.role == "user"
  }

  function Roles(h: seq<Entry>): (r: seq<string>)
    ensures |r| == |h| && forall i :: 0 <= i < |h| ==> r[i] == h[i].role
  {
    MapSeq(h, (e: Entry) => e.role)
  }

  /**
   * `get_memory`: the user entries in order, then the last assistant entry if there is one; no
   * other role appears.
   */
  function Relevant(h: seq<Entry>): (r: seq<Entry>)
    ensures |r| == |Filter(h, IsUser())| + (if exists i :: 0 <= i < |h| && h[i].role == "assistant" then 1 else 0)
    ensures r[..|Filter(h, IsUser())|] == Filter(h, IsUser())
    ensures forall x :: x in r ==> x.role == "user" || x.role == "assistant"
    ensures (exists i :: 0 <= i < |h| && h[i].role == "assistant") ==>
              exists j :: 0 <= j < |h| && h[j].role == "assistant" && r[|r| - 1] == h[j]
                          && forall l :: j < l < |h| ==> h[l].role != "assistant"
  {
    var users := Filter(h, IsUser());
    var last := LastIndexBelow(Roles(h), "assistant", |h|);
    var r := users + (if last.Some? then [h[last.value]] else []);
    assert r[..|users|] == users;
    r
  }

  /** `MemoryAgent` over its storage. */
  class MemoryAgent {
    var storage: map<string, seq<Entry>>
    const maxHistory: int

    constructor(storage: map<string, seq<Entry>>, maxHistory: int)
      ensures this.storage == storage && this.maxHistory == maxHistory
    {
      this.storage := storage;
      this.maxHistory := maxHistory;
    }

    /** `memory_storage.get_memory(chat_id) or []` */
    function HistoryOf(chatId: string): seq<Entry>
      reads this
    {
      if chatId in storage then storage[chatId] else []
    }

    /** `add_to_memory`: a failing storage call is caught and nothing is stored. */
    method AddToMemory(chatId: string, role: string, content: string, storageFails: bool)
      modifies this
      ensures storageFails ==> storage == old(storage)
      ensures !storageFails ==> storage == old(storage)[chatId := Remember(old(HistoryOf(chatId)), Entry(role, content), maxHistory)]
    {
      if storageFails {
        return;
      }
      var history := HistoryOf(chatId);
      history := history + [Entry(role, content)];
      if |history| > maxHistory {
        history := history[1..];
      }
      storage := storage[chatId := history];
    }

    /** `get_memory`: a forward pass for the user entries, a backward pass for the last answer. */
    method GetMemory(chatId: string, storageFails: bool) returns (relevantMemory: seq<Entry>)
      ensures storageFails ==> relevantMemory == []
      ensures !storageFails ==> relevantMemory == Relevant(HistoryOf(chatId))
    {
      if storageFails {
        return [];
      }
      var fullContext := HistoryOf(chatId);
      relevantMemory := UserEntries(fullContext);
      var lastAssistantResponse := LastAssistant(fullContext);
      if lastAssistantResponse.Some? {
        relevantMemory := relevantMemory + [lastAssistantResponse.value];
      }
    }
  }

  /** The forward pass of `get_memory`: every user entry, in order. */
  method UserEntries(fullContext: seq<Entry>) returns (relevantMemory: seq<Entry>)
    ensures relevantMemory == Filter(fullContext, IsUser())
  {
    relevantMemory := [];
    for i := 0 to |fullContext|
      invariant relevantMemory == Filter(fullContext[..i], IsUser())
    {
      assert fullContext[..i + 1] == fullContext[..i] + [fullContext[i]];
      FilterSnoc(fullContext[..i], fullContext[i], IsUser());
      var entry := fullContext[i];
      if entry.role == "user" {
        relevantMemory := relevantMemory + [Entry(entry.role, entry.content)];
      }
    }
    assert fullContext[..|fullContext|] == fullContext;
  }

  /** The backward pass of `get_memory`: the scan stops at the first assistant entry from the end. */
  method LastAssistant(fullContext: seq<Entry>) returns (lastAssistantResponse: Option<Entry>)
    ensures var last := LastIndexBelow(Roles(fullContext), "assistant", |fullContext|);
            lastAssistantResponse == if last.Some? then Some(fullContext[last.value]) else None
  {
    ghost var roles := Roles(fullContext);
    lastAssistantResponse := None;
    var i := |fullContext|;
    while i > 0
      invariant 0 <= i <= |fullContext|
      invariant LastIndexBelow(roles, "assistant", |fullContext|) == LastIndexBelow(roles, "assistant", i)
      decreases i
    {
      if fullContext[i - 1].role == "assistant" {
        lastAssistantResponse := Some(fullContext[i - 1]);
        break;
      }
      i := i - 1;
    }
  }
}
