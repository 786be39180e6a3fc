/** Compaction of a long transcript: token estimates, splitting into chunks, dropping
    the oldest chunks to fit a budget, and staged summaries. */
module Compaction {
  import opened Wrappers

  const SUMMARY_PREFIX := "[Compression Summary - Earlier conversation has been summarized]"

  /** `ToolResult` stands for the three spellings of a tool row's role. */
  datatype Role = User | System | Assistant | ToolResult | OtherRole

  /** `payload` counts the characters charged beside the text: tool-call payloads and
      image allowances. `callIds` are the ids of the calls a message makes, `resultId`
      the id of the call it answers ("" if none). */
  datatype Message = Message(
    role: Role,
    content: string,
    payload: nat,
    callIds: seq<string>,
    resultId: string,
    attachments: bool,
    eligible: bool)

  datatype Config = Config(
    contextWindow: int,
    keepRecentTurns: int,
    maxHistoryShare: real,
    stagedParts: int,
    stagedMinMessages: int,
    stagedOverhead: int,
    stagedMinChunk: int)

  // ----- token estimates

  function Chars(m: Message): nat {
    |m.content| + m.payload
  }

  function TotalChars(messages: seq<Message>): nat {
    if messages == [] then 0
    else TotalChars(messages[..|messages| - 1]) + Chars(messages[|messages| - 1])
  }

  /** Four characters a token, rounded down once over the whole list. */
  function EstimateTokens(messages: seq<Message>): nat {
    TotalChars(messages) / 4
  }

  /** What one message costs on its own: at least one token. */
  function Cost(m: Message): nat {
    Max(1, Chars(m) / 4)
  }

  function CostSum(messages: seq<Message>): nat {
    if messages == [] then 0
    else CostSum(messages[..|messages| - 1]) + Cost(messages[|messages| - 1])
  }

  method CountTokens(messages: seq<Message>) returns (tokens: nat)
    ensures tokens == EstimateTokens(messages)
  {
    var chars := 0;
    for i := 0 to |messages|
      invariant chars == TotalChars(messages[..i])
    {
      assert messages[..i + 1][..i] == messages[..i];
      chars := chars + |messages[i].content| + messages[i].payload;
    }
    assert messages[..|messages|] == messages;
    return chars / 4;
  }

  method CountOne(m: Message) returns (tokens: nat)
    ensures tokens == Cost(m)
  {
    var n := CountTokens([m]);
    assert [m][..0] == [] && TotalChars([m]) == TotalChars([]) + Chars(m);
    return Max(1, n);
  }

  // ----- cutting a list into chunks

  /** The state of both splitting loops. */
  datatype Cut = Cut(chunks: seq<seq<Message>>, current: seq<Message>, tokens: nat)

  const UNCUT := Cut([], [], 0)

  function Extend(c: Cut, m: Message, cut: bool): Cut {
    if cut then Cut(c.chunks + [c.current], [m], Cost(m))
    else Cut(c.chunks, c.current + [m], c.tokens + Cost(m))
  }

  function Close(c: Cut): seq<seq<Message>> {
    if c.current == [] then c.chunks else c.chunks + [c.current]
  }

  function NormalizeParts(parts: int, count: nat): (n: nat)
    ensures 1 <= n <= Max(1, count) && n <= Max(1, parts)
    ensures count >= 1 && parts >= 1 ==> n == count || n == parts
  {
    if count == 0 || parts <= 1 then 1 else Min(parts, count)
  }

  /** `float(current + cost) > total / parts`, over the integers. */
  predicate ShareCuts(c: Cut, m: Message, parts: nat, total: nat) {
    |c.chunks| < parts - 1 && c.current != [] && (c.tokens + Cost(m)) * parts > total
  }

  function ShareRun(messages: seq<Message>, parts: nat, total: nat): Cut {
    if messages == [] then UNCUT
    else
      var c := ShareRun(messages[..|messages| - 1], parts, total);
      var m := messages[|messages| - 1];
      Extend(c, m, ShareCuts(c, m, parts, total))
  }

  function SplitByShare(messages: seq<Message>, parts: int): seq<seq<Message>> {
    var n := NormalizeParts(parts, |messages|);
    if messages == [] then []
    else if n <= 1 then [messages]
    else Close(ShareRun(messages, n, Max(1, EstimateTokens(messages))))
  }

  method SplitMessagesByTokenShare(messages: seq<Message>, parts: int) returns (chunks: seq<seq<Message>>)
    ensures chunks == SplitByShare(messages, parts)
  {
    if messages == [] {
      return [];
    }
    var n := NormalizeParts(parts, |messages|);
    if n <= 1 {
      return [messages];
    }
    var estimate := CountTokens(messages);
    var total := Max(1, estimate);
    var current, tokens: nat := [], 0;
    chunks := [];
    for i := 0 to |messages|
      invariant Cut(chunks, current, tokens) == ShareRun(messages[..i], n, total)
    {
      assert messages[..i + 1][..i] == messages[..i];
      var cost := CountOne(messages[i]);
      if |chunks| < n - 1 && current != [] && (tokens + cost) * n > total {
        chunks := chunks + [current];
        current, tokens := [], 0;
      }
      current := current + [messages[i]];
      tokens := tokens + cost;
    }
    assert messages[..|messages|] == messages;
    if current != [] {
      chunks := chunks + [current];
    }
  }

  /** `max(1, int(maxTokens / 1.2))`. */
  function EffectiveMax(maxTokens: nat): nat {
    Max(1, maxTokens * 5 / 6)
  }

  function MaxRun(messages: seq<Message>, limit: nat): Cut {
    if messages == [] then UNCUT
    else
      var c := MaxRun(messages[..|messages| - 1], limit);
      var m := messages[|messages| - 1];
      Extend(c, m, c.current != [] && c.tokens + Cost(m) > limit)
  }

  function ChunkByMax(messages: seq<Message>, maxTokens: nat): seq<seq<Message>> {
    Close(MaxRun(messages, EffectiveMax(maxTokens)))
  }

  method ChunkMessagesByMaxTokens(messages: seq<Message>, maxTokens: nat) returns (chunks: seq<seq<Message>>)
    ensures chunks == ChunkByMax(messages, maxTokens)
  {
    if messages == [] {
      return [];
    }
    var limit := Max(1, maxTokens * 5 / 6);
    var current, tokens: nat := [], 0;
    chunks := [];
    for i := 0 to |messages|
      invariant Cut(chunks, current, tokens) == MaxRun(messages[..i], limit)
    {
      assert messages[..i + 1][..i] == messages[..i];
      var cost := CountOne(messages[i]);
      if current != [] && tokens + cost > limit {
        chunks := chunks + [current];
        current, tokens := [], 0;
      }
      current := current + [messages[i]];
      tokens := tokens + cost;
    }
    assert messages[..|messages|] == messages;
    if current != [] {
      chunks := chunks + [current];
    }
  }

  // ----- tool results without a call

  function KnownIds(messages: seq<Message>): set<string> {
    if messages == [] then {}
    else
      var m := messages[|messages| - 1];
      KnownIds(messages[..|messages| - 1]) +
      if m.role == Assistant then set id | id in m.callIds && id != "" else {}
  }

  predicate Orphan(m: Message, known: set<string>) {
    m.role == ToolResult && m.resultId != "" && m.resultId !in known
  }

  function WithoutOrphans(messages: seq<Message>, known: set<string>): seq<Message> {
    if messages == [] then []
    else
      var m := messages[|messages| - 1];
      WithoutOrphans(messages[..|messages| - 1], known) + if Orphan(m, known) then [] else [m]
  }

  function RepairPairing(messages: seq<Message>): seq<Message> {
    var known := KnownIds(messages);
    if known == {} then messages else WithoutOrphans(messages, known)
  }

  method RepairToolResultPairing(messages: seq<Message>) returns (repaired: seq<Message>)
    ensures repaired == RepairPairing(messages)
  {
    var known: set<string> := {};
    for i := 0 to |messages|
      invariant known == KnownIds(messages[..i])
    {
      assert messages[..i + 1][..i] == messages[..i];
      if messages[i].role == Assistant {
        known := known + set id | id in messages[i].callIds && id != "";
      }
    }
    assert messages[..|messages|] == messages;
    if known == {} {
      return messages;
    }
    repaired := [];
    for i := 0 to |messages|
      invariant repaired == WithoutOrphans(messages[..i], known)
    {
      assert messages[..i + 1][..i] == messages[..i];
      if messages[i].role != ToolResult || messages[i].resultId == "" || messages[i].resultId in known {
        repaired := repaired + [messages[i]];
      }
    }
  }
}
