/** Pruning of bulky tool results: a soft pass keeps head and tail, a hard pass clears
    whole results until the context is small enough. */
module ContextPruning {
  import opened Wrappers

  /** `ToolResult` stands for the three spellings of a tool row's role. */
  datatype Role = User | System | Assistant | ToolResult | OtherRole

  /** `chars` is what a content that is not plain text is charged. */
  datatype Content = Text(text: string) | Structured(chars: nat)

  datatype Message = Message(role: Role, content: Content, name: string, failed: bool)

  datatype SoftTrim = SoftTrim(maxChars: int, headChars: nat, tailChars: nat)

  datatype Mode = Off | CacheTtl | OtherMode

  datatype Settings = Settings(
    mode: Mode,
    ttlMs: int,
    keepLastAssistants: int,
    softRatio: real,
    hardRatio: real,
    minPrunable: int,
    soft: SoftTrim,
    hardEnabled: bool,
    placeholder: string)

  const CHARS_PER_TOKEN := 4

  // ----- specification

  function Chars(m: Message): nat {
    match m.content
    case Text(text) => |text|
    case Structured(chars) => chars
  }

  function TotalChars(messages: seq<Message>): nat {
    if messages == [] then 0
    else TotalChars(messages[..|messages| - 1]) + Chars(messages[|messages| - 1])
  }

  /** The index of the n-th assistant message from the end. */
  function NthAssistantFromEnd(messages: seq<Message>, n: nat): (i: Option<nat>)
    requires n >= 1
    ensures i.Some? ==> i.value < |messages| && messages[i.value].role == Assistant
  {
    if messages == [] then None
    else
      var k := |messages| - 1;
      if messages[k].role != Assistant then NthAssistantFromEnd(messages[..k], n)
      else if n == 1 then Some(k)
      else NthAssistantFromEnd(messages[..k], n - 1)
  }

  function Cutoff(messages: seq<Message>, keepLast: int): (i: Option<nat>)
    ensures i.Some? ==> i.value <= |messages|
  {
    if keepLast <= 0 then Some(|messages|) else NthAssistantFromEnd(messages, keepLast)
  }

  function FirstUser(messages: seq<Message>): (i: nat)
    ensures i <= |messages|
    ensures i < |messages| ==> messages[i].role == User
    ensures forall k :: 0 <= k < i ==> messages[k].role != User
  {
    if messages == [] || messages[0].role == User then 0 else 1 + FirstUser(messages[1..])
  }

  function Decimal(n: nat): string {
    if n < 10 then ["0123456789"[n]] else Decimal(n / 10) + ["0123456789"[n % 10]]
  }

  /** `content[-n:]`, which is the whole text for n = 0. */
  function Tail(text: string, n: nat): string
    requires n <= |text|
  {
    if n == 0 then text else text[|text| - n..]
  }

  function SoftTrimText(text: string, cfg: SoftTrim): Option<string> {
    if |text| <= cfg.maxChars || cfg.headChars + cfg.tailChars >= |text| then None
    else
      Some(text[..cfg.headChars] + "\n...\n" + Tail(text, cfg.tailChars) + "\n" + Notice(cfg, |text|))
  }

  function Notice(cfg: SoftTrim, length: nat): string {
    "[Tool result trimmed: kept first " + Decimal(cfg.headChars) + " chars and last " + Decimal(cfg.tailChars)
    + " chars of " + Decimal(length) + " chars.]"
  }

  predicate Below(total: int, window: int, ratio: real)
    requires window >= 1
  {
    total as real / window as real < ratio
  }

  /** A tool result that succeeded, of a tool that may be pruned, with a plain text. */
  predicate Prunable(m: Message, allowed: string -> bool) {
    m.role == ToolResult && !m.failed && allowed(m.name) && m.content.Text?
  }

  function Trimmed(m: Message, cfg: SoftTrim): Message {
    if m.content.Structured? then m
    else match SoftTrimText(m.content.text, cfg)
      case None => m
      case Some(text) => m.(content := Text(text))
  }

  function Trimmer(cfg: SoftTrim): Message -> Message {
    m => Trimmed(m, cfg)
  }

  /** The messages with a running character total, and the prunable indexes so far. */
  datatype State = State(messages: seq<Message>, total: int, prunable: seq<nat>)

  predicate InRange(indexes: seq<nat>, n: nat) {
    forall k :: 0 <= k < |indexes| ==> indexes[k] < n
  }

  /** The first loop, for any way of trimming. */
  function SoftPass(messages: seq<Message>, from: nat, end: nat, trim: Message -> Message,
                    allowed: string -> bool): (s: State)
    requires end <= |messages|
    ensures |s.messages| == |messages|
    ensures forall i :: end <= i < |messages| ==> s.messages[i] == messages[i]
    ensures InRange(s.prunable, end)
  {
    if end <= from then State(messages, TotalChars(messages), [])
    else
      var s := SoftPass(messages, from, end - 1, trim, allowed);
      var m := messages[end - 1];
      if !Prunable(m, allowed) then s
      else
        var t := trim(m);
        State(s.messages[end - 1 := t], s.total + Chars(t) - Chars(m), s.prunable + [end - 1])
  }

  function PrunableChars(messages: seq<Message>, prunable: seq<nat>): nat
    requires InRange(prunable, |messages|)
  {
    if prunable == [] then 0
    else PrunableChars(messages, prunable[..|prunable| - 1]) + Chars(messages[prunable[|prunable| - 1]])
  }

  function Clear(messages: seq<Message>, i: nat, settings: Settings): seq<Message>
    requires i < |messages|
  {
    messages[i := messages[i].(content := Text(settings.placeholder))]
  }

  function HardPass(messages: seq<Message>, total: int, prunable: seq<nat>, window: int,
                    settings: Settings): seq<Message>
    requires window >= 1 && InRange(prunable, |messages|)
    decreases |prunable|
  {
    if prunable == [] || Below(total, window, settings.hardRatio) then messages
    else
      var i := prunable[0];
      HardPass(Clear(messages, i, settings), total + |settings.placeholder| - Chars(messages[i]),
               prunable[1..], window, settings)
  }

  /** What follows the soft pass. */
  function Finish(s: State, window: int, settings: Settings): seq<Message>
    requires window >= 1 && InRange(s.prunable, |s.messages|)
  {
    if || Below(s.total, window, settings.hardRatio)
       || !settings.hardEnabled
       || PrunableChars(s.messages, s.prunable) < settings.minPrunable
    then s.messages
    else HardPass(s.messages, s.total, s.prunable, window, settings)
  }

  function CharWindow(tokens: int): int {
    Max(1, tokens * CHARS_PER_TOKEN)
  }

  /** None of the early exits applies, and the cutoff exists. */
  predicate UnderPressure(messages: seq<Message>, settings: Settings, tokens: Option<int>) {
    && settings.mode != Off && messages != []
    && tokens.Some? && tokens.value > 0
    && !Below(TotalChars(messages), CharWindow(tokens.value), settings.softRatio)
    && Cutoff(messages, settings.keepLastAssistants).Some?
  }

  function Softened(messages: seq<Message>, settings: Settings, allowed: string -> bool): (s: State)
    requires Cutoff(messages, settings.keepLastAssistants).Some?
    ensures |s.messages| == |messages| && InRange(s.prunable, |messages|)
  {
    SoftPass(messages, FirstUser(messages), Cutoff(messages, settings.keepLastAssistants).value,
             Trimmer(settings.soft), allowed)
  }

  function Prune(messages: seq<Message>, settings: Settings, tokens: Option<int>,
                 allowed: string -> bool): seq<Message> {
    if !UnderPressure(messages, settings, tokens) then messages
    else Finish(Softened(messages, settings, allowed), CharWindow(tokens.value), settings)
  }

  // ----- the loops

  method EstimateContextChars(messages: seq<Message>) returns (total: nat)
    ensures total == TotalChars(messages)
  {
    total := 0;
    for i := 0 to |messages|
      invariant total == TotalChars(messages[..i])
    {
      assert messages[..i + 1][..i] == messages[..i];
      total := total + Chars(messages[i]);
    }
    assert messages[..|messages|] == messages;
  }

  method FindAssistantCutoff(messages: seq<Message>, keepLast: int) returns (cutoff: Option<nat>)
    ensures cutoff == Cutoff(messages, keepLast)
  {
    if keepLast <= 0 {
      return Some(|messages|);
    }
    var remaining, i := keepLast, |messages|;
    assert messages[..i] == messages;
    while i > 0
      invariant 0 <= i <= |messages| && remaining >= 1
      invariant NthAssistantFromEnd(messages, keepLast) == NthAssistantFromEnd(messages[..i], remaining)
    {
      i := i - 1;
      assert messages[..i + 1][..i] == messages[..i];
      if messages[i].role == Assistant {
        remaining := remaining - 1;
        if remaining == 0 {
          return Some(i);
        }
      }
    }
    return None;
  }

  method FindFirstUser(messages: seq<Message>) returns (i: nat)
    ensures i == FirstUser(messages)
  {
    i := 0;
    while i < |messages|
      invariant 0 <= i <= |messages|
      invariant forall k :: 0 <= k < i ==> messages[k].role != User
    {
      if messages[i].role == User {
        return;
      }
      i := i + 1;
    }
  }

  lemma SoftNext(messages: seq<Message>, start: nat, i: nat, trim: Message -> Message, allowed: string -> bool)
    requires start <= i < |messages|
    ensures var s, m := SoftPass(messages, start, i, trim, allowed), messages[i];
            s.messages[i] == m &&
            SoftPass(messages, start, i + 1, trim, allowed) ==
            if !Prunable(m, allowed) then s
            else State(s.messages[i := trim(m)], s.total + Chars(trim(m)) - Chars(m), s.prunable + [i])
  {
  }

  /** The first loop of `prune_context_messages`. */
  method SoftTrimResults(messages: seq<Message>, before: int, start: nat, cutoff: nat, settings: Settings,
                         allowed: string -> bool)
    returns (next: seq<Message>, total: int, prunable: seq<nat>)
    requires start <= |messages| && cutoff <= |messages| && before == TotalChars(messages)
    ensures State(next, total, prunable) == SoftPass(messages, start, cutoff, Trimmer(settings.soft), allowed)
  {
    next, total, prunable := messages, before, [];
    if cutoff <= start {
      return;
    }
    for i := start to cutoff
      invariant State(next, total, prunable) == SoftPass(messages, start, i, Trimmer(settings.soft), allowed)
    {
      hide SoftPass, SoftTrimText;
      SoftNext(messages, start, i, Trimmer(settings.soft), allowed);
      var m := next[i];
      if m.role == ToolResult && !m.failed && allowed(m.name) && m.content.Text? {
        prunable := prunable + [i];
        match SoftTrimText(m.content.text, settings.soft)
        case None => assert next[i := m] == next;
        case Some(text) =>
          next := next[i := m.(content := Text(text))];
          total := total + |text| - |m.content.text|;
      }
    }
  }

  /** Its last loop. */
  method HardClearResults(messages: seq<Message>, before: int, prunable: seq<nat>, window: int, settings: Settings)
    returns (next: seq<Message>)
    requires window >= 1 && InRange(prunable, |messages|)
    ensures next == HardPass(messages, before, prunable, window, settings)
  {
    var total, k := before, 0;
    next := messages;
    assert prunable[0..] == prunable;
    while k < |prunable|
      invariant 0 <= k <= |prunable| && |next| == |messages|
      invariant HardPass(next, total, prunable[k..], window, settings) ==
              HardPass(messages, before, prunable, window, settings)
    {
      if Below(total, window, settings.hardRatio) {
        break;
      }
      assert prunable[k..][1..] == prunable[k + 1..];
      var m := next[prunable[k]];
      next := next[prunable[k] := m.(content := Text(settings.placeholder))];
      total := total + |settings.placeholder| - Chars(m);
      k := k + 1;
    }
  }

  method PruneContextMessages(messages: seq<Message>, settings: Settings, tokens: Option<int>, allowed: string -> bool)
    returns (next: seq<Message>)
    ensures next == Prune(messages, settings, tokens, allowed)
  {
    if settings.mode == Off || messages == [] || tokens.None? || tokens.value <= 0 {
      return messages;
    }
    var window := CharWindow(tokens.value);
    var estimate := EstimateContextChars(messages);
    var total: int := estimate;
    if Below(total, window, settings.softRatio) {
      return messages;
    }
    var cutoff := FindAssistantCutoff(messages, settings.keepLastAssistants);
    if cutoff.None? {
      return messages;
    }
    var start := FindFirstUser(messages);
    var prunable;
    next, total, prunable := SoftTrimResults(messages, total, start, cutoff.value, settings, allowed);
    if Below(total, window, settings.hardRatio) || !settings.hardEnabled {
      return;
    }
    var chars := 0;
    for k := 0 to |prunable|
      invariant chars == PrunableChars(next, prunable[..k])
    {
      assert prunable[..k + 1][..k] == prunable[..k];
      chars := chars + Chars(next[prunable[k]]);
    }
    assert prunable[..|prunable|] == prunable;
    if chars < settings.minPrunable {
      return;
    }
    next := HardClearResults(next, total, prunable, window, settings);
  }

  // ----- when pruning applies

  /** The time-to-live counts. */
  predicate Timed(settings: Settings) {
    settings.mode == CacheTtl && settings.ttlMs > 0
  }

  predicate Applies(settings: Settings, lastTouch: int, now: int) {
    settings.mode != Off && (Timed(settings) ==> lastTouch == 0 || now - lastTouch >= settings.ttlMs)
  }

  function Touched(settings: Settings, lastTouch: int, now: int): int {
    if Timed(settings) && Applies(settings, lastTouch, now) then now else lastTouch
  }

  /** What a session remembers after it was asked at these times. */
  function TouchAfter(settings: Settings, times: seq<int>): int {
    if times == [] then 0 else Touched(settings, TouchAfter(settings, times[..|times| - 1]), times[|times| - 1])
  }

  /** The times at which pruning applied. */
  function Applied(settings: Settings, times: seq<int>): seq<int> {
    if times == [] then []
    else
      var init, now := times[..|times| - 1], times[|times| - 1];
      Applied(settings, init) + if Applies(settings, TouchAfter(settings, init), now) then [now] else []
  }

  /** Over any run of a session with a time-to-live, pruning applies at the first time it is
      asked, two applications are at least the time-to-live apart, and a refusal comes less
      than that after the last one. */
  lemma {:induction false} ApplicationsApart(settings: Settings, times: seq<int>)
    requires Timed(settings) && forall i :: 0 <= i < |times| ==> times[i] > 0
    ensures var a := Applied(settings, times);
            && (forall i :: 0 < i < |a| ==> a[i] - a[i - 1] >= settings.ttlMs)
            && (if times == [] then a == [] && TouchAfter(settings, times) == 0
                else a != [] && a[0] == times[0] && TouchAfter(settings, times) == a[|a| - 1]
                     && (times[|times| - 1] == a[|a| - 1] || times[|times| - 1] - a[|a| - 1] < settings.ttlMs))
  {
    if times != [] {
      ApplicationsApart(settings, times[..|times| - 1]);
    }
  }

  class PruningSession {
    var lastTouch: int

    constructor ()
      ensures lastTouch == 0
    {
      lastTouch := 0;
    }

    /** `should_apply_context_pruning` for a given session; `now` is the current time in
        milliseconds, a positive number. */
    method ShouldApply(settings: Settings, now: int) returns (apply: bool)
      requires now > 0
      modifies this
      ensures apply == Applies(settings, old(lastTouch), now)
      ensures lastTouch == Touched(settings, old(lastTouch), now)
    {
      if settings.mode == Off {
        return false;
      }
      if settings.mode != CacheTtl || settings.ttlMs <= 0 {
        return true;
      }
      if lastTouch != 0 && now - lastTouch < settings.ttlMs {
        return false;
      }
      lastTouch := now;
      return true;
    }
  }
}
