/** What pruning changes, how far it goes, and that pruning again changes nothing. */
module PruningProofs {
  import opened Wrappers
  import opened ContextPruning

  // ----- the running total

  lemma {:induction false} TotalUpdate(messages: seq<Message>, i: nat, m: Message)
    requires i < |messages|
    ensures TotalChars(messages[i := m]) == TotalChars(messages) - Chars(messages[i]) + Chars(m)
  {
    var n := |messages| - 1;
    if i == n {
      assert messages[i := m][..n] == messages[..n];
    } else {
      TotalUpdate(messages[..n], i, m);
      assert messages[i := m][..n] == messages[..n][i := m];
    }
  }

  /** The soft pass keeps the total of the current list. */
  lemma {:induction false} SoftTotal(messages: seq<Message>, from: nat, end: nat, trim: Message -> Message,
                                     allowed: string -> bool)
    requires end <= |messages|
    ensures var s := SoftPass(messages, from, end, trim, allowed); s.total == TotalChars(s.messages)
    decreases end
  {
    hide Prunable, Chars;
    if end > from {
      SoftTotal(messages, from, end - 1, trim, allowed);
      var s, m := SoftPass(messages, from, end - 1, trim, allowed), messages[end - 1];
      if Prunable(m, allowed) {
        TotalUpdate(s.messages, end - 1, trim(m));
      }
    }
  }

  // ----- the soft pass

  /** The prunable indexes of a range, in order. */
  function PrunableIn(messages: seq<Message>, from: nat, end: nat, allowed: string -> bool): seq<nat>
    requires end <= |messages|
    decreases end
  {
    if end <= from then []
    else
      PrunableIn(messages, from, end - 1, allowed) + if Prunable(messages[end - 1], allowed) then [end - 1] else []
  }

  lemma {:induction false} SoftEffect(messages: seq<Message>, from: nat, end: nat, trim: Message -> Message,
                                      allowed: string -> bool)
    requires end <= |messages|
    ensures var s := SoftPass(messages, from, end, trim, allowed);
            && s.prunable == PrunableIn(messages, from, end, allowed)
            && (forall i :: 0 <= i < |messages| ==>
                              s.messages[i] == if from <= i < end && Prunable(messages[i], allowed)
                                               then trim(messages[i]) else messages[i])
    decreases end
  {
    if end > from {
      SoftEffect(messages, from, end - 1, trim, allowed);
    }
  }

  lemma {:induction false} PrunableInAre(messages: seq<Message>, from: nat, end: nat, allowed: string -> bool)
    requires end <= |messages|
    ensures forall i :: i in PrunableIn(messages, from, end, allowed) <==>
                        from <= i < end && Prunable(messages[i], allowed)
    decreases end
  {
    if end > from {
      PrunableInAre(messages, from, end - 1, allowed);
    }
  }

  // ----- the hard pass

  function ClearAll(messages: seq<Message>, indexes: seq<nat>, settings: Settings): (r: seq<Message>)
    requires InRange(indexes, |messages|)
    ensures |r| == |messages|
  {
    if indexes == [] then messages
    else Clear(ClearAll(messages, indexes[..|indexes| - 1], settings), indexes[|indexes| - 1], settings)
  }

  lemma {:induction false} ClearAllFirst(messages: seq<Message>, indexes: seq<nat>, settings: Settings)
    requires InRange(indexes, |messages|) && indexes != []
    ensures ClearAll(messages, indexes, settings) ==
            ClearAll(Clear(messages, indexes[0], settings), indexes[1..], settings)
  {
    var n := |indexes| - 1;
    if n == 0 {
      assert ClearAll(messages, indexes[..0], settings) == messages;
    } else {
      ClearAllFirst(messages, indexes[..n], settings);
      assert indexes[..n][1..] == indexes[1..][..n - 1];
    }
  }

  lemma {:induction false} ClearAllEffect(messages: seq<Message>, indexes: seq<nat>, settings: Settings)
    requires InRange(indexes, |messages|)
    ensures forall i :: 0 <= i < |messages| ==>
                          ClearAll(messages, indexes, settings)[i] ==
                          if i in indexes then messages[i].(content := Text(settings.placeholder)) else messages[i]
  {
    if indexes != [] {
      var n := |indexes| - 1;
      ClearAllEffect(messages, indexes[..n], settings);
      assert indexes == indexes[..n] + [indexes[n]];
    }
  }

  /** The ratio after clearing the first `k` indexes. */
  ghost predicate Enough(messages: seq<Message>, indexes: seq<nat>, k: nat, window: int, settings: Settings)
    requires window >= 1 && InRange(indexes, |messages|) && k <= |indexes|
  {
    Below(TotalChars(ClearAll(messages, indexes[..k], settings)), window, settings.hardRatio)
  }

  lemma ClearedTotal(messages: seq<Message>, i: nat, settings: Settings)
    requires i < |messages|
    ensures TotalChars(Clear(messages, i, settings)) ==
            TotalChars(messages) + |settings.placeholder| - Chars(messages[i])
  {
    TotalUpdate(messages, i, messages[i].(content := Text(settings.placeholder)));
  }

  /** Hard clearing clears the shortest prefix of the prunable indexes that brings the
      ratio below the limit, or all of them if none does. */
  lemma {:induction false} HardClearsShortest(messages: seq<Message>, indexes: seq<nat>, window: int,
                                              settings: Settings)
    returns (k: nat)
    requires window >= 1 && InRange(indexes, |messages|)
    ensures k <= |indexes|
    ensures HardPass(messages, TotalChars(messages), indexes, window, settings) ==
            ClearAll(messages, indexes[..k], settings)
    ensures k == |indexes| || Enough(messages, indexes, k, window, settings)
    ensures forall j :: 0 <= j < k ==> !Enough(messages, indexes, j, window, settings)
    decreases |indexes|
  {
    hide Chars, TotalChars, Below;
    assert indexes[..0] == [];
    if indexes == [] || Below(TotalChars(messages), window, settings.hardRatio) {
      k := 0;
    } else {
      var next := Clear(messages, indexes[0], settings);
      ClearedTotal(messages, indexes[0], settings);
      var k1 := HardClearsShortest(next, indexes[1..], window, settings);
      k := k1 + 1;
      forall j | 1 <= j <= |indexes|
        ensures ClearAll(messages, indexes[..j], settings) == ClearAll(next, indexes[1..][..j - 1], settings)
      {
        ClearAllFirst(messages, indexes[..j], settings);
        assert indexes[..j][1..] == indexes[1..][..j - 1];
      }
      forall j | 0 <= j < k ensures !Enough(messages, indexes, j, window, settings) {
        if j >= 1 {
          assert !Enough(next, indexes[1..], j - 1, window, settings);
        }
      }
    }
  }

  /** Under pressure: the soft pass trims every prunable message of the range, and then,
      unless it stops there, the shortest sufficient prefix of them is cleared. */
  lemma PruneResult(messages: seq<Message>, settings: Settings, tokens: Option<int>, allowed: string -> bool)
    returns (k: nat)
    requires UnderPressure(messages, settings, tokens)
    ensures var window, s := CharWindow(tokens.value), Softened(messages, settings, allowed);
            var stops := || Below(TotalChars(s.messages), window, settings.hardRatio)
                         || !settings.hardEnabled
                         || PrunableChars(s.messages, s.prunable) < settings.minPrunable;
            && s.prunable == PrunableIn(messages, FirstUser(messages),
                                        Cutoff(messages, settings.keepLastAssistants).value, allowed)
            && k <= |s.prunable|
            && Prune(messages, settings, tokens, allowed) == ClearAll(s.messages, s.prunable[..k], settings)
            && (if stops then k == 0
                else (k == |s.prunable| || Enough(s.messages, s.prunable, k, window, settings))
                     && forall j :: 0 <= j < k ==> !Enough(s.messages, s.prunable, j, window, settings))
  {
    var window, s := CharWindow(tokens.value), Softened(messages, settings, allowed);
    var from, end := FirstUser(messages), Cutoff(messages, settings.keepLastAssistants).value;
    SoftEffect(messages, from, end, Trimmer(settings.soft), allowed);
    SoftTotal(messages, from, end, Trimmer(settings.soft), allowed);
    k := HardClearsShortest(s.messages, s.prunable, window, settings);
    if Below(s.total, window, settings.hardRatio) || !settings.hardEnabled
       || PrunableChars(s.messages, s.prunable) < settings.minPrunable {
      k := 0;
    }
  }

  // ----- the frame

  /** A message of the result: as it was, soft-trimmed, or cleared; the last two only for
      a successful tool result between the first user message and the cutoff. */
  predicate Changed(before: Message, after: Message, settings: Settings, allowed: string -> bool) {
    && Prunable(before, allowed)
    && (after == Trimmed(before, settings.soft) || after == before.(content := Text(settings.placeholder)))
  }

  lemma PruningFrame(messages: seq<Message>, settings: Settings, tokens: Option<int>, allowed: string -> bool)
    ensures var r := Prune(messages, settings, tokens, allowed);
            && |r| == |messages|
            && forall i :: 0 <= i < |messages| && r[i] != messages[i] ==>
                             && UnderPressure(messages, settings, tokens)
                             && FirstUser(messages) <= i < Cutoff(messages, settings.keepLastAssistants).value
                             && Changed(messages[i], r[i], settings, allowed)
  {
    if UnderPressure(messages, settings, tokens) {
      FrameUnderPressure(messages, settings, tokens, allowed);
    }
  }

  lemma FrameUnderPressure(messages: seq<Message>, settings: Settings, tokens: Option<int>, allowed: string -> bool)
    requires UnderPressure(messages, settings, tokens)
    ensures var r := Prune(messages, settings, tokens, allowed);
            && |r| == |messages|
            && forall i :: 0 <= i < |messages| && r[i] != messages[i] ==>
                             && FirstUser(messages) <= i < Cutoff(messages, settings.keepLastAssistants).value
                             && Changed(messages[i], r[i], settings, allowed)
  {
    hide Prune, Trimmed, SoftPass, PrunableIn, ClearAll, Finish, Enough;
    var from, end := FirstUser(messages), Cutoff(messages, settings.keepLastAssistants).value;
    var s, r := Softened(messages, settings, allowed), Prune(messages, settings, tokens, allowed);
    SoftEffect(messages, from, end, Trimmer(settings.soft), allowed);
    PrunableInAre(messages, from, end, allowed);
    var k := PruneResult(messages, settings, tokens, allowed);
    ClearAllEffect(s.messages, s.prunable[..k], settings);
    forall i | 0 <= i < |messages| && r[i] != messages[i]
      ensures from <= i < end && Changed(messages[i], r[i], settings, allowed)
    {
      assert i in s.prunable[..k] ==> i in s.prunable;
      TrimmedContent(messages[i], settings.soft, Text(settings.placeholder));
    }
  }

  lemma TrimmedContent(m: Message, cfg: SoftTrim, c: Content)
    ensures Trimmed(m, cfg).(content := c) == m.(content := c)
  {
  }

  // ----- pruning twice

  lemma {:induction false} SameRoles(a: seq<Message>, b: seq<Message>, n: nat)
    requires |a| == |b| && n >= 1 && forall i :: 0 <= i < |a| ==> a[i].role == b[i].role
    ensures NthAssistantFromEnd(a, n) == NthAssistantFromEnd(b, n)
  {
    if a != [] {
      var k := |a| - 1;
      if a[k].role != Assistant {
        SameRoles(a[..k], b[..k], n);
      } else if n > 1 {
        SameRoles(a[..k], b[..k], n - 1);
      }
    }
  }

  lemma SameRange(a: seq<Message>, b: seq<Message>, keepLast: int)
    requires |a| == |b| && forall i :: 0 <= i < |a| ==> a[i].role == b[i].role
    ensures Cutoff(a, keepLast) == Cutoff(b, keepLast) && FirstUser(a) == FirstUser(b)
  {
    if keepLast > 0 {
      SameRoles(a, b, keepLast);
    }
    var i, j := FirstUser(a), FirstUser(b);
    assert i < |a| ==> b[i].role == User;
    assert j < |a| ==> a[j].role == User;
  }

  /** Clearing what is already cleared. */
  lemma {:induction false} HardAgain(messages: seq<Message>, total: int, indexes: seq<nat>, window: int,
                                     settings: Settings)
    requires window >= 1 && InRange(indexes, |messages|)
    requires forall k :: 0 <= k < |indexes| ==> messages[indexes[k]].content == Text(settings.placeholder)
    ensures HardPass(messages, total, indexes, window, settings) == messages
    decreases |indexes|
  {
    if indexes != [] && !Below(total, window, settings.hardRatio) {
      var m := messages[indexes[0]];
      assert m.(content := Text(settings.placeholder)) == m;
      assert Clear(messages, indexes[0], settings) == messages;
      HardAgain(messages, total, indexes[1..], window, settings);
    }
  }

  // ----- how long a trimmed text is

  function Digits(n: nat): (d: nat)
    ensures d >= 1
  {
    if n < 10 then 1 else Digits(n / 10) + 1
  }

  lemma {:induction false} DecimalLength(n: nat)
    ensures |Decimal(n)| == Digits(n)
  {
    if n >= 10 {
      DecimalLength(n / 10);
    }
  }

  /** The length of the notice that a trimmed text ends with. */
  function NoticeLength(length: nat, cfg: SoftTrim): nat {
    67 + Digits(cfg.headChars) + Digits(cfg.tailChars) + Digits(length)
  }

  lemma NoticeIs(length: nat, cfg: SoftTrim)
    ensures |Notice(cfg, length)| == NoticeLength(length, cfg)
  {
    hide Decimal, Digits;
    DecimalLength(cfg.headChars);
    DecimalLength(cfg.tailChars);
    DecimalLength(length);
  }

  /** A text of this length is trimmed. */
  predicate TrimsAt(length: nat, cfg: SoftTrim) {
    length > cfg.maxChars && cfg.headChars + cfg.tailChars < length
  }

  /** Its length then: a tail of no characters is the whole text. */
  function TrimmedLength(length: nat, cfg: SoftTrim): nat {
    cfg.headChars + (if cfg.tailChars == 0 then length else cfg.tailChars) + 6 + NoticeLength(length, cfg)
  }

  lemma TrimLength(text: string, cfg: SoftTrim)
    ensures SoftTrimText(text, cfg).Some? <==> TrimsAt(|text|, cfg)
    ensures TrimsAt(|text|, cfg) ==> |SoftTrimText(text, cfg).value| == TrimmedLength(|text|, cfg)
  {
    hide NoticeLength, Notice;
    NoticeIs(|text|, cfg);
  }

  /** Soft trimming lengthens a text if and only if it keeps no tail, which keeps the whole
      text, or head, tail and notice are together longer than the text. */
  lemma TrimLengthensExactly(text: string, cfg: SoftTrim)
    requires SoftTrimText(text, cfg).Some?
    ensures |SoftTrimText(text, cfg).value| > |text| <==>
            cfg.tailChars == 0 || cfg.headChars + cfg.tailChars + 6 + NoticeLength(|text|, cfg) > |text|
  {
    hide NoticeLength, SoftTrimText;
    TrimLength(text, cfg);
  }

  /** A trimmed text is left alone by the next trimming exactly when it is no longer than
      `max_chars`: it is always longer than the head and tail it keeps. */
  lemma TrimAgain(text: string, cfg: SoftTrim)
    requires SoftTrimText(text, cfg).Some?
    ensures SoftTrimText(SoftTrimText(text, cfg).value, cfg) == None <==> TrimmedLength(|text|, cfg) <= cfg.maxChars
  {
    hide NoticeLength, SoftTrimText;
    TrimLength(text, cfg);
    TrimLength(SoftTrimText(text, cfg).value, cfg);
  }

  /** With no tail, every later trimming trims, and lengthens, once more. */
  lemma EmptyTailGrows(text: string, cfg: SoftTrim)
    requires SoftTrimText(text, cfg).Some? && cfg.tailChars == 0
    ensures SoftTrimText(SoftTrimText(text, cfg).value, cfg).Some?
    ensures |SoftTrimText(SoftTrimText(text, cfg).value, cfg).value| > |SoftTrimText(text, cfg).value| > |text|
  {
    hide NoticeLength, SoftTrimText;
    TrimLength(text, cfg);
    TrimAgain(text, cfg);
    TrimLengthensExactly(text, cfg);
    TrimLengthensExactly(SoftTrimText(text, cfg).value, cfg);
  }

  /** Every text that soft trimming would produce, and the placeholder, is short enough
      not to be trimmed again. */
  predicate ShortEnough(messages: seq<Message>, settings: Settings, allowed: string -> bool) {
    && |settings.placeholder| <= settings.soft.maxChars
    && forall i :: 0 <= i < |messages| && Prunable(messages[i], allowed) ==>
                     SettlesAt(|messages[i].content.text|, settings.soft)
  }

  /** A text of this length is trimmed at most once. */
  predicate SettlesAt(length: nat, cfg: SoftTrim) {
    TrimsAt(length, cfg) ==> TrimmedLength(length, cfg) <= cfg.maxChars
  }

  lemma PrunedStable(messages: seq<Message>, settings: Settings, tokens: Option<int>, allowed: string -> bool)
    requires ShortEnough(messages, settings, allowed) && UnderPressure(messages, settings, tokens)
    ensures var r := Prune(messages, settings, tokens, allowed);
            var end := Cutoff(messages, settings.keepLastAssistants).value;
            && |r| == |messages|
            && Cutoff(r, settings.keepLastAssistants) == Cutoff(messages, settings.keepLastAssistants)
            && Softened(r, settings, allowed) ==
               State(r, TotalChars(r), PrunableIn(messages, FirstUser(messages), end, allowed))
  {
    var r := Prune(messages, settings, tokens, allowed);
    var from, end := FirstUser(messages), Cutoff(messages, settings.keepLastAssistants).value;
    PruningFrame(messages, settings, tokens, allowed);
    SameRange(messages, r, settings.keepLastAssistants);
    PrunedShort(messages, settings, tokens, allowed);
    SoftAgain(messages, r, from, end, Trimmer(settings.soft), allowed);
  }

  /** After pruning, no message of the range would be soft-trimmed again. */
  lemma PrunedShort(messages: seq<Message>, settings: Settings, tokens: Option<int>, allowed: string -> bool)
    requires ShortEnough(messages, settings, allowed) && UnderPressure(messages, settings, tokens)
    ensures var r := Prune(messages, settings, tokens, allowed);
            |r| == |messages| &&
            forall i :: FirstUser(messages) <= i < Cutoff(messages, settings.keepLastAssistants).value ==>
                          Prunable(messages[i], allowed) ==> Trimmed(r[i], settings.soft) == r[i]
  {
    hide SoftPass, PrunableIn, ClearAll, Prune, Finish, Enough, Trimmed;
    var from, end := FirstUser(messages), Cutoff(messages, settings.keepLastAssistants).value;
    var s := Softened(messages, settings, allowed);
    SoftEffect(messages, from, end, Trimmer(settings.soft), allowed);
    var k := PruneResult(messages, settings, tokens, allowed);
    ClearAllEffect(s.messages, s.prunable[..k], settings);
    forall i | from <= i < end && Prunable(messages[i], allowed)
      ensures var r := Prune(messages, settings, tokens, allowed); Trimmed(r[i], settings.soft) == r[i]
    {
      TrimSettles(messages[i], settings);
    }
  }

  /** A short trimmed text, and a short placeholder, are not trimmed again. */
  lemma TrimSettles(m: Message, settings: Settings)
    requires m.content.Text? && |settings.placeholder| <= settings.soft.maxChars
    requires SettlesAt(|m.content.text|, settings.soft)
    ensures var t := Trimmed(m, settings.soft);
            var c := t.(content := Text(settings.placeholder));
            Trimmed(t, settings.soft) == t && Trimmed(c, settings.soft) == c
  {
    hide NoticeLength, TrimmedLength;
    TrimLength(m.content.text, settings.soft);
    TrimLength(settings.placeholder, settings.soft);
    if SoftTrimText(m.content.text, settings.soft).Some? {
      TrimAgain(m.content.text, settings.soft);
    }
  }

  /** A second soft pass over messages that trimming leaves alone. */
  lemma {:induction false} SoftAgain(a: seq<Message>, b: seq<Message>, from: nat, end: nat, trim: Message -> Message,
                                     allowed: string -> bool)
    requires |a| == |b| && end <= |a|
    requires forall i :: 0 <= i < |a| ==> (Prunable(a[i], allowed) <==> Prunable(b[i], allowed))
    requires forall i :: from <= i < end && Prunable(a[i], allowed) ==> trim(b[i]) == b[i]
    ensures SoftPass(b, from, end, trim, allowed) == State(b, TotalChars(b), PrunableIn(a, from, end, allowed))
    decreases end
  {
    if end > from {
      SoftAgain(a, b, from, end - 1, trim, allowed);
      if Prunable(b[end - 1], allowed) {
        assert b[end - 1 := b[end - 1]] == b;
      }
    }
  }

  /** Pruning is idempotent, whichever exit the first and the second run take, when
      trimmed texts and the placeholder are short enough. */
  lemma PruneIdempotent(messages: seq<Message>, settings: Settings, tokens: Option<int>, allowed: string -> bool)
    requires ShortEnough(messages, settings, allowed)
    ensures var r := Prune(messages, settings, tokens, allowed); Prune(r, settings, tokens, allowed) == r
  {
    hide SoftPass, PrunableIn, Trimmed, Chars, Softened, TotalChars, PrunableChars, Below;
    var r := Prune(messages, settings, tokens, allowed);
    if UnderPressure(messages, settings, tokens) && UnderPressure(r, settings, tokens) {
      var window := CharWindow(tokens.value);
      var s := Softened(messages, settings, allowed);
      var k := PruneResult(messages, settings, tokens, allowed);
      PrunedStable(messages, settings, tokens, allowed);
      assert Prune(r, settings, tokens, allowed) == Finish(State(r, TotalChars(r), s.prunable), window, settings);
      if k == |s.prunable| {
        assert s.prunable[..k] == s.prunable;
        AllCleared(s.messages, r, s.prunable, settings);
        HardAgain(r, TotalChars(r), s.prunable, window, settings);
      }
    }
  }

  lemma AllCleared(before: seq<Message>, after: seq<Message>, indexes: seq<nat>, settings: Settings)
    requires InRange(indexes, |before|) && after == ClearAll(before, indexes, settings)
    ensures forall k :: 0 <= k < |indexes| ==> after[indexes[k]].content == Text(settings.placeholder)
  {
    ClearAllEffect(before, indexes, settings);
    assert forall k :: 0 <= k < |indexes| ==> indexes[k] in indexes;
  }

  // ----- what a trimmed text reads

  /** The number that a decimal numeral names. */
  function Number(digits: string): nat
    requires forall i :: 0 <= i < |digits| ==> '0' <= digits[i] <= '9'
  {
    if digits == "" then 0
    else Number(digits[..|digits| - 1]) * 10 + (digits[|digits| - 1] as int - '0' as int)
  }

  predicate Numeral(digits: string, n: nat) {
    && digits != "" && (forall i :: 0 <= i < |digits| ==> '0' <= digits[i] <= '9')
    && Number(digits) == n
  }

  lemma {:induction false} DecimalNames(n: nat)
    ensures Numeral(Decimal(n), n)
  {
    if n < 10 {
      DigitNames(n);
      assert [Digit(n)][..0] == [];
    } else {
      DecimalNames(n / 10);
      DigitNames(n % 10);
      var init, all := Decimal(n / 10), Decimal(n);
      assert all == init + [Digit(n % 10)] && all[..|all| - 1] == init;
    }
  }

  function Digit(d: nat): char
    requires d < 10
  {
    "0123456789"[d]
  }

  lemma DigitNames(d: nat)
    requires d < 10
    ensures '0' <= Digit(d) <= '9' && Digit(d) as int - '0' as int == d
  {
  }

  /** What the notice says: the numerals of head, tail and length, in this order. */
  ghost predicate Notes(notice: string, head: nat, tail: nat, length: nat) {
    exists a, b, c :: Numeral(a, head) && Numeral(b, tail) && Numeral(c, length)
                      && notice == "[Tool result trimmed: kept first " + a + " chars and last " + b + " chars of " + c
                                   + " chars.]"
  }

  /** A trimmed text is the beginning of the text, an ellipsis between line feeds, its end - all
      of it for a tail of zero - a line feed, and the notice. */
  lemma TrimmedReads(text: string, cfg: SoftTrim)
    requires SoftTrimText(text, cfg).Some?
    ensures var t, h, n := SoftTrimText(text, cfg).value, cfg.headChars, if cfg.tailChars == 0 then |text|
                                                                        else cfg.tailChars;
            && |text| > cfg.maxChars && cfg.headChars + cfg.tailChars < |text|
            && h + 6 + n <= |t| && t[..h] == text[..h] && t[h..h + 5] == "\n...\n"
            && t[h + 5..h + 5 + n] == text[|text| - n..] && t[h + 5 + n] == '\n'
            && Notes(t[h + 6 + n..], cfg.headChars, cfg.tailChars, |text|)
  {
    hide Decimal, Notes, Notice;
    var head, tail, notice := text[..cfg.headChars], Tail(text, cfg.tailChars), Notice(cfg, |text|);
    var t := SoftTrimText(text, cfg).value;
    assert t == head + "\n...\n" + tail + "\n" + notice;
    assert t[|head| + 6 + |tail|..] == notice;
    NoticeNotes(cfg, |text|);
  }

  lemma NoticeNotes(cfg: SoftTrim, length: nat)
    ensures Notes(Notice(cfg, length), cfg.headChars, cfg.tailChars, length)
  {
    hide Decimal, Numeral;
    DecimalNames(cfg.headChars);
    DecimalNames(cfg.tailChars);
    DecimalNames(length);
  }

  // ----- when pruning starts, and where it ends

  function Assistants(messages: seq<Message>): nat {
    if messages == [] then 0
    else Assistants(messages[1..]) + if messages[0].role == Assistant then 1 else 0
  }

  lemma {:induction false} AssistantsNext(messages: seq<Message>, m: Message)
    ensures Assistants(messages + [m]) == Assistants(messages) + if m.role == Assistant then 1 else 0
  {
    if messages == [] {
      assert messages + [m] == [m] && [m][1..] == [];
    } else {
      AssistantsNext(messages[1..], m);
      assert (messages + [m])[1..] == messages[1..] + [m];
    }
  }

  lemma {:induction false} NthCounts(messages: seq<Message>, n: nat)
    requires n >= 1
    ensures var i := NthAssistantFromEnd(messages, n);
            && (i.None? <==> Assistants(messages) < n)
            && (i.Some? ==> Assistants(messages[i.value..]) == n)
  {
    if messages != [] {
      hide Assistants;
      var k := |messages| - 1;
      var init, m := messages[..k], messages[k];
      assert messages == init + [m];
      AssistantsNext(init, m);
      if m.role == Assistant && n == 1 {
        assert messages[k..] == [] + [m];
        AssistantsNext([], m);
        NoAssistants();
      } else {
        var left := if m.role == Assistant then n - 1 else n;
        NthCounts(init, left);
        var i := NthAssistantFromEnd(init, left);
        if i.Some? {
          assert messages[i.value..] == init[i.value..] + [m];
          AssistantsNext(init[i.value..], m);
        }
      }
    } else {
      NoAssistants();
    }
  }

  lemma NoAssistants()
    ensures Assistants([]) == 0
  {
  }

  /** The cutoff protects exactly the wanted number of assistant messages, itself the first of
      them; without that many there is none, and for zero nothing is protected. */
  lemma CutoffProtects(messages: seq<Message>, keepLast: int)
    ensures var i := Cutoff(messages, keepLast);
            && (i.None? <==> Assistants(messages) < keepLast)
            && (i.Some? && keepLast > 0 ==>
                  i.value < |messages| && messages[i.value].role == Assistant
                  && Assistants(messages[i.value..]) == keepLast)
            && (keepLast <= 0 ==> i == Some(|messages|))
  {
    if keepLast > 0 {
      NthCounts(messages, keepLast);
    }
  }

  /** Pruning changes a transcript only if it is on, the window is known, the transcript fills at
      least the soft share of it, and has enough assistant messages. */
  lemma PressureExactly(messages: seq<Message>, settings: Settings, tokens: Option<int>)
    ensures UnderPressure(messages, settings, tokens) <==>
            && settings.mode != Off && messages != [] && tokens.Some? && tokens.value > 0
            && TotalChars(messages) as real >= settings.softRatio * (4 * tokens.value) as real
            && Assistants(messages) >= settings.keepLastAssistants
  {
    hide Cutoff, Assistants, TotalChars;
    CutoffProtects(messages, settings.keepLastAssistants);
    if tokens.Some? && tokens.value > 0 {
      assert CharWindow(tokens.value) == 4 * tokens.value;
      RatioBelow(TotalChars(messages) as real, (4 * tokens.value) as real, settings.softRatio);
    }
  }

  lemma RatioBelow(total: real, window: real, ratio: real)
    requires window > 0.0
    ensures total / window < ratio <==> total < ratio * window
  {
    assert total / window * window == total;
  }
}
