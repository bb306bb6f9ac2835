/** The model session: the load/unload state machine around the on-device
    language model, the reduction of a conversation to a prompt that fits the
    context window, and the conversion of the model's cumulative snapshots
    into incremental deltas. */
module ModelSession {
  import opened Common
  import opened Wire

  datatype ModelState = NotLoaded | Loading | Loaded | Error(message: string)

  datatype ModelError =
    | ModelNotLoaded
    | FeatureProviderError
    | OutputProcessingError
    | EmbeddingModelUnavailable
    | EmbeddingGenerationFailed
    | UnsupportedForCustomModel
    | InvalidUrl(message: string)

  /** The user-facing description of each error. */
  function ErrorDescription(e: ModelError): string {
    match e
    case ModelNotLoaded => "Model is not loaded."
    case FeatureProviderError => "Failed to create model input features."
    case OutputProcessingError => "Failed to process model output."
    case InvalidUrl(message) => message
    case EmbeddingModelUnavailable => "The sentence embedding model is unavailable."
    case EmbeddingGenerationFailed => "Failed to generate embedding for the input text."
    case UnsupportedForCustomModel => "This feature is not supported for custom models."
  }

  /** The length and next-to-last character of each fixed description, which
      already tell the fixed descriptions apart. */
  function DescriptionShape(e: ModelError): (nat, char)
    requires !e.InvalidUrl?
  {
    match e
    case ModelNotLoaded => (20, 'd')
    case FeatureProviderError => (38, 's')
    case OutputProcessingError => (31, 't')
    case EmbeddingModelUnavailable => (44, 'e')
    case EmbeddingGenerationFailed => (48, 't')
    case UnsupportedForCustomModel => (48, 's')
  }

  lemma DescriptionHasShape(e: ModelError)
    requires !e.InvalidUrl?
    ensures |ErrorDescription(e)| > 1
    ensures |ErrorDescription(e)| == DescriptionShape(e).0
    ensures ErrorDescription(e)[|ErrorDescription(e)| - 2] == DescriptionShape(e).1
  {
    var d := ErrorDescription(e);
    match e
    case ModelNotLoaded =>
      assert d == "Model is not loaded.";
      assert |d| == 20 && d[|d| - 2] == 'd';
    case FeatureProviderError =>
      assert d == "Failed to create model input features.";
      assert |d| == 38 && d[|d| - 2] == 's';
    case OutputProcessingError =>
      assert d == "Failed to process model output.";
      assert |d| == 31 && d[|d| - 2] == 't';
    case EmbeddingModelUnavailable =>
      assert d == "The sentence embedding model is unavailable.";
      assert |d| == 44 && d[|d| - 2] == 'e';
    case EmbeddingGenerationFailed =>
      assert d == "Failed to generate embedding for the input text.";
      assert |d| == 48 && d[|d| - 2] == 't';
    case UnsupportedForCustomModel =>
      assert d == "This feature is not supported for custom models.";
      assert |d| == 48 && d[|d| - 2] == 's';
  }

  /** Every error kind with a fixed description is told apart by its description,
      and an invalid-URL error describes itself with its own message. */
  lemma ErrorDescriptionIdentifiesError(e1: ModelError, e2: ModelError)
    ensures e1.InvalidUrl? ==> ErrorDescription(e1) == e1.message
    ensures !e1.InvalidUrl? && !e2.InvalidUrl? && ErrorDescription(e1) == ErrorDescription(e2) ==> e1 == e2
  {
    if !e1.InvalidUrl? && !e2.InvalidUrl? && e1 != e2 {
      DescriptionHasShape(e1);
      DescriptionHasShape(e2);
    }
  }

  // ------------------------------------------------------ prompt budget

  const ContextLimit: nat := 4096
  const ResponseBuffer: nat := 1536
  /** The most tokens a prompt may take, leaving room for the answer. */
  const PromptTokenLimit: nat := ContextLimit - ResponseBuffer

  /** One token per character: `ceil(count / 1.0)`. */
  function EstimateTokens(text: string): nat {
    |text|
  }

  /** How a message appears in the prompt: "role: content". */
  function MessageLine(m: ChatMessage): string {
    RoleRawValue(m.role) + ": " + m.content
  }

  /** The text whose size is a message's cost: its line plus a newline. */
  function MessageText(m: ChatMessage): string {
    MessageLine(m) + "\n"
  }

  /** A message's token estimate, counted from the parts of its text. */
  function Cost(m: ChatMessage): nat {
    |RoleRawValue(m.role)| + 3 + |m.content|
  }

  /** The cost is the estimate of the text "role: content\n". */
  lemma CostIsEstimate(m: ChatMessage)
    ensures Cost(m) == EstimateTokens(MessageText(m))
  {
  }

  /** The cost of each message of a conversation, in order. */
  function Costs(ms: seq<ChatMessage>): (cs: seq<nat>)
    ensures |cs| == |ms|
  {
    if ms == [] then [] else [Cost(ms[0])] + Costs(ms[1..])
  }

  function Sum(cs: seq<nat>): nat {
    if cs == [] then 0 else cs[0] + Sum(cs[1..])
  }

  /** The summed cost of a list of messages. */
  function TotalCost(ms: seq<ChatMessage>): nat {
    Sum(Costs(ms))
  }

  lemma {:induction false} CostAt(ms: seq<ChatMessage>, i: nat)
    requires i < |ms|
    ensures Costs(ms)[i] == Cost(ms[i])
  {
    if i > 0 {
      CostAt(ms[1..], i - 1);
    }
  }

  lemma {:induction false} CostsOfSuffix(ms: seq<ChatMessage>, s: nat)
    requires s <= |ms|
    ensures Costs(ms)[s..] == Costs(ms[s..])
  {
    if s > 0 {
      assert ms[1..][s - 1..] == ms[s..];
      CostsOfSuffix(ms[1..], s - 1);
    }
  }

  /** Where the reverse-chronological walk stops: with `cs` the costs of the
      conversation, entries `cs[..i]` are still to be considered, newest first,
      with `used` tokens already spent. A message is taken while it fits; the
      first one that does not fit ends the walk. The result is the index of the
      oldest selected message. */
  function WalkStart(cs: seq<nat>, i: nat, used: nat, limit: nat): (s: nat)
    requires i <= |cs|
    ensures s <= i
    decreases i
  {
    if i == 0 then 0
    else if used + cs[i - 1] <= limit then WalkStart(cs, i - 1, used + cs[i - 1], limit)
    else i
  }

  /** The index of the oldest message the memory-mode prompt includes. */
  function SelectionStart(ms: seq<ChatMessage>, limit: nat): (s: nat)
    requires |ms| > 0
    ensures s < |ms|
  {
    var cs := Costs(ms);
    WalkStart(cs, |ms| - 1, cs[|ms| - 1], limit)
  }

  lemma {:induction false} WalkStartFacts(cs: seq<nat>, i: nat, used: nat, limit: nat)
    requires i < |cs|
    requires used == Sum(cs[i..])
    ensures var s := WalkStart(cs, i, used, limit);
            (s < i ==> Sum(cs[s..]) <= limit)
            && (s > 0 ==> Sum(cs[s..]) + cs[s - 1] > limit)
    decreases i
  {
    if i > 0 {
      WalkStep(cs, i, used, limit);
      if used + cs[i - 1] <= limit {
        SumStep(cs, i);
        WalkStartFacts(cs, i - 1, used + cs[i - 1], limit);
      }
    }
  }

  lemma {:induction false} SumSuffixMonotone(cs: seq<nat>, j: nat, k: nat)
    requires j <= k <= |cs|
    ensures Sum(cs[j..]) >= Sum(cs[k..])
    decreases k - j
  {
    if j < k {
      assert cs[j..][1..] == cs[j + 1..];
      SumSuffixMonotone(cs, j + 1, k);
    }
  }

  /** The walk started from the last cost with that cost already spent. */
  lemma WalkFromLatestFacts(cs: seq<nat>, limit: nat)
    requires |cs| > 0
    ensures var s := WalkStart(cs, |cs| - 1, cs[|cs| - 1], limit);
            (s < |cs| - 1 ==> Sum(cs[s..]) <= limit)
            && (s > 0 ==> Sum(cs[s..]) + cs[s - 1] > limit)
  {
    var n := |cs|;
    assert Sum(cs[n - 1..]) == cs[n - 1] by {
      assert cs[n - 1..][1..] == [];
    }
    WalkStartFacts(cs, n - 1, cs[n - 1], limit);
  }

  /** The walk started from the latest message, with its facts, in terms of
      the conversation's costs. */
  lemma SelectionFacts(ms: seq<ChatMessage>, limit: nat)
    requires |ms| > 0
    ensures var s, cs := SelectionStart(ms, limit), Costs(ms);
            (s < |ms| - 1 ==> Sum(cs[s..]) <= limit)
            && (s > 0 ==> Sum(cs[s..]) + cs[s - 1] > limit)
            && TotalCost(ms[s..]) == Sum(cs[s..])
  {
    var cs := Costs(ms);
    var s := SelectionStart(ms, limit);
    assert s == WalkStart(cs, |cs| - 1, cs[|cs| - 1], limit);
    WalkFromLatestFacts(cs, limit);
    CostsOfSuffix(ms, s);
  }

  /** The memory-mode selection is a contiguous suffix of the conversation
      that always ends with the latest message. */
  lemma SelectionIsSuffixWithLatest(ms: seq<ChatMessage>, limit: nat)
    requires |ms| > 0
    ensures var sel := ms[SelectionStart(ms, limit)..];
            |sel| >= 1 && sel[|sel| - 1] == ms[|ms| - 1] && sel == ms[|ms| - |sel|..]
  {
  }

  /** The selection fits the limit, unless it is the latest message alone;
      and when the latest message alone exceeds the limit, it is all that is selected. */
  lemma SelectionWithinBudget(ms: seq<ChatMessage>, limit: nat)
    requires |ms| > 0
    ensures var sel := ms[SelectionStart(ms, limit)..];
            TotalCost(sel) <= limit || sel == [ms[|ms| - 1]]
    ensures Cost(ms[|ms| - 1]) > limit ==> ms[SelectionStart(ms, limit)..] == [ms[|ms| - 1]]
  {
    var n, s, cs := |ms|, SelectionStart(ms, limit), Costs(ms);
    SelectionFacts(ms, limit);
    CostAt(ms, n - 1);
    if s < n - 1 {
      SumSuffixMonotone(cs, s, n - 1);
      assert Sum(cs[n - 1..]) == cs[n - 1] by {
        assert cs[n - 1..][1..] == [];
      }
    } else {
      assert ms[s..] == [ms[n - 1]];
    }
  }

  /** Stop on first miss: the message just before the selection does not fit
      on top of it, and no longer suffix of the conversation fits at all, so
      no older, smaller message is ever considered. */
  lemma SelectionStopsAtFirstMiss(ms: seq<ChatMessage>, limit: nat)
    requires |ms| > 0
    ensures var s := SelectionStart(ms, limit);
            s > 0 ==> TotalCost(ms[s..]) + Cost(ms[s - 1]) > limit
    ensures var s := SelectionStart(ms, limit);
            forall j :: 0 <= j < s ==> TotalCost(ms[j..]) > limit
  {
    var s, cs := SelectionStart(ms, limit), Costs(ms);
    SelectionFacts(ms, limit);
    if s > 0 {
      CostAt(ms, s - 1);
    }
    forall j | 0 <= j < s
      ensures TotalCost(ms[j..]) > limit
    {
      assert cs[s - 1..][1..] == cs[s..];
      SumSuffixMonotone(cs, j, s - 1);
      CostsOfSuffix(ms, j);
    }
  }

  /** Conversely every suffix that fits is inside the selection: the selection
      is the longest suffix within the limit, or the latest message alone. */
  lemma SelectionIsLongestFittingSuffix(ms: seq<ChatMessage>, limit: nat, j: nat)
    requires j < |ms| && TotalCost(ms[j..]) <= limit
    ensures SelectionStart(ms, limit) <= j
  {
    SelectionStopsAtFirstMiss(ms, limit);
  }

  /** The selection's messages joined as "role: content" lines. */
  function PromptOf(ms: seq<ChatMessage>): string
    decreases |ms|
  {
    if ms == [] then ""
    else if |ms| == 1 then MessageLine(ms[0])
    else MessageLine(ms[0]) + "\n" + PromptOf(ms[1..])
  }

  /** The token estimate of a selection is the prompt's length plus one: each
      line's newline is counted, the last one being the only one not sent. */
  lemma {:induction false} PromptLengthIsCostMinusOne(ms: seq<ChatMessage>)
    requires ms != []
    ensures |PromptOf(ms)| + 1 == TotalCost(ms)
    decreases |ms|
  {
    assert Costs(ms)[1..] == Costs(ms[1..]);
    if |ms| > 1 {
      PromptLengthIsCostMinusOne(ms[1..]);
    } else {
      assert ms[1..] == [];
      assert Costs(ms) == [Cost(ms[0])];
      assert [Cost(ms[0])][1..] == [];
      assert Sum([Cost(ms[0])]) == Cost(ms[0]) + Sum([]);
      assert PromptOf(ms) == MessageLine(ms[0]);
    }
  }

  /** The prompt for a non-empty conversation: the budgeted selection in
      memory mode, the latest message alone otherwise. */
  function BuildPrompt(messages: seq<ChatMessage>, memoryMode: bool): string
    requires |messages| > 0
  {
    if memoryMode then PromptOf(messages[SelectionStart(messages, PromptTokenLimit)..])
    else PromptOf([messages[|messages| - 1]])
  }

  /** Outside memory mode the prompt is exactly the latest message's line; in
      memory mode it is shorter than the limit unless the latest message alone
      is over it, and it ends with the latest message's line. */
  lemma BuildPromptShape(messages: seq<ChatMessage>, memoryMode: bool)
    requires |messages| > 0
    ensures !memoryMode ==> BuildPrompt(messages, memoryMode) == MessageLine(messages[|messages| - 1])
    ensures memoryMode && Cost(messages[|messages| - 1]) <= PromptTokenLimit ==>
              |BuildPrompt(messages, memoryMode)| < PromptTokenLimit
    ensures memoryMode && Cost(messages[|messages| - 1]) > PromptTokenLimit ==>
              BuildPrompt(messages, memoryMode) == MessageLine(messages[|messages| - 1])
    ensures var p := BuildPrompt(messages, memoryMode);
            var latest := MessageLine(messages[|messages| - 1]);
            |latest| <= |p| && p[|p| - |latest|..] == latest
  {
    if memoryMode {
      var sel := messages[SelectionStart(messages, PromptTokenLimit)..];
      SelectionIsSuffixWithLatest(messages, PromptTokenLimit);
      PromptEndsWithLast(sel);
      SelectionWithinBudget(messages, PromptTokenLimit);
      PromptLengthIsCostMinusOne(sel);
      if Cost(messages[|messages| - 1]) <= PromptTokenLimit && sel == [messages[|messages| - 1]] {
        assert TotalCost(sel) == Cost(messages[|messages| - 1]) by {
          assert sel[1..] == [];
        }
      }
    }
  }

  /** A joined prompt ends with its last message's line. */
  lemma {:induction false} PromptEndsWithLast(ms: seq<ChatMessage>)
    requires ms != []
    ensures var p := PromptOf(ms);
            var last := MessageLine(ms[|ms| - 1]);
            |last| <= |p| && p[|p| - |last|..] == last
    decreases |ms|
  {
    if |ms| > 1 {
      PromptEndsWithLast(ms[1..]);
      assert ms[1..][|ms| - 2] == ms[|ms| - 1];
      var q := PromptOf(ms[1..]);
      assert PromptOf(ms) == (MessageLine(ms[0]) + "\n") + q;
      SuffixOfAppend(MessageLine(ms[0]) + "\n", q, |MessageLine(ms[|ms| - 1])|);
    }
  }

  lemma SuffixOfAppend<T>(a: seq<T>, b: seq<T>, n: nat)
    requires n <= |b|
    ensures (a + b)[|a + b| - n..] == b[|b| - n..]
  {
  }

  /** The memory-mode walk: the latest message first, then the history newest
      first, each prepended while the running total stays within the limit,
      stopping at the first message that does not fit. A message's tokens are
      `Cost(m)`, the estimate of its "role: content\n" text (`CostIsEstimate`). */
  method SelectForPrompt(messages: seq<ChatMessage>) returns (selected: seq<ChatMessage>, tokens: nat)
    requires |messages| > 0
    ensures selected == messages[SelectionStart(messages, PromptTokenLimit)..]
    ensures tokens == TotalCost(selected)
  {
    ghost var cs := Costs(messages);
    ghost var start := SelectionStart(messages, PromptTokenLimit);
    var latest := messages[|messages| - 1];
    selected := [latest];
    tokens := Cost(latest);
    WalkInvariantInit(messages, cs, start);
    var i := |messages| - 1;
    while i > 0
      invariant 0 <= i < |messages|
      invariant WalkInvariant(messages, cs, start, i, selected, tokens)
      decreases i
    {
      var message := messages[i - 1];
      var messageTokens := Cost(message);
      if tokens + messageTokens <= PromptTokenLimit {
        WalkAdvance(messages, cs, start, i, selected, tokens, message, messageTokens);
        tokens := tokens + messageTokens;
        selected := [message] + selected;
        i := i - 1;
      } else {
        break;
      }
    }
    WalkInvariantStop(messages, cs, start, i, selected, tokens);
  }

  /** What the walk keeps true, with `cs` the conversation's costs and
      `start` where the specification's walk ends: the selection is the
      suffix from `i`, the count is its cost, and finishing the walk from
      here still ends at `start`. */
  ghost predicate WalkInvariant(messages: seq<ChatMessage>, cs: seq<nat>, start: nat, i: nat,
                                selected: seq<ChatMessage>, tokens: nat)
  {
    && i < |messages| == |cs|
    && selected == messages[i..]
    && tokens == Sum(cs[i..])
    && WalkStart(cs, i, tokens, PromptTokenLimit) == start
  }

  lemma WalkInvariantInit(messages: seq<ChatMessage>, cs: seq<nat>, start: nat)
    requires 0 < |messages|
    requires cs == Costs(messages) && start == SelectionStart(messages, PromptTokenLimit)
    ensures WalkInvariant(messages, cs, start, |messages| - 1, [messages[|messages| - 1]], Cost(messages[|messages| - 1]))
  {
    CostAt(messages, |messages| - 1);
    SumStep(cs, |cs|);
  }

  lemma WalkCostAt(messages: seq<ChatMessage>, cs: seq<nat>, i: nat)
    requires 0 < i <= |messages|
    requires cs == Costs(messages)
    ensures cs[i - 1] == Cost(messages[i - 1])
  {
    CostAt(messages, i - 1);
  }

  /** Taking the next older message keeps the walk's invariant. */
  lemma WalkAdvance(messages: seq<ChatMessage>, cs: seq<nat>, start: nat, i: nat,
                    selected: seq<ChatMessage>, tokens: nat, message: ChatMessage, messageTokens: nat)
    requires 0 < i && cs == Costs(messages)
    requires WalkInvariant(messages, cs, start, i, selected, tokens)
    requires message == messages[i - 1] && messageTokens == Cost(message)
    requires tokens + messageTokens <= PromptTokenLimit
    ensures WalkInvariant(messages, cs, start, i - 1, [message] + selected, tokens + messageTokens)
  {
    WalkCostAt(messages, cs, i);
    WalkInvariantStep(messages, cs, start, i, selected, tokens, message, messageTokens);
  }

  lemma WalkInvariantStep(messages: seq<ChatMessage>, cs: seq<nat>, start: nat, i: nat,
                          selected: seq<ChatMessage>, tokens: nat, message: ChatMessage, messageTokens: nat)
    requires 0 < i
    requires WalkInvariant(messages, cs, start, i, selected, tokens)
    requires message == messages[i - 1] && messageTokens == cs[i - 1]
    requires tokens + messageTokens <= PromptTokenLimit
    ensures WalkInvariant(messages, cs, start, i - 1, [message] + selected, tokens + messageTokens)
  {
    SumStep(cs, i);
    WalkStep(cs, i, tokens, PromptTokenLimit);
    PrependToSuffix(messages, i);
  }

  lemma WalkInvariantStop(messages: seq<ChatMessage>, cs: seq<nat>, start: nat, i: nat,
                          selected: seq<ChatMessage>, tokens: nat)
    requires 0 < |messages|
    requires cs == Costs(messages) && start == SelectionStart(messages, PromptTokenLimit)
    requires WalkInvariant(messages, cs, start, i, selected, tokens)
    requires i == 0 || tokens + Cost(messages[i - 1]) > PromptTokenLimit
    ensures selected == messages[SelectionStart(messages, PromptTokenLimit)..]
    ensures tokens == TotalCost(selected)
  {
    if i > 0 {
      CostAt(messages, i - 1);
      WalkStep(cs, i, tokens, PromptTokenLimit);
    }
    TotalCostOfSuffix(messages, i);
  }

  lemma PrependToSuffix<T>(s: seq<T>, i: nat)
    requires 0 < i <= |s|
    ensures s[i - 1..] == [s[i - 1]] + s[i..]
  {
  }

  lemma TotalCostOfSuffix(ms: seq<ChatMessage>, i: nat)
    requires i <= |ms|
    ensures TotalCost(ms[i..]) == Sum(Costs(ms)[i..])
  {
    CostsOfSuffix(ms, i);
  }

  /** One step of the walk: the next older cost is taken if it fits, and
      otherwise the walk ends here. */
  lemma WalkStep(cs: seq<nat>, i: nat, used: nat, limit: nat)
    requires 0 < i <= |cs|
    ensures used + cs[i - 1] <= limit ==> WalkStart(cs, i, used, limit) == WalkStart(cs, i - 1, used + cs[i - 1], limit)
    ensures used + cs[i - 1] > limit ==> WalkStart(cs, i, used, limit) == i
  {
  }

  /** Taking one more (older) cost adds it to the suffix sum. */
  lemma SumStep(cs: seq<nat>, i: nat)
    requires 0 < i <= |cs|
    ensures Sum(cs[i - 1..]) == cs[i - 1] + Sum(cs[i..])
  {
    assert cs[i - 1..][1..] == cs[i..];
  }

  // ---------------------------------------------------- delta conversion

  /** Swift's `dropFirst(n)`: the text after the first `n` characters, or
      nothing when it is shorter. */
  function DropFirst(s: string, n: nat): string {
    if n <= |s| then s[n..] else ""
  }

  /** The deltas yielded for `snaps` when `last` is the most recent snapshot
      that produced a delta. A snapshot whose delta is empty is skipped and
      does not become the new `last`. */
  function DeltasFrom(snaps: seq<string>, last: string): seq<string>
    decreases |snaps|
  {
    if snaps == [] then []
    else
      var delta := DropFirst(snaps[0], |last|);
      if delta != "" then [delta] + DeltasFrom(snaps[1..], snaps[0])
      else DeltasFrom(snaps[1..], last)
  }

  /** The value of `lastResponse` after `snaps` have been processed. */
  function LastEmitted(snaps: seq<string>, last: string): string
    decreases |snaps|
  {
    if snaps == [] then last
    else if DropFirst(snaps[0], |last|) != "" then LastEmitted(snaps[1..], snaps[0])
    else LastEmitted(snaps[1..], last)
  }

  /** The loop over the model's snapshots, yielding each non-empty delta. */
  method ComputeDeltas(snapshots: seq<string>) returns (deltas: seq<string>)
    ensures deltas == DeltasFrom(snapshots, "")
  {
    deltas := [];
    var lastResponse := "";
    var i := 0;
    while i < |snapshots|
      invariant 0 <= i <= |snapshots|
      invariant deltas + DeltasFrom(snapshots[i..], lastResponse) == DeltasFrom(snapshots, "")
    {
      var fullResponse := snapshots[i];
      var delta := DropFirst(fullResponse, |lastResponse|);
      assert snapshots[i..][1..] == snapshots[i + 1..];
      if delta != "" {
        deltas := deltas + [delta];
        lastResponse := fullResponse;
      }
      i := i + 1;
    }
    assert snapshots[i..] == [];
  }

  /** Every yielded delta is non-empty. */
  lemma {:induction false} DeltasNonEmpty(snaps: seq<string>, last: string)
    ensures forall k :: 0 <= k < |DeltasFrom(snaps, last)| ==> DeltasFrom(snaps, last)[k] != ""
    decreases |snaps|
  {
    if snaps != [] {
      DeltasNonEmpty(snaps[1..], if DropFirst(snaps[0], |last|) != "" then snaps[0] else last);
    }
  }

  /** Processing two batches of snapshots in turn yields the deltas of each,
      the second starting from what the first emitted last. */
  lemma {:induction false} DeltasAppend(a: seq<string>, b: seq<string>, last: string)
    ensures DeltasFrom(a + b, last) == DeltasFrom(a, last) + DeltasFrom(b, LastEmitted(a, last))
    decreases |a|
  {
    if a == [] {
      assert a + b == b;
    } else {
      assert (a + b)[0] == a[0];
      assert (a + b)[1..] == a[1..] + b;
      DeltasAppend(a[1..], b, if DropFirst(a[0], |last|) != "" then a[0] else last);
    }
  }

  /** After any snapshot the last emitted response is at least as long as it. */
  lemma {:induction false} LastEmittedCoversLast(snaps: seq<string>, last: string)
    requires snaps != []
    ensures |snaps[|snaps| - 1]| <= |LastEmitted(snaps, last)|
    decreases |snaps|
  {
    var next := if DropFirst(snaps[0], |last|) != "" then snaps[0] else last;
    if |snaps| == 1 {
      assert snaps[1..] == [];
    } else {
      assert snaps[1..][|snaps| - 2] == snaps[|snaps| - 1];
      LastEmittedCoversLast(snaps[1..], next);
    }
  }

  /** A snapshot no longer than the last emitted one yields nothing. */
  lemma ShortSnapshotYieldsNothing(s: string, rest: seq<string>, last: string)
    requires |s| <= |last|
    ensures DeltasFrom([s] + rest, last) == DeltasFrom(rest, last)
  {
    assert ([s] + rest)[1..] == rest;
  }

  /** Repeating the latest snapshot yields no further delta. */
  lemma RepeatYieldsNothing(snaps: seq<string>)
    requires snaps != []
    ensures DeltasFrom(snaps + [snaps[|snaps| - 1]], "") == DeltasFrom(snaps, "")
  {
    var s := snaps[|snaps| - 1];
    DeltasAppend(snaps, [s], "");
    LastEmittedCoversLast(snaps, "");
    ShortSnapshotYieldsNothing(s, [], LastEmitted(snaps, ""));
  }

  /** Each snapshot extends the one before it. */
  predicate PrefixChain(snaps: seq<string>) {
    forall i :: 0 <= i < |snaps| - 1 ==> snaps[i] <= snaps[i + 1]
  }

  lemma {:induction false} ChainDeltasRebuild(snaps: seq<string>, last: string)
    requires PrefixChain(snaps)
    requires snaps != [] ==> last <= snaps[0]
    ensures last + Concat(DeltasFrom(snaps, last)) == if snaps == [] then last else snaps[|snaps| - 1]
    decreases |snaps|
  {
    if snaps != [] {
      var s0 := snaps[0];
      var rest := snaps[1..];
      assert PrefixChain(rest) by {
        forall i | 0 <= i < |rest| - 1 ensures rest[i] <= rest[i + 1] {
          assert rest[i] == snaps[i + 1] && rest[i + 1] == snaps[i + 2];
        }
      }
      var delta := DropFirst(s0, |last|);
      assert last + delta == s0;
      if delta != "" {
        if rest != [] { assert rest[0] == snaps[1]; }
        ChainDeltasRebuild(rest, s0);
        assert DeltasFrom(snaps, last) == [delta] + DeltasFrom(rest, s0);
        assert Concat([delta] + DeltasFrom(rest, s0)) == delta + Concat(DeltasFrom(rest, s0)) by {
          assert ([delta] + DeltasFrom(rest, s0))[1..] == DeltasFrom(rest, s0);
        }
      } else {
        assert s0 == last;
        if rest != [] { assert rest[0] == snaps[1]; }
        ChainDeltasRebuild(rest, last);
      }
      if rest != [] {
        assert rest[|rest| - 1] == snaps[|snaps| - 1];
      }
    }
  }

  /** For snapshots that each extend the previous one, the deltas concatenate
      to the final snapshot. */
  lemma DeltasRebuildFinalSnapshot(snaps: seq<string>)
    requires PrefixChain(snaps)
    ensures Concat(DeltasFrom(snaps, "")) == if snaps == [] then "" else snaps[|snaps| - 1]
  {
    ChainDeltasRebuild(snaps, "");
    assert "" + Concat(DeltasFrom(snaps, "")) == Concat(DeltasFrom(snaps, ""));
  }

  // --------------------------------------------------------- generation

  /** What the model runtime does with a prompt: the cumulative snapshots it
      produces, and the error it throws afterwards, if any. */
  datatype Reply = Reply(snapshots: seq<string>, failure: Option<string>)

  /** An error thrown to a caller: one of the manager's own `ModelError`s
      (no session, or an embedding failure), or the runtime's error. */
  datatype StreamFailure = ManagerError(error: ModelError) | RuntimeError(description: string)

  /** The text stream `generateResponse` returns: the items it yields, then
      either a normal finish or a thrown error. */
  datatype TextStream = TextStream(items: seq<string>, failure: Option<StreamFailure>)

  /** The stream produced for `messages`: a not-loaded error without a session,
      an empty stream for an empty conversation, and otherwise the deltas of the
      runtime's snapshots for the built prompt, followed by its error if it throws. */
  function GeneratedStream(hasSession: bool, memoryMode: bool, messages: seq<ChatMessage>,
                           runtime: string -> Reply): TextStream
  {
    if !hasSession then TextStream([], Some(ManagerError(ModelNotLoaded)))
    else if messages == [] then TextStream([], None)
    else
      var reply := runtime(BuildPrompt(messages, memoryMode));
      TextStream(DeltasFrom(reply.snapshots, ""),
                 match reply.failure case Some(d) => Some(RuntimeError(d)) case None => None)
  }

  /** Without a session the stream fails with `modelNotLoaded`; an empty
      conversation finishes with no items; every item of any stream is non-empty. */
  lemma GeneratedStreamFacts(hasSession: bool, memoryMode: bool, messages: seq<ChatMessage>,
                             runtime: string -> Reply)
    ensures !hasSession ==> GeneratedStream(hasSession, memoryMode, messages, runtime)
                              == TextStream([], Some(ManagerError(ModelNotLoaded)))
    ensures hasSession && messages == [] ==> GeneratedStream(hasSession, memoryMode, messages, runtime)
                                               == TextStream([], None)
    ensures var items := GeneratedStream(hasSession, memoryMode, messages, runtime).items;
            forall k :: 0 <= k < |items| ==> items[k] != ""
  {
    if hasSession && messages != [] {
      DeltasNonEmpty(runtime(BuildPrompt(messages, memoryMode)).snapshots, "");
    }
  }

  /** `generateEmbedding`: `embedder` is the system sentence-embedding model,
      `None` when it is unavailable, otherwise its vector lookup (which may
      find no vector for the text). */
  function GenerateEmbedding(input: string, embedder: Option<string -> Option<seq<real>>>): (r: Result<seq<real>, ModelError>)
    ensures r == Failure(EmbeddingModelUnavailable) <==> embedder.None?
    ensures r == Failure(EmbeddingGenerationFailed) <==> embedder.Some? && embedder.value(input).None?
    ensures r.Success? <==> embedder.Some? && embedder.value(input).Some?
    ensures r.Success? ==> Some(r.value) == embedder.value(input)
  {
    match embedder
    case None => Failure(EmbeddingModelUnavailable)
    case Some(lookup) =>
      match lookup(input)
      case None => Failure(EmbeddingGenerationFailed)
      case Some(vector) => Success(vector)
  }

  /** The foreign model session; its behaviour is the `runtime` parameter. */
  datatype LanguageModelSession = LanguageModelSession

  /** The session and the state are written by separate steps of the load
      task, so no invariant ties them: a manager can be loaded without a
      session (`LoadedWithoutSession`). */
  class ModelManager {
    var modelState: ModelState
    var memoryMode: bool
    var activeModel: Option<LanguageModelSession>

    constructor ()
      ensures modelState == NotLoaded && !memoryMode && activeModel == None
    {
      modelState := NotLoaded;
      memoryMode := false;
      activeModel := None;
    }

    predicate IsModelLoaded()
      reads this
    {
      modelState.Loaded?
    }

    /** The descriptor `/v1/models` lists; `created` is the current time. */
    function CurrentModelInfo(created: int): (info: Option<ModelObject>)
      reads this
      ensures info.Some? <==> IsModelLoaded()
      ensures info.Some? ==> info.value == ModelObject("apple-foundation-model", created, "Apple")
    {
      if IsModelLoaded() then Some(ModelObject("apple-foundation-model", created, "Apple")) else None
    }

    /** The synchronous part of `loadModel`: nothing when already loaded;
        otherwise the state becomes loading and an initialization is started,
        also when one is already running (the guard only looks for loaded). */
    method LoadModel() returns (initStarted: bool)
      modifies this
      ensures initStarted <==> old(modelState) != Loaded
      ensures old(modelState) == Loading ==> initStarted
      ensures modelState == if initStarted then Loading else old(modelState)
      ensures activeModel == old(activeModel) && memoryMode == old(memoryMode)
    {
      if IsModelLoaded() {
        initStarted := false;
        return;
      }
      modelState := Loading;
      initStarted := true;
    }

    /** `initializeModel`, run by the load task off the main actor: a fresh
        session is installed; the state is untouched. */
    method InitializeModel()
      modifies this
      ensures activeModel == Some(LanguageModelSession)
      ensures modelState == old(modelState) && memoryMode == old(memoryMode)
    {
      activeModel := Some(LanguageModelSession);
    }

    /** The load task's main-actor hop after a successful initialization. */
    method MarkLoaded()
      modifies this
      ensures modelState == Loaded
      ensures activeModel == old(activeModel) && memoryMode == old(memoryMode)
    {
      modelState := Loaded;
    }

    /** The load task's main-actor hop after a thrown initialization:
        `error("Model load failed: ...")` with the error's description. */
    method MarkLoadFailed(description: string)
      modifies this
      ensures modelState == Error("Model load failed: " + description)
      ensures activeModel == old(activeModel) && memoryMode == old(memoryMode)
    {
      var errorMessage := "Model load failed: " + description;
      modelState := Error(errorMessage);
    }

    /** From any state: the session is released and the state is not loaded. */
    method UnloadModel()
      modifies this
      ensures activeModel == None && modelState == NotLoaded && memoryMode == old(memoryMode)
    {
      activeModel := None;
      modelState := NotLoaded;
    }

    /** `generateResponse`: the session guard, the prompt and the delta loop. */
    method GenerateResponse(messages: seq<ChatMessage>, runtime: string -> Reply) returns (stream: TextStream)
      ensures stream == GeneratedStream(activeModel.Some?, memoryMode, messages, runtime)
    {
      if activeModel.None? {
        return TextStream([], Some(ManagerError(ModelNotLoaded)));
      }
      if |messages| == 0 {
        return TextStream([], None);
      }
      var prompt: string;
      if memoryMode {
        var selected, tokens := SelectForPrompt(messages);
        prompt := PromptOf(selected);
      } else {
        prompt := PromptOf([messages[|messages| - 1]]);
      }
      var reply := runtime(prompt);
      var deltas := ComputeDeltas(reply.snapshots);
      var failure := match reply.failure case Some(d) => Some(RuntimeError(d)) case None => None;
      stream := TextStream(deltas, failure);
    }
  }

  /** The loaded/info queries agree: the descriptor exists iff the state is
      loaded; a generation fails for want of a session exactly when there is
      no session, whatever the state says. */
  lemma LoadedQueriesAgree(mm: ModelManager, created: int, messages: seq<ChatMessage>, runtime: string -> Reply)
    ensures mm.IsModelLoaded() <==> mm.modelState == Loaded
    ensures mm.CurrentModelInfo(created).Some? <==> mm.IsModelLoaded()
    ensures mm.CurrentModelInfo(created).Some? ==>
              mm.CurrentModelInfo(created).value == ModelObject("apple-foundation-model", created, "Apple")
    ensures (GeneratedStream(mm.activeModel.Some?, mm.memoryMode, messages, runtime).failure
               == Some(ManagerError(ModelNotLoaded))) <==> mm.activeModel.None?
  {
    GeneratedStreamFacts(mm.activeModel.Some?, mm.memoryMode, messages, runtime);
  }

  /** Two overlapping loads with an unload between their hops leave the
      manager loaded without a session: `loadModel` twice (the second passes
      the guard while loading), both tasks install a session, the first marks
      loaded, `unloadModel`, then the second marks loaded. */
  method LoadedWithoutSession() returns (mm: ModelManager)
    ensures mm.IsModelLoaded() && mm.activeModel.None?
  {
    mm := new ModelManager();
    var first := mm.LoadModel();
    var second := mm.LoadModel();
    mm.InitializeModel();
    mm.InitializeModel();
    mm.MarkLoaded();
    mm.UnloadModel();
    mm.MarkLoaded();
  }
}
