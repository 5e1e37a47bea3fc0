/** Size limits on tool outputs (src/application/tool_dispatcher.rs, normalize_tool_output). */
module ToolOutputs {
  import opened Domain
  import opened Text

  const TRUNCATION_SUFFIX := "\n\n[output truncated]"

  /** Length of the longest prefix of whole characters within `budget` bytes. */
  function FitPrefix(content: string, budget: nat): (k: nat)
    ensures k <= |content| && ByteLen(content[..k]) <= budget
  {
    if ByteLen(content) <= budget then
      assert content[..|content|] == content;
      |content|
    else
      var init := content[..|content| - 1];
      var k := FitPrefix(init, budget);
      assert content[..k] == init[..k];
      k
  }

  function Truncated(content: string, budget: nat): string {
    if ByteLen(content) <= budget then content
    else if budget <= |TRUNCATION_SUFFIX| then TRUNCATION_SUFFIX[..budget]
    else content[..FitPrefix(content, budget - |TRUNCATION_SUFFIX|)] + TRUNCATION_SUFFIX
  }

  lemma SuffixBytes(n: nat)
    requires n <= |TRUNCATION_SUFFIX|
    ensures ByteLen(TRUNCATION_SUFFIX[..n]) == n && |TRUNCATION_SUFFIX| == 20
  {
    ByteLenAscii(TRUNCATION_SUFFIX[..n]);
  }

  lemma FitsAreInitial(content: string, budget: nat, k: nat)
    requires k <= |content|
    ensures ByteLen(content[..k]) <= budget <==> k <= FitPrefix(content, budget)
    decreases |content|
  {
    assert content[..|content|] == content;
    if ByteLen(content) <= budget {
      ByteLenPrefix(content, k, |content|);
    } else if k < |content| {
      var init := content[..|content| - 1];
      FitsAreInitial(init, budget, k);
      assert init[..k] == content[..k];
    }
  }

  /** What truncation means. Content that fits is kept. Otherwise the result is a cut suffix when the
      budget is tiny, or else a prefix of whole characters, which no longer prefix within the budget
      extends, and the suffix. The result is always within the budget. */
  lemma TruncationMeaning(content: string, budget: nat)
    ensures
      var r := Truncated(content, budget);
      && ByteLen(r) <= budget
      && (ByteLen(content) <= budget ==> r == content)
      && (ByteLen(content) > budget && budget <= 20 ==> r <= TRUNCATION_SUFFIX && |r| == budget)
      && (ByteLen(content) > budget > 20 ==>
            exists k :: 0 <= k < |content| && r == content[..k] + TRUNCATION_SUFFIX
                        && ByteLen(content[..k]) + 20 <= budget < ByteLen(content[..k + 1]) + 20)
  {
    SuffixBytes(20);
    if ByteLen(content) > budget {
      if budget <= 20 {
        SuffixBytes(budget);
      } else {
        LongTruncation(content, budget);
      }
    }
  }

  lemma LongTruncation(content: string, budget: nat)
    requires ByteLen(content) > budget > 20
    ensures
      var k := FitPrefix(content, budget - 20);
      && k < |content| && ByteLen(content[..k] + TRUNCATION_SUFFIX) <= budget
      && ByteLen(content[..k]) + 20 <= budget < ByteLen(content[..k + 1]) + 20
  {
    hide ByteLen;
    var k := FitPrefix(content, budget - 20);
    SuffixBytes(20);
    assert TRUNCATION_SUFFIX[..20] == TRUNCATION_SUFFIX;
    ByteLenConcat(content[..k], TRUNCATION_SUFFIX);
    assert content[..|content|] == content;
    if k < |content| {
      FitsAreInitial(content, budget - 20, k + 1);
    }
  }

  /** Where the copying loop stops is where the longest fitting prefix ends. */
  lemma StopsAtFit(content: string, budget: nat, i: nat)
    requires ByteLen(content) > budget > |TRUNCATION_SUFFIX| && i <= |content|
    requires ByteLen(content[..i]) <= budget - |TRUNCATION_SUFFIX|
    requires i < |content| ==> ByteLen(content[..i + 1]) > budget - |TRUNCATION_SUFFIX|
    ensures Truncated(content, budget) == content[..i] + TRUNCATION_SUFFIX
  {
    hide ByteLen, FitPrefix;
    FitsAreInitial(content, budget - |TRUNCATION_SUFFIX|, i);
    if i < |content| {
      FitsAreInitial(content, budget - |TRUNCATION_SUFFIX|, i + 1);
    }
  }

  lemma OneMoreChar(content: string, i: nat)
    requires i < |content|
    ensures content[..i + 1] == content[..i] + [content[i]]
    ensures ByteLen(content[..i + 1]) == ByteLen(content[..i]) + Utf8Len(content[i])
  {
    assert content[..i + 1][..i] == content[..i];
  }

  /** Copies characters until the next one would exceed the budget. */
  method TruncateContentToBudget(content: string, budget: nat) returns (r: string)
    ensures r == Truncated(content, budget)
  {
    hide ByteLen, FitPrefix, Utf8Len;
    if ByteLen(content) <= budget {
      return content;
    }
    if budget == 0 {
      return "";
    }
    if budget <= |TRUNCATION_SUFFIX| {
      return TRUNCATION_SUFFIX[..budget];
    }
    NothingCopied();
    var prefix, prefixBudget, i := "", budget - |TRUNCATION_SUFFIX|, 0;
    while i < |content|
      invariant 0 <= i <= |content| && prefix == content[..i] && ByteLen(prefix) <= prefixBudget
    {
      OneMoreChar(content, i);
      if ByteLen(prefix) + Utf8Len(content[i]) > prefixBudget {
        break;
      }
      prefix := prefix + [content[i]];
      i := i + 1;
    }
    StopsAtFit(content, budget, i);
    return prefix + TRUNCATION_SUFFIX;
  }

  lemma NothingCopied()
    ensures ByteLen("") == 0
  {
  }

  /** The two limits of a dispatcher. */
  datatype Limits = Limits(outputMax: nat, metadataMax: nat)

  function NormalizeMetadata(metadata: Json, metadataMax: nat): Json {
    if JsonLen(metadata) > metadataMax then TruncationNote(JsonLen(metadata)) else metadata
  }

  function SaturatingSub(a: nat, b: nat): nat {
    if a >= b then a - b else 0
  }

  function Normalize(output: ToolOutput, limits: Limits): ToolOutput {
    var metadata := NormalizeMetadata(output.metadata, limits.metadataMax);
    ToolOutput(Truncated(output.content, SaturatingSub(limits.outputMax, JsonLen(metadata))), output.isError, metadata)
  }

  /** What normalising keeps, field by field: metadata within its limit stays as it is, and larger metadata becomes a
      note about its size; content stays when it fits beside the metadata, and never takes more than is left. */
  lemma NormalizeMeaning(output: ToolOutput, limits: Limits)
    ensures
      var r := Normalize(output, limits);
      && r.isError == output.isError
      && (JsonLen(output.metadata) <= limits.metadataMax ==> r.metadata == output.metadata)
      && (JsonLen(output.metadata) > limits.metadataMax ==>
            JsonText(r.metadata)
            == "{\"_truncated\":true,\"_original_bytes\":" + Decimal(JsonLen(output.metadata)) + "}")
      && (ByteLen(output.content) + JsonLen(r.metadata) <= limits.outputMax ==> r.content == output.content)
      && (JsonLen(r.metadata) <= limits.outputMax ==> ByteLen(r.content) + JsonLen(r.metadata) <= limits.outputMax)
      && (JsonLen(r.metadata) > limits.outputMax ==> ByteLen(r.content) == 0)
  {
    hide ByteLen, Truncated, Decimal;
    var metadata := NormalizeMetadata(output.metadata, limits.metadataMax);
    TruncationMeaning(output.content, SaturatingSub(limits.outputMax, JsonLen(metadata)));
  }

  lemma {:induction false} MoreDigits(m: nat, n: nat)
    requires m <= n
    ensures Digits(m) <= Digits(n)
    decreases n
  {
    if m >= 10 {
      MoreDigits(m / 10, n / 10);
    }
  }

  // ---------------------------------------------------------------- the total limit

  ghost predicate WithinBudget(output: ToolOutput, limits: Limits) {
    var r := Normalize(output, limits);
    ByteLen(r.content) + JsonLen(r.metadata) <= limits.outputMax
  }

  /** Some JSON text of this length: a number or a string. */
  function SomeJson(n: nat): (text: string)
    requires n >= 1
    ensures |text| == n && forall i :: 0 <= i < n ==> text[i] as int < 0x80
  {
    if n == 1 then "1" else "\"" + seq(n - 2, _ => 'a') + "\""
  }

  lemma JsonOfLength(n: nat) returns (metadata: Json)
    requires n >= 1
    ensures JsonLen(metadata) == n && metadata == Raw(SomeJson(n))
  {
    metadata := Raw(SomeJson(n));
    ByteLenAscii(SomeJson(n));
  }

  lemma BudgetByMetadata(output: ToolOutput, limits: Limits)
    ensures WithinBudget(output, limits) <==>
              JsonLen(NormalizeMetadata(output.metadata, limits.metadataMax)) <= limits.outputMax
    ensures Normalize(output, limits).isError == output.isError
  {
    var metadata := NormalizeMetadata(output.metadata, limits.metadataMax);
    TruncationMeaning(output.content, SaturatingSub(limits.outputMax, JsonLen(metadata)));
  }

  /** Exactly which limits hold the total for every output whose metadata has at most `bound` bytes, among those
      the builder accepts: metadata is never replaced, or the note about the largest one has room. */
  lemma BudgetHeldExactly(limits: Limits, bound: nat)
    requires limits.metadataMax < limits.outputMax
    ensures (forall output: ToolOutput :: JsonLen(output.metadata) <= bound ==> WithinBudget(output, limits))
       <==> bound <= limits.metadataMax || 38 + Digits(bound) <= limits.outputMax
  {
    hide WithinBudget, Digits;
    if bound <= limits.metadataMax || 38 + Digits(bound) <= limits.outputMax {
      forall output: ToolOutput | JsonLen(output.metadata) <= bound ensures WithinBudget(output, limits) {
        MoreDigits(JsonLen(output.metadata), bound);
        BudgetByMetadata(output, limits);
      }
    } else {
      var metadata := JsonOfLength(bound);
      var output := ToolOutput("", false, metadata);
      BudgetByMetadata(output, limits);
      assert JsonLen(output.metadata) <= bound && !WithinBudget(output, limits);
    }
  }

  // ---------------------------------------------------------------- normalising twice

  ghost predicate IdempotentOn(output: ToolOutput, limits: Limits) {
    Normalize(Normalize(output, limits), limits) == Normalize(output, limits)
  }

  /** The note about a note is the same note. Only a note about 40 bytes is as long as what it replaces. */
  predicate NoteStays(length: nat, metadataMax: nat) {
    length <= metadataMax || 38 + Digits(length) <= metadataMax || length == 40
  }

  lemma NoteAboutItself(n: nat)
    ensures 38 + Digits(n) == n <==> n == 40
  {
    if n >= 100 {
      MoreThanDigits(n);
    }
  }

  lemma {:induction false} MoreThanDigits(n: nat)
    requires n >= 100
    ensures 38 + Digits(n) < n
  {
    if n >= 1000 {
      MoreThanDigits(n / 10);
    } else {
      assert Digits(n / 10) == 2;
    }
  }

  lemma TwiceByMetadata(output: ToolOutput, limits: Limits)
    ensures IdempotentOn(output, limits) <==> NoteStays(JsonLen(output.metadata), limits.metadataMax)
  {
    var metadata := NormalizeMetadata(output.metadata, limits.metadataMax);
    NoteAboutItself(JsonLen(output.metadata));
    TruncationMeaning(output.content, SaturatingSub(limits.outputMax, JsonLen(metadata)));
  }

  /** The metadata limits at which normalising is idempotent on all metadata of at most `bound` bytes. */
  predicate LimitSuffices(metadataMax: nat, bound: nat) {
    bound <= metadataMax || 38 + Digits(bound) <= metadataMax || (metadataMax == 39 && bound == 40)
  }

  /** Where the limit does not suffice, an output of at most `bound` bytes of metadata that shows it. */
  lemma ShortLimitFails(limits: Limits, bound: nat) returns (output: ToolOutput)
    requires !LimitSuffices(limits.metadataMax, bound)
    ensures JsonLen(output.metadata) <= bound && !IdempotentOn(output, limits)
  {
    var length := if bound == 40 then 39 else bound;
    MoreDigits(39, 40);
    var metadata := JsonOfLength(length);
    output := ToolOutput("", false, metadata);
    TwiceByMetadata(output, limits);
  }

  /** Normalising twice is normalising once for every output whose metadata has at most `bound` bytes exactly
      when the metadata limit suffices for that bound. A record is normalised after its event was sent, so
      below the limit event and ledger can differ. */
  lemma IdempotentExactly(limits: Limits, bound: nat)
    ensures (forall output: ToolOutput :: JsonLen(output.metadata) <= bound ==> IdempotentOn(output, limits))
       <==> LimitSuffices(limits.metadataMax, bound)
  {
    hide IdempotentOn, Digits;
    if LimitSuffices(limits.metadataMax, bound) {
      forall output: ToolOutput | JsonLen(output.metadata) <= bound ensures IdempotentOn(output, limits) {
        MoreDigits(JsonLen(output.metadata), bound);
        TwiceByMetadata(output, limits);
      }
    } else {
      var output := ShortLimitFails(limits, bound);
    }
  }

  // ---------------------------------------------------------------- what a process can receive

  /** `isize::MAX` on a 64-bit machine, the most bytes a Rust buffer can hold. */
  const ISIZE_MAX: nat := 0x7FFF_FFFF_FFFF_FFFF

  /** The longest note about metadata that can be received has 57 bytes. With the limits the builder accepts,
      the total is held for everything receivable if and only if it is
      at least 57, and event and ledger agree on everything receivable if and only if the metadata limit is. */
  lemma ReceivableOutputs(limits: Limits)
    requires limits.metadataMax < limits.outputMax
    ensures (forall output: ToolOutput :: JsonLen(output.metadata) <= ISIZE_MAX ==> WithinBudget(output, limits))
       <==> limits.outputMax >= 57
    ensures (forall output: ToolOutput :: JsonLen(output.metadata) <= ISIZE_MAX ==> IdempotentOn(output, limits))
       <==> limits.metadataMax >= 57
  {
    hide WithinBudget, IdempotentOn, Digits;
    LargestDigits();
    BudgetHeldExactly(limits, ISIZE_MAX);
    IdempotentExactly(limits, ISIZE_MAX);
  }

  lemma ThreeDigits(n: nat)
    requires n >= 1000
    ensures Digits(n) == 3 + Digits(n / 1000)
  {
    assert Digits(n) == 1 + Digits(n / 10) == 2 + Digits(n / 10 / 10) == 3 + Digits(n / 10 / 10 / 10);
  }

  lemma LargestDigits()
    ensures Digits(ISIZE_MAX) == 19
  {
    ThreeDigits(9_223_372_036_854_775_807);
    ThreeDigits(9_223_372_036_854_775);
    ThreeDigits(9_223_372_036_854);
    ThreeDigits(9_223_372_036);
    ThreeDigits(9_223_372);
    ThreeDigits(9_223);
  }
}
