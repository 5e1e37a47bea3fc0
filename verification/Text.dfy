/** Byte lengths and white space of Unicode text, as Rust's `str` and `char` define them. */
module Text {
  import opened Domain

  /** `char::len_utf8`. */
  function Utf8Len(c: char): (n: nat)
    ensures 1 <= n <= 4
  {
    if c as int < 0x80 then 1 else if c as int < 0x800 then 2 else if c as int < 0x10000 then 3 else 4
  }

  /** `str::len`: the number of UTF-8 bytes. */
  function ByteLen(s: string): nat {
    if s == "" then 0 else ByteLen(s[..|s| - 1]) + Utf8Len(s[|s| - 1])
  }

  lemma {:induction false} ByteLenConcat(a: string, b: string)
    ensures ByteLen(a + b) == ByteLen(a) + ByteLen(b)
    decreases |b|
  {
    if b == "" {
      assert a + b == a;
    } else {
      var b' := b[..|b| - 1];
      assert (a + b)[..|a + b| - 1] == a + b';
      ByteLenConcat(a, b');
    }
  }

  lemma {:induction false} ByteLenAscii(s: string)
    requires forall i :: 0 <= i < |s| ==> s[i] as int < 0x80
    ensures ByteLen(s) == |s|
  {
    if s != "" {
      ByteLenAscii(s[..|s| - 1]);
    }
  }

  lemma {:induction false} ByteLenPrefix(s: string, i: nat, j: nat)
    requires i <= j <= |s|
    ensures ByteLen(s[..i]) + (j - i) <= ByteLen(s[..j])
    decreases j - i
  {
    if i < j {
      ByteLenPrefix(s, i, j - 1);
      assert s[..j][..j - 1] == s[..j - 1];
    }
  }

  /** `char::is_whitespace`: the Unicode White_Space property. */
  predicate IsWhitespace(c: char) {
    var n := c as int;
    9 <= n <= 13 || n == 0x20 || n == 0x85 || n == 0xA0 || n == 0x1680 || 0x2000 <= n <= 0x200A
    || n == 0x2028 || n == 0x2029 || n == 0x202F || n == 0x205F || n == 0x3000
  }

  /** Characters of each width, and characters that are white space or not, in Latin and Chinese text. */
  lemma CharacterSamples()
    ensures Utf8Len('a') == 1 && Utf8Len('é') == 2 && Utf8Len('，') == 3 && Utf8Len('\U{1F600}') == 4
    ensures IsWhitespace(' ') && IsWhitespace('\n') && IsWhitespace('\t') && IsWhitespace('\U{3000}')
    ensures !IsWhitespace('a') && !IsWhitespace('/') && !IsWhitespace('，') && !IsWhitespace('\U{200B}')
  {
  }

  /** `s.trim().is_empty()`. */
  predicate IsBlank(s: string) {
    forall c :: c in s ==> IsWhitespace(c)
  }

  /** The number of decimal digits of `n`. */
  function Digits(n: nat): (d: nat)
    ensures d >= 1
  {
    if n < 10 then 1 else 1 + Digits(n / 10)
  }

  /** Decimal notation. */
  function Decimal(n: nat): (text: string)
    ensures |text| == Digits(n) && forall i :: 0 <= i < |text| ==> '0' <= text[i] <= '9'
  {
    if n < 10 then [DigitOf(n)] else Decimal(n / 10) + [DigitOf(n % 10)]
  }

  function DigitOf(d: nat): (c: char)
    requires d < 10
    ensures '0' <= c <= '9' && c as int == '0' as int + d
  {
    ('0' as int + d) as char
  }

  /** The serialised JSON value itself. */
  function JsonText(value: Json): string {
    match value
    case Null => "null"
    case Raw(encoding) => encoding
    case TruncationNote(n) => "{\"_truncated\":true,\"_original_bytes\":" + Decimal(n) + "}"
  }

  /** Length of the serialised JSON value. The truncation note is
      `{"_truncated":true,"_original_bytes":N}`, 38 bytes and the digits of N. */
  function JsonLen(value: Json): nat {
    match value
    case Null => 4
    case Raw(encoding) => ByteLen(encoding)
    case TruncationNote(n) => 38 + Digits(n)
  }

  /** The length is that of the text. */
  lemma JsonBytes(value: Json)
    ensures ByteLen(JsonText(value)) == JsonLen(value)
  {
    hide ByteLen;
    match value
    case Null => ByteLenAscii("null");
    case Raw(_) =>
    case TruncationNote(n) =>
      var opening := "{\"_truncated\":true,\"_original_bytes\":";
      ByteLenAscii(opening);
      ByteLenAscii(Decimal(n));
      ByteLenAscii("}");
      ByteLenConcat(opening, Decimal(n));
      ByteLenConcat(opening + Decimal(n), "}");
  }

  /** Byte length of a system text once rendered: the summary prefix is 399 bytes and two line breaks. */
  function SystemTextLen(text: SystemText): nat {
    match text
    case PlainText(s) => ByteLen(s)
    case ResumeNotice => 35
    case CompactSummary(summary) => 399 + 2 + ByteLen(summary)
    case TruncationSummary => 399 + 2 + 188
    case ToolLimitNotice(limit) => 176 + Digits(limit)
  }
}
