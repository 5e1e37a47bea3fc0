/** Explicit skill invocations in user text (src/application/skill_manager.rs). */
module Skills {
  import opened Domain
  import opened Text

  predicate IsSkillNameChar(c: char) {
    'a' <= c <= 'z' || 'A' <= c <= 'Z' || '0' <= c <= '9' || c == '_' || c == '-'
  }

  predicate IsOpening(c: char) {
    c == '(' || c == '[' || c == '{' || c == '"' || c == '\''
  }

  predicate IsAsciiTerminator(c: char) {
    c == ')' || c == ']' || c == '}' || c == '"' || c == '\'' || c == ',' || c == ':' || c == ';' || c == '!'
    || c == '?'
  }

  predicate IsNonPathTerminator(c: char) {
    IsAsciiTerminator(c) || c == '，' || c == '。' || c == '！' || c == '？' || c == '；' || c == '：' || c == '、'
  }

  predicate IsInvocationPrefix(previous: Option<char>) {
    previous.None? || IsWhitespace(previous.value) || IsOpening(previous.value)
  }

  predicate IsInvocationSuffix(text: string, cursor: nat) {
    if cursor >= |text| then true
    else if IsWhitespace(text[cursor]) || IsAsciiTerminator(text[cursor]) then true
    else if text[cursor] == '.' then cursor + 1 >= |text| || IsNonPathTerminator(text[cursor + 1])
    else IsNonPathTerminator(text[cursor])
  }

  // ---------------------------------------------------------------- the declarative rule

  /** What may stand before a slash, and after a name, besides white space. */
  const OPENINGS := "([{\"'"
  const TERMINATORS := ")]}\"',:;!?，。！？；：、"

  ghost predicate NameChar(c: char) {
    'a' <= c <= 'z' || 'A' <= c <= 'Z' || '0' <= c <= '9' || c == '_' || c == '-'
  }

  /** A name may end before white space, before a terminator, or before a full stop that ends the text or is followed
      by a terminator. */
  ghost predicate MayEnd(text: string, e: nat)
    requires e <= |text|
  {
    || e == |text| || IsWhitespace(text[e]) || text[e] in TERMINATORS
    || (text[e] == '.' && (e + 1 == |text| || text[e + 1] in TERMINATORS))
  }

  /** Text `i..e` is an invocation: a slash with an allowed character before it, then the longest run of
      name characters, not empty, with an allowed end. */
  ghost predicate InvokesAt(text: string, i: nat, e: nat) {
    && i + 1 < e <= |text|
    && text[i] == '/'
    && (i == 0 || IsWhitespace(text[i - 1]) || text[i - 1] in OPENINGS)
    && (forall k :: i < k < e ==> NameChar(text[k]))
    && (e < |text| ==> !NameChar(text[e]))
    && MayEnd(text, e)
  }

  /** The characters the scanner tests are those of the rule. */
  lemma CharactersMeetRule(c: char)
    ensures IsSkillNameChar(c) <==> NameChar(c)
    ensures IsOpening(c) <==> c in OPENINGS
    ensures IsNonPathTerminator(c) <==> c in TERMINATORS
    ensures IsAsciiTerminator(c) <==> c in ")]}\"',:;!?"
  {
    assert OPENINGS == ['(', '[', '{', '"', '\''];
    assert TERMINATORS == [')', ']', '}', '"', '\'', ',', ':', ';', '!', '?', '，', '。', '！', '？', '；', '：', '、'];
  }

  lemma SuffixMeetsRule(text: string, e: nat)
    requires e <= |text|
    ensures IsInvocationSuffix(text, e) <==> MayEnd(text, e)
  {
    hide IsWhitespace, IsNonPathTerminator;
    if e < |text| {
      CharactersMeetRule(text[e]);
      if e + 1 < |text| {
        CharactersMeetRule(text[e + 1]);
      }
    }
  }

  /** At a full stop it depends on what follows: a name ends before a full stop at the end of the text or in front of
      a terminator, but not in front of white space or of more of a file name; nor does it end before a slash. */
  lemma FullStops(name: string, rest: string)
    ensures MayEnd(name + ".", |name|)
    ensures MayEnd(name + ".)" + rest, |name|)
    ensures !MayEnd(name + ". " + rest, |name|) && !MayEnd(name + ".b" + rest, |name|)
    ensures !MayEnd(name + "/" + rest, |name|)
  {
    hide IsNonPathTerminator, IsWhitespace;
    Terminators();
    var stop, slash := name + ".", name + "/" + rest;
    assert stop[|name|] == '.' && slash[|name|] == '/';
  }

  lemma Terminators()
    ensures ')' in TERMINATORS && '.' !in TERMINATORS && 'b' !in TERMINATORS && '/' !in TERMINATORS
    ensures ' ' !in TERMINATORS && !IsWhitespace('.') && !IsWhitespace('/')
  {
    CharactersMeetRule('.');
    CharactersMeetRule(')');
    CharactersMeetRule('b');
    CharactersMeetRule('/');
    CharactersMeetRule(' ');
  }

  /** `names` are the names of all invocations that start at `from` or later, in order of position. */
  ghost predicate AllNamesFrom(text: string, from: nat, names: seq<string>)
    decreases |text| - from
  {
    if from >= |text| then names == []
    else if exists e: nat :: InvokesAt(text, from, e) then
      exists e: nat :: InvokesAt(text, from, e) && names != [] && names[0] == text[from + 1..e]
          && AllNamesFrom(text, from + 1, names[1..])
    else AllNamesFrom(text, from + 1, names)
  }

  lemma SameEnd(text: string, i: nat, e1: nat, e2: nat)
    requires InvokesAt(text, i, e1) && InvokesAt(text, i, e2)
    ensures e1 == e2
  {
    hide MayEnd, IsWhitespace, NameChar;
  }

  /** The rule leaves no choice: one text has one list of names. */
  lemma {:induction false} NamesUnique(text: string, from: nat, a: seq<string>, b: seq<string>)
    requires AllNamesFrom(text, from, a) && AllNamesFrom(text, from, b)
    ensures a == b
    decreases |text| - from
  {
    hide MayEnd, IsWhitespace, NameChar;
    if from < |text| {
      if exists e: nat :: InvokesAt(text, from, e) {
        var e1: nat :| InvokesAt(text, from, e1) && a != [] && a[0] == text[from + 1..e1]
            && AllNamesFrom(text, from + 1, a[1..]);
        var e2: nat :| InvokesAt(text, from, e2) && b != [] && b[0] == text[from + 1..e2]
            && AllNamesFrom(text, from + 1, b[1..]);
        SameEnd(text, from, e1, e2);
        NamesUnique(text, from + 1, a[1..], b[1..]);
      } else {
        NamesUnique(text, from + 1, a, b);
      }
    }
  }

  // ---------------------------------------------------------------- the scanner

  /** The rule as a function, trying every position. */
  function NameEnd(text: string, from: nat): (e: nat)
    requires from <= |text|
    ensures from <= e <= |text|
    ensures forall k :: from <= k < e ==> IsSkillNameChar(text[k])
    ensures e < |text| ==> !IsSkillNameChar(text[e])
    decreases |text| - from
  {
    if from < |text| && IsSkillNameChar(text[from]) then NameEnd(text, from + 1) else from
  }

  predicate Invokes(text: string, i: nat)
    requires i < |text|
  {
    && text[i] == '/'
    && IsInvocationPrefix(if i == 0 then None else Some(text[i - 1]))
    && NameEnd(text, i + 1) > i + 1
    && IsInvocationSuffix(text, NameEnd(text, i + 1))
  }

  function NamesFrom(text: string, from: nat): seq<string>
    decreases |text| - from
  {
    if from >= |text| then []
    else if Invokes(text, from) then [text[from + 1..NameEnd(text, from + 1)]] + NamesFrom(text, from + 1)
    else NamesFrom(text, from + 1)
  }

  lemma {:induction false} NamesMeetRule(text: string, from: nat)
    ensures AllNamesFrom(text, from, NamesFrom(text, from))
    decreases |text| - from
  {
    hide IsInvocationSuffix, InvokesAt, IsWhitespace, IsOpening, IsSkillNameChar;
    if from < |text| {
      NamesMeetRule(text, from + 1);
      if Invokes(text, from) {
        InvokedEnd(text, from);
        assert InvokesAt(text, from, NameEnd(text, from + 1));
        assert NamesFrom(text, from)[1..] == NamesFrom(text, from + 1);
      } else {
        NoInvocation(text, from);
      }
    }
  }

  lemma AllCharacters()
    ensures forall c :: IsSkillNameChar(c) <==> NameChar(c)
    ensures forall c :: IsOpening(c) <==> c in OPENINGS
  {
    hide IsSkillNameChar, NameChar, IsOpening;
    forall c ensures (IsSkillNameChar(c) <==> NameChar(c)) && (IsOpening(c) <==> c in OPENINGS) {
      CharactersMeetRule(c);
    }
  }

  lemma InvokedEnd(text: string, i: nat)
    requires i < |text| && Invokes(text, i)
    ensures InvokesAt(text, i, NameEnd(text, i + 1))
  {
    hide IsInvocationSuffix, MayEnd, IsWhitespace, IsOpening, IsSkillNameChar, NameChar;
    AllCharacters();
    SuffixMeetsRule(text, NameEnd(text, i + 1));
  }

  lemma NoInvocation(text: string, from: nat)
    requires from < |text| && !Invokes(text, from)
    ensures !exists e: nat :: InvokesAt(text, from, e)
  {
    hide IsInvocationSuffix, MayEnd, IsWhitespace, IsOpening, IsSkillNameChar, NameChar;
    AllCharacters();
    if e: nat :| InvokesAt(text, from, e) {
      EndIs(text, from, e);
      SuffixMeetsRule(text, e);
    }
  }

  lemma EndIs(text: string, from: nat, e: nat)
    requires InvokesAt(text, from, e)
    ensures NameEnd(text, from + 1) == e
  {
    hide MayEnd, IsWhitespace, IsSkillNameChar, NameChar;
    AllCharacters();
  }

  /** No invocation starts inside a name, so the scan may jump to its end. */
  lemma {:induction false} NamesSkip(text: string, i: nat, j: nat)
    requires i <= j <= |text| && forall k :: i <= k < j ==> text[k] != '/'
    ensures NamesFrom(text, i) == NamesFrom(text, j)
    decreases j - i
  {
    hide IsInvocationSuffix, IsInvocationPrefix;
    if i < j {
      NamesSkip(text, i + 1, j);
    }
  }

  /** The index-jumping scan of the source. */
  method ParseSkillNames(text: string) returns (names: seq<string>)
    ensures names == NamesFrom(text, 0)
    ensures AllNamesFrom(text, 0, names)
  {
    hide IsInvocationSuffix, IsInvocationPrefix, AllNamesFrom;
    NamesMeetRule(text, 0);
    names := [];
    var index := 0;
    while index < |text|
      invariant 0 <= index <= |text|
      invariant names + NamesFrom(text, index) == NamesFrom(text, 0)
    {
      var previous := if index == 0 then None else Some(text[index - 1]);
      if text[index] == '/' && IsInvocationPrefix(previous) {
        var cursor := index + 1;
        var name := "";
        while cursor < |text| && IsSkillNameChar(text[cursor])
          invariant index + 1 <= cursor <= |text| && name == text[index + 1..cursor]
          invariant NameEnd(text, index + 1) == NameEnd(text, cursor)
          invariant forall k :: index < k < cursor ==> IsSkillNameChar(text[k])
        {
          name := name + [text[cursor]];
          cursor := cursor + 1;
        }
        if name != "" && IsInvocationSuffix(text, cursor) {
          NamesSkip(text, index + 1, cursor);
          names := names + [name];
          index := cursor;
          continue;
        }
      }
      index := index + 1;
    }
  }

  // ---------------------------------------------------------------- printing and parsing

  ghost predicate IsName(name: string) {
    name != "" && forall k :: 0 <= k < |name| ==> IsSkillNameChar(name[k])
  }

  /** `/n1 /n2 …` */
  function PrintNames(names: seq<string>): string {
    if names == [] then ""
    else if |names| == 1 then "/" + names[0]
    else "/" + names[0] + " " + PrintNames(names[1..])
  }

  lemma {:induction false} EndShift(before: string, text: string, k: nat)
    requires k <= |text|
    ensures NameEnd(before + text, |before| + k) == |before| + NameEnd(text, k)
    decreases |text| - k
  {
    if k < |text| {
      assert (before + text)[|before| + k] == text[k];
      EndShift(before, text, k + 1);
    }
  }

  /** Text before a white space does not change what is found after it. */
  lemma {:induction false} NamesShift(before: string, text: string, k: nat)
    requires before != "" && IsWhitespace(before[|before| - 1])
    ensures NamesFrom(before + text, |before| + k) == NamesFrom(text, k)
    decreases |text| - k
  {
    if k < |text| {
      hide Invokes, NameEnd;
      var whole := before + text;
      NamesShift(before, text, k + 1);
      InvokesShift(before, text, k);
      EndShift(before, text, k + 1);
      var e := NameEnd(text, k + 1);
      assert whole[|before| + k + 1..|before| + e] == text[k + 1..e];
    }
  }

  lemma InvokesShift(before: string, text: string, k: nat)
    requires before != "" && IsWhitespace(before[|before| - 1]) && k < |text|
    ensures Invokes(before + text, |before| + k) == Invokes(text, k)
  {
    hide IsWhitespace, IsAsciiTerminator, IsNonPathTerminator, IsOpening, NameEnd;
    var whole := before + text;
    EndShift(before, text, k + 1);
    var e := NameEnd(text, k + 1);
    assert whole[|before| + k] == text[k];
    assert k > 0 ==> whole[|before| + k - 1] == text[k - 1];
    assert e < |text| ==> whole[|before| + e] == text[e];
    assert e + 1 < |text| ==> whole[|before| + e + 1] == text[e + 1];
  }

  lemma {:induction false} NameRuns(name: string, text: string, k: nat)
    requires 1 <= k <= |name| + 1 <= |text| && text[1..|name| + 1] == name && IsName(name)
    requires |name| + 1 < |text| ==> !IsSkillNameChar(text[|name| + 1])
    ensures NameEnd(text, k) == |name| + 1
    decreases |text| - k
  {
    if k <= |name| {
      assert text[k] == text[1..|name| + 1][k - 1];
      NameRuns(name, text, k + 1);
    }
  }

  /** Round trip: parsing a printed list of valid names gives the list back. */
  lemma {:induction false} PrintThenParse(names: seq<string>)
    requires forall i :: 0 <= i < |names| ==> IsName(names[i])
    ensures NamesFrom(PrintNames(names), 0) == names
  {
    hide NameEnd;
    if names != [] {
      var text, name := PrintNames(names), names[0];
      var e := |name| + 1;
      assert IsName(name) && text[1..e] == name;
      NameRuns(name, text, 1);
      assert forall k :: 1 <= k < e ==> text[k] == name[k - 1];
      NamesSkip(text, 1, e);
      if |names| > 1 {
        var before := "/" + name + " ";
        assert text == before + PrintNames(names[1..]);
        NamesShift(before, PrintNames(names[1..]), 0);
        PrintThenParse(names[1..]);
        NamesSkip(text, e, e + 1);
        assert names == [name] + names[1..];
      } else {
        assert names == [name];
      }
    }
  }
}
