/** The scanner that finds `@alias` mentions in a message; an alias includes its at sign. */
module Mentions {
  import opened Text

  datatype Mention = Mention(alias: string, prompt: string)

  predicate AliasByte(c: char) {
    'a' <= c <= 'z' || 'A' <= c <= 'Z' || '0' <= c <= '9' || c == '_' || c == '-'
  }

  function Lower(c: char): char {
    if 'A' <= c <= 'Z' then ((c as int) + 32) as char else c
  }

  function ToLower(s: string): string {
    seq(|s|, i requires 0 <= i < |s| => Lower(s[i]))
  }

  // ---------------------------------------------------------------- which mentions there are

  /** An at sign that does not continue a word and is followed by one. */
  predicate MentionAt(content: string, i: nat) {
    && i + 1 < |content| && content[i] == '@' && AliasByte(content[i + 1])
    && (i > 0 ==> !AliasByte(content[i - 1]))
  }

  function AliasEnd(content: string, i: nat): (end: nat)
    requires i <= |content|
    ensures i <= end <= |content|
    ensures forall k | i <= k < end :: AliasByte(content[k])
    ensures end < |content| ==> !AliasByte(content[end])
    decreases |content| - i
  {
    if i < |content| && AliasByte(content[i]) then AliasEnd(content, i + 1) else i
  }

  /** The alias keeps its at sign. */
  function AliasAt(content: string, i: nat): string
    requires i < |content|
  {
    ToLower(content[i..AliasEnd(content, i + 1)])
  }

  function MentionOf(content: string, i: nat): Mention
    requires i < |content|
  {
    Mention(AliasAt(content, i), TrimSpace(content[..i] + content[AliasEnd(content, i + 1)..]))
  }

  /** The first mention of its alias. */
  predicate First(content: string, i: nat) {
    MentionAt(content, i) && forall j: nat | j < i && MentionAt(content, j) :: AliasAt(content, j) != AliasAt(content, i)
  }

  /** The first mentions of all aliases in the first `n` characters, in the order of the text. */
  function FirstMentions(content: string, n: nat): seq<Mention>
    requires n <= |content|
  {
    if n == 0 then []
    else if First(content, n - 1) then FirstMentions(content, n - 1) + [MentionOf(content, n - 1)]
    else FirstMentions(content, n - 1)
  }

  lemma {:induction false} NoMentionBetween(content: string, low: nat, high: nat)
    requires low <= high <= |content|
    requires forall j: nat | low <= j < high :: !MentionAt(content, j)
    ensures FirstMentions(content, high) == FirstMentions(content, low)
    decreases high
  {
    if low < high {
      NoMentionBetween(content, low, high - 1);
    }
  }

  /** The alias was mentioned in the first `n` characters. */
  predicate Mentioned(content: string, n: nat, alias: string) {
    exists j: nat | j < n :: j < |content| && MentionAt(content, j) && AliasAt(content, j) == alias
  }

  /** A mention's own alias holds no at sign, so stepping over it passes over no mention. */
  lemma StepOver(content: string, index: nat, end: nat)
    requires MentionAt(content, index) && end == AliasEnd(content, index + 1)
    requires !Mentioned(content, index, AliasAt(content, index))
    ensures FirstMentions(content, end) == FirstMentions(content, index) + [MentionOf(content, index)]
    ensures forall alias :: Mentioned(content, end, alias) <==> Mentioned(content, index, alias) || alias == AliasAt(content, index)
  {
    assert First(content, index);
    NoMentionBetween(content, index + 1, end);
    assert FirstMentions(content, index + 1) == FirstMentions(content, index) + [MentionOf(content, index)];
  }

  /** A character that starts no mention, or only one more of an alias already seen. */
  lemma StepOn(content: string, index: nat)
    requires index < |content|
    requires MentionAt(content, index) ==> Mentioned(content, index, AliasAt(content, index))
    ensures FirstMentions(content, index + 1) == FirstMentions(content, index)
    ensures forall alias :: Mentioned(content, index + 1, alias) <==> Mentioned(content, index, alias)
  {}

  /** `extractMentions` */
  method ExtractMentions(content: string) returns (result: seq<Mention>)
    ensures result == FirstMentions(content, |content|)
  {
    var seen: set<string> := {};
    result := [];
    var index := 0;
    while index < |content|
      invariant 0 <= index <= |content|
      invariant result == FirstMentions(content, index)
      invariant forall alias :: alias in seen <==> Mentioned(content, index, alias)
    {
      if content[index] != '@' || (index > 0 && AliasByte(content[index - 1])) {
        StepOn(content, index);
        index := index + 1;
        continue;
      }
      var end := EndOfAlias(content, index);
      if end == index + 1 {
        StepOn(content, index);
        index := index + 1;
        continue;
      }
      var alias := ToLower(content[index..end]);
      if alias in seen {
        StepOn(content, index);
        index := index + 1;
        continue;
      }
      seen := seen + {alias};
      result := result + [Mention(alias, TrimSpace(content[..index] + content[end..]))];
      StepOver(content, index, end);
      index := end;
    }
  }

  /** The inner loop: to the end of the word behind the at sign. */
  method EndOfAlias(content: string, index: nat) returns (end: nat)
    requires index < |content|
    ensures end == AliasEnd(content, index + 1)
  {
    end := index + 1;
    while end < |content| && AliasByte(content[end])
      invariant index + 1 <= end <= |content|
      invariant AliasEnd(content, end) == AliasEnd(content, index + 1)
    {
      end := end + 1;
    }
  }

  // ---------------------------------------------------------------- what the result is good for

  predicate Comes(content: string, i: nat, n: nat, m: Mention)
    requires n <= |content|
  {
    i < n && First(content, i) && m == MentionOf(content, i)
  }

  /** Nothing is reported but first mentions; in particular no address in which a word precedes the at sign. */
  lemma {:induction false} OnlyMentions(content: string, n: nat, a: nat)
    requires n <= |content| && a < |FirstMentions(content, n)|
    ensures exists i: nat :: Comes(content, i, n, FirstMentions(content, n)[a])
  {
    if First(content, n - 1) && a == |FirstMentions(content, n)| - 1 {
      assert Comes(content, n - 1, n, FirstMentions(content, n)[a]);
    } else {
      OnlyMentions(content, n - 1, a);
      var i: nat :| Comes(content, i, n - 1, FirstMentions(content, n - 1)[a]);
      assert Comes(content, i, n, FirstMentions(content, n)[a]);
    }
  }

  /** No alias is reported twice. */
  lemma {:induction false} NoAliasTwice(content: string, n: nat, a: nat, b: nat)
    requires n <= |content| && a < b < |FirstMentions(content, n)|
    ensures FirstMentions(content, n)[a].alias != FirstMentions(content, n)[b].alias
  {
    var before := FirstMentions(content, n - 1);
    if b < |before| {
      NoAliasTwice(content, n - 1, a, b);
    } else {
      OnlyMentions(content, n - 1, a);
      var i: nat :| Comes(content, i, n - 1, before[a]);
    }
  }

  /** Every mention in the text has its alias reported. */
  lemma {:induction false} EveryAliasFound(content: string, n: nat, i: nat)
    requires i < n <= |content| && MentionAt(content, i)
    ensures exists a :: 0 <= a < |FirstMentions(content, n)| && FirstMentions(content, n)[a].alias == AliasAt(content, i)
  {
    var before, found := FirstMentions(content, n - 1), FirstMentions(content, n);
    if i < n - 1 {
      EveryAliasFound(content, n - 1, i);
      var a :| 0 <= a < |before| && before[a].alias == AliasAt(content, i);
      assert found[a].alias == AliasAt(content, i);
    } else if First(content, i) {
      assert found[|before|].alias == AliasAt(content, i);
    } else {
      var j: nat :| j < i && MentionAt(content, j) && AliasAt(content, j) == AliasAt(content, i);
      EveryAliasFound(content, n - 1, j);
      var a :| 0 <= a < |before| && before[a].alias == AliasAt(content, j);
      assert found[a].alias == AliasAt(content, i);
    }
  }

  /** Every at sign that starts a word and does not continue one has its word reported. */
  lemma EveryAtSignFound(content: string, i: nat)
    requires i + 1 < |content| && content[i] == '@' && AliasByte(content[i + 1]) && (i == 0 || !AliasByte(content[i - 1]))
    ensures exists a, end ::
              && 0 <= a < |FirstMentions(content, |content|)| && i + 1 < end <= |content|
              && FirstMentions(content, |content|)[a].alias == ToLower(content[i..end])
              && (forall k | i < k < end :: AliasByte(content[k])) && (end < |content| ==> !AliasByte(content[end]))
  {
    EveryAliasFound(content, |content|, i);
    var a :| 0 <= a < |FirstMentions(content, |content|)| && FirstMentions(content, |content|)[a].alias == AliasAt(content, i);
    assert FirstMentions(content, |content|)[a].alias == ToLower(content[i..AliasEnd(content, i + 1)]);
  }

  /** Every alias is an at sign and a non-empty word in lower case, the longest one that follows. */
  lemma AliasesAreWords(content: string, i: nat)
    requires MentionAt(content, i)
    ensures var alias := AliasAt(content, i);
            && |alias| >= 2 && alias[0] == '@'
            && (forall k | 1 <= k < |alias| :: AliasByte(alias[k]) && !('A' <= alias[k] <= 'Z'))
            && (forall k | 0 <= k < |alias| :: i + k < |content| && alias[k] == Lower(content[i + k]))
            && (i + |alias| < |content| ==> !AliasByte(content[i + |alias|]))
  {
    assert AliasEnd(content, i + 1) >= i + 2;
  }

  /** `m` stands at `i`: its alias is what the text says there, and its prompt is the rest of the text, trimmed. */
  predicate StandsAt(content: string, i: nat, m: Mention) {
    && |m.alias| >= 2 && i + |m.alias| <= |content| && content[i] == '@'
    && (i > 0 ==> !AliasByte(content[i - 1])) && (i + |m.alias| < |content| ==> !AliasByte(content[i + |m.alias|]))
    && m.alias == ToLower(content[i..i + |m.alias|])
    && m.prompt == TrimSpace(content[..i] + content[i + |m.alias|..])
  }

  lemma FirstStands(content: string, i: nat)
    requires First(content, i)
    ensures StandsAt(content, i, MentionOf(content, i))
  {}

  lemma {:induction false} FirstsInOrder(content: string, n: nat, a: nat, b: nat) returns (i: nat, j: nat)
    requires n <= |content| && a < b < |FirstMentions(content, n)|
    ensures i < j < n && Comes(content, i, n, FirstMentions(content, n)[a]) && Comes(content, j, n, FirstMentions(content, n)[b])
  {
    if First(content, n - 1) && b == |FirstMentions(content, n)| - 1 {
      OnlyMentions(content, n - 1, a);
      i :| Comes(content, i, n - 1, FirstMentions(content, n - 1)[a]);
      j := n - 1;
    } else {
      i, j := FirstsInOrder(content, n - 1, a, b);
    }
  }

  /** Every reported mention stands in the text, and they are reported in the order in which they stand there. */
  lemma ReportedInOrder(content: string, n: nat, a: nat, b: nat) returns (i: nat, j: nat)
    requires n <= |content| && a < b < |FirstMentions(content, n)|
    ensures i < j < n && StandsAt(content, i, FirstMentions(content, n)[a]) && StandsAt(content, j, FirstMentions(content, n)[b])
  {
    i, j := FirstsInOrder(content, n, a, b);
    FirstStands(content, i);
    FirstStands(content, j);
  }

  /** A single one stands in the text as well. */
  lemma ReportedOnce(content: string, n: nat, a: nat) returns (i: nat)
    requires n <= |content| && a < |FirstMentions(content, n)|
    ensures i < n && StandsAt(content, i, FirstMentions(content, n)[a])
  {
    OnlyMentions(content, n, a);
    i :| Comes(content, i, n, FirstMentions(content, n)[a]);
    FirstStands(content, i);
  }

  /** An alias is written in the letters of plain text, digits, underscores and hyphens. */
  lemma WordCharacters(c: char)
    ensures AliasByte(c) <==>
            c in "abcdefghijklm" || c in "nopqrstuvwxyz" || c in "ABCDEFGHIJKLM" || c in "NOPQRSTUVWXYZ" || c in "0123456789_-"
  {}
}
