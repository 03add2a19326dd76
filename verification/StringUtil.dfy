/** Substring replacement on 16-bit strings (`ReplaceSubstringsAfterOffset`). */
module StringUtil {

  type CodeUnit = x: int | 0 <= x < 0x1_0000

  type Text = seq<CodeUnit>

  predicate StartsWith(s: Text, prefix: Text) { |prefix| <= |s| && s[..|prefix|] == prefix }

  /** The text with every occurrence of `find`, scanned from the left without overlap, replaced. */
  function Replaced(s: Text, find: Text, with: Text): Text
    requires find != []
    decreases |s|
  {
    if s == [] then []
    else if StartsWith(s, find) then with + Replaced(s[|find|..], find, with)
    else [s[0]] + Replaced(s[1..], find, with)
  }

  /** `find(needle, from)`: the first occurrence at or after `from`, or the length of the text. */
  method FindText(s: Text, needle: Text, from: nat) returns (p: nat)
    requires needle != [] && from <= |s|
    ensures from <= p <= |s|
    ensures forall i :: from <= i < p ==> !StartsWith(s[i..], needle)
    ensures p < |s| ==> StartsWith(s[p..], needle)
  {
    p := from;
    while p < |s| && !StartsWith(s[p..], needle)
      invariant from <= p <= |s|
      invariant forall i :: from <= i < p ==> !StartsWith(s[i..], needle)
    {
      p := p + 1;
    }
  }

  /** Text before the first occurrence is kept. */
  lemma {:induction false} ReplacedSkips(s: Text, find: Text, with: Text, k: nat)
    requires find != [] && k <= |s|
    requires forall i :: 0 <= i < k ==> !StartsWith(s[i..], find)
    ensures Replaced(s, find, with) == s[..k] + Replaced(s[k..], find, with)
  {
    if k > 0 {
      assert s[0..] == s;
      forall i | 0 <= i < k - 1 ensures !StartsWith(s[1..][i..], find) { assert s[1..][i..] == s[i + 1..]; }
      ReplacedSkips(s[1..], find, with, k - 1);
      assert s[1..][..k - 1] == s[1..k] && s[1..][k - 1..] == s[k..];
      assert s[..k] == [s[0]] + s[1..k];
    } else {
      assert s[..0] == [] && s[0..] == s;
    }
  }

  /** What is done before `pos` is kept; the rest is replaced. */
  function ReplacedFrom(s: Text, pos: nat, find: Text, with: Text): Text
    requires find != [] && pos <= |s|
  {
    s[..pos] + Replaced(s[pos..], find, with)
  }

  lemma SkipTo(s: Text, pos: nat, p: nat, find: Text, with: Text)
    requires find != [] && pos <= p <= |s|
    requires forall i :: pos <= i < p ==> !StartsWith(s[i..], find)
    ensures ReplacedFrom(s, pos, find, with) == s[..p] + Replaced(s[p..], find, with)
  {
    forall i | 0 <= i < p - pos ensures !StartsWith(s[pos..][i..], find) { assert s[pos..][i..] == s[pos + i..]; }
    ReplacedSkips(s[pos..], find, with, p - pos);
    assert s[pos..][..p - pos] == s[pos..p] && s[pos..][p - pos..] == s[p..];
    assert s[..p] == s[..pos] + s[pos..p];
  }

  /** One replacement at the occurrence found. */
  lemma ReplaceAt(s: Text, p: nat, find: Text, with: Text)
    requires find != [] && p < |s| && StartsWith(s[p..], find)
    ensures s[..p] + Replaced(s[p..], find, with)
         == ReplacedFrom(s[..p] + with + s[p + |find|..], p + |with|, find, with)
  {
    var next := s[..p] + with + s[p + |find|..];
    assert s[p..][|find|..] == s[p + |find|..];
    assert next[..p + |with|] == s[..p] + with && next[p + |with|..] == s[p + |find|..];
  }

  /** The loop edits the string in place; a start beyond the end, or an empty needle, changes nothing. */
  method ReplaceSubstringsAfterOffset(str: Text, start: nat, find: Text, with: Text) returns (r: Text)
    ensures r == if find == [] || |str| < start then str
                 else str[..start] + Replaced(str[start..], find, with)
  {
    r := str;
    if find == [] || |str| < start { return; }
    var pos: nat := start;
    var p := FindText(r, find, pos);
    while p < |r|
      invariant pos <= p <= |r|
      invariant forall i :: pos <= i < p ==> !StartsWith(r[i..], find)
      invariant p < |r| ==> StartsWith(r[p..], find)
      invariant ReplacedFrom(r, pos, find, with) == ReplacedFrom(str, start, find, with)
      decreases |r| - pos
    {
      SkipTo(r, pos, p, find, with);
      ReplaceAt(r, p, find, with);
      r := r[..p] + with + r[p + |find|..];
      pos := p + |with|;
      p := FindText(r, find, pos);
    }
    SkipTo(r, pos, p, find, with);
  }
}
