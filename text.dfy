/** Character classes, case folding and substring predicates shared by the
    rendering and extraction modules. Strings are sequences of characters;
    only the ASCII part of Python's character classes is modelled. */
module Text {

  datatype Option<+T> = None | Some(value: T)

  /** Python's `\d`, restricted to ASCII. */
  predicate IsDigit(c: char) { '0' <= c <= '9' }

  predicate AllDigits(s: string) { forall i :: 0 <= i < |s| ==> IsDigit(s[i]) }

  /** Python's `\s`, restricted to ASCII: space, tab, newline, carriage
      return, vertical tab, form feed, and the four separators 0x1C to 0x1F,
      which `str.isspace()` also counts as white space. */
  predicate IsSpace(c: char) {
    c == ' ' || c == '\t' || c == '\n' || c == '\r' || c == '\U{000B}' || c == '\U{000C}'
    || ('\U{001C}' <= c <= '\U{001F}')
  }

  /** Python's `\w`, restricted to ASCII. */
  predicate IsWordChar(c: char) {
    IsDigit(c) || ('a' <= c <= 'z') || ('A' <= c <= 'Z') || c == '_'
  }

  function LowerChar(c: char): (d: char)
    ensures !('A' <= d <= 'Z')
    ensures !('A' <= c <= 'Z') ==> d == c
  {
    if 'A' <= c <= 'Z' then (c as int + 32) as char else c
  }

  /** `str.lower()` on the ASCII letters; every other character is kept. */
  function Lower(s: string): (r: string)
    ensures |r| == |s|
    ensures forall i :: 0 <= i < |s| ==> r[i] == LowerChar(s[i])
  {
    seq(|s|, i requires 0 <= i < |s| => LowerChar(s[i]))
  }

  /** Lower-casing twice is lower-casing once. */
  lemma LowerIdempotent(s: string)
    ensures Lower(Lower(s)) == Lower(s)
  {
    assert forall i :: 0 <= i < |s| ==> Lower(Lower(s))[i] == Lower(s)[i];
  }

  /** A text without upper-case letters is its own lower case. */
  lemma LowerOfLowerCase(s: string)
    requires forall i :: 0 <= i < |s| ==> !('A' <= s[i] <= 'Z')
    ensures Lower(s) == s
  {
  }

  lemma LowerAppend(a: string, b: string)
    ensures Lower(a + b) == Lower(a) + Lower(b)
  {
    assert Lower(a + b) == Lower(a) + Lower(b);
  }

  lemma AppendAssociates<T>(a: seq<T>, b: seq<T>, c: seq<T>)
    ensures (a + b) + c == a + (b + c)
  {
  }

  lemma AppendEmpty<T>(a: seq<T>)
    ensures a + [] == a
  {
  }

  /** `s.replace(',', '')`. */
  function StripCommas(s: string): string {
    if |s| == 0 then "" else (if s[0] == ',' then "" else [s[0]]) + StripCommas(s[1..])
  }

  /** Stripping leaves no comma behind and never lengthens the text. */
  lemma {:induction false} StripCommasRemovesAll(s: string)
    ensures |StripCommas(s)| <= |s| && ',' !in StripCommas(s)
    decreases |s|
  {
    if |s| > 0 {
      StripCommasRemovesAll(s[1..]);
    }
  }

  lemma {:induction false} StripCommasAppend(a: string, b: string)
    ensures StripCommas(a + b) == StripCommas(a) + StripCommas(b)
    decreases |a|
  {
    if |a| == 0 {
      assert a + b == b;
    } else {
      assert (a + b)[1..] == a[1..] + b;
      StripCommasAppend(a[1..], b);
    }
  }

  lemma {:induction false} StripCommasNoCommas(s: string)
    requires ',' !in s
    ensures StripCommas(s) == s
    decreases |s|
  {
    if |s| > 0 {
      var rest := s[1..];
      assert s[0] != ',' by {
        assert s[0] in s;
      }
      assert ',' !in rest by {
        assert forall c :: c in rest ==> c in s;
      }
      calc {
        StripCommas(s);
        [s[0]] + StripCommas(rest);
        { StripCommasNoCommas(rest); }
        [s[0]] + rest;
        s;
      }
    }
  }

  /** Joining two texts with a separator comma and then stripping commas is
      stripping each text on its own. */
  lemma StripCommasJoin(a: string, b: string)
    ensures StripCommas(a + "," + b) == StripCommas(a) + StripCommas(b)
  {
    calc {
      StripCommas(a + "," + b);
      { StripCommasAppend(a + ",", b); }
      StripCommas(a + ",") + StripCommas(b);
      { StripCommasAppend(a, ","); assert StripCommas(",") == ""; }
      StripCommas(a) + StripCommas(b);
    }
  }

  lemma DigitsHaveNoComma(s: string)
    requires AllDigits(s)
    ensures ',' !in s && StripCommas(s) == s
  {
    assert forall i :: 0 <= i < |s| ==> s[i] != ',';
    StripCommasNoCommas(s);
  }

  /** A string made of digits and commas loses its commas and keeps its
      digits, in order. */
  lemma {:induction false} StripCommasOfDigitsAndCommas(s: string)
    requires forall i :: 0 <= i < |s| ==> IsDigit(s[i]) || s[i] == ','
    ensures AllDigits(StripCommas(s))
    ensures |s| > 0 && IsDigit(s[0]) ==> |StripCommas(s)| > 0 && StripCommas(s)[0] == s[0]
    decreases |s|
  {
    if |s| > 0 {
      StripCommasOfDigitsAndCommas(s[1..]);
    }
  }

  /** `w` occurs in `t` at position `i`, compared character by character. */
  predicate StartsAt(t: string, i: nat, w: string)
    decreases |w|
  {
    if |w| == 0 then i <= |t| else i < |t| && t[i] == w[0] && StartsAt(t, i + 1, w[1..])
  }

  predicate StartsWith(t: string, w: string) { StartsAt(t, 0, w) }

  predicate EndsWith(t: string, w: string) {
    |w| <= |t| && StartsAt(t, |t| - |w|, w)
  }

  /** The character-by-character comparison is the slice comparison. */
  lemma {:induction false} StartsAtSlice(t: string, i: nat, w: string)
    ensures StartsAt(t, i, w) <==> i + |w| <= |t| && t[i..i + |w|] == w
    decreases |w|
  {
    if |w| > 0 {
      StartsAtSlice(t, i + 1, w[1..]);
      if i + |w| <= |t| {
        assert t[i..i + |w|] == [t[i]] + t[i + 1..i + 1 + |w[1..]|];
        assert w == [w[0]] + w[1..];
      }
    }
  }

  /** A word cannot start where its first letter is not. */
  lemma NotStartsAtOther(t: string, i: nat, w: string)
    requires |w| > 0 && (i < |t| ==> t[i] != w[0])
    ensures !StartsAt(t, i, w)
  {
  }

  lemma StartsWithSelf(w: string)
    ensures StartsWith(w, w)
  {
    StartsAtSlice(w, 0, w);
  }

  /** Right after a prefix, a text starts with a word exactly when the rest
      of it does. */
  lemma StartsAtSuffix(a: string, b: string, w: string)
    ensures StartsAt(a + b, |a|, w) <==> StartsWith(b, w)
  {
    StartsAtSlice(b, 0, w);
    StartsAtSlice(a + b, |a|, w);
    if |w| <= |b| {
      assert (a + b)[|a|..|a| + |w|] == b[0..|w|];
    }
  }

  lemma StartsAtShift(a: string, b: string, i: nat, w: string)
    requires StartsAt(b, i, w)
    ensures StartsAt(a + b, |a| + i, w)
  {
    StartsAtSlice(b, i, w);
    StartsAtSlice(a + b, |a| + i, w);
    assert (a + b)[|a| + i..|a| + i + |w|] == b[i..i + |w|];
  }

  lemma EndsWithAppend(a: string, b: string, w: string)
    requires EndsWith(b, w)
    ensures EndsWith(a + b, w)
  {
    StartsAtShift(a, b, |b| - |w|, w);
  }

  lemma EndsWithSelf(w: string)
    ensures EndsWith(w, w)
  {
    StartsWithSelf(w);
  }

  /** The blocks appended in order: for strings, the text that a run of `+=`
      statements builds from its fragments; for lists of fragments, the
      fragments of consecutive blocks. */
  function Concat<T>(blocks: seq<seq<T>>): seq<T> {
    if |blocks| == 0 then [] else Concat(blocks[..|blocks| - 1]) + blocks[|blocks| - 1]
  }

  lemma {:induction false} ConcatAppend<T>(a: seq<seq<T>>, b: seq<seq<T>>)
    ensures Concat(a + b) == Concat(a) + Concat(b)
    decreases |b|
  {
    if |b| == 0 {
      assert a + b == a;
    } else {
      assert (a + b)[..|a + b| - 1] == a + b[..|b| - 1];
      ConcatAppend(a, b[..|b| - 1]);
    }
  }

  lemma ConcatSingle<T>(x: seq<T>)
    ensures Concat([x]) == x
  {
    assert [x][..0] == [];
  }

  /** Taking one more block appends that block. */
  lemma ConcatTakeOneMore<T>(blocks: seq<seq<T>>, i: nat)
    requires i < |blocks|
    ensures Concat(blocks[..i + 1]) == Concat(blocks[..i]) + blocks[i]
  {
    assert blocks[..i + 1][..i] == blocks[..i];
  }

  lemma ConcatFive<T>(blocks: seq<seq<T>>)
    requires |blocks| == 5
    ensures Concat(blocks) == blocks[0] + blocks[1] + blocks[2] + blocks[3] + blocks[4]
  {
    var b0, b1, b2, b3 := blocks[0], blocks[1], blocks[2], blocks[3];
    assert blocks[..4][..3][..2][..1][..0] == [];
    assert Concat(blocks[..4][..3][..2][..1]) == b0;
    assert Concat(blocks[..4][..3][..2]) == b0 + b1;
    assert Concat(blocks[..4][..3]) == b0 + b1 + b2;
    assert Concat(blocks[..4]) == b0 + b1 + b2 + b3;
  }

  /** The first two pieces of a three-piece text sit at its start and right
      after the first. */
  lemma PiecesOfThree(a: string, b: string, c: string)
    ensures StartsWith(a + b + c, a)
    ensures StartsAt(a + b + c, |a|, b)
  {
    StartsAtSlice(a + b + c, 0, a);
    StartsAtSlice(a + b + c, |a|, b);
    assert (a + b + c)[..|a|] == a;
    assert (a + b + c)[|a|..|a| + |b|] == b;
  }

  /** Appending five blocks one by one appends their concatenation. */
  lemma AppendFive<T>(prefix: seq<T>, blocks: seq<seq<T>>)
    requires |blocks| == 5
    ensures prefix + blocks[0] + blocks[1] + blocks[2] + blocks[3] + blocks[4] == prefix + Concat(blocks)
  {
    ConcatFive(blocks);
  }

  /** The concatenation of the concatenations of five parts. */
  lemma ConcatOfFiveParts<T>(parts: seq<seq<seq<T>>>)
    requires |parts| == 5
    ensures Concat(Concat(parts))
      == Concat(parts[0]) + Concat(parts[1]) + Concat(parts[2]) + Concat(parts[3]) + Concat(parts[4])
  {
    ConcatFive(parts);
    ConcatAppend(parts[0] + parts[1] + parts[2] + parts[3], parts[4]);
    ConcatAppend(parts[0] + parts[1] + parts[2], parts[3]);
    ConcatAppend(parts[0] + parts[1], parts[2]);
    ConcatAppend(parts[0], parts[1]);
  }

  /** The total length of the blocks before block `k`. */
  function Offset<T>(blocks: seq<seq<T>>, k: nat): nat
    requires k <= |blocks|
  {
    if k == 0 then 0 else Offset(blocks, k - 1) + |blocks[k - 1]|
  }

  lemma {:induction false} OffsetIsPrefixLength<T>(blocks: seq<seq<T>>, k: nat)
    requires k <= |blocks|
    ensures Offset(blocks, k) == |Concat(blocks[..k])|
  {
    if k > 0 {
      OffsetIsPrefixLength(blocks, k - 1);
      ConcatTakeOneMore(blocks, k - 1);
    }
  }

  /** Block `k` occupies the positions from its offset on. */
  lemma BlockAtOffset<T>(blocks: seq<seq<T>>, k: nat)
    requires k < |blocks|
    ensures Offset(blocks, |blocks|) == |Concat(blocks)|
    ensures Offset(blocks, k) + |blocks[k]| <= |Concat(blocks)|
    ensures Concat(blocks)[Offset(blocks, k)..Offset(blocks, k) + |blocks[k]|] == blocks[k]
  {
    OffsetIsPrefixLength(blocks, k);
    OffsetIsPrefixLength(blocks, |blocks|);
    assert blocks[..|blocks|] == blocks;
    ConcatBlockAt(blocks, k);
  }

  /** Block `k` sits in the concatenation right after the blocks before it. */
  lemma ConcatBlockAt<T>(blocks: seq<seq<T>>, k: nat)
    requires k < |blocks|
    ensures var start := |Concat(blocks[..k])|;
      start + |blocks[k]| <= |Concat(blocks)| && Concat(blocks)[start..start + |blocks[k]|] == blocks[k]
  {
    var before, after := blocks[..k], blocks[k + 1..];
    assert blocks == before + [blocks[k]] + after;
    ConcatAppend(before + [blocks[k]], after);
    ConcatAppend(before, [blocks[k]]);
    ConcatSingle(blocks[k]);
    var start := |Concat(before)|;
    assert (Concat(before) + blocks[k] + Concat(after))[start..start + |blocks[k]|] == blocks[k];
  }

  /** Blocks of five elements each: the concatenation is five times as
      long as there are blocks. */
  lemma {:induction false} ConcatFivesLength<T>(blocks: seq<seq<T>>)
    requires forall k :: 0 <= k < |blocks| ==> |blocks[k]| == 5
    ensures |Concat(blocks)| == 5 * |blocks|
    decreases |blocks|
  {
    if |blocks| > 0 {
      ConcatFivesLength(blocks[..|blocks| - 1]);
    }
  }

  /** Blocks of five elements each: block `j` occupies positions `5 * j` up
      to `5 * j + 5`. */
  lemma {:induction false} ConcatFivesAt<T>(blocks: seq<seq<T>>, j: nat)
    requires forall k :: 0 <= k < |blocks| ==> |blocks[k]| == 5
    requires j < |blocks|
    ensures 5 * j + 5 <= |Concat(blocks)|
    ensures Concat(blocks)[5 * j..5 * j + 5] == blocks[j]
    decreases |blocks|
  {
    var n := |blocks| - 1;
    var front := Concat(blocks[..n]);
    ConcatFivesLength(blocks[..n]);
    if j < n {
      ConcatFivesAt(blocks[..n], j);
      assert (front + blocks[n])[5 * j..5 * j + 5] == front[5 * j..5 * j + 5];
    } else {
      assert (front + blocks[n])[|front|..|front| + 5] == blocks[n];
    }
  }

  /** A head element followed by blocks of five: block `j` starts at
      `1 + 5 * j`. */
  lemma HeadedFivesAt<T>(head: T, blocks: seq<seq<T>>, j: nat)
    requires forall k :: 0 <= k < |blocks| ==> |blocks[k]| == 5
    ensures |[head] + Concat(blocks)| == 1 + 5 * |blocks|
    ensures ([head] + Concat(blocks))[0] == head
    ensures j < |blocks| ==> ([head] + Concat(blocks))[1 + 5 * j..1 + 5 * j + 5] == blocks[j]
  {
    ConcatFivesLength(blocks);
    if j < |blocks| {
      ConcatFivesAt(blocks, j);
      SliceAfterPrefix([head], Concat(blocks), 5 * j, 5);
    }
  }

  /** A slice of `body` is found again, shifted by the prefix length, in
      `prefix + body`. */
  lemma SliceAfterPrefix<T>(prefix: seq<T>, body: seq<T>, a: nat, n: nat)
    requires a + n <= |body|
    ensures (prefix + body)[|prefix| + a..|prefix| + a + n] == body[a..a + n]
  {
  }

  /** What follows a prefix `a` at the start of `c` sits right after it. */
  lemma PrefixThenBlock<T>(a: seq<T>, b: seq<T>, c: seq<T>)
    requires a + b <= c
    ensures |a| + |b| <= |c| && c[|a|..|a| + |b|] == b
  {
    assert c[..|a| + |b|] == a + b;
  }

  /** Appending the three pieces of the next block one by one extends the
      concatenation by that block. */
  lemma AppendNextBlockOfThree<T>(prefix: seq<T>, blocks: seq<seq<T>>, i: nat, a: seq<T>, b: seq<T>, c: seq<T>)
    requires i < |blocks| && blocks[i] == a + b + c
    ensures prefix + Concat(blocks[..i]) + a + b + c == prefix + Concat(blocks[..i + 1])
  {
    ConcatTakeOneMore(blocks, i);
  }

  /** The first element of a concatenation whose first block is not empty. */
  lemma ConcatFirst<T>(blocks: seq<seq<T>>)
    requires |blocks| > 0 && |blocks[0]| > 0
    ensures |Concat(blocks)| > 0 && Concat(blocks)[0] == blocks[0][0]
  {
    ConcatBlockAt(blocks, 0);
    assert blocks[..0] == [];
  }

  /** The last element of a concatenation is the last element of its last
      non-empty block. */
  lemma ConcatLast<T>(blocks: seq<seq<T>>, k: nat)
    requires k < |blocks| && |blocks[k]| > 0
    requires forall m :: k < m < |blocks| ==> |blocks[m]| == 0
    ensures |Concat(blocks)| > 0 && Concat(blocks)[|Concat(blocks)| - 1] == blocks[k][|blocks[k]| - 1]
  {
    ConcatAppend(blocks[..k + 1], blocks[k + 1..]);
    assert blocks == blocks[..k + 1] + blocks[k + 1..];
    ConcatAllEmpty(blocks[k + 1..]);
    ConcatTakeOneMore(blocks, k);
  }

  lemma {:induction false} ConcatAllEmpty<T>(blocks: seq<seq<T>>)
    requires forall m :: 0 <= m < |blocks| ==> |blocks[m]| == 0
    ensures Concat(blocks) == []
    decreases |blocks|
  {
    if |blocks| > 0 {
      ConcatAllEmpty(blocks[..|blocks| - 1]);
    }
  }

  /** Every fragment appears verbatim in the text, right after the fragments
      before it. */
  lemma ConcatFragmentAt(fragments: seq<string>, k: nat)
    requires k < |fragments|
    ensures StartsAt(Concat(fragments), |Concat(fragments[..k])|, fragments[k])
  {
    ConcatBlockAt(fragments, k);
    StartsAtSlice(Concat(fragments), |Concat(fragments[..k])|, fragments[k]);
  }

  /** Python's `w in t` for strings. */
  ghost predicate ContainsSub(t: string, w: string) {
    exists i: nat :: i <= |t| && StartsAt(t, i, w)
  }

  /** An occurrence of `w` in `a + b` lies inside `b` when `a` never holds the
      first character of `w`. */
  lemma NoOccurrenceAcross(a: string, b: string, w: string)
    requires |w| > 0 && w[0] !in a
    requires !ContainsSub(b, w)
    ensures !ContainsSub(a + b, w)
  {
    forall i: nat ensures !StartsAt(a + b, i, w) {
      StartsAtSlice(a + b, i, w);
      if i + |w| <= |a + b| {
        if i < |a| {
          assert (a + b)[i] == a[i];
          assert (a + b)[i..i + |w|][0] == a[i];
        } else {
          StartsAtSlice(b, i - |a|, w);
          assert (a + b)[i..i + |w|] == b[i - |a|..i - |a| + |w|];
          assert !StartsAt(b, i - |a|, w);
        }
      }
    }
  }
}
