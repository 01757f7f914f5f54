/** The assistant's heuristic field extraction: the package weight and the
    item value that `extract_shipping_info` reads out of a user's message with
    regular expressions, on the lower-cased text. The regular expressions are
    modelled by greedy scanners, and `re.search` by the first start position,
    from the left, where the greedy scan succeeds. Backtracking tries the
    greedy path first, and it succeeds whenever any path does:
    - in the `rp` and `rupiah` prefix patterns nothing follows the group, so
      once a digit follows the prefix the greedy path matches (shorter paths
      match too, but are never reached);
    - in the weight patterns and the `rupiah` suffix pattern every shorter
      path leaves a digit, ',', '.' or white space in front of the unit word
      or "rupiah", which cannot match it. */
module ShippingAssistant {
  import opened Text
  import opened Numerals

  // ---------------------------------------------------------------------
  // Greedy scanners for the pattern pieces
  // ---------------------------------------------------------------------

  /** `\d+` taken greedily from position `i`: how many digits follow. */
  function DigitRun(t: string, i: nat): (r: nat)
    ensures r == 0 || i + r <= |t|
    decreases |t| - i
  {
    if i < |t| && IsDigit(t[i]) then 1 + DigitRun(t, i + 1) else 0
  }

  /** `\s*` taken greedily from position `i`. */
  function SpaceRun(t: string, i: nat): (r: nat)
    ensures r == 0 || i + r <= |t|
    decreases |t| - i
  {
    if i < |t| && IsSpace(t[i]) then 1 + SpaceRun(t, i + 1) else 0
  }

  /** `(?:\.\d+)?` taken greedily from position `j`: where it ends. */
  function FractionEnd(t: string, j: nat): (e: nat)
    requires j <= |t|
    ensures j <= e <= |t|
  {
    if j < |t| && t[j] == '.' && DigitRun(t, j + 1) > 0 then j + 1 + DigitRun(t, j + 1) else j
  }

  /** `(?:,\d+)*` taken greedily from position `j`: where it ends. */
  function GroupsEnd(t: string, j: nat): (e: nat)
    requires j <= |t|
    ensures j <= e <= |t|
    decreases |t| - j
  {
    if j < |t| && t[j] == ',' && DigitRun(t, j + 1) > 0 then GroupsEnd(t, j + 1 + DigitRun(t, j + 1)) else j
  }

  /** The end of `\d+(?:\.\d+)?` started at `i`. */
  function NumberEnd(t: string, i: nat): (e: nat)
    requires i <= |t|
    ensures i <= e <= |t|
  {
    FractionEnd(t, i + DigitRun(t, i))
  }

  /** The end of `\d+(?:,\d+)*(?:\.\d+)?` started at `i`. */
  function GroupedNumberEnd(t: string, i: nat): (e: nat)
    requires i <= |t|
    ensures i <= e <= |t|
  {
    FractionEnd(t, GroupsEnd(t, i + DigitRun(t, i)))
  }

  /** `\b` right after a word character that ends at `j`. */
  predicate WordEnds(t: string, j: nat) {
    j == |t| || (j < |t| && !IsWordChar(t[j]))
  }

  // ---------------------------------------------------------------------
  // The patterns
  // ---------------------------------------------------------------------

  datatype Unit = Kg | Kilogram | Gram | G

  function UnitWord(unit: Unit): string {
    match unit
    case Kg => "kg"
    case Kilogram => "kilogram"
    case Gram => "gram"
    case G => "g"
  }

  /** The weight patterns `(\d+(?:\.\d+)?)\s*<unit>` (with `\b` after the bare
      `g`), and the three value patterns `rp\s*(N)`, `rupiah\s*(N)` and
      `(N)\s*rupiah`, where N is `\d+(?:,\d+)*(?:\.\d+)?`. */
  datatype Pattern = WeightPattern(unit: Unit) | RpPrefix | RupiahPrefix | RupiahSuffix

  /** Tried in this order; the first one found anywhere wins. */
  const WeightPatterns: seq<Pattern> :=
    [WeightPattern(Kg), WeightPattern(Kilogram), WeightPattern(Gram), WeightPattern(G)]

  const ValuePatterns: seq<Pattern> := [RpPrefix, RupiahPrefix, RupiahSuffix]

  /** The source tests the pattern text for "kg" or "kilogram"; these are the
      two patterns whose text contains either. */
  predicate InKilograms(pattern: Pattern) {
    pattern == WeightPattern(Kg) || pattern == WeightPattern(Kilogram)
  }

  /** A word followed by spaces and a grouped number, started at `i`. */
  function PrefixedAt(t: string, i: nat, word: string): Option<string>
    requires i <= |t|
  {
    if !StartsAt(t, i, word) then None
    else
      StartsAtSlice(t, i, word);
      var k := i + |word| + SpaceRun(t, i + |word|);
      if DigitRun(t, k) == 0 then None else Some(t[k..GroupedNumberEnd(t, k)])
  }

  /** The first group of `pattern` when the match is started at `i`. */
  function MatchAt(pattern: Pattern, t: string, i: nat): Option<string>
    requires i <= |t|
  {
    match pattern
    case WeightPattern(unit) =>
      if DigitRun(t, i) == 0 then None
      else
        var e := NumberEnd(t, i);
        var j := e + SpaceRun(t, e);
        if StartsAt(t, j, UnitWord(unit)) && (unit == G ==> WordEnds(t, j + 1)) then Some(t[i..e]) else None
    case RpPrefix => PrefixedAt(t, i, "rp")
    case RupiahPrefix => PrefixedAt(t, i, "rupiah")
    case RupiahSuffix =>
      if DigitRun(t, i) == 0 then None
      else
        var e := GroupedNumberEnd(t, i);
        if StartsAt(t, e + SpaceRun(t, e), "rupiah") then Some(t[i..e]) else None
  }

  /** `re.search`: the match at the leftmost start position from `i` on. */
  function SearchFrom(pattern: Pattern, t: string, i: nat): Option<string>
    requires i <= |t|
    decreases |t| - i
  {
    var found := MatchAt(pattern, t, i);
    if found.Some? || i == |t| then found else SearchFrom(pattern, t, i + 1)
  }

  function Search(pattern: Pattern, t: string): Option<string> {
    SearchFrom(pattern, t, 0)
  }

  /** The first pattern of the list, in list order, found anywhere in `t`,
      with its first group. */
  function FirstMatch(patterns: seq<Pattern>, t: string): Option<(Pattern, string)>
    decreases |patterns|
  {
    if |patterns| == 0 then None
    else if Search(patterns[0], t).Some? then Some((patterns[0], Search(patterns[0], t).value))
    else FirstMatch(patterns[1..], t)
  }

  // ---------------------------------------------------------------------
  // float()
  // ---------------------------------------------------------------------

  function Pow10(n: nat): (p: nat)
    ensures p >= 1
  {
    if n == 0 then 1 else 10 * Pow10(n - 1)
  }

  /** The texts `float()` is given here: digits, optionally followed by a dot
      and more digits. */
  predicate IsDecimalText(s: string) {
    var d := DigitRun(s, 0);
    0 < d && (d == |s| || (s[d] == '.' && d + 1 < |s| && DigitRun(s, d + 1) == |s| - d - 1))
  }

  /** `float(s)`, exactly: `None` where Python raises `ValueError`. */
  function ParseFloat(s: string): Option<real> {
    if !IsDecimalText(s) then None
    else
      var d := DigitRun(s, 0);
      DigitRunShape(s, 0);
      if d == |s| then Some(DigitsValue(s[..d]) as real)
      else
        DigitRunShape(s, d + 1);
        assert s[d + 1..d + 1 + DigitRun(s, d + 1)] == s[d + 1..];
        Some(DecimalValue(s[..d], s[d + 1..]))
  }

  /** The value of a decimal written as its digits before and after the
      dot. */
  function DecimalValue(whole: string, fraction: string): real
    requires AllDigits(whole) && AllDigits(fraction)
  {
    DigitsValue(whole) as real + DigitsValue(fraction) as real / Pow10(|fraction|) as real
  }

  // ---------------------------------------------------------------------
  // extract_shipping_info
  // ---------------------------------------------------------------------

  /** The weight in grams the text gives, if any: kilograms are multiplied by
      1000, grams kept. */
  function WeightIn(t: string): Option<real> {
    match FirstMatch(WeightPatterns, t)
    case None => None
    case Some((pattern, group)) =>
      match ParseFloat(group)
      case None => None
      case Some(weight) => Some(if InKilograms(pattern) then weight * 1000.0 else weight)
  }

  /** The item value the text gives, if any, with its thousands commas
      removed. */
  function ItemValueIn(t: string): Option<real> {
    match FirstMatch(ValuePatterns, t)
    case None => None
    case Some((_, group)) => ParseFloat(StripCommas(group))
  }

  /** The `info` dictionary after the weight patterns have been tried. */
  function WeightPart(t: string): map<string, real> {
    if WeightIn(t).Some? then map["weight" := WeightIn(t).value] else map[]
  }

  /** The weight and value part of the `info` dictionary for a message. */
  function ShippingInfo(text: string): map<string, real> {
    var t := Lower(text);
    if ItemValueIn(t).Some? then WeightPart(t)["item_value" := ItemValueIn(t).value] else WeightPart(t)
  }

  /** `extract_shipping_info`, weight and value part: try the weight patterns
      in order and stop at the first one found, then the same for the value
      patterns. */
  method ExtractShippingInfo(text: string) returns (info: map<string, real>)
    ensures info == ShippingInfo(text)
  {
    info := map[];
    var lowered := Lower(text);
    var k := 0;
    while k < |WeightPatterns|
      invariant 0 <= k <= |WeightPatterns|
      invariant FirstMatch(WeightPatterns[k..], lowered) == FirstMatch(WeightPatterns, lowered)
      invariant info == map[]
    {
      var pattern := WeightPatterns[k];
      var found := Search(pattern, lowered);
      if found.Some? {
        WeightFoundAt(lowered, k);
        var weightValue := ParseFloat(found.value).value;
        if InKilograms(pattern) {
          info := info["weight" := weightValue * 1000.0];
        } else {
          info := info["weight" := weightValue];
        }
        break;
      }
      FirstMatchAt(WeightPatterns, k, lowered);
      k := k + 1;
    }
    if k == |WeightPatterns| {
      NothingLeftToTry(WeightPatterns, lowered);
    }
    ghost var weightPart := info;
    assert weightPart == WeightPart(lowered);
    k := 0;
    while k < |ValuePatterns|
      invariant 0 <= k <= |ValuePatterns|
      invariant FirstMatch(ValuePatterns[k..], lowered) == FirstMatch(ValuePatterns, lowered)
      invariant info == weightPart
    {
      var pattern := ValuePatterns[k];
      var found := Search(pattern, lowered);
      if found.Some? {
        ValueFoundAt(lowered, k);
        var valueText := StripCommas(found.value);
        info := info["item_value" := ParseFloat(valueText).value];
        break;
      }
      FirstMatchAt(ValuePatterns, k, lowered);
      k := k + 1;
    }
    if k == |ValuePatterns| {
      NothingLeftToTry(ValuePatterns, lowered);
    }
  }

  /** Once every pattern has been tried without success, none is found. */
  lemma NothingLeftToTry(patterns: seq<Pattern>, t: string)
    ensures FirstMatch(patterns[|patterns|..], t) == None
  {
    assert patterns[|patterns|..] == [];
  }

  /** The weight pattern found first decides the weight. */
  lemma WeightFoundAt(t: string, k: nat)
    requires k < |WeightPatterns| && Search(WeightPatterns[k], t).Some?
    requires FirstMatch(WeightPatterns[k..], t) == FirstMatch(WeightPatterns, t)
    ensures var group := Search(WeightPatterns[k], t).value;
      ParseFloat(group).Some? &&
      WeightIn(t) == Some(if InKilograms(WeightPatterns[k]) then ParseFloat(group).value * 1000.0 else ParseFloat(group).value)
  {
    FirstMatchAt(WeightPatterns, k, t);
    CaptureParses(WeightPatterns[k], t);
  }

  /** The value pattern found first decides the item value. */
  lemma ValueFoundAt(t: string, k: nat)
    requires k < |ValuePatterns| && Search(ValuePatterns[k], t).Some?
    requires FirstMatch(ValuePatterns[k..], t) == FirstMatch(ValuePatterns, t)
    ensures var group := StripCommas(Search(ValuePatterns[k], t).value);
      ParseFloat(group).Some? && ItemValueIn(t) == ParseFloat(group)
  {
    FirstMatchAt(ValuePatterns, k, t);
    CaptureParses(ValuePatterns[k], t);
  }

  /** Trying the patterns from the `k`-th on: the `k`-th wins if found,
      otherwise the rest are tried. */
  lemma FirstMatchAt(patterns: seq<Pattern>, k: nat, t: string)
    requires k < |patterns|
    ensures FirstMatch(patterns[k..], t) ==
      if Search(patterns[k], t).Some? then Some((patterns[k], Search(patterns[k], t).value))
      else FirstMatch(patterns[k + 1..], t)
  {
    assert patterns[k..][0] == patterns[k];
    assert patterns[k..][1..] == patterns[k + 1..];
  }

  // ---------------------------------------------------------------------
  // Scanner facts
  // ---------------------------------------------------------------------

  /** A digit run is made of digits and stops at a non-digit or the end. */
  lemma {:induction false} DigitRunShape(t: string, i: nat)
    requires i <= |t|
    ensures i + DigitRun(t, i) <= |t|
    ensures AllDigits(t[i..i + DigitRun(t, i)])
    ensures i + DigitRun(t, i) < |t| ==> !IsDigit(t[i + DigitRun(t, i)])
    decreases |t| - i
  {
    if i < |t| && IsDigit(t[i]) {
      DigitRunShape(t, i + 1);
      assert t[i..i + DigitRun(t, i)] == [t[i]] + t[i + 1..i + 1 + DigitRun(t, i + 1)];
    }
  }

  /** `(?:\.\d+)?` matches nothing, or a dot and a whole digit run. */
  lemma FractionSplit(t: string, j: nat)
    requires j <= |t|
    ensures FractionEnd(t, j) == j || (j < |t| && t[j] == '.' && DigitRun(t, j + 1) > 0 && FractionEnd(t, j) == j + 1 + DigitRun(t, j + 1))
  {
  }

  /** Conversely, `n` digits followed by a non-digit or the end are a digit
      run of length `n`. */
  lemma {:induction false} DigitRunExact(t: string, i: nat, n: nat)
    requires i + n <= |t| && AllDigits(t[i..i + n])
    requires i + n == |t| || !IsDigit(t[i + n])
    ensures DigitRun(t, i) == n
    decreases n
  {
    if n > 0 {
      assert IsDigit(t[i..i + n][0]);
      assert t[i + 1..i + 1 + (n - 1)] == t[i..i + n][1..];
      DigitRunExact(t, i + 1, n - 1);
    }
  }

  /** A digit run that ends inside a slice is also a digit run of the
      slice. */
  lemma {:induction false} DigitRunSlice(t: string, a: nat, b: nat, j: nat)
    requires a <= j && j + DigitRun(t, j) <= b <= |t|
    ensures DigitRun(t[a..b], j - a) == DigitRun(t, j)
    decreases b - j
  {
    if j < b && IsDigit(t[j]) {
      DigitRunSlice(t, a, b, j + 1);
    }
  }

  // ---------------------------------------------------------------------
  // Captured groups always parse
  // ---------------------------------------------------------------------

  /** Where a search succeeds, some start position matches. */
  lemma {:induction false} SearchPosition(pattern: Pattern, t: string, i: nat) returns (j: nat)
    requires i <= |t| && SearchFrom(pattern, t, i).Some?
    ensures i <= j <= |t| && MatchAt(pattern, t, j) == SearchFrom(pattern, t, i)
    decreases |t| - i
  {
    if MatchAt(pattern, t, i).Some? {
      j := i;
    } else {
      j := SearchPosition(pattern, t, i + 1);
    }
  }

  /** The group of a weight pattern is a decimal text. */
  lemma NumberSpanIsDecimal(t: string, i: nat)
    requires i <= |t| && DigitRun(t, i) > 0
    ensures IsDecimalText(t[i..NumberEnd(t, i)])
  {
    var d := DigitRun(t, i);
    FractionSplit(t, i + d);
    DecimalSpan(t, i, NumberEnd(t, i), d);
  }

  /** A digit run, optionally followed by a dot and a second digit run that
      ends the span, is a decimal text. */
  lemma DecimalSpan(t: string, i: nat, e: nat, d: nat)
    requires 0 < d == DigitRun(t, i) && i + d <= e <= |t|
    requires e == i + d || (t[i + d] == '.' && e == i + d + 1 + DigitRun(t, i + d + 1) && i + d + 1 < e)
    ensures IsDecimalText(t[i..e])
  {
    DigitRunSlice(t, i, e, i);
    if e != i + d {
      DigitRunSlice(t, i, e, i + d + 1);
      assert i + d + 1 - i == d + 1;
    }
  }

  /** The stretch a `(?:,\d+)*` scan covers holds only digits and commas. */
  lemma {:induction false} GroupsSpanShape(t: string, j: nat)
    requires j <= |t|
    ensures forall m :: j <= m < GroupsEnd(t, j) ==> IsDigit(t[m]) || t[m] == ','
    decreases |t| - j
  {
    if j < |t| && t[j] == ',' && DigitRun(t, j + 1) > 0 {
      var next := j + 1 + DigitRun(t, j + 1);
      DigitRunShape(t, j + 1);
      GroupsSpanShape(t, next);
      forall m | j < m < next
        ensures IsDigit(t[m])
      {
        assert t[m] == t[j + 1..next][m - j - 1];
      }
    }
  }

  /** A text of digits, then an optional dot and digits, is a decimal text. */
  lemma DecimalTextOf(whole: string, fraction: string)
    requires |whole| > 0 && AllDigits(whole) && AllDigits(fraction)
    ensures IsDecimalText(whole) && ParseFloat(whole).Some?
    ensures |fraction| > 0 ==> IsDecimalText(whole + "." + fraction)
  {
    assert whole[0..|whole|] == whole;
    DigitRunExact(whole, 0, |whole|);
    if |fraction| > 0 {
      var s := whole + "." + fraction;
      assert s[0..|whole|] == whole;
      DigitRunExact(s, 0, |whole|);
      assert s[|whole| + 1..|s|] == fraction;
      DigitRunExact(s, |whole| + 1, |fraction|);
    }
  }

  /** The group of a value pattern is a decimal text once its commas are
      removed. */
  lemma GroupedSpanStrips(t: string, k: nat)
    requires k <= |t| && DigitRun(t, k) > 0
    ensures IsDecimalText(StripCommas(t[k..GroupedNumberEnd(t, k)]))
  {
    var g := GroupsEnd(t, k + DigitRun(t, k));
    var e := FractionEnd(t, g);
    WholeSpanStrips(t, k);
    FractionSpanStrips(t, g);
    assert t[k..e] == t[k..g] + t[g..e];
    DecimalOfParts(t[k..g], t[g..e]);
  }

  /** Whole digits (with separators) followed by an empty or dotted
      fraction strip to a decimal text. */
  lemma DecimalOfParts(front: string, back: string)
    requires |StripCommas(front)| > 0 && AllDigits(StripCommas(front))
    requires StripCommas(back) == back && (|back| == 0 || (|back| > 1 && back[0] == '.' && AllDigits(back[1..])))
    ensures IsDecimalText(StripCommas(front + back))
  {
    var whole := StripCommas(front);
    StripCommasAppend(front, back);
    DecimalTextOf(whole, if |back| == 0 then "" else back[1..]);
    if |back| == 0 {
      AppendEmpty(whole);
    } else {
      assert back == "." + back[1..];
      AppendAssociates(whole, ".", back[1..]);
    }
  }

  /** The digits and separator groups of a value group strip to a non-empty
      run of digits. */
  lemma WholeSpanStrips(t: string, k: nat)
    requires k <= |t| && DigitRun(t, k) > 0
    ensures var front := t[k..GroupsEnd(t, k + DigitRun(t, k))];
      |StripCommas(front)| > 0 && AllDigits(StripCommas(front))
  {
    var d := DigitRun(t, k);
    var g := GroupsEnd(t, k + d);
    DigitRunShape(t, k);
    GroupsSpanShape(t, k + d);
    var front := t[k..g];
    forall m | 0 <= m < |front|
      ensures IsDigit(front[m]) || front[m] == ','
    {
      if m < d {
        assert front[m] == t[k..k + d][m];
      } else {
        assert front[m] == t[k + m];
      }
    }
    assert IsDigit(front[0]) by {
      assert front[0] == t[k..k + d][0];
    }
    StripCommasOfDigitsAndCommas(front);
  }

  /** The optional fraction of a value group has no separator: it is empty,
      or a dot and digits. */
  lemma FractionSpanStrips(t: string, g: nat)
    requires g <= |t|
    ensures var back := t[g..FractionEnd(t, g)];
      StripCommas(back) == back && (|back| == 0 || (|back| > 1 && back[0] == '.' && AllDigits(back[1..])))
  {
    FractionSplit(t, g);
    var e := FractionEnd(t, g);
    if e != g {
      var back := t[g..e];
      DigitRunShape(t, g + 1);
      assert back[1..] == t[g + 1..g + 1 + DigitRun(t, g + 1)];
      assert back == "." + back[1..];
      DigitsHaveNoComma(back[1..]);
      StripCommasAppend(".", back[1..]);
      assert StripCommas(".") == ".";
    }
  }

  /** `float()` never raises on a group the search captured. */
  lemma CaptureParses(pattern: Pattern, t: string)
    requires Search(pattern, t).Some?
    ensures pattern.WeightPattern? ==> ParseFloat(Search(pattern, t).value).Some?
    ensures !pattern.WeightPattern? ==> ParseFloat(StripCommas(Search(pattern, t).value)).Some?
  {
    var i := SearchPosition(pattern, t, 0);
    if pattern.WeightPattern? {
      WeightGroupAt(pattern.unit, t, i);
      NumberSpanIsDecimal(t, i);
    } else {
      var k := ValueGroupAt(pattern, t, i);
      GroupedSpanStrips(t, k);
    }
    DecimalTextParses(Search(pattern, t).value);
    DecimalTextParses(StripCommas(Search(pattern, t).value));
  }

  /** A weight group is the number the match starts with. */
  lemma WeightGroupAt(unit: Unit, t: string, i: nat)
    requires i <= |t| && MatchAt(WeightPattern(unit), t, i).Some?
    ensures DigitRun(t, i) > 0 && MatchAt(WeightPattern(unit), t, i).value == t[i..NumberEnd(t, i)]
  {
  }

  /** A value group is a grouped number somewhere in the match. */
  lemma ValueGroupAt(pattern: Pattern, t: string, i: nat) returns (k: nat)
    requires !pattern.WeightPattern? && i <= |t| && MatchAt(pattern, t, i).Some?
    ensures k <= |t| && DigitRun(t, k) > 0 && MatchAt(pattern, t, i).value == t[k..GroupedNumberEnd(t, k)]
  {
    match pattern
    case RupiahSuffix =>
      k := i;
    case RpPrefix =>
      k := PrefixedGroupAt(t, i, "rp");
    case RupiahPrefix =>
      k := PrefixedGroupAt(t, i, "rupiah");
  }

  lemma PrefixedGroupAt(t: string, i: nat, word: string) returns (k: nat)
    requires i <= |t| && PrefixedAt(t, i, word).Some?
    ensures k <= |t| && DigitRun(t, k) > 0 && PrefixedAt(t, i, word).value == t[k..GroupedNumberEnd(t, k)]
  {
    StartsAtSlice(t, i, word);
    k := i + |word| + SpaceRun(t, i + |word|);
  }

  /** `float()` accepts every decimal text. */
  lemma DecimalTextParses(s: string)
    ensures IsDecimalText(s) == ParseFloat(s).Some?
  {
  }

  // ---------------------------------------------------------------------
  // The first pattern found wins
  // ---------------------------------------------------------------------

  /** What `FirstMatch` returns is the first pattern of the list that is
      found, with its group. */
  lemma {:induction false} FirstMatchIsFirstFound(patterns: seq<Pattern>, t: string) returns (k: nat)
    requires FirstMatch(patterns, t).Some?
    ensures k < |patterns| && Search(patterns[k], t).Some?
    ensures FirstMatch(patterns, t) == Some((patterns[k], Search(patterns[k], t).value))
    ensures forall m :: 0 <= m < k ==> Search(patterns[m], t).None?
    decreases |patterns|
  {
    if Search(patterns[0], t).Some? {
      k := 0;
    } else {
      var rest := FirstMatchIsFirstFound(patterns[1..], t);
      k := rest + 1;
      forall m | 0 <= m < k
        ensures Search(patterns[m], t).None?
      {
        if m > 0 {
          assert patterns[m] == patterns[1..][m - 1];
        }
      }
    }
  }

  /** Conversely, the first pattern of the list that is found is what
      `FirstMatch` returns. */
  lemma {:induction false} FirstFoundIsFirstMatch(patterns: seq<Pattern>, t: string, k: nat)
    requires k < |patterns| && Search(patterns[k], t).Some?
    requires forall m :: 0 <= m < k ==> Search(patterns[m], t).None?
    ensures FirstMatch(patterns, t) == Some((patterns[k], Search(patterns[k], t).value))
    decreases k
  {
    if k > 0 {
      forall m | 0 <= m < k - 1
        ensures Search(patterns[1..][m], t).None?
      {
        assert patterns[1..][m] == patterns[m + 1];
      }
      FirstFoundIsFirstMatch(patterns[1..], t, k - 1);
    }
  }

  /** Nothing is returned exactly when no pattern of the list is found. */
  lemma {:induction false} FirstMatchNone(patterns: seq<Pattern>, t: string)
    ensures FirstMatch(patterns, t).None? <==> forall k :: 0 <= k < |patterns| ==> Search(patterns[k], t).None?
    decreases |patterns|
  {
    if |patterns| > 0 {
      FirstMatchNone(patterns[1..], t);
      if Search(patterns[0], t).None? {
        forall k | 0 < k < |patterns|
          ensures Search(patterns[k], t) == Search(patterns[1..][k - 1], t)
        {
        }
      }
    }
  }

  /** A kilogram amount written with "kg" decides the weight whatever else
      the text says, and is converted to grams. */
  lemma KgTakesPriority(t: string)
    requires Search(WeightPattern(Kg), t).Some?
    ensures var group := Search(WeightPattern(Kg), t).value;
      ParseFloat(group).Some? && WeightIn(t) == Some(ParseFloat(group).value * 1000.0)
  {
    CaptureParses(WeightPattern(Kg), t);
  }

  // ---------------------------------------------------------------------
  // float() and the extracted values
  // ---------------------------------------------------------------------

  /** `float()` never yields a negative number here: the texts carry no
      sign. */
  lemma ParseFloatNonNegative(s: string)
    requires ParseFloat(s).Some?
    ensures ParseFloat(s).value >= 0.0
  {
  }

  /** `float(str(n))` is `n`. */
  lemma ParseFloatOfDigits(n: nat)
    ensures ParseFloat(DecimalDigits(n)) == Some(n as real)
  {
    var s := DecimalDigits(n);
    DigitsRoundTrip(n);
    DecimalDigitsShape(n);
    DecimalTextOf(s, "");
    assert s[..|s|] == s;
  }

  /** `float()` of a dotted decimal is its whole part plus its digits after
      the dot, scaled down by their number of places. */
  lemma ParseFloatOfDotted(whole: string, fraction: string)
    requires |whole| > 0 && AllDigits(whole) && |fraction| > 0 && AllDigits(fraction)
    ensures ParseFloat(whole + "." + fraction) ==
      Some(DecimalValue(whole, fraction))
  {
    var s := whole + "." + fraction;
    DecimalTextOf(whole, fraction);
    assert s[0..|whole|] == whole;
    DigitRunExact(s, 0, |whole|);
    var d := DigitRun(s, 0);
    assert s[..d] == whole && s[d + 1..] == fraction;
    ParseFloatSplit(s, d);
  }

  /** `float()` of a decimal text with a dot, read at the dot. */
  lemma ParseFloatSplit(s: string, d: nat)
    requires IsDecimalText(s) && d == DigitRun(s, 0) && d < |s| && AllDigits(s[..d]) && AllDigits(s[d + 1..])
    ensures ParseFloat(s) == Some(DecimalValue(s[..d], s[d + 1..]))
  {
  }

  /** The dictionary holds at most the two keys, each present exactly when
      one of its patterns is found in the lower-cased text, and neither
      value is negative. */
  lemma ShippingInfoKeys(text: string)
    ensures ShippingInfo(text).Keys <= {"weight", "item_value"}
    ensures "weight" in ShippingInfo(text) <==>
      exists k :: 0 <= k < |WeightPatterns| && Search(WeightPatterns[k], Lower(text)).Some?
    ensures "item_value" in ShippingInfo(text) <==>
      exists k :: 0 <= k < |ValuePatterns| && Search(ValuePatterns[k], Lower(text)).Some?
    ensures forall key :: key in ShippingInfo(text) ==> ShippingInfo(text)[key] >= 0.0
  {
    var t := Lower(text);
    FirstMatchNone(WeightPatterns, t);
    FirstMatchNone(ValuePatterns, t);
    if FirstMatch(WeightPatterns, t).Some? {
      var k := FirstMatchIsFirstFound(WeightPatterns, t);
      CaptureParses(WeightPatterns[k], t);
      ParseFloatNonNegative(Search(WeightPatterns[k], t).value);
    }
    if FirstMatch(ValuePatterns, t).Some? {
      var k := FirstMatchIsFirstFound(ValuePatterns, t);
      CaptureParses(ValuePatterns[k], t);
      ParseFloatNonNegative(StripCommas(Search(ValuePatterns[k], t).value));
    }
  }

  /** The extraction ignores letter case. */
  lemma ShippingInfoIgnoresCase(text: string)
    ensures ShippingInfo(Lower(text)) == ShippingInfo(text)
  {
    LowerIdempotent(text);
  }

  // ---------------------------------------------------------------------
  // Reading back an amount in the rupiah format
  // ---------------------------------------------------------------------

  /** Without a 'k' or a 'g' there is no unit, so no weight. */
  lemma NoUnitNoWeight(t: string)
    requires forall i :: 0 <= i < |t| ==> t[i] != 'k' && t[i] != 'g'
    ensures WeightIn(t).None?
  {
    forall k | 0 <= k < |WeightPatterns|
      ensures Search(WeightPatterns[k], t).None?
    {
      NoUnitNoSearch(WeightPatterns[k].unit, t, 0);
    }
    FirstMatchNone(WeightPatterns, t);
  }

  lemma {:induction false} NoUnitNoSearch(unit: Unit, t: string, i: nat)
    requires i <= |t| && forall m :: 0 <= m < |t| ==> t[m] != 'k' && t[m] != 'g'
    ensures SearchFrom(WeightPattern(unit), t, i).None?
    decreases |t| - i
  {
    if DigitRun(t, i) > 0 {
      var e := NumberEnd(t, i);
      var j := e + SpaceRun(t, e);
      assert UnitWord(unit)[0] == 'k' || UnitWord(unit)[0] == 'g';
      NotStartsAtOther(t, j, UnitWord(unit));
    }
    if i < |t| {
      NoUnitNoSearch(unit, t, i + 1);
    }
  }

  /** A thousands-separated amount is made of digits and commas only. */
  lemma {:induction false} GroupedChars(n: nat)
    ensures forall i :: 0 <= i < |Grouped(n)| ==> IsDigit(Grouped(n)[i]) || Grouped(n)[i] == ','
  {
    if n < 1000 {
      DecimalDigitsShape(n);
    } else {
      GroupedChars(n / 1000);
      Pad3Shape(n % 1000);
      var g, p := Grouped(n / 1000), Pad3(n % 1000);
      assert Grouped(n) == g + ("," + p);
      forall i | 0 <= i < |Grouped(n)|
        ensures IsDigit(Grouped(n)[i]) || Grouped(n)[i] == ','
      {
        if i < |g| {
          assert Grouped(n)[i] == g[i];
        } else if i > |g| {
          assert Grouped(n)[i] == p[i - |g| - 1];
        }
      }
    }
  }

  /** `(?:,\d+)*` consumes separator groups up to the end of the text. */
  lemma {:induction false} GroupsEndOfCommaTail(t: string, j: nat)
    requires j <= |t| && IsCommaTail(t[j..])
    ensures GroupsEnd(t, j) == |t|
    decreases |t| - j
  {
    if j < |t| {
      var u := t[j..];
      assert t[j] == u[0] && t[j + 1..j + 4] == u[1..4];
      assert t[j + 4..] == u[4..];
      if j + 4 < |t| {
        assert t[j + 4] == u[4..][0];
      }
      DigitRunExact(t, j + 1, 3);
      GroupsEndOfCommaTail(t, j + 4);
    }
  }

  /** A grouped amount at the end of a text is scanned as one number that
      ends with the text. */
  lemma GroupedAmountAtEnd(t: string, j: nat, n: nat)
    requires j <= |t| && t[j..] == Grouped(n)
    ensures DigitRun(t, j) > 0 && GroupedNumberEnd(t, j) == |t|
  {
    GroupedShape(n);
    DecimalDigitsShape(LeadGroup(n));
    LeadAndGroupsAtEnd(t, j, DecimalDigits(LeadGroup(n)), TailGroups(n));
  }

  /** Leading digits followed by well-formed separator groups up to the end
      of the text make one grouped number. */
  lemma LeadAndGroupsAtEnd(t: string, j: nat, lead: string, tail: string)
    requires j <= |t| && t[j..] == lead + tail
    requires 0 < |lead| && AllDigits(lead) && IsCommaTail(tail)
    ensures DigitRun(t, j) > 0 && GroupedNumberEnd(t, j) == |t|
  {
    var e := j + |lead|;
    assert t[j..e] == lead && t[e..] == tail;
    if e < |t| {
      assert t[e] == tail[0] == ',';
    }
    DigitRunExact(t, j, |lead|);
    GroupsEndOfCommaTail(t, e);
    assert GroupsEnd(t, e) == |t|;
  }

  /** The rupiah prefix pattern reads a formatted amount back whole. */
  lemma RpAmountFound(n: nat)
    ensures Search(RpPrefix, "rp " + Grouped(n)) == Some(Grouped(n))
  {
    var g := Grouped(n);
    var t := "rp " + g;
    assert t == "rp" + " " + g;
    PiecesOfThree("rp", " ", g);
    assert t[3..] == g;
    DecimalDigitsShape(n);
    GroupedAmountAtEnd(t, 3, n);
    assert SpaceRun(t, 3) == 0 by {
      assert t[3] == g[0];
      assert Grouped(n)[0] == DecimalDigits(LeadGroup(n))[0] by {
        GroupedShape(n);
        DecimalDigitsShape(LeadGroup(n));
      }
      DecimalDigitsShape(LeadGroup(n));
    }
    assert SpaceRun(t, 2) == 1;
    assert t[3..|t|] == g;
  }

  /** A price written the way the cost report writes it ("Rp 150,000") is
      extracted as exactly that many rupiah, and no weight is found in it. */
  lemma FormattedAmountReadsBack(n: nat)
    ensures ShippingInfo("Rp " + Grouped(n)) == map["item_value" := n as real]
  {
    var g := Grouped(n);
    var t := "rp " + g;
    GroupedChars(n);
    LowerAppend("Rp ", g);
    LowerOfLowerCase(g);
    assert Lower("Rp ") == "rp ";
    assert Lower("Rp " + g) == t;
    assert forall i :: 0 <= i < |t| ==> t[i] != 'k' && t[i] != 'g' by {
      forall i | 0 <= i < |t|
        ensures t[i] != 'k' && t[i] != 'g'
      {
        if i >= 3 {
          assert t[i] == g[i - 3];
        }
      }
    }
    NoUnitNoWeight(t);
    RpAmountFound(n);
    assert FirstMatch(ValuePatterns, t) == Some((RpPrefix, g));
    GroupedStripsToDigits(n);
    ParseFloatOfDigits(n);
  }

  // ---------------------------------------------------------------------
  // Worked examples
  // ---------------------------------------------------------------------

  /** Without "rp" or "rupiah" there is no currency word, so no item value. */
  lemma NoCurrencyNoValue(t: string)
    requires forall i :: 0 < i < |t| && t[i - 1] == 'r' ==> t[i] != 'p' && t[i] != 'u'
    ensures ItemValueIn(t).None?
  {
    forall k | 0 <= k < |ValuePatterns|
      ensures Search(ValuePatterns[k], t).None?
    {
      NoCurrencyNoSearch(ValuePatterns[k], t, 0);
    }
    FirstMatchNone(ValuePatterns, t);
  }

  lemma {:induction false} NoCurrencyNoSearch(pattern: Pattern, t: string, i: nat)
    requires !pattern.WeightPattern? && i <= |t|
    requires forall m :: 0 < m < |t| && t[m - 1] == 'r' ==> t[m] != 'p' && t[m] != 'u'
    ensures SearchFrom(pattern, t, i).None?
    decreases |t| - i
  {
    forall j: nat | j <= |t|
      ensures !StartsAt(t, j, "rp") && !StartsAt(t, j, "rupiah")
    {
      if j + 1 < |t| && t[j] == 'r' {
        NotStartsAtOther(t, j + 1, "p");
        NotStartsAtOther(t, j + 1, "upiah");
      }
    }
    if pattern.RupiahSuffix? && DigitRun(t, i) > 0 {
      var e := GroupedNumberEnd(t, i);
      assert !StartsAt(t, e + SpaceRun(t, e), "rupiah");
    }
    if i < |t| {
      NoCurrencyNoSearch(pattern, t, i + 1);
    }
  }

  /** Start positions where the pattern does not match are passed over. */
  lemma {:induction false} SearchSkips(pattern: Pattern, t: string, i: nat, j: nat)
    requires i <= j <= |t|
    requires forall m :: i <= m < j ==> MatchAt(pattern, t, m).None?
    ensures SearchFrom(pattern, t, i) == SearchFrom(pattern, t, j)
    decreases j - i
  {
    if i < j {
      SearchSkips(pattern, t, i + 1, j);
    }
  }

  /** A number that stops before a character that is neither a digit nor a
      dot ends there. */
  lemma NumberEndsBefore(t: string, m: nat, d: nat)
    requires m < d < |t| && AllDigits(t[m..d]) && !IsDigit(t[d]) && t[d] != '.'
    ensures DigitRun(t, m) == d - m && NumberEnd(t, m) == d
  {
    DigitRunExact(t, m, d - m);
  }

  /** `n` spaces followed by a non-space or the end are a space run of
      length `n`. */
  lemma {:induction false} SpaceRunExact(t: string, i: nat, n: nat)
    requires i + n <= |t| && forall k :: i <= k < i + n ==> IsSpace(t[k])
    requires i + n == |t| || !IsSpace(t[i + n])
    ensures SpaceRun(t, i) == n
    decreases n
  {
    if n > 0 {
      SpaceRunExact(t, i + 1, n - 1);
    }
  }

  /** What a weight pattern needs right after the spaces that follow the
      number. */
  predicate UnitFollows(unit: Unit, t: string, j: nat) {
    StartsAt(t, j, UnitWord(unit)) && (unit == G ==> WordEnds(t, j + 1))
  }

  /** On a text that is a number, spaces, then letters only, a weight pattern
      finds the number exactly when its unit is what the letters start
      with. */
  lemma WeightSearchOnLayout(unit: Unit, t: string, d: nat, j: nat)
    requires 0 < d <= j < |t| && AllDigits(t[0..d]) && t[j] != '.'
    requires forall k :: d <= k < j ==> IsSpace(t[k])
    requires forall k :: j <= k < |t| ==> !IsDigit(t[k]) && !IsSpace(t[k])
    ensures Search(WeightPattern(unit), t) == if UnitFollows(unit, t, j) then Some(t[0..d]) else None
  {
    assert t[d] != '.' && !IsDigit(t[d]) by {
      if d < j {
        assert IsSpace(t[d]);
      }
    }
    SpaceRunExact(t, d, j - d);
    NumberEndsBefore(t, 0, d);
    if !UnitFollows(unit, t, j) {
      forall m | 0 <= m < |t|
        ensures MatchAt(WeightPattern(unit), t, m).None?
      {
        if m < d {
          assert t[m..d] == t[0..d][m..];
          NumberEndsBefore(t, m, d);
        } else if m < j {
          assert IsSpace(t[m]);
        }
      }
      SearchSkips(WeightPattern(unit), t, 0, |t|);
    }
  }

  /** On the number-then-unit layout only the unit written decides. */
  lemma UnitFollowsOnLayout(unit: Unit, written: Unit, prefix: string)
    ensures UnitFollows(unit, prefix + UnitWord(written), |prefix|) <==>
      unit == written
  {
    var t := prefix + UnitWord(written);
    StartsAtSuffix(prefix, UnitWord(written), UnitWord(unit));
    UnitPrefixes(unit, written);
    if unit == G && written == Gram {
      assert t[|prefix| + 1] == 'r';
    }
  }

  /** Which unit words begin which: only "g" begins another one, "gram". */
  lemma UnitPrefixes(unit: Unit, written: Unit)
    ensures StartsWith(UnitWord(written), UnitWord(unit)) <==> unit == written || (unit == G && written == Gram)
  {
    var w, u := UnitWord(written), UnitWord(unit);
    if unit != written {
      if unit == G && written == Gram {
        assert u == "g" && u[1..] == "" && w[0] == 'g';
        assert StartsAt(w, 1, u[1..]);
      } else if u[0] != w[0] {
        NotStartsAtOther(w, 0, u);
      } else if |u| > |w| {
        StartsAtSlice(w, 0, u);
      } else {
        assert u[1] != w[1];
        NotStartsAtOther(w, 1, u[1..]);
      }
    } else {
      StartsWithSelf(w);
    }
  }

  /** Unit words are lower-case letters, and their only 'r' is followed by
      an 'a'. */
  lemma UnitLetters(unit: Unit)
    ensures forall k :: 0 <= k < |UnitWord(unit)| ==> 'a' <= UnitWord(unit)[k] <= 'z'
    ensures forall k :: 0 <= k < |UnitWord(unit)| && UnitWord(unit)[k] == 'r' ==>
      k + 1 < |UnitWord(unit)| && UnitWord(unit)[k + 1] == 'a'
  {
  }

  /** Where `unit` sits in the priority list. */
  function UnitRank(unit: Unit): (k: nat)
    ensures k < |WeightPatterns| && WeightPatterns[k] == WeightPattern(unit)
    ensures forall m :: 0 <= m < k ==> WeightPatterns[m] != WeightPattern(unit)
  {
    match unit
    case Kg => 0
    case Kilogram => 1
    case Gram => 2
    case G => 3
  }

  /** On a number, spaces and the unit word `written`, the pattern for
      `unit` finds the number exactly when the two units agree. */
  lemma SearchOnAmountWithUnit(unit: Unit, digits: string, spaces: string, written: Unit)
    requires 0 < |digits| && AllDigits(digits)
    requires forall k :: 0 <= k < |spaces| ==> IsSpace(spaces[k])
    ensures Search(WeightPattern(unit), digits + spaces + UnitWord(written)) ==
      if unit == written then Some(digits) else None
  {
    var w := UnitWord(written);
    var prefix := digits + spaces;
    var t := prefix + w;
    var d, j := |digits|, |prefix|;
    UnitLetters(written);
    assert t[0..d] == digits;
    assert forall k :: d <= k < j ==> t[k] == spaces[k - d];
    assert forall k :: j <= k < |t| ==> t[k] == w[k - j];
    WeightSearchOnLayout(unit, t, d, j);
    UnitFollowsOnLayout(unit, written, prefix);
  }

  /** On a number, spaces and one unit word, the pattern of that unit is the
      first weight pattern found, and it captures the number. */
  lemma FirstWeightOnAmountWithUnit(digits: string, spaces: string, unit: Unit)
    requires 0 < |digits| && AllDigits(digits)
    requires forall k :: 0 <= k < |spaces| ==> IsSpace(spaces[k])
    ensures FirstMatch(WeightPatterns, digits + spaces + UnitWord(unit)) ==
      Some((WeightPattern(unit), digits))
  {
    var t := digits + spaces + UnitWord(unit);
    var k := UnitRank(unit);
    forall m | 0 <= m < k
      ensures Search(WeightPatterns[m], t).None?
    {
      SearchOnAmountWithUnit(WeightPatterns[m].unit, digits, spaces, unit);
    }
    SearchOnAmountWithUnit(unit, digits, spaces, unit);
    FirstFoundIsFirstMatch(WeightPatterns, t, k);
  }

  /** The weight read from a number, spaces and one unit word. */
  lemma WeightOfAmountWithUnit(n: nat, spaces: string, unit: Unit)
    requires forall k :: 0 <= k < |spaces| ==> IsSpace(spaces[k])
    ensures WeightIn(DecimalDigits(n) + spaces + UnitWord(unit)) ==
      Some(if InKilograms(WeightPattern(unit)) then n as real * 1000.0 else n as real)
  {
    DecimalDigitsShape(n);
    FirstWeightOnAmountWithUnit(DecimalDigits(n), spaces, unit);
    ParseFloatOfDigits(n);
  }

  /** Digits, spaces and a unit word hold no currency marker and no capital. */
  lemma AmountWithUnitPlain(n: nat, spaces: string, unit: Unit)
    requires forall k :: 0 <= k < |spaces| ==> IsSpace(spaces[k])
    ensures ItemValueIn(DecimalDigits(n) + spaces + UnitWord(unit)).None?
    ensures Lower(DecimalDigits(n) + spaces + UnitWord(unit)) == DecimalDigits(n) + spaces + UnitWord(unit)
  {
    var digits, w := DecimalDigits(n), UnitWord(unit);
    var t := digits + spaces + w;
    var j := |digits + spaces|;
    DecimalDigitsShape(n);
    UnitLetters(unit);
    assert forall k :: 0 <= k < |digits| ==> t[k] == digits[k];
    assert forall k :: |digits| <= k < j ==> t[k] == spaces[k - |digits|];
    assert forall k :: j <= k < |t| ==> t[k] == w[k - j];
    NoCurrencyNoValue(t);
    LowerOfLowerCase(t);
  }

  /** A number followed by spaces and any one unit is read back as that
      amount, in grams: each earlier pattern fails, and kilograms are
      multiplied by 1000. */
  lemma AmountWithUnitReadsBack(n: nat, spaces: string, unit: Unit)
    requires forall k :: 0 <= k < |spaces| ==> IsSpace(spaces[k])
    ensures ShippingInfo(DecimalDigits(n) + spaces + UnitWord(unit)) ==
      map["weight" := if unit == Kg || unit == Kilogram then n as real * 1000.0 else n as real]
  {
    WeightOfAmountWithUnit(n, spaces, unit);
    AmountWithUnitPlain(n, spaces, unit);
  }

  /** A space run stops at the first character that is not a space. */
  lemma {:induction false} SpaceRunStops(t: string, i: nat, b: nat)
    requires i <= b < |t| && !IsSpace(t[b])
    ensures i + SpaceRun(t, i) <= b
    decreases b - i
  {
    if i < b && IsSpace(t[i]) {
      SpaceRunStops(t, i + 1, b);
    }
  }

  /** Before a digit, text with no 'k' and no '.' that does not end in a
      digit cannot hold a match of the "kg" pattern. */
  lemma NoKgBefore(t: string, p: nat, m: nat)
    requires m < p < |t| && !IsDigit(t[p - 1]) && IsDigit(t[p])
    requires forall k :: 0 <= k < p ==> t[k] != 'k' && t[k] != '.'
    ensures MatchAt(WeightPattern(Kg), t, m).None?
  {
    var r := DigitRun(t, m);
    if r > 0 {
      DigitRunShape(t, m);
      assert m + r < p;
      var e := NumberEnd(t, m);
      assert e == m + r;
      SpaceRunStops(t, e, p);
      NotStartsAtOther(t, e + SpaceRun(t, e), "kg");
    }
  }

  /** An amount in "kg" after such a text is the one the "kg" pattern
      finds. */
  lemma KgAfterPrefix(prefix: string, digits: string)
    requires 0 < |prefix| && !IsDigit(prefix[|prefix| - 1])
    requires forall k :: 0 <= k < |prefix| ==> prefix[k] != 'k' && prefix[k] != '.'
    requires 0 < |digits| && AllDigits(digits)
    ensures Search(WeightPattern(Kg), prefix + digits + "kg") == Some(digits)
  {
    var t := prefix + digits + "kg";
    var p, q := |prefix|, |prefix| + |digits|;
    forall m | 0 <= m < p
      ensures MatchAt(WeightPattern(Kg), t, m).None?
    {
      assert t[p] == digits[0];
      NoKgBefore(t, p, m);
    }
    SearchSkips(WeightPattern(Kg), t, 0, p);
    assert t[p..q] == digits;
    assert t[q] == 'k';
    NumberEndsBefore(t, p, q);
    SpaceRunExact(t, q, 0);
    assert StartsAt(t, q, "kg") by {
      assert t[q..q + 2] == "kg";
    }
    assert MatchAt(WeightPattern(Kg), t, p) == Some(digits);
  }

  /** The text of the priority example: grams first, then kilograms. */
  function GramsThenKilogramsText(m: nat, n: nat): string {
    DecimalDigits(m) + " gram and " + DecimalDigits(n) + "kg"
  }

  /** The words between the two amounts: no 'k', no '.', no capital, and
      their 'r' is followed by an 'a'. */
  lemma GramAndWords(dm: string)
    requires AllDigits(dm)
    ensures var prefix := dm + " gram and ";
      |prefix| == |dm| + 10 && prefix[|prefix| - 1] == ' ' &&
      (forall k :: 0 <= k < |prefix| ==>
        prefix[k] != 'k' && prefix[k] != '.' && !('A' <= prefix[k] <= 'Z') &&
        (prefix[k] == 'r' ==> k + 1 < |prefix| && prefix[k + 1] == 'a'))
  {
    var prefix := dm + " gram and ";
    assert forall k :: 0 <= k < |dm| ==> prefix[k] == dm[k];
    assert forall k :: |dm| <= k < |prefix| ==> prefix[k] == " gram and "[k - |dm|];
  }

  /** In that text the "kg" pattern finds the second amount. */
  lemma GramsThenKilogramsSearch(m: nat, n: nat)
    ensures Search(WeightPattern(Kg), GramsThenKilogramsText(m, n)) == Some(DecimalDigits(n))
  {
    var dm, dn := DecimalDigits(m), DecimalDigits(n);
    DecimalDigitsShape(m);
    DecimalDigitsShape(n);
    GramAndWords(dm);
    KgAfterPrefix(dm + " gram and ", dn);
  }

  /** That text has no currency marker and no capital. */
  lemma GramsThenKilogramsPlain(m: nat, n: nat)
    ensures ItemValueIn(GramsThenKilogramsText(m, n)).None?
    ensures Lower(GramsThenKilogramsText(m, n)) == GramsThenKilogramsText(m, n)
  {
    var dm, dn := DecimalDigits(m), DecimalDigits(n);
    var prefix := dm + " gram and ";
    var t := GramsThenKilogramsText(m, n);
    DecimalDigitsShape(m);
    DecimalDigitsShape(n);
    GramAndWords(dm);
    assert t == prefix + (dn + "kg");
    assert forall k :: 0 <= k < |prefix| ==> t[k] == prefix[k];
    assert forall k :: |prefix| <= k < |prefix| + |dn| ==> t[k] == dn[k - |prefix|];
    assert forall k :: |prefix| + |dn| <= k < |t| ==> t[k] == "kg"[k - |prefix| - |dn|];
    NoCurrencyNoValue(t);
    LowerOfLowerCase(t);
  }

  /** Pattern priority beats position: "500 gram and 2kg" weighs 2000 grams,
      because the "kg" pattern is tried before the "gram" one. */
  lemma GramsThenKilograms(m: nat, n: nat)
    ensures ShippingInfo(GramsThenKilogramsText(m, n)) == map["weight" := n as real * 1000.0]
  {
    GramsThenKilogramsSearch(m, n);
    GramsThenKilogramsPlain(m, n);
    KgTakesPriority(GramsThenKilogramsText(m, n));
    ParseFloatOfDigits(n);
  }

  /** "1kg" weighs 1000 grams and "500g" weighs 500; a file separator
      (0x1C) between number and unit counts as white space. */
  lemma WeightExamples()
    ensures ShippingInfo("1kg") == map["weight" := 1000.0]
    ensures ShippingInfo("500g") == map["weight" := 500.0]
    ensures ShippingInfo("5\U{001C}kg") == map["weight" := 5000.0]
  {
    assert DecimalDigits(1) == "1";
    assert DecimalDigits(5) == "5" && DecimalDigits(50) == "50" && DecimalDigits(500) == "500";
    assert DecimalDigits(1) + "" + UnitWord(Kg) == "1kg";
    assert DecimalDigits(500) + "" + UnitWord(G) == "500g";
    AmountWithUnitReadsBack(1, "", Kg);
    AmountWithUnitReadsBack(500, "", G);
    assert DecimalDigits(5) + "\U{001C}" + UnitWord(Kg) == "5\U{001C}kg";
    AmountWithUnitReadsBack(5, "\U{001C}", Kg);
  }
}
