/** The text and classification helpers of the embed factory: inline-field
    sizing, progress bars, the performance-tier ladder, ranking lines with
    thousands grouping, the stats dashboard metrics, mission-name
    normalisation, the killfeed range and mission threat classifications, and
    the routing of `build` to an embed builder. */
module EmbedFactory {
  import opened PyBase

  const FullGlyph: char := '\U{2588}'
  const EmptyGlyph: char := '\U{25AB}'
  const Bullet: char := '\U{2022}'
  const DefaultInlineChars: int := 20
  const MaxRankingLines: int := 10

  // ---------------------------------------------------------------- inline

  /** The characters `should_use_inline` deletes before measuring. */
  predicate IsMarkup(c: char)
  {
    c == '*' || c == '`' || c == '_' || c == '~' || c == '<' || c == '>' || c == ':'
  }

  /** The text with every markup character deleted, the rest in order: no
      markup is left, and every other character occurs as often as before. */
  function StripMarkup(s: string): (r: string)
    ensures |r| <= |s|
    ensures forall i :: 0 <= i < |r| ==> !IsMarkup(r[i])
  {
    if s == [] then []
    else StripMarkup(s[..|s| - 1]) + (if IsMarkup(s[|s| - 1]) then [] else [s[|s| - 1]])
  }

  /** Whether a field value is short enough, markup aside, to sit inline. */
  function ShouldUseInline(fieldValue: string, maxInlineChars: int): bool
  {
    |StripMarkup(fieldValue)| <= maxInlineChars
  }

  lemma {:induction false} StripMarkupAppend(a: string, b: string)
    ensures StripMarkup(a + b) == StripMarkup(a) + StripMarkup(b)
    decreases |b|
  {
    if b != [] {
      var b' := b[..|b| - 1];
      assert (a + b)[..|a + b| - 1] == a + b';
      StripMarkupAppend(a, b');
    } else {
      assert a + b == a;
    }
  }

  /** Text without markup is left as it is, so deleting markup is idempotent. */
  lemma {:induction false} StripMarkupPlain(s: string)
    requires forall i :: 0 <= i < |s| ==> !IsMarkup(s[i])
    ensures StripMarkup(s) == s
  {
    if s != [] {
      StripMarkupPlain(s[..|s| - 1]);
    }
  }

  /** A value no longer than the limit is always inline; markup never counts
      against the limit, wherever it is inserted. */
  lemma InlineSpec(v: string, markup: string, w: string, m: int)
    requires forall i :: 0 <= i < |markup| ==> IsMarkup(markup[i])
    ensures |v| <= m ==> ShouldUseInline(v, m)
    ensures ShouldUseInline(v + markup + w, m) == ShouldUseInline(v + w, m)
    ensures StripMarkup(StripMarkup(v)) == StripMarkup(v)
    ensures (forall i :: 0 <= i < |v| ==> !IsMarkup(v[i])) ==> (ShouldUseInline(v, m) <==> |v| <= m)
  {
    StripMarkupAppend(v + markup, w);
    StripMarkupAppend(v, markup);
    StripMarkupAppend(v, w);
    StripMarkupOnlyMarkup(markup);
    StripMarkupPlain(StripMarkup(v));
    if forall i :: 0 <= i < |v| ==> !IsMarkup(v[i]) {
      StripMarkupPlain(v);
    }
  }

  /** Deleting markup keeps every other character as often as it occurs. */
  lemma {:induction false} StripMarkupCounts(s: string)
    ensures forall c :: !IsMarkup(c) ==> multiset(StripMarkup(s))[c] == multiset(s)[c]
  {
    if s != [] {
      var s' := s[..|s| - 1];
      StripMarkupCounts(s');
      assert s == s' + [s[|s| - 1]];
      assert multiset(s) == multiset(s') + multiset([s[|s| - 1]]);
    }
  }

  lemma {:induction false} StripMarkupOnlyMarkup(s: string)
    requires forall i :: 0 <= i < |s| ==> IsMarkup(s[i])
    ensures StripMarkup(s) == []
  {
    if s != [] {
      StripMarkupOnlyMarkup(s[..|s| - 1]);
    }
  }

  // ---------------------------------------------------------- progress bar

  /** `min(100, (value / max_value) * 100)` */
  function Percentage(value: real, maxValue: real): (p: real)
    requires maxValue != 0.0
    ensures p <= 100.0
    ensures p <= value / maxValue * 100.0
    ensures p == 100.0 || p == value / maxValue * 100.0
  {
    var p := value / maxValue * 100.0;
    if p < 100.0 then p else 100.0
  }

  /** `int((percentage / 100) * length)` */
  function FilledLength(value: real, maxValue: real, length: int): int
    requires maxValue != 0.0
  {
    Trunc(Percentage(value, maxValue) / 100.0 * length as real)
  }

  /** `length` glyphs, full before position `filled`, empty from there on;
      no glyphs at all for a length below one. */
  function Bar(filled: int, length: int): (bar: string)
    ensures |bar| == (if length > 0 then length else 0)
    ensures forall i :: 0 <= i < |bar| ==> bar[i] == (if i < filled then FullGlyph else EmptyGlyph)
  {
    if length <= 0 then [] else Bar(filled, length - 1) + [if length - 1 < filled then FullGlyph else EmptyGlyph]
  }

  /** A bar of non-negative length has exactly `length` glyphs; the full ones
      form a prefix whose size is the filled length, which never exceeds the
      bar; a value of zero or below against a positive maximum fills nothing. */
  lemma ProgressBarSpec(value: real, maxValue: real, length: int)
    requires maxValue != 0.0 && length >= 0
    ensures var f := FilledLength(value, maxValue, length);
      var bar := Bar(f, length);
      && |bar| == length
      && f <= length
      && (forall i :: 0 <= i < length ==> (bar[i] == FullGlyph <==> i < f))
      && (forall i, j :: 0 <= i <= j < length && bar[j] == FullGlyph ==> bar[i] == FullGlyph)
      && (value <= 0.0 && maxValue > 0.0 ==> forall i :: 0 <= i < length ==> bar[i] == EmptyGlyph)
  {
    FilledBounds(value, maxValue, length);
  }

  lemma FilledBounds(value: real, maxValue: real, length: int)
    requires maxValue != 0.0 && length >= 0
    ensures FilledLength(value, maxValue, length) <= length
    ensures value <= 0.0 && maxValue > 0.0 ==> FilledLength(value, maxValue, length) <= 0
  {
    var p := Percentage(value, maxValue);
    ScaleAtMostLength(p, length);
    if value <= 0.0 && maxValue > 0.0 {
      assert value / maxValue <= 0.0;
      ScaleNonPositive(p, length);
    }
  }

  lemma ScaleAtMostLength(p: real, length: int)
    requires p <= 100.0 && length >= 0
    ensures p / 100.0 * length as real <= length as real
  {
    assert (1.0 - p / 100.0) * length as real >= 0.0;
  }

  lemma ScaleNonPositive(p: real, length: int)
    requires p <= 0.0 && length >= 0
    ensures p / 100.0 * length as real <= 0.0
  {
    assert (-p / 100.0) * length as real >= 0.0;
  }

  /** With a maximum of zero the bar is all empty glyphs. */
  lemma ZeroMaximumBar(length: int)
    ensures forall i :: 0 <= i < |Bar(0, length)| ==> Bar(0, length)[i] == EmptyGlyph
  {
  }

  /** `create_progress_bar`: the glyphs and the percentage shown after them
      (" 0%" for a maximum of zero). */
  method CreateProgressBar(value: real, maxValue: real, length: int)
    returns (bar: string, percentage: real)
    ensures maxValue == 0.0 ==> percentage == 0.0 && bar == Bar(0, length)
    ensures maxValue != 0.0 ==>
      percentage == Percentage(value, maxValue) && bar == Bar(FilledLength(value, maxValue, length), length)
  {
    if maxValue == 0.0 {
      bar := seq(if length > 0 then length else 0, _ => EmptyGlyph);
      EmptyBar(length);
      return bar, 0.0;
    }
    percentage := Percentage(value, maxValue);
    var filled := Trunc(percentage / 100.0 * length as real);
    assert filled == FilledLength(value, maxValue, length);
    bar := FillBar(filled, length);
  }

  lemma EmptyBar(length: int)
    ensures seq(if length > 0 then length else 0, _ => EmptyGlyph) == Bar(0, length)
  {
  }

  /** The glyph loop of `create_progress_bar`. */
  method FillBar(filled: int, length: int) returns (bar: string)
    ensures bar == Bar(filled, length)
  {
    bar := "";
    var n := if length > 0 then length else 0;
    for i := 0 to n
      invariant bar == Bar(filled, i)
    {
      if i < filled {
        bar := bar + [FullGlyph];
      } else {
        bar := bar + [EmptyGlyph];
      }
    }
  }

  // ----------------------------------------------------------------- tiers

  datatype Tier = EliteOperator | VeteranCombatant | ExperiencedSoldier | TacticalOperative | FieldRecruit
  {
    function Name(): string
    {
      match this
      case EliteOperator => "ELITE OPERATOR"
      case VeteranCombatant => "VETERAN COMBATANT"
      case ExperiencedSoldier => "EXPERIENCED SOLDIER"
      case TacticalOperative => "TACTICAL OPERATIVE"
      case FieldRecruit => "FIELD RECRUIT"
    }

    function Indicator(): char
    {
      match this
      case EliteOperator => '\U{25C6}'
      case VeteranCombatant => '\U{25C7}'
      case ExperiencedSoldier => '\U{25B3}'
      case TacticalOperative => '\U{25BD}'
      case FieldRecruit => '\U{25CB}'
    }

    function Color(): int
    {
      match this
      case EliteOperator => 0xFF0000
      case VeteranCombatant => 0xFF8C00
      case ExperiencedSoldier => 0xFFD700
      case TacticalOperative => 0x32CD32
      case FieldRecruit => 0x808080
    }

    /** Position on the ladder, recruit lowest. */
    function Level(): nat
    {
      match this
      case EliteOperator => 4
      case VeteranCombatant => 3
      case ExperiencedSoldier => 2
      case TacticalOperative => 1
      case FieldRecruit => 0
    }
  }

  /** `format_performance_tier`: the first rung of the ladder whose ratio and
      kill thresholds are met. */
  function PerformanceTier(kdr: real, kills: real): Tier
  {
    if kdr >= 3.0 && kills >= 100.0 then EliteOperator
    else if kdr >= 2.0 && kills >= 50.0 then VeteranCombatant
    else if kdr >= 1.5 && kills >= 25.0 then ExperiencedSoldier
    else if kdr >= 1.0 then TacticalOperative
    else FieldRecruit
  }

  /** A ratio below one is a recruit whatever the kills, and a ratio of one or
      more never is; a tier is reached exactly when its thresholds are met and
      no higher tier's are. */
  lemma TierSpec(kdr: real, kills: real)
    ensures PerformanceTier(kdr, kills) == FieldRecruit <==> kdr < 1.0
    ensures PerformanceTier(kdr, kills) == EliteOperator <==> kdr >= 3.0 && kills >= 100.0
    ensures PerformanceTier(kdr, kills).Level() >= 3 <==> kdr >= 2.0 && kills >= 50.0
    ensures PerformanceTier(kdr, kills).Level() >= 2 <==> kdr >= 1.5 && kills >= 25.0
  {
  }

  /** More kills and a better ratio never give a lower tier. */
  lemma TierMonotone(kdr1: real, kills1: real, kdr2: real, kills2: real)
    requires kdr1 <= kdr2 && kills1 <= kills2
    ensures PerformanceTier(kdr1, kills1).Level() <= PerformanceTier(kdr2, kills2).Level()
  {
  }

  // -------------------------------------------------------------- rankings

  /** The symbol of a rank: ◆, ◇ and △ for the podium, ▫ below. */
  function RankSymbol(rank: int): char
  {
    if rank == 1 then '\U{25C6}' else if rank == 2 then '\U{25C7}' else if rank == 3 then '\U{25B3}' else EmptyGlyph
  }

  /** Three digits with leading zeros. */
  function Pad3(r: nat): (s: string)
    requires r < 1000
    ensures |s| == 3 && IsDigits(s)
  {
    [DigitChar(r / 100), DigitChar(r / 10 % 10), DigitChar(r % 10)]
  }

  /** `f"{n:,}"` for a natural number: digits grouped in threes by commas. */
  function GroupThousands(n: nat): string
    decreases n
  {
    if n < 1000 then NatToString(n) else GroupThousands(n / 1000) + "," + Pad3(n % 1000)
  }

  /** The text with every comma deleted. */
  function Uncomma(s: string): string
  {
    if s == [] then [] else Uncomma(s[..|s| - 1]) + (if s[|s| - 1] == ',' then [] else [s[|s| - 1]])
  }

  lemma {:induction false} UncommaAppend(a: string, b: string)
    ensures Uncomma(a + b) == Uncomma(a) + Uncomma(b)
    decreases |b|
  {
    if b != [] {
      var b' := b[..|b| - 1];
      assert (a + b)[..|a + b| - 1] == a + b';
      UncommaAppend(a, b');
    } else {
      assert a + b == a;
    }
  }

  lemma {:induction false} UncommaDigits(s: string)
    requires IsDigits(s)
    ensures Uncomma(s) == s
  {
    if s != [] {
      UncommaDigits(s[..|s| - 1]);
    }
  }

  /** The decimal digits of n are those of n / 1000 followed by the last three. */
  lemma ThousandsDigits(n: nat)
    requires n >= 1000
    ensures NatToString(n) == NatToString(n / 1000) + Pad3(n % 1000)
  {
    var q, r := n / 1000, n % 1000;
    var a, b, c := r / 100, r / 10 % 10, r % 10;
    LastThreeDigits(n);
    calc {
      NatToString(n);
      NatToString(n / 10) + [DigitChar(c)];
      NatToString(n / 10 / 10) + [DigitChar(b)] + [DigitChar(c)];
      NatToString(q) + [DigitChar(a)] + [DigitChar(b)] + [DigitChar(c)];
      NatToString(q) + Pad3(r);
    }
  }

  /** Dividing by ten three times peels off the three digits of n % 1000. */
  lemma LastThreeDigits(n: nat)
    ensures n % 10 == n % 1000 % 10
    ensures n / 10 % 10 == n % 1000 / 10 % 10
    ensures n / 10 / 10 % 10 == n % 1000 / 100
    ensures n / 10 / 10 / 10 == n / 1000
  {
    var q, r := n / 1000, n % 1000;
    var a, b, c := r / 100, r / 10 % 10, r % 10;
    assert r == 100 * a + 10 * b + c;
    assert n == 1000 * q + 100 * a + 10 * b + c;
    assert n / 10 == 100 * q + 10 * a + b && n % 10 == c;
    assert n / 10 / 10 == 10 * q + a && n / 10 % 10 == b;
  }

  /** Deleting the commas of a grouped number gives back `str(n)`. */
  lemma {:induction false} GroupThousandsDigits(n: nat)
    ensures Uncomma(GroupThousands(n)) == NatToString(n)
    decreases n
  {
    if n < 1000 {
      UncommaDigits(NatToString(n));
    } else {
      var head := GroupThousands(n / 1000);
      GroupThousandsDigits(n / 1000);
      UncommaAppend(head + ",", Pad3(n % 1000));
      UncommaAppend(head, ",");
      UncommaDigits(Pad3(n % 1000));
      assert Uncomma(",") == [];
      ThousandsDigits(n);
    }
  }

  /** A grouped number of four digits or more holds a comma. */
  lemma GroupThousandsHasComma(n: nat)
    requires n >= 1000
    ensures ',' in GroupThousands(n)
  {
    var head := GroupThousands(n / 1000);
    assert GroupThousands(n)[|head|] == ',';
  }

  /** Digits with a comma at every fourth position counted from the end,
      never at the start, and nowhere else. */
  predicate GroupedLayout(g: string)
  {
    forall i :: 0 <= i < |g| ==>
      && (g[i] == ',' <==> 0 < i && (|g| - i) % 4 == 0)
      && (g[i] != ',' ==> '0' <= g[i] <= '9')
  }

  /** Where the commas go: one per full group of three digits left of the
      last three, so the text is |str(n)| + (|str(n)| - 1) / 3 long, and they
      sit at every fourth position counted from the end. */
  lemma {:induction false} GroupThousandsLayout(n: nat)
    ensures |GroupThousands(n)| == |NatToString(n)| + (|NatToString(n)| - 1) / 3
    ensures GroupedLayout(GroupThousands(n))
    decreases n
  {
    if n < 1000 {
      ShortNatText(n);
    } else {
      var h, p := GroupThousands(n / 1000), Pad3(n % 1000);
      GroupThousandsLayout(n / 1000);
      ThousandsDigits(n);
      assert GroupThousands(n) == h + [','] + p;
      GroupedAppend(h, p);
    }
  }

  /** A comma and three more digits extend a grouped number. */
  lemma GroupedAppend(h: string, p: string)
    requires GroupedLayout(h) && |h| > 0 && |p| == 3 && IsDigits(p)
    ensures GroupedLayout(h + [','] + p)
  {
    var g := h + [','] + p;
    forall i | 0 <= i < |g|
      ensures g[i] == ',' <==> 0 < i && (|g| - i) % 4 == 0
      ensures g[i] != ',' ==> '0' <= g[i] <= '9'
    {
      if i < |h| {
        assert g[i] == h[i];
        assert (|g| - i) % 4 == (|h| - i) % 4;
      } else if i > |h| {
        assert g[i] == p[i - |h| - 1];
      }
    }
  }

  /** A number below 1000 has at most three digits. */
  lemma ShortNatText(n: nat)
    requires n < 1000
    ensures |NatToString(n)| <= 3
  {
    if n >= 10 {
      assert |NatToString(n / 10)| <= 2 by {
        if n / 10 >= 10 {
          assert n / 10 / 10 < 10;
        }
      }
    }
  }

  /** The value part of a ranking line: a float with two decimals (by the
      given formatter), an int of 1000 or more grouped by commas, anything else
      as `str()` gives it. */
  function FormatValue(value: PyValue, fixed2: real -> string, floatRepr: real -> string): string
  {
    match value
    case PyFloat(f) => fixed2(f)
    case PyInt(i) => if i >= 1000 then GroupThousands(i) else IntToString(i)
    case _ => StrOf(value, floatRepr)
  }

  /** Every int value reads back as `str(value)` once commas are deleted, and
      has commas exactly from 1000 on. */
  lemma IntValueText(i: int, fixed2: real -> string, floatRepr: real -> string)
    ensures Uncomma(FormatValue(PyInt(i), fixed2, floatRepr)) == IntToString(i)
    ensures i >= 1000 ==> ',' in FormatValue(PyInt(i), fixed2, floatRepr)
    ensures i < 1000 ==> ',' !in FormatValue(PyInt(i), fixed2, floatRepr)
  {
    if i >= 1000 {
      assert FormatValue(PyInt(i), fixed2, floatRepr) == GroupThousands(i);
      GroupThousandsDigits(i);
      GroupThousandsHasComma(i);
    } else {
      assert FormatValue(PyInt(i), fixed2, floatRepr) == IntToString(i);
      PlainIntText(i);
    }
  }

  /** `str(i)` holds no comma. */
  lemma PlainIntText(i: int)
    ensures Uncomma(IntToString(i)) == IntToString(i)
    ensures ',' !in IntToString(i)
  {
    var s := IntToString(i);
    if i < 0 {
      var digits := NatToString(-i);
      assert s == "-" + digits;
      UncommaAppend("-", digits);
      UncommaDigits(digits);
      assert Uncomma("-") == "-";
      forall k | 0 <= k < |s|
        ensures s[k] != ','
      {
        if k > 0 {
          assert s[k] == digits[k - 1];
        }
      }
    } else {
      UncommaDigits(s);
      assert forall k :: 0 <= k < |s| ==> '0' <= s[k] <= '9';
    }
  }

  /** `create_ranking_display`: "{symbol} **{name}** • {value} {metric}". */
  function RankingDisplay(rank: int, name: string, value: PyValue, metric: string,
                          fixed2: real -> string, floatRepr: real -> string): (line: string)
    ensures |line| > 0 && line[0] == RankSymbol(rank)
  {
    RankingText(RankSymbol(rank), name, FormatValue(value, fixed2, floatRepr), metric)
  }

  /** The f-string of a ranking line, from its already formatted parts. */
  function RankingText(symbol: char, name: string, v: string, metric: string): string
  {
    [symbol] + " **" + name + "** " + [Bullet] + " " + v + " " + metric
  }

  /** A ranking line can be read back: it opens with the rank's symbol, holds
      the name in bold right after it and the formatted value after the
      bullet, and ends with the metric. */
  lemma RankingDisplayParts(rank: int, name: string, value: PyValue, metric: string,
                            fixed2: real -> string, floatRepr: real -> string)
    ensures var line := RankingDisplay(rank, name, value, metric, fixed2, floatRepr);
      var v := FormatValue(value, fixed2, floatRepr);
      && |line| == |name| + |v| + |metric| + 10
      && line[0] == RankSymbol(rank)
      && line[1..4] == " **"
      && line[4..4 + |name|] == name
      && line[4 + |name|..8 + |name|] == "** " + [Bullet]
      && line[9 + |name|..9 + |name| + |v|] == v
      && line[|line| - |metric|..] == metric
  {
    RankingTextParts(RankSymbol(rank), name, FormatValue(value, fixed2, floatRepr), metric);
  }

  lemma RankingTextParts(symbol: char, name: string, v: string, metric: string)
    ensures var line := RankingText(symbol, name, v, metric);
      && |line| == |name| + |v| + |metric| + 10
      && line[0] == symbol
      && line[1..4] == " **"
      && line[4..4 + |name|] == name
      && line[4 + |name|..8 + |name|] == "** " + [Bullet]
      && line[9 + |name|..9 + |name| + |v|] == v
      && line[|line| - |metric|..] == metric
  {
    var head := [symbol] + " **";
    var mid := "** " + [Bullet] + " ";
    var rest := v + " " + metric;
    assert RankingText(symbol, name, v, metric) == head + name + (mid + rest);
    Middle([symbol], " **", name + (mid + rest));
    Middle(head, name, mid + rest);
    Middle(head + name, "** " + [Bullet], " " + rest);
    Middle(head + name + mid, v, " " + metric);
    Middle(head + name + mid + v + " ", metric, []);
  }

  /** The middle part of a concatenation sits right after the first. */
  lemma Middle(a: string, b: string, c: string)
    ensures (a + b + c)[|a|..|a| + |b|] == b
  {
  }

  /** One line of the leaderboard builder's ranking field. */
  function RankingLine(rank: int, entry: Doc, fixed2: real -> string, floatRepr: real -> string): (line: string)
    ensures |line| > 0 && line[0] == RankSymbol(rank)
  {
    RankingDisplay(rank, StrOf(Get(entry, "name", PyStr("Unknown")), floatRepr),
                   Get(entry, "value", PyInt(0)),
                   StrOf(Get(entry, "metric", PyStr("")), floatRepr), fixed2, floatRepr)
  }

  /** The ranking loop of the leaderboard builder: one line per entry of the
      first ten, ranked from 1, the podium marked by its symbols. */
  method RankingLines(rankings: seq<Doc>, fixed2: real -> string, floatRepr: real -> string)
    returns (lines: seq<string>)
    ensures |lines| == (if |rankings| < MaxRankingLines then |rankings| else MaxRankingLines)
    ensures forall i :: 0 <= i < |lines| ==> lines[i] == RankingLine(i + 1, rankings[i], fixed2, floatRepr)
    ensures forall i :: 0 <= i < |lines| ==> |lines[i]| > 0 && lines[i][0] == RankSymbol(i + 1)
  {
    var top := if |rankings| < MaxRankingLines then rankings else rankings[..MaxRankingLines];
    lines := [];
    for i := 0 to |top|
      invariant |lines| == i
      invariant forall k :: 0 <= k < i ==> lines[k] == RankingLine(k + 1, rankings[k], fixed2, floatRepr)
    {
      var entry := top[i];
      var name := StrOf(Get(entry, "name", PyStr("Unknown")), floatRepr);
      var value := Get(entry, "value", PyInt(0));
      var metric := StrOf(Get(entry, "metric", PyStr("")), floatRepr);
      var line := RankingDisplay(i + 1, name, value, metric, fixed2, floatRepr);
      assert entry == rankings[i] && line == RankingLine(i + 1, rankings[i], fixed2, floatRepr);
      lines := lines + [line];
    }
  }

  // ------------------------------------------------------------- dashboard

  /** The derived figures of `format_stats_dashboard`. */
  datatype Dashboard = Dashboard(
    survivalRate: real, efficiency: real, survivalBar: string, efficiencyBar: string, tier: Tier)

  /** Survival rate: kills as a share of engagements (at least one), in
      percent, 0 when there were no engagements. */
  function SurvivalRate(kills: real, deaths: real): real
  {
    var total := kills + deaths;
    if total > 0.0 then kills / (if total > 1.0 then total else 1.0) * 100.0 else 0.0
  }

  /** Efficiency: twenty per point of ratio plus two per streak kill, capped at 100. */
  function Efficiency(kdr: real, bestStreak: real): real
  {
    var e := kdr * 20.0 + bestStreak * 2.0;
    if e < 100.0 then e else 100.0
  }

  function FormatStatsDashboard(kills: real, deaths: real, kdr: real, bestStreak: real): Dashboard
  {
    var survival := SurvivalRate(kills, deaths);
    var efficiency := Efficiency(kdr, bestStreak);
    Dashboard(survival, efficiency,
              Bar(FilledLength(survival, 100.0, 8), 8),
              Bar(FilledLength(efficiency, 100.0, 8), 8),
              PerformanceTier(kdr, kills))
  }

  /** Without engagements the survival rate is 0; with non-negative counts
      it lies in [0, 100]; efficiency never exceeds 100 and is non-negative for
      non-negative inputs; both bars have eight glyphs. */
  lemma DashboardBounds(kills: real, deaths: real, kdr: real, bestStreak: real)
    ensures var d := FormatStatsDashboard(kills, deaths, kdr, bestStreak);
      && (kills + deaths == 0.0 ==> d.survivalRate == 0.0)
      && (kills >= 0.0 && deaths >= 0.0 ==> 0.0 <= d.survivalRate <= 100.0)
      && d.efficiency <= 100.0
      && (kdr >= 0.0 && bestStreak >= 0.0 ==> d.efficiency >= 0.0)
      && |d.survivalBar| == 8 && |d.efficiencyBar| == 8
      && d.tier == PerformanceTier(kdr, kills)
  {
    var total := kills + deaths;
    if kills >= 0.0 && deaths >= 0.0 && total > 0.0 {
      var m := if total > 1.0 then total else 1.0;
      ShareAtMostOne(kills, m);
    }
  }

  lemma ShareAtMostOne(a: real, m: real)
    requires 0.0 <= a <= m && m > 0.0
    ensures 0.0 <= a / m <= 1.0
  {
    var q := a / m;
    assert q * m == a;
    assert (1.0 - q) * m == m - a;
  }

  // -------------------------------------------------------- classifications

  datatype RangeClass = LongRange | MediumRange | CloseQuarters | PointBlank
  {
    function Label(): string
    {
      match this
      case LongRange => "Long Range Precision"
      case MediumRange => "Medium Range Engagement"
      case CloseQuarters => "Close Quarters Combat"
      case PointBlank => "Point Blank Execution"
    }

    function Level(): nat
    {
      match this
      case LongRange => 3
      case MediumRange => 2
      case CloseQuarters => 1
      case PointBlank => 0
    }
  }

  /** The killfeed's classification of an engagement distance in metres. */
  function ClassifyRange(distance: real): RangeClass
  {
    if distance >= 500.0 then LongRange
    else if distance >= 200.0 then MediumRange
    else if distance >= 50.0 then CloseQuarters
    else PointBlank
  }

  /** Each class covers one band of distances, and a longer distance never
      gets a closer class. */
  lemma RangeSpec(d1: real, d2: real)
    ensures ClassifyRange(d1) == LongRange <==> d1 >= 500.0
    ensures ClassifyRange(d1) == MediumRange <==> 200.0 <= d1 < 500.0
    ensures ClassifyRange(d1) == CloseQuarters <==> 50.0 <= d1 < 200.0
    ensures ClassifyRange(d1) == PointBlank <==> d1 < 50.0
    ensures d1 <= d2 ==> ClassifyRange(d1).Level() <= ClassifyRange(d2).Level()
  {
  }

  /** The mission builder's threat line. The level is looked up in a dict
      keyed by the ints 1 to 4, so a bool or float equal to one of them finds
      it too; a list or dict level is unhashable and makes the lookup raise
      (None). */
  function ThreatDisplay(level: PyValue): Option<string>
  {
    if level.PyContainer? then None
    else if IsNumber(level) && AsReal(level) == 1.0 then Some(['\U{25AA}'] + " LOW THREAT")
    else if IsNumber(level) && AsReal(level) == 2.0 then Some(['\U{25AB}'] + " MEDIUM THREAT")
    else if IsNumber(level) && AsReal(level) == 3.0 then Some(['\U{25AA}'] + " HIGH THREAT")
    else if IsNumber(level) && AsReal(level) == 4.0 then Some(['\U{25A0}'] + " CRITICAL THREAT")
    else Some(['\U{00B7}'] + " UNKNOWN THREAT")
  }

  /** A known threat line appears exactly for levels numerically equal to 1
      to 4; every other hashable level is UNKNOWN. */
  lemma ThreatSpec(level: PyValue)
    ensures ThreatDisplay(level).None? <==> level.PyContainer?
    ensures ThreatDisplay(level) == Some(['\U{00B7}'] + " UNKNOWN THREAT") <==>
      !level.PyContainer? && !(IsNumber(level) && AsReal(level) in {1.0, 2.0, 3.0, 4.0})
    ensures ThreatDisplay(PyInt(4)) == Some(['\U{25A0}'] + " CRITICAL THREAT")
    ensures ThreatDisplay(PyStr("1")) == Some(['\U{00B7}'] + " UNKNOWN THREAT")
  {
    var unknown := ['\U{00B7}'] + " UNKNOWN THREAT";
    assert (['\U{25AA}'] + " LOW THREAT")[0] != unknown[0];
    assert (['\U{25AB}'] + " MEDIUM THREAT")[0] != unknown[0];
    assert (['\U{25AA}'] + " HIGH THREAT")[0] != unknown[0];
    assert (['\U{25A0}'] + " CRITICAL THREAT")[0] != unknown[0];
  }

  // --------------------------------------------------------- mission names

  predicate IsUpper(c: char) { 'A' <= c <= 'Z' }
  predicate IsLower(c: char) { 'a' <= c <= 'z' }
  predicate IsCased(c: char) { IsUpper(c) || IsLower(c) }

  function ToUpper(c: char): char
  {
    if IsLower(c) then (c as int - 32) as char else c
  }

  function ToLower(c: char): char
  {
    if IsUpper(c) then (c as int + 32) as char else c
  }

  function LowerText(s: string): (r: string)
    ensures |r| == |s|
  {
    if s == [] then [] else [ToLower(s[0])] + LowerText(s[1..])
  }

  /** `str.title()` on the rest of a string, given whether the character
      before it was cased: a cased character after an uncased one goes upper,
      after a cased one lower; others are kept. */
  function TitleFrom(s: string, prevCased: bool): (r: string)
    ensures |r| == |s|
  {
    if s == [] then []
    else
      var c := s[0];
      var d := if !IsCased(c) then c else if prevCased then ToLower(c) else ToUpper(c);
      [d] + TitleFrom(s[1..], IsCased(c))
  }

  function Title(s: string): string
  {
    TitleFrom(s, false)
  }

  /** `s.replace('_', ' ')` */
  function UnderscoresToSpaces(s: string): (r: string)
    ensures |r| == |s|
    ensures forall i :: 0 <= i < |s| ==> r[i] == (if s[i] == '_' then ' ' else s[i])
  {
    if s == [] then [] else [if s[0] == '_' then ' ' else s[0]] + UnderscoresToSpaces(s[1..])
  }

  const MissionNames: map<string, string> := map[
    "GA_Airport_mis_01_SFPSACMission" := "Airport Tactical Zone Alpha",
    "GA_Airport_mis_02_SFPSACMission" := "Airport Tactical Zone Beta",
    "GA_Military_02_Mis1" := "Military Installation Bravo-2",
    "GA_Military_03_Mis_01" := "Military Installation Charlie-3",
    "GA_Bunker_01_Mis1" := "Underground Complex Designation Omega",
    "GA_Kamensk_Mis_1" := "Kamensk Urban Combat Zone"
  ]

  /** `normalize_mission_name` */
  function NormalizeMissionName(missionId: string): string
  {
    if missionId in MissionNames then MissionNames[missionId] else Title(UnderscoresToSpaces(missionId))
  }

  /** Title-casing changes only the case of letters, and keeps casedness. */
  lemma {:induction false} TitleOnlyChangesCase(s: string, prevCased: bool)
    ensures LowerText(TitleFrom(s, prevCased)) == LowerText(s)
    ensures forall i :: 0 <= i < |s| ==> (IsCased(TitleFrom(s, prevCased)[i]) <==> IsCased(s[i]))
  {
    if s != [] {
      TitleOnlyChangesCase(s[1..], IsCased(s[0]));
      var r := TitleFrom(s, prevCased);
      assert r[1..] == TitleFrom(s[1..], IsCased(s[0]));
      forall i | 0 <= i < |s|
        ensures IsCased(r[i]) <==> IsCased(s[i])
      {
        if i > 0 {
          assert r[i] == r[1..][i - 1] && s[i] == s[1..][i - 1];
        }
      }
    }
  }

  /** Title-casing is idempotent. */
  lemma {:induction false} TitleIdempotent(s: string, prevCased: bool)
    ensures TitleFrom(TitleFrom(s, prevCased), prevCased) == TitleFrom(s, prevCased)
  {
    if s != [] {
      TitleIdempotent(s[1..], IsCased(s[0]));
      TitleOnlyChangesCase(s, prevCased);
      var r := TitleFrom(s, prevCased);
      assert r[1..] == TitleFrom(s[1..], IsCased(s[0]));
      assert IsCased(r[0]) <==> IsCased(s[0]);
    }
  }

  /** The six known ids map to their table names; any other id keeps its
      length, loses every underscore, changes only in letter case besides, and
      is already in title case. */
  lemma MissionNameSpec(missionId: string)
    ensures NormalizeMissionName("GA_Kamensk_Mis_1") == "Kamensk Urban Combat Zone"
    ensures missionId !in MissionNames ==>
      var r := NormalizeMissionName(missionId);
      && |r| == |missionId|
      && '_' !in r
      && LowerText(r) == LowerText(UnderscoresToSpaces(missionId))
      && Title(r) == r
  {
    if missionId !in MissionNames {
      var u := UnderscoresToSpaces(missionId);
      var r := Title(u);
      TitleOnlyChangesCase(u, false);
      TitleIdempotent(u, false);
      if '_' in r {
        var i :| 0 <= i < |r| && r[i] == '_';
        TitleKeepsUncased(u, false, i);
      }
    }
  }

  /** An uncased character stays where it was. */
  lemma {:induction false} TitleKeepsUncased(s: string, prevCased: bool, i: int)
    requires 0 <= i < |s|
    ensures !IsCased(s[i]) ==> TitleFrom(s, prevCased)[i] == s[i]
    ensures IsCased(s[i]) ==> IsCased(TitleFrom(s, prevCased)[i])
  {
    if i > 0 {
      TitleKeepsUncased(s[1..], IsCased(s[0]), i - 1);
    }
  }

  // ---------------------------------------------------------------- build

  datatype Builder = KillfeedBuilder | LeaderboardBuilder | StatsBuilder | MissionBuilder | GenericBuilder

  /** `build`: the builder an embed type is routed to. */
  function BuildRoute(embedType: string): Builder
  {
    if embedType == "killfeed" then KillfeedBuilder
    else if embedType == "leaderboard" then LeaderboardBuilder
    else if embedType == "stats" then StatsBuilder
    else if embedType == "mission" then MissionBuilder
    else GenericBuilder
  }

  /** Exactly the four named types get a dedicated builder; every other type,
      'advanced_stats' included, gets the generic one. */
  lemma BuildRouteSpec(embedType: string)
    ensures BuildRoute(embedType) == GenericBuilder <==>
      embedType !in {"killfeed", "leaderboard", "stats", "mission"}
    ensures BuildRoute("advanced_stats") == GenericBuilder
    ensures BuildRoute("stats") == StatsBuilder
  {
  }
}
