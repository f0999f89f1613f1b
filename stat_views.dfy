/** The statistics views of the statistics cog: the kill/death ratio shown by
    `/kd` and the profile command, the totals over a user's linked characters
    it is computed from, and the rank numbering of the `/leaderboard` entries
    that survive type conversion. */
module StatViews {
  import opened PyBase

  /** `(kills / deaths) if deaths else kills` */
  function Kdr(kills: real, deaths: real): (r: real)
    ensures deaths != 0.0 ==> r * deaths == kills
    ensures deaths == 0.0 ==> r == kills
  {
    if deaths != 0.0 then kills / deaths else kills
  }

  /** With some deaths, the ratio is below one exactly when there were fewer
      kills than deaths, and at least one otherwise. */
  lemma KdrBelowOne(kills: real, deaths: real)
    requires kills >= 0.0 && deaths > 0.0
    ensures Kdr(kills, deaths) >= 0.0
    ensures Kdr(kills, deaths) < 1.0 <==> kills < deaths
  {
    var r := Kdr(kills, deaths);
    assert r * deaths == kills;
    ProductSign(r, deaths);
    Distribute(r, 1.0, deaths);
    ProductSign(r - 1.0, deaths);
  }

  /** The sign of a product with a positive factor is the sign of the other. */
  lemma ProductSign(a: real, b: real)
    requires b > 0.0
    ensures a < 0.0 <==> a * b < 0.0
  {
  }

  /** Multiplication distributes over subtraction. */
  lemma Distribute(a: real, b: real, c: real)
    ensures (a - b) * c == a * c - b * c
  {
  }

  /** The ratio grows with the kills for a fixed death count. */
  lemma KdrMonotoneInKills(k1: real, k2: real, deaths: real)
    requires k1 <= k2 && deaths >= 0.0
    ensures Kdr(k1, deaths) <= Kdr(k2, deaths)
  {
    if deaths != 0.0 {
      var r1, r2 := Kdr(k1, deaths), Kdr(k2, deaths);
      assert r1 * deaths == k1 && r2 * deaths == k2;
      Distribute(r2, r1, deaths);
      var x := r2 - r1;
      assert x * deaths == k2 - k1;
      ProductSign(x, deaths);
      assert x >= 0.0;
    }
  }

  /** Kill and death totals over linked characters. */
  datatype Totals = Totals(kills: real, deaths: real)

  /** `total += stats.get(field, 0)`: None when the addition raises. */
  function AddField(total: real, stats: Doc, field: string): Option<real>
  {
    var v := Get(stats, field, PyInt(0));
    if IsNumber(v) then Some(total + AsReal(v)) else None
  }

  /** Totals over the given characters: a character with no stats document or
      an empty one adds nothing; a count that is not a number makes the
      command fail (None). */
  function TotalsOf(characters: seq<string>, stats: map<string, Doc>): Option<Totals>
  {
    if characters == [] then Some(Totals(0.0, 0.0))
    else
      var prev := TotalsOf(characters[..|characters| - 1], stats);
      var c := characters[|characters| - 1];
      if prev.None? then None
      else if c !in stats || stats[c] == map[] then prev
      else
        var k := AddField(prev.value.kills, stats[c], "kills");
        var d := AddField(prev.value.deaths, stats[c], "deaths");
        if k.None? || d.None? then None else Some(Totals(k.value, d.value))
  }

  /** The counts a stats document contributes, when they are numbers. */
  function Contribution(stats: map<string, Doc>, c: string): Option<Totals>
  {
    if c !in stats || stats[c] == map[] then Some(Totals(0.0, 0.0))
    else
      var k := Get(stats[c], "kills", PyInt(0));
      var d := Get(stats[c], "deaths", PyInt(0));
      if IsNumber(k) && IsNumber(d) then Some(Totals(AsReal(k), AsReal(d))) else None
  }

  /** The totals are the sum of the characters' contributions: the loop over
      characters is additive, whatever their order of linking. */
  lemma {:induction false} TotalsAppend(characters: seq<string>, c: string, stats: map<string, Doc>)
    ensures TotalsOf(characters + [c], stats) ==
      match (TotalsOf(characters, stats), Contribution(stats, c))
      case (Some(t), Some(x)) => Some(Totals(t.kills + x.kills, t.deaths + x.deaths))
      case _ => None
  {
    assert (characters + [c])[..|characters|] == characters;
  }

  /** Totals of characters whose stored counts are all non-negative are
      non-negative, and so is their ratio. */
  lemma {:induction false} TotalsNonNegative(characters: seq<string>, stats: map<string, Doc>)
    requires forall c :: c in stats ==> NonNegativeCounts(stats[c])
    requires TotalsOf(characters, stats).Some?
    ensures TotalsOf(characters, stats).value.kills >= 0.0
    ensures TotalsOf(characters, stats).value.deaths >= 0.0
    ensures Kdr(TotalsOf(characters, stats).value.kills, TotalsOf(characters, stats).value.deaths) >= 0.0
  {
    if characters != [] {
      TotalsNonNegative(characters[..|characters| - 1], stats);
    }
    var t := TotalsOf(characters, stats).value;
    if t.deaths != 0.0 {
      KdrBelowOne(t.kills, t.deaths);
    }
  }

  /** Stored kill and death counts that are numbers are non-negative. */
  predicate NonNegativeCounts(d: Doc)
  {
    (IsNumber(Get(d, "kills", PyInt(0))) ==> AsReal(Get(d, "kills", PyInt(0))) >= 0.0)
    && (IsNumber(Get(d, "deaths", PyInt(0))) ==> AsReal(Get(d, "deaths", PyInt(0))) >= 0.0)
  }

  /** The `/kd` and profile computation: totals over the linked characters,
      then their ratio; None when a count is not a number. */
  method CombinedKdr(characters: seq<string>, stats: map<string, Doc>)
    returns (r: Option<(Totals, real)>)
    ensures TotalsOf(characters, stats).None? <==> r.None?
    ensures r.Some? ==>
      r.value.0 == TotalsOf(characters, stats).value && r.value.1 == Kdr(r.value.0.kills, r.value.0.deaths)
  {
    var totalKills, totalDeaths := 0.0, 0.0;
    for i := 0 to |characters|
      invariant TotalsOf(characters[..i], stats) == Some(Totals(totalKills, totalDeaths))
    {
      var character := characters[i];
      assert characters[..i + 1][..i] == characters[..i];
      if character in stats && stats[character] != map[] {
        var k := AddField(totalKills, stats[character], "kills");
        var d := AddField(totalDeaths, stats[character], "deaths");
        if k.None? || d.None? {
          NoneStaysNone(characters, i + 1, stats);
          return None;
        }
        totalKills, totalDeaths := k.value, d.value;
      }
    }
    assert characters[..|characters|] == characters;
    var kdr := if totalDeaths != 0.0 then totalKills / totalDeaths else totalKills;
    r := Some((Totals(totalKills, totalDeaths), kdr));
  }

  /** Once the totals fail on a prefix they fail on the whole list. */
  lemma {:induction false} NoneStaysNone(characters: seq<string>, i: nat, stats: map<string, Doc>)
    requires i <= |characters| && TotalsOf(characters[..i], stats).None?
    ensures TotalsOf(characters, stats).None?
    decreases |characters| - i
  {
    if i < |characters| {
      assert characters[..i + 1][..i] == characters[..i];
      NoneStaysNone(characters, i + 1, stats);
    } else {
      assert characters[..i] == characters;
    }
  }

  /** The value of a sign and a run of ASCII digits; None unless the run is
      non-empty and all digits. */
  function DigitsValue(sign: char, digits: string): Option<int>
  {
    if |digits| > 0 && IsDigits(digits) then
      Some(if sign == '-' then -(ParseDigits(digits) as int) else ParseDigits(digits))
    else None
  }

  /** An optional sign followed by at least one ASCII digit. */
  function ParseSigned(t: string): Option<int>
  {
    if |t| > 0 && (t[0] == '-' || t[0] == '+') then DigitsValue(t[0], t[1..])
    else DigitsValue('+', t)
  }

  /** `int(text)` for a str: surrounding whitespace, an optional sign and at
      least one ASCII digit; anything else raises ValueError (None). */
  function ParseIntText(text: string): Option<int>
  {
    ParseSigned(Strip(text))
  }

  /** `int(str(i)) == i` */
  lemma {:induction false} IntTextRoundTrip(i: int)
    ensures ParseIntText(IntToString(i)) == Some(i)
  {
    var s := IntToString(i);
    EdgesNotSpace(i);
    StrippedText(s);
    if i < 0 {
      NegativeTextParses(i);
    } else {
      NatToStringRoundTrip(i);
      assert '0' <= s[0] <= '9';
    }
  }

  /** `str(i)` neither begins nor ends with whitespace. */
  lemma EdgesNotSpace(i: int)
    ensures !IsSpace(IntToString(i)[0]) && !IsSpace(IntToString(i)[|IntToString(i)| - 1])
  {
    var s := IntToString(i);
    if i < 0 {
      var digits := NatToString(-i);
      assert s[|s| - 1] == s[1..][|digits| - 1] == digits[|digits| - 1];
    } else {
      assert '0' <= s[|s| - 1] <= '9';
    }
  }

  /** A minus sign followed by `str(-i)` reads back as `i`. */
  lemma NegativeTextParses(i: int)
    requires i < 0
    ensures ParseSigned(IntToString(i)) == Some(i)
  {
    var s := IntToString(i);
    var digits := NatToString(-i);
    assert s == "-" + digits;
    NatToStringRoundTrip(-i);
    MinusDigits(s, digits, -i);
  }

  /** A minus sign followed by a run of digits worth `n` reads as `-n`. */
  lemma {:induction false} MinusDigits(s: string, digits: string, n: nat)
    requires s == "-" + digits
    requires |digits| > 0 && IsDigits(digits) && ParseDigits(digits) == n
    ensures ParseSigned(s) == Some(-(n as int))
  {
    MinusSign(s, digits);
    NegatedDigits(digits, n);
  }

  lemma {:induction false} MinusSign(s: string, digits: string)
    requires s == "-" + digits
    ensures ParseSigned(s) == DigitsValue('-', digits)
  {
    assert s[0] == '-' && s[1..] == digits;
  }

  lemma {:induction false} NegatedDigits(digits: string, n: nat)
    requires |digits| > 0 && IsDigits(digits) && ParseDigits(digits) == n
    ensures DigitsValue('-', digits) == Some(-(n as int))
  {
  }

  /** Text with no whitespace at either end parses as it stands. */
  lemma StrippedText(s: string)
    requires |s| > 0 && !IsSpace(s[0]) && !IsSpace(s[|s| - 1])
    ensures ParseIntText(s) == ParseSigned(s)
  {
    assert StripLeading(s) == s;
  }

  /** `int(v)`: None where Python raises ValueError or TypeError. */
  function PyIntOf(v: PyValue): (r: Option<int>)
    ensures IsInt(v) ==> r == Some(AsInt(v))
    ensures v.PyNone? || v.PyContainer? ==> r.None?
  {
    match v
    case PyNone => None
    case PyBool(b) => Some(if b then 1 else 0)
    case PyInt(i) => Some(i)
    case PyFloat(f) => Some(Trunc(f))
    case PyStr(s) => ParseIntText(s)
    case PyContainer(_, _) => None
  }

  /** `float(v)`: None where Python raises ValueError or TypeError; text is
      read by the given float parser. */
  function PyFloatOf(v: PyValue, parseFloat: string -> Option<real>): (r: Option<real>)
    ensures IsNumber(v) ==> r == Some(AsReal(v))
    ensures v.PyNone? || v.PyContainer? ==> r.None?
  {
    match v
    case PyNone => None
    case PyBool(b) => Some(if b then 1.0 else 0.0)
    case PyInt(i) => Some(i as real)
    case PyFloat(f) => Some(f)
    case PyStr(s) => parseFloat(s)
    case PyContainer(_, _) => None
  }

  /** A leaderboard entry after conversion. */
  datatype RankedEntry = RankedEntry(playerName: string, kills: int, deaths: int, kdr: real, rank: nat)

  /** The conversion of one raw leaderboard entry, given the rank it gets. */
  function ConvertEntry(entry: Doc, rank: nat, floatRepr: real -> string,
                        parseFloat: string -> Option<real>): (r: Option<RankedEntry>)
    ensures r.Some? ==> r.value.rank == rank
  {
    var name := StrOf(Get(entry, "player_name", PyStr("Unknown")), floatRepr);
    var kills := PyIntOf(Get(entry, "kills", PyInt(0)));
    var deaths := PyIntOf(Get(entry, "deaths", PyInt(0)));
    var rawKdr := Get(entry, "kdr", PyNone);
    var kdr := if Truthy(rawKdr) then PyFloatOf(rawKdr, parseFloat) else Some(0.0);
    if kills.None? || deaths.None? || kdr.None? then None
    else Some(RankedEntry(name, kills.value, deaths.value, kdr.value, rank))
  }

  /** The entries that survive conversion, in order, ranked from 1 on. */
  function Validated(entries: seq<Doc>, floatRepr: real -> string,
                     parseFloat: string -> Option<real>): seq<RankedEntry>
  {
    if entries == [] then []
    else
      var prev := Validated(entries[..|entries| - 1], floatRepr, parseFloat);
      var e := ConvertEntry(entries[|entries| - 1], |prev| + 1, floatRepr, parseFloat);
      if e.Some? then prev + [e.value] else prev
  }

  /** Ranks are consecutive from 1 with no gaps, however many entries were
      skipped, and no more entries survive than were given. */
  lemma {:induction false} ValidatedRanks(entries: seq<Doc>, floatRepr: real -> string,
                                          parseFloat: string -> Option<real>)
    ensures |Validated(entries, floatRepr, parseFloat)| <= |entries|
    ensures forall i :: 0 <= i < |Validated(entries, floatRepr, parseFloat)| ==>
      Validated(entries, floatRepr, parseFloat)[i].rank == i + 1
  {
    if entries != [] {
      ValidatedRanks(entries[..|entries| - 1], floatRepr, parseFloat);
    }
  }

  /** An entry that fails conversion is skipped without a trace; one that
      converts is appended. */
  lemma ValidatedAppend(entries: seq<Doc>, e: Doc, floatRepr: real -> string,
                        parseFloat: string -> Option<real>)
    ensures var prev := Validated(entries, floatRepr, parseFloat);
      var c := ConvertEntry(e, |prev| + 1, floatRepr, parseFloat);
      Validated(entries + [e], floatRepr, parseFloat) == if c.Some? then prev + [c.value] else prev
  {
    assert (entries + [e])[..|entries|] == entries;
  }

  /** The validation loop of `/leaderboard`. */
  method RankLeaderboard(entries: seq<Doc>, floatRepr: real -> string,
                         parseFloat: string -> Option<real>)
    returns (validated: seq<RankedEntry>)
    ensures validated == Validated(entries, floatRepr, parseFloat)
  {
    validated := [];
    for i := 0 to |entries|
      invariant validated == Validated(entries[..i], floatRepr, parseFloat)
    {
      var entry := entries[i];
      assert entries[..i + 1] == entries[..i] + [entry];
      ValidatedAppend(entries[..i], entry, floatRepr, parseFloat);
      var name := StrOf(Get(entry, "player_name", PyStr("Unknown")), floatRepr);
      var kills := PyIntOf(Get(entry, "kills", PyInt(0)));
      var deaths := PyIntOf(Get(entry, "deaths", PyInt(0)));
      var rawKdr := Get(entry, "kdr", PyNone);
      var kdr := if Truthy(rawKdr) then PyFloatOf(rawKdr, parseFloat) else Some(0.0);
      ghost var c := ConvertEntry(entry, |validated| + 1, floatRepr, parseFloat);
      if kills.Some? && deaths.Some? && kdr.Some? {
        var ranked := RankedEntry(name, kills.value, deaths.value, kdr.value, |validated| + 1);
        assert c == Some(ranked);
        validated := validated + [ranked];
      } else {
        assert c.None?;
      }
    }
    assert entries[..|entries|] == entries;
  }
}
