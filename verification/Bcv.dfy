/**
 * Reading exchange rates off the central bank's page (src/connectors/bcv.js).
 *
 * The source turns the figure into a binary floating-point number; here it is
 * exact, a whole number and how many of its digits are decimals.
 */
module Bcv {
  import opened Wrappers
  import opened Decimals

  datatype Decimal = Decimal(mantissa: nat, places: nat)

  predicate IsNumeric(c: char) { '0' <= c <= '9' || c == '.' || c == ',' }
  predicate AllNumeric(s: string) { forall i :: 0 <= i < |s| ==> IsNumeric(s[i]) }

  /** `replace(/\./g, '')`. */
  function WithoutDots(s: string): string {
    if s == [] then [] else WithoutDots(s[..|s| - 1]) + if s[|s| - 1] == '.' then [] else [s[|s| - 1]]
  }

  function FirstComma(s: string): (r: Option<nat>)
    ensures r.None? <==> ',' !in s
    ensures r.Some? ==> r.value < |s| && s[r.value] == ',' && ',' !in s[..r.value]
  {
    if s == [] then None
    else
      var n := |s| - 1;
      match FirstComma(s[..n])
      case Some(i) => Some(i)
      case None => if s[n] == ',' then Some(n) else None
  }

  /**
   * `parseVenezuelanDecimal` on what the page's pattern lets through: digits,
   * dots and commas. A second comma is no number; dots alone read as zero.
   */
  function ParseVenezuelan(text: string): Option<Decimal>
    requires AllNumeric(text)
  {
    var t := WithoutDots(text);
    var comma := FirstComma(t);
    var digits := if comma.Some? then t[..comma.value] + t[comma.value + 1..] else t;
    if !AllDigits(digits) || (comma.Some? && digits == []) then None
    else Some(Decimal(Read(digits), if comma.Some? then |t| - comma.value - 1 else 0))
  }

  /** A dot before every group of three, from the right. */
  function Dotted(s: string): string {
    if |s| <= 3 then s else Dotted(s[..|s| - 3]) + "." + s[|s| - 3..]
  }

  /** The figure as a Venezuelan writes it. */
  function PrintVenezuelan(d: Decimal): string {
    var s := PadStart(Digits(d.mantissa), d.places + 1);
    var cut := if |s| >= d.places then |s| - d.places else 0;
    Dotted(s[..cut]) + if d.places == 0 then [] else "," + s[cut..]
  }

  lemma {:induction false} WithoutDotsConcat(a: string, b: string)
    ensures WithoutDots(a + b) == WithoutDots(a) + WithoutDots(b)
  {
    if b == [] {
      assert a + b == a;
    } else {
      assert (a + b)[..|a + b| - 1] == a + b[..|b| - 1];
      WithoutDotsConcat(a, b[..|b| - 1]);
    }
  }

  lemma {:induction false} NoDots(s: string)
    requires '.' !in s
    ensures WithoutDots(s) == s
  {
    if s != [] {
      NoDots(s[..|s| - 1]);
      assert s == s[..|s| - 1] + [s[|s| - 1]];
    }
  }

  lemma NumericConcat(a: string, b: string)
    requires AllNumeric(a) && AllNumeric(b)
    ensures AllNumeric(a + b)
  {
  }

  lemma DigitsConcat(a: string, b: string)
    requires AllDigits(a) && AllDigits(b)
    ensures AllDigits(a + b)
  {
  }

  lemma DigitsAreNumeric(s: string)
    requires AllDigits(s)
    ensures AllNumeric(s) && '.' !in s && ',' !in s
  {
  }

  lemma {:induction false} DottedReadsBack(s: string)
    requires AllDigits(s)
    ensures WithoutDots(Dotted(s)) == s && AllNumeric(Dotted(s))
  {
    DigitsAreNumeric(s);
    if |s| <= 3 {
      NoDots(s);
    } else {
      var front, back := s[..|s| - 3], s[|s| - 3..];
      DottedReadsBack(front);
      DigitsAreNumeric(back);
      hide AllNumeric, WithoutDots;
      OneDot(Dotted(front), back);
      assert s == front + back;
    }
  }

  lemma OneDot(front: string, back: string)
    requires AllDigits(back) && AllNumeric(front)
    ensures WithoutDots(front + "." + back) == WithoutDots(front) + back
    ensures AllNumeric(front + "." + back)
  {
    DigitsAreNumeric(back);
    NumericConcat(front, ".");
    NumericConcat(front + ".", back);
    assert "."[..0] == [] && WithoutDots(".") == WithoutDots([]) + [];
    NoDots(back);
    hide WithoutDots, AllNumeric, AllDigits;
    WithoutDotsConcat(front + ".", back);
    WithoutDotsConcat(front, ".");
    assert WithoutDots(front) + [] == WithoutDots(front);
  }

  lemma {:induction false} NoComma(s: string)
    requires ',' !in s
    ensures FirstComma(s) == None
  {
  }

  lemma {:induction false} CommaAt(whole: string, fraction: string)
    requires ',' !in whole
    ensures FirstComma(whole + ("," + fraction)) == Some(|whole|)
  {
    var t := whole + ("," + fraction);
    var n := |t| - 1;
    if fraction == [] {
      assert t[..n] == whole && t[n] == ',';
      NoComma(whole);
    } else {
      assert t[..n] == whole + ("," + fraction[..|fraction| - 1]);
      CommaAt(whole, fraction[..|fraction| - 1]);
    }
  }

  lemma ParsesTo(text: string, t: string, comma: nat, digits: string)
    requires AllNumeric(text) && WithoutDots(text) == t && FirstComma(t) == Some(comma)
    requires t[..comma] + t[comma + 1..] == digits && AllDigits(digits) && digits != []
    ensures ParseVenezuelan(text) == Some(Decimal(Read(digits), |t| - comma - 1))
  {
  }

  /** Whole part and fraction, dotted and joined, read as their digits. */
  lemma WithFraction(whole: string, fraction: string)
    requires AllDigits(whole) && AllDigits(fraction) && fraction != []
    ensures AllNumeric(Dotted(whole) + ("," + fraction)) && AllDigits(whole + fraction)
    ensures ParseVenezuelan(Dotted(whole) + ("," + fraction)) == Some(Decimal(Read(whole + fraction), |fraction|))
  {
    hide Dotted, FirstComma, Read, AllDigits;
    var text, t := Dotted(whole) + ("," + fraction), whole + ("," + fraction);
    DottedReadsBack(whole);
    DigitsAreNumeric(fraction);
    DigitsAreNumeric(whole);
    DigitsConcat(whole, fraction);
    CommaNumeric(Dotted(whole), fraction);
    hide AllNumeric, WithoutDots, ParseVenezuelan;
    WithoutDotsConcat(Dotted(whole), "," + fraction);
    CleanTail(fraction);
    CommaAt(whole, fraction);
    AroundComma(whole, fraction);
    ParsesTo(text, t, |whole|, whole + fraction);
  }

  lemma CleanTail(fraction: string)
    requires AllDigits(fraction)
    ensures WithoutDots("," + fraction) == "," + fraction
  {
    NoDots("," + fraction);
  }

  lemma AroundComma(whole: string, fraction: string)
    ensures var t := whole + ("," + fraction); t[..|whole|] + t[|whole| + 1..] == whole + fraction
  {
    var t := whole + ("," + fraction);
    assert t[..|whole|] == whole && t[|whole| + 1..] == fraction;
  }

  lemma CommaNumeric(front: string, fraction: string)
    requires AllNumeric(front) && AllNumeric(fraction)
    ensures AllNumeric(front + ("," + fraction))
  {
    NumericConcat(",", fraction);
    NumericConcat(front, "," + fraction);
  }

  /** Thousands, decimals, small fractions and zero: what is printed is what is read. */
  lemma PrintThenParse(d: Decimal)
    ensures AllNumeric(PrintVenezuelan(d))
    ensures ParseVenezuelan(PrintVenezuelan(d)) == Some(d)
  {
    hide PrintVenezuelan, ParseVenezuelan, AllNumeric, AllDigits, Read, Dotted;
    var whole, fraction := Pieces(d);
    if d.places == 0 {
      assert whole + fraction == whole && Dotted(whole) + [] == Dotted(whole);
      WholeNumber(whole);
    } else {
      WithFraction(whole, fraction);
    }
  }

  /** What is printed, before the dots. */
  lemma Pieces(d: Decimal) returns (whole: string, fraction: string)
    ensures AllDigits(whole) && AllDigits(fraction) && AllDigits(whole + fraction)
    ensures |fraction| == d.places && Read(whole + fraction) == d.mantissa
    ensures PrintVenezuelan(d) == Dotted(whole) + if d.places == 0 then [] else "," + fraction
  {
    hide Dotted, Digits, PadStart, Read, AllDigits;
    ReadWrittenPadded(d.mantissa, d.places + 1);
    var s := PadStart(Digits(d.mantissa), d.places + 1);
    var cut := |s| - d.places;
    whole, fraction := s[..cut], s[cut..];
    SliceDigits(s, cut);
    assert whole + fraction == s;
  }

  lemma SliceDigits(s: string, cut: nat)
    requires AllDigits(s) && cut <= |s|
    ensures AllDigits(s[..cut]) && AllDigits(s[cut..])
  {
  }

  lemma WholeNumber(s: string)
    requires AllDigits(s)
    ensures AllNumeric(Dotted(s)) && ParseVenezuelan(Dotted(s)) == Some(Decimal(Read(s), 0))
  {
    DottedReadsBack(s);
    DigitsAreNumeric(s);
    NoComma(s);
  }

  // ---- Finding a rate on the page ------------------------------------------

  const LOOKAHEAD: nat := 2000

  function Lower(c: char): char { if 'A' <= c <= 'Z' then c - 'A' + 'a' else c }

  predicate IsSpace(c: char) { c == ' ' || c == '\t' || c == '\n' || c == '\r' }

  /** `literal`, whatever its case, at position `i`. */
  predicate MatchesAt(html: string, i: nat, literal: string) {
    i + |literal| <= |html| && forall k :: 0 <= k < |literal| ==> Lower(html[i + k]) == literal[k]
  }

  function SkipSpaces(html: string, i: nat): (j: nat)
    requires i <= |html|
    ensures i <= j <= |html|
    decreases |html| - i
  {
    if i < |html| && IsSpace(html[i]) then SkipSpaces(html, i + 1) else i
  }

  function SkipNumeric(html: string, i: nat): (j: nat)
    requires i <= |html|
    ensures i <= j <= |html| && AllNumeric(html[i..j])
    decreases |html| - i
  {
    if i < |html| && IsNumeric(html[i]) then
      var j := SkipNumeric(html, i + 1);
      assert html[i..j] == [html[i]] + html[i + 1..j];
      j
    else i
  }

  /** Past the next '>', if there is one. */
  function PastTag(html: string, i: nat): (j: Option<nat>)
    requires i <= |html|
    ensures j.Some? ==> i < j.value <= |html|
    decreases |html| - i
  {
    if i == |html| then None else if html[i] == '>' then Some(i + 1) else PastTag(html, i + 1)
  }

  /** A `<strong>` at `i` that holds one figure and nothing else. */
  function FigureAt(html: string, i: nat): (figure: Option<string>)
    ensures figure.Some? ==> figure.value != [] && AllNumeric(figure.value)
  {
    if !MatchesAt(html, i, "<strong") then None
    else
      var tag := PastTag(html, i + 7);
      if tag.None? then None
      else
        var a := SkipSpaces(html, tag.value);
        var b := SkipNumeric(html, a);
        if a == b || !MatchesAt(html, SkipSpaces(html, b), "</strong>") then None else Some(html[a..b])
  }

  /** The block's id at `i`, and its figure `gap` characters on, within the lookahead. */
  predicate FoundAt(html: string, id: string, i: nat, gap: nat) {
    && MatchesAt(html, i, id) && gap <= LOOKAHEAD && i + |id| + gap <= |html|
    && FigureAt(html, i + |id| + gap).Some?
  }

  /** The first block that has a figure in reach, and its nearest. */
  ghost predicate IsFirst(html: string, id: string, i: nat, gap: nat) {
    && FoundAt(html, id, i, gap)
    && (forall g: nat :: g < gap ==> !FoundAt(html, id, i, g))
    && (forall h: nat, g: nat :: h < i ==> !FoundAt(html, id, h, g))
  }

  function RateOf(html: string, id: string, i: nat, gap: nat): Option<Decimal>
    requires FoundAt(html, id, i, gap)
  {
    ParseVenezuelan(FigureAt(html, i + |id| + gap).value)
  }

  lemma OneIsFirst(html: string, id: string, i: nat, gap: nat, j: nat, other: nat)
    requires IsFirst(html, id, i, gap) && IsFirst(html, id, j, other)
    ensures i == j && gap == other
  {
  }

  method NearestFigure(html: string, id: string, i: nat) returns (gap: Option<nat>)
    requires MatchesAt(html, i, id)
    ensures gap.Some? ==> FoundAt(html, id, i, gap.value) && forall g: nat :: g < gap.value ==> !FoundAt(html, id, i, g)
    ensures gap.None? ==> forall g: nat :: !FoundAt(html, id, i, g)
  {
    var g := 0;
    while g <= LOOKAHEAD && i + |id| + g <= |html|
      invariant forall h: nat :: h < g ==> !FoundAt(html, id, i, h)
      decreases LOOKAHEAD + 1 - g
    {
      if FigureAt(html, i + |id| + g).Some? {
        return Some(g);
      }
      g := g + 1;
    }
    return None;
  }

  /** `extractRate`: the nearest figure after the first block that has one in reach, or nothing. */
  method ExtractRate(html: string, id: string) returns (rate: Option<Decimal>, ghost at: Option<(nat, nat)>)
    ensures at.Some? ==> IsFirst(html, id, at.value.0, at.value.1) && rate == RateOf(html, id, at.value.0, at.value.1)
    ensures at.None? ==> rate == None && forall i: nat, g: nat :: !FoundAt(html, id, i, g)
  {
    at := None;
    var i := 0;
    while i <= |html|
      invariant forall h: nat, g: nat :: h < i ==> !FoundAt(html, id, h, g)
    {
      if MatchesAt(html, i, id) {
        var gap := NearestFigure(html, id, i);
        if gap.Some? {
          at := Some((i, gap.value));
          return ParseVenezuelan(FigureAt(html, i + |id| + gap.value).value), at;
        }
      }
      i := i + 1;
    }
    rate := None;
  }

  datatype Currency = USD | EUR

  function BlockId(c: Currency): string { if c.USD? then "id=\"dolar\"" else "id=\"euro\"" }

  // ---- Whose figure it is --------------------------------------------------

  /** The figure taken for the block at `i` starts at `j` or later. */
  ghost predicate TakesFrom(html: string, id: string, i: nat, j: nat) {
    exists gap: nat :: IsFirst(html, id, i, gap) && i + |id| + gap >= j
  }

  /** No figure starts from `from` up to `to`. */
  predicate NoFigure(html: string, from: nat, to: nat) { forall p: nat :: from <= p < to ==> FigureAt(html, p).None? }

  /** Some figure starts from `from` up to `last` inclusive. */
  predicate AFigure(html: string, from: nat, last: nat) {
    exists p :: from <= p <= last && FigureAt(html, p).Some?
  }

  /** The nearest figure after the block at `i`, within its lookahead. */
  ghost predicate Nearest(html: string, id: string, i: nat, gap: nat) {
    FoundAt(html, id, i, gap) && forall g: nat :: g < gap ==> !FoundAt(html, id, i, g)
  }

  lemma {:induction false} SomeIsNearest(html: string, id: string, i: nat, gap: nat) returns (near: nat)
    requires FoundAt(html, id, i, gap)
    ensures near <= gap && Nearest(html, id, i, near)
  {
    near := gap;
    if g: nat :| g < gap && FoundAt(html, id, i, g) {
      near := SomeIsNearest(html, id, i, g);
    }
  }

  lemma FigureStartsATag(html: string, p: nat)
    requires FigureAt(html, p).Some?
    ensures p < |html| && html[p] == '<'
  {
    assert "<strong"[0] == '<' && Lower(html[p + 0]) == "<strong"[0];
  }

  lemma NoFigureInAnId(html: string, c: Currency, j: nat)
    requires MatchesAt(html, j, BlockId(c))
    ensures NoFigure(html, j, j + |BlockId(c)|)
  {
    forall p: nat | j <= p < j + |BlockId(c)| ensures FigureAt(html, p).None? {
      assert Lower(html[j + (p - j)]) == BlockId(c)[p - j];
      assert BlockId(c)[p - j] != '<';
      if FigureAt(html, p).Some? {
        FigureStartsATag(html, p);
      }
    }
  }

  /**
   * The lookahead is bounded by characters, not by the next block. The figure
   * taken for a block lies past the next one exactly when the block has no figure
   * of its own and the next one's is within the lookahead.
   */
  lemma TakesTheNextBlocksFigureIff(html: string, c: Currency, i: nat, d: Currency, j: nat)
    requires MatchesAt(html, i, BlockId(c)) && forall h: nat, g: nat :: h < i ==> !FoundAt(html, BlockId(c), h, g)
    requires i + |BlockId(c)| <= j && MatchesAt(html, j, BlockId(d))
    ensures var start := i + |BlockId(c)|;
            TakesFrom(html, BlockId(c), i, j)
            <==> NoFigure(html, start, j) && AFigure(html, j + |BlockId(d)|, start + LOOKAHEAD)
  {
    hide FigureAt, BlockId;
    if TakesFrom(html, BlockId(c), i, j) {
      TakesOnlyWhenLost(html, c, i, d, j);
    }
    var start := i + |BlockId(c)|;
    if NoFigure(html, start, j) && AFigure(html, j + |BlockId(d)|, start + LOOKAHEAD) {
      var p :| j + |BlockId(d)| <= p <= start + LOOKAHEAD && FigureAt(html, p).Some?;
      TakesWhenLost(html, BlockId(c), i, j, p);
    }
  }

  lemma TakesWhenLost(html: string, id: string, i: nat, j: nat, p: nat)
    requires MatchesAt(html, i, id) && forall h: nat, g: nat :: h < i ==> !FoundAt(html, id, h, g)
    requires i + |id| <= j <= p <= i + |id| + LOOKAHEAD && FigureAt(html, p).Some? && NoFigure(html, i + |id|, j)
    ensures TakesFrom(html, id, i, j)
  {
    hide FigureAt;
    FigureStartsATag(html, p);
    assert FoundAt(html, id, i, p - (i + |id|));
    var near := SomeIsNearest(html, id, i, p - (i + |id|));
    var at: nat := i + |id| + near;
    assert FigureAt(html, at).Some?;
    assert IsFirst(html, id, i, near);
  }

  lemma TakesOnlyWhenLost(html: string, c: Currency, i: nat, d: Currency, j: nat)
    requires TakesFrom(html, BlockId(c), i, j)
    requires i + |BlockId(c)| <= j && MatchesAt(html, j, BlockId(d))
    ensures var start := i + |BlockId(c)|;
            NoFigure(html, start, j) && AFigure(html, j + |BlockId(d)|, start + LOOKAHEAD)
  {
    hide FigureAt, BlockId;
    var id, start := BlockId(c), i + |BlockId(c)|;
    NoFigureInAnId(html, d, j);
    var gap: nat :| IsFirst(html, id, i, gap) && start + gap >= j;
    forall p: nat | start <= p < j ensures FigureAt(html, p).None? {
      assert !FoundAt(html, id, i, p - start);
      InThePage(html, i, id, j, BlockId(d));
    }
    var at: nat := start + gap;
    assert FigureAt(html, at).Some?;
  }

  lemma InThePage(html: string, i: nat, id: string, j: nat, other: string)
    requires MatchesAt(html, i, id) && MatchesAt(html, j, other)
    ensures i + |id| <= |html| && j + |other| <= |html|
  {
  }

  /** And then it is that block's own nearest figure, under the wrong currency. */
  lemma ItIsTheNextBlocks(html: string, c: Currency, i: nat, d: Currency, j: nat, gap: nat)
    requires IsFirst(html, BlockId(c), i, gap) && MatchesAt(html, j, BlockId(d))
    requires i + |BlockId(c)| <= j <= i + |BlockId(c)| + gap
    ensures var own := i + |BlockId(c)| + gap - (j + |BlockId(d)|);
            && own >= 0 && Nearest(html, BlockId(d), j, own)
            && RateOf(html, BlockId(c), i, gap) == RateOf(html, BlockId(d), j, own)
  {
    hide FigureAt, ParseVenezuelan;
    var start, end := i + |BlockId(c)|, j + |BlockId(d)|;
    NoFigureInAnId(html, d, j);
    assert FigureAt(html, start + gap).Some?;
    forall g: nat | g < start + gap - end ensures !FoundAt(html, BlockId(d), j, g) {
      assert !FoundAt(html, BlockId(c), i, end + g - start);
    }
  }

  /** A page whose dollar block has lost its figure. */
  const Lost: string := "id=\"dolar\"id=\"euro\"<strong>5</strong>"

  lemma TheTagIsThere()
    ensures |Lost| == 37 && MatchesAt(Lost, 19, "<strong") && Lost[26] == '>' && Lost[27] == '5' && Lost[28] == '<'
  {
  }

  lemma TheEndIsThere()
    ensures MatchesAt(Lost, 28, "</strong>")
  {
  }

  lemma TheIdsAreThere()
    ensures MatchesAt(Lost, 0, BlockId(USD)) && MatchesAt(Lost, 10, BlockId(EUR))
  {
    TheEuroIsThere();
  }

  lemma TheEuroIsThere()
    ensures MatchesAt(Lost, 10, BlockId(EUR))
  {
  }

  lemma NoTagBefore()
    ensures |Lost| == 37 && forall p: nat :: p < 19 ==> Lost[p] != '<'
  {
  }

  lemma TheFigureIsThere()
    ensures FigureAt(Lost, 19) == Some("5") && NoFigure(Lost, 0, 19)
  {
    hide MatchesAt, Lost;
    TheTagIsThere();
    TheEndIsThere();
    NoTagBefore();
    assert PastTag(Lost, 26) == Some(27);
    assert SkipSpaces(Lost, 27) == 27 && SkipSpaces(Lost, 28) == 28;
    assert SkipNumeric(Lost, 28) == 28 && SkipNumeric(Lost, 27) == 28;
    assert Lost[27..28] == [Lost[27]] == "5";
    forall p: nat | p < 19 ensures FigureAt(Lost, p).None? {
      if FigureAt(Lost, p).Some? {
        FigureStartsATag(Lost, p);
      }
    }
  }

  /** On it the dollar is quoted at the euro's rate. */
  lemma DollarAtTheEurosRate()
    ensures IsFirst(Lost, BlockId(USD), 0, 9) && RateOf(Lost, BlockId(USD), 0, 9) == Some(Decimal(5, 0))
    ensures Nearest(Lost, BlockId(EUR), 10, 0) && RateOf(Lost, BlockId(EUR), 10, 0) == Some(Decimal(5, 0))
  {
    hide FigureAt, ParseVenezuelan, MatchesAt;
    TheFigureIsThere();
    TheIdsAreThere();
    TheTagIsThere();
    FiveIsFive();
    assert FoundAt(Lost, BlockId(USD), 0, 9);
    ItIsTheNextBlocks(Lost, USD, 0, EUR, 10, 9);
  }

  lemma FiveIsFive()
    ensures ParseVenezuelan("5") == Some(Decimal(5, 0))
  {
    assert "5"[..0] == "";
    WholeNumber("5");
  }

  /** What the page says of a currency, if it says anything. */
  ghost predicate PageRate(html: string, c: Currency, rate: Option<Decimal>) {
    if exists i: nat, g: nat :: IsFirst(html, BlockId(c), i, g)
    then exists i: nat, g: nat :: IsFirst(html, BlockId(c), i, g) && rate == RateOf(html, BlockId(c), i, g)
    else rate == None
  }

  function RateIn(rates: map<Currency, Decimal>, c: Currency): Option<Decimal> {
    if c in rates then Some(rates[c]) else None
  }

  /** `parseBcvPage`: the currencies the page has a rate for; a failure when it has none. */
  method ParseBcvPage(html: string) returns (r: Result<map<Currency, Decimal>, ()>)
    ensures r.Success? ==> r.value != map[]
    ensures r.Success? ==> forall c: Currency :: PageRate(html, c, RateIn(r.value, c))
    ensures r.Failure? ==> forall c: Currency :: PageRate(html, c, None)
  {
    hide PageRate;
    var rates: map<Currency, Decimal> := map[];
    var currencies := [USD, EUR];
    for i := 0 to |currencies|
      invariant forall c :: c in rates ==> c in currencies[..i]
      invariant forall k :: 0 <= k < i ==> PageRate(html, currencies[k], RateIn(rates, currencies[k]))
    {
      var c := currencies[i];
      assert c !in currencies[..i];
      var rate, at := ExtractRate(html, BlockId(c));
      Settled(html, c, rate, at);
      if rate.Some? {
        rates := rates[c := rate.value];
      }
    }
    forall c: Currency ensures PageRate(html, c, RateIn(rates, c)) {
      assert currencies[if c.USD? then 0 else 1] == c;
    }
    if rates == map[] {
      forall c: Currency ensures PageRate(html, c, None) {
        assert PageRate(html, c, RateIn(rates, c));
      }
      return Failure(());
    }
    r := Success(rates);
  }

  lemma Settled(html: string, c: Currency, rate: Option<Decimal>, at: Option<(nat, nat)>)
    requires at.Some? ==> IsFirst(html, BlockId(c), at.value.0, at.value.1)
    requires at.Some? ==> rate == RateOf(html, BlockId(c), at.value.0, at.value.1)
    requires at.None? ==> rate == None && forall i: nat, g: nat :: !FoundAt(html, BlockId(c), i, g)
    ensures PageRate(html, c, rate)
  {
  }
}
